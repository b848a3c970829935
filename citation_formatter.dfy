// Citation rendering and report parsing (citations/formatter.py): inline markers in
// three styles, reference entries, the "Key Citations" and footnote sections, marker
// insertion after Markdown links, and recovery of citations from a finished report.
module CitationFormatting {
  import opened Wrappers
  import opened Strings
  import opened CitationModels

  // format_inline_marker

  /** The superscript glyphs of the ten digits. */
  const Glyphs: seq<char> :=
    ['\U{2070}', '\U{00B9}', '\U{00B2}', '\U{00B3}', '\U{2074}',
     '\U{2075}', '\U{2076}', '\U{2077}', '\U{2078}', '\U{2079}']

  /** `SUPERSCRIPT_MAP.get(c, c)`. */
  function Superscript(c: char): (r: char)
  {
    if '0' <= c <= '9' then Glyphs[c as int - '0' as int] else c
  }

  /** The inverse table: a glyph back to its digit. */
  function Unsuperscript(c: char): (r: char)
  {
    if c == Glyphs[0] then '0' else if c == Glyphs[1] then '1' else if c == Glyphs[2] then '2'
    else if c == Glyphs[3] then '3' else if c == Glyphs[4] then '4' else if c == Glyphs[5] then '5'
    else if c == Glyphs[6] then '6' else if c == Glyphs[7] then '7' else if c == Glyphs[8] then '8'
    else if c == Glyphs[9] then '9' else c
  }

  function Superscripted(s: string): (r: string)
  {
    seq(|s|, i requires 0 <= i < |s| => Superscript(s[i]))
  }

  function Unsuperscripted(s: string): (r: string)
  {
    seq(|s|, i requires 0 <= i < |s| => Unsuperscript(s[i]))
  }

  /** Every character of a rendered number is a digit or the minus sign. */
  predicate NumberChars(s: string)
  {
    forall i :: 0 <= i < |s| ==> IsDigit(s[i]) || s[i] == '-'
  }

  lemma IntToStringChars(n: int)
    ensures NumberChars(IntToString(n))
  {
    if n < 0 {
      var d := NatToString(-n);
      assert IntToString(n) == "-" + d;
      assert forall i :: 1 <= i < |"-" + d| ==> ("-" + d)[i] == d[i - 1];
    }
  }

  /** The glyph table is undone by its inverse on digits and the minus sign. */
  lemma SuperscriptRoundTrip(s: string)
    requires NumberChars(s)
    ensures Unsuperscripted(Superscripted(s)) == s
  {
    forall i | 0 <= i < |s| ensures Unsuperscript(Superscript(s[i])) == s[i] {
      if IsDigit(s[i]) {
        var d := s[i];
        assert d == '0' || d == '1' || d == '2' || d == '3' || d == '4' || d == '5' || d == '6' || d == '7'
               || d == '8' || d == '9';
      }
    }
  }

  /** `format_inline_marker(number)` under `style`: "superscript" maps each character
      of the number through the glyph table, "footnote" gives "[^n]", and every other
      style "[n]". */
  function FormatInlineMarker(style: string, number: int): (r: string)
  {
    if style == "superscript" then Superscripted(IntToString(number))
    else if style == "footnote" then "[^" + IntToString(number) + "]"
    else "[" + IntToString(number) + "]"
  }

  lemma IntToStringSign(n: int)
    ensures IntToString(n)[0] == '-' <==> n < 0
  {
    if n >= 0 {
      assert IsDigit(NatToString(n)[0]);
    }
  }

  lemma IntToStringInjective(a: int, b: int)
    requires IntToString(a) == IntToString(b)
    ensures a == b
  {
    IntToStringSign(a);
    IntToStringSign(b);
    if a < 0 {
      assert NatToString(-a) == IntToString(a)[1..];
      assert NatToString(-b) == IntToString(b)[1..];
      NatToStringInjective(-a, -b);
    } else {
      NatToStringInjective(a, b);
    }
  }

  /** The marker reads back as the number it was made from: superscript markers decode
      through the inverse table, the bracketed ones hold the number between their
      brackets. */
  lemma InlineMarkerDecodes(style: string, number: int)
    ensures var r := FormatInlineMarker(style, number);
            if style == "superscript" then Unsuperscripted(r) == IntToString(number)
            else if style == "footnote" then |r| >= 4 && r[..2] == "[^" && r[2..|r| - 1] == IntToString(number) && r[|r| - 1] == ']'
            else |r| >= 3 && r[0] == '[' && r[1..|r| - 1] == IntToString(number) && r[|r| - 1] == ']'
  {
    IntToStringChars(number);
    SuperscriptRoundTrip(IntToString(number));
  }

  /** Distinct numbers get distinct markers in every style. */
  lemma InlineMarkerInjective(style: string, a: int, b: int)
    ensures FormatInlineMarker(style, a) == FormatInlineMarker(style, b) ==> a == b
  {
    if FormatInlineMarker(style, a) == FormatInlineMarker(style, b) {
      InlineMarkerDecodes(style, a);
      InlineMarkerDecodes(style, b);
      IntToStringInjective(a, b);
    }
  }

  // format_reference

  /** The description as a reference shows it: its first 200 characters, with "..."
      only when it was longer. */
  function Snippet(d: string): (r: string)
  {
    Take(d, 200) + (if |d| > 200 then "..." else "")
  }

  lemma SnippetSpec(d: string)
    ensures |d| <= 200 ==> Snippet(d) == d
    ensures |d| > 200 ==> Snippet(d) == d[..200] + "..." && |Snippet(d)| == 203
  {
  }

  /** An optional line, present when the field is a non-empty string. */
  function OptLine(o: Option<string>, prefix: string, suffix: string): seq<string>
  {
    if Present(o) then [prefix + o.value + suffix] else []
  }

  /** The `parts` list of `format_reference`. */
  function ReferenceLines(c: Citation): (r: seq<string>)
  {
    var m := c.metadata;
    ["[" + IntToString(c.number) + "] **" + m.title + "**"]
    + OptLine(m.author, "   *", "*")
    + OptLine(m.domain, "   Source: ", "")
    + OptLine(m.publishedDate, "   Published: ", "")
    + ["   URL: " + m.url]
    + (if Present(m.description) then ["   > " + Snippet(m.description.value)] else [])
  }

  function FormatReference(c: Citation): (r: string)
  {
    Join("\n", ReferenceLines(c))
  }

  function Count(b: bool): nat
  {
    if b then 1 else 0
  }

  /** A reference opens with number and bold title, holds the URL line after the
      optional author, source and date lines, and ends with the snippet line exactly
      when there is a description. */
  lemma ReferenceShape(c: Citation)
    ensures var lines := ReferenceLines(c);
            var m := c.metadata;
            var k := Count(Present(m.author)) + Count(Present(m.domain)) + Count(Present(m.publishedDate));
            |lines| == 2 + k + Count(Present(m.description)) &&
            lines[0] == "[" + IntToString(c.number) + "] **" + m.title + "**" &&
            lines[1 + k] == "   URL: " + m.url &&
            (Present(m.author) ==> lines[1] == "   *" + m.author.value + "*") &&
            (Present(m.description) ==> lines[|lines| - 1] == "   > " + Snippet(m.description.value))
  {
  }

  // format_simple_reference / format_rich_reference

  function FormatSimpleReference(c: Citation): (r: string)
  {
    "- [" + c.metadata.title + "](" + c.metadata.url + ")"
  }

  /** A simple reference is the citation's own Markdown reference as a list item. */
  lemma SimpleReferenceIsMarkdown(c: Citation)
    ensures FormatSimpleReference(c) == "- " + MarkdownReference(c)
  {
  }

  /** The annotations of a rich reference; `fixed2` renders a float with two decimals. */
  function Annotations(m: Metadata, fixed2: real -> string): seq<string>
  {
    (if Present(m.domain) then ["domain: " + m.domain.value] else [])
    + (if m.relevanceScore > 0.0 then ["relevance: " + fixed2(m.relevanceScore)] else [])
    + (if m.accessedAt != [] then ["accessed: " + Take(m.accessedAt, 10)] else [])
  }

  function FormatRichReference(c: Citation, fixed2: real -> string): (r: string)
  {
    var ann := Annotations(c.metadata, fixed2);
    Join("\n", [FormatSimpleReference(c)] + (if ann != [] then ["  <!-- " + Join(", ", ann) + " -->"] else []))
  }

  /** A rich reference is the simple one, followed by an HTML comment line exactly when
      some annotation applies; there is none for a citation without domain, positive
      score and access time. */
  lemma RichExtendsSimple(c: Citation, fixed2: real -> string)
    ensures var ann := Annotations(c.metadata, fixed2);
            (ann == [] ==> FormatRichReference(c, fixed2) == FormatSimpleReference(c)) &&
            (ann != [] ==> FormatRichReference(c, fixed2) ==
                           FormatSimpleReference(c) + "\n" + "  <!-- " + Join(", ", ann) + " -->")
    ensures Annotations(c.metadata, fixed2) == [] <==>
            !Present(c.metadata.domain) && c.metadata.relevanceScore <= 0.0 && c.metadata.accessedAt == []
  {
    var ann := Annotations(c.metadata, fixed2);
    if ann != [] {
      JoinCons("\n", FormatSimpleReference(c), ["  <!-- " + Join(", ", ann) + " -->"]);
    }
  }

  // format_citations_section

  function Entry(c: Citation, includeMetadata: bool, fixed2: real -> string): string
  {
    if includeMetadata then FormatRichReference(c, fixed2) else FormatSimpleReference(c)
  }

  /** Each citation's entry followed by an empty line. */
  function EntryLines(cs: seq<Citation>, includeMetadata: bool, fixed2: real -> string): (r: seq<string>)
    decreases |cs|
  {
    if |cs| == 0 then []
    else EntryLines(cs[..|cs| - 1], includeMetadata, fixed2) + [Entry(cs[|cs| - 1], includeMetadata, fixed2), ""]
  }

  lemma {:induction false} EntryLinesSpec(cs: seq<Citation>, includeMetadata: bool, fixed2: real -> string)
    ensures var r := EntryLines(cs, includeMetadata, fixed2);
            |r| == 2 * |cs| &&
            forall i :: 0 <= i < |cs| ==> r[2 * i] == Entry(cs[i], includeMetadata, fixed2) && r[2 * i + 1] == ""
    decreases |cs|
  {
    if |cs| > 0 {
      var init := cs[..|cs| - 1];
      EntryLinesSpec(init, includeMetadata, fixed2);
      var r0 := EntryLines(init, includeMetadata, fixed2);
      var r := EntryLines(cs, includeMetadata, fixed2);
      assert r == r0 + [Entry(cs[|cs| - 1], includeMetadata, fixed2), ""];
      forall i | 0 <= i < |cs|
        ensures r[2 * i] == Entry(cs[i], includeMetadata, fixed2) && r[2 * i + 1] == ""
      {
        if i < |init| {
          assert cs[i] == init[i];
          assert r[2 * i] == r0[2 * i] && r[2 * i + 1] == r0[2 * i + 1];
        }
      }
    }
  }

  function CitationsSection(cs: seq<Citation>, includeMetadata: bool, fixed2: real -> string): string
  {
    if cs == [] then "" else Join("\n", ["## Key Citations", ""] + EntryLines(cs, includeMetadata, fixed2))
  }

  /** The section is empty for no citations, and otherwise opens with its heading and a
      blank line. */
  lemma CitationsSectionStart(cs: seq<Citation>, includeMetadata: bool, fixed2: real -> string)
    ensures cs == [] <==> CitationsSection(cs, includeMetadata, fixed2) == ""
    ensures cs != [] ==> StartsWith(CitationsSection(cs, includeMetadata, fixed2), "## Key Citations\n\n")
  {
    if cs != [] {
      var e := EntryLines(cs, includeMetadata, fixed2);
      EntryLinesSpec(cs, includeMetadata, fixed2);
      JoinAppend("\n", ["## Key Citations", ""], e);
      JoinCons("\n", "## Key Citations", [""]);
      assert Join("\n", ["## Key Citations", ""]) == "## Key Citations\n";
    }
  }

  /** `format_citations_section(citations, include_metadata)`: the `lines` list built in a
      loop. */
  method FormatCitationsSection(cs: seq<Citation>, includeMetadata: bool, fixed2: real -> string)
    returns (r: string)
    ensures r == CitationsSection(cs, includeMetadata, fixed2)
  {
    if |cs| == 0 {
      return "";
    }
    var lines := ["## Key Citations", ""];
    for i := 0 to |cs|
      invariant lines == ["## Key Citations", ""] + EntryLines(cs[..i], includeMetadata, fixed2)
    {
      assert cs[..i + 1][..i] == cs[..i];
      if includeMetadata {
        lines := lines + [FormatRichReference(cs[i], fixed2)];
      } else {
        lines := lines + [FormatSimpleReference(cs[i])];
      }
      lines := lines + [""];
    }
    assert cs[..|cs|] == cs;
    return Join("\n", lines);
  }

  // format_footnotes_section

  /** The line the loop appends for one citation. */
  function FootnoteLine(c: Citation): string
  {
    "[^" + IntToString(c.number) + "]: " + c.metadata.title + " - " + c.metadata.url
  }

  /** The line written in the loop is the citation's footnote definition. */
  lemma FootnoteLineIsFootnote(c: Citation)
    ensures FootnoteLine(c) == Footnote(c)
  {
    var n := IntToString(c.number);
    assert "[^" + n + "]: " == "[^" + n + "]" + ": ";
  }

  function FootnoteLines(cs: seq<Citation>): (r: seq<string>)
    decreases |cs|
  {
    if |cs| == 0 then [] else FootnoteLines(cs[..|cs| - 1]) + [FootnoteLine(cs[|cs| - 1])]
  }

  lemma {:induction false} FootnoteLinesPointwise(cs: seq<Citation>)
    ensures |FootnoteLines(cs)| == |cs| && forall i :: 0 <= i < |cs| ==> FootnoteLines(cs)[i] == FootnoteLine(cs[i])
    decreases |cs|
  {
    if |cs| > 0 {
      var init := cs[..|cs| - 1];
      FootnoteLinesPointwise(init);
      var r0 := FootnoteLines(init);
      var last := FootnoteLine(cs[|cs| - 1]);
      assert FootnoteLines(cs) == r0 + [last];
      forall i | 0 <= i < |cs| ensures (r0 + [last])[i] == FootnoteLine(cs[i]) {
        if i < |init| {
          assert cs[i] == init[i];
        }
      }
    }
  }

  /** One line per citation, each the citation's own footnote definition. */
  lemma FootnoteLinesSpec(cs: seq<Citation>)
    ensures |FootnoteLines(cs)| == |cs| && forall i :: 0 <= i < |cs| ==> FootnoteLines(cs)[i] == Footnote(cs[i])
  {
    FootnoteLinesPointwise(cs);
    forall i | 0 <= i < |cs| ensures FootnoteLines(cs)[i] == Footnote(cs[i]) {
      FootnoteLineIsFootnote(cs[i]);
    }
  }

  function FootnotesSection(cs: seq<Citation>): string
  {
    if cs == [] then "" else Join("\n", ["", "---", ""] + FootnoteLines(cs))
  }

  /** The footnotes are empty for no citations, and otherwise follow a blank line, a
      rule and a blank line. */
  lemma FootnotesSectionStart(cs: seq<Citation>)
    ensures cs == [] <==> FootnotesSection(cs) == ""
    ensures cs != [] ==> FootnotesSection(cs) == "\n---\n\n" + Join("\n", FootnoteLines(cs))
  {
    if cs != [] {
      var f := FootnoteLines(cs);
      FootnoteLinesSpec(cs);
      assert |f| >= 1;
      JoinAppend("\n", ["", "---", ""], f);
      assert Join("\n", ["---", ""]) == "---\n" by { JoinCons("\n", "---", [""]); }
      assert Join("\n", ["", "---", ""]) == "\n---\n" by {
        JoinCons("\n", "", ["---", ""]);
        assert [""] + ["---", ""] == ["", "---", ""];
      }
      assert "\n---\n" + "\n" == "\n---\n\n";
    }
  }

  /** `format_footnotes_section(citations)`. */
  method FormatFootnotesSection(cs: seq<Citation>) returns (r: string)
    ensures r == FootnotesSection(cs)
  {
    if |cs| == 0 {
      return "";
    }
    var lines := ["", "---", ""];
    for i := 0 to |cs|
      invariant lines == ["", "---", ""] + FootnoteLines(cs[..i])
    {
      assert cs[..i + 1][..i] == cs[..i];
      lines := lines + [FootnoteLine(cs[i])];
    }
    assert cs[..|cs|] == cs;
    return Join("\n", lines);
  }

  // add_citation_markers_to_text

  /** The first position at or after `start` holding `c` (the length when there is none). */
  function FirstFrom(s: string, start: nat, c: char): (r: nat)
    requires start <= |s|
    ensures start <= r <= |s|
    ensures r < |s| ==> s[r] == c
    decreases |s| - start
  {
    if start == |s| || s[start] == c then start else FirstFrom(s, start + 1, c)
  }

  /** Nothing before the position found holds `c`. */
  lemma {:induction false} FirstFromIsFirst(s: string, start: nat, c: char, k: nat)
    requires start <= |s| && start <= k < FirstFrom(s, start, c)
    ensures s[k] != c
    decreases |s| - start
  {
    if k > start {
      FirstFromIsFirst(s, start + 1, c, k);
    }
  }

  /** The bounds of the two groups of a Markdown link match; the match ends just after
      `urlEnd`. */
  datatype Link = Link(textStart: nat, textEnd: nat, urlStart: nat, urlEnd: nat)

  /** `\[([^\]]+)\]\(([^)]+)\)` matched at `i`, written out: an opening bracket, a
      non-empty run without `]`, `](`, a non-empty run without `)`, and `)`. */
  ghost predicate IsLinkMatch(s: string, i: nat, l: Link)
  {
    i + 1 == l.textStart < l.textEnd && l.textEnd + 2 == l.urlStart < l.urlEnd < |s| &&
    s[i] == '[' && s[l.textEnd] == ']' && s[l.textEnd + 1] == '(' && s[l.urlEnd] == ')' &&
    (forall k :: l.textStart <= k < l.textEnd ==> s[k] != ']') &&
    (forall k :: l.urlStart <= k < l.urlEnd ==> s[k] != ')')
  }

  /** The match at `i`, if any. The character classes leave the regex no choice: the
      first group runs to the next `]` and the second to the next `)`. */
  function LinkAt(s: string, i: nat): (r: Option<Link>)
    requires i <= |s|
    ensures r.Some? ==> i + 1 == r.value.textStart < r.value.textEnd
                        && r.value.textEnd + 2 == r.value.urlStart < r.value.urlEnd < |s|
  {
    if i == |s| || s[i] != '[' then None
    else
      var j := FirstFrom(s, i + 1, ']');
      if j == i + 1 || j + 1 >= |s| || s[j + 1] != '(' then None
      else
        var k := FirstFrom(s, j + 2, ')');
        if k == j + 2 || k == |s| then None
        else Some(Link(i + 1, j, j + 2, k))
  }

  /** The scanner finds exactly the regex matches. */
  lemma LinkAtIff(s: string, i: nat, l: Link)
    requires i <= |s|
    ensures LinkAt(s, i) == Some(l) <==> IsLinkMatch(s, i, l)
  {
    if i < |s| {
      var j := FirstFrom(s, i + 1, ']');
      var k := if j + 2 <= |s| then FirstFrom(s, j + 2, ')') else j;
      forall p | i + 1 <= p < j ensures s[p] != ']' { FirstFromIsFirst(s, i + 1, ']', p); }
      forall p | j + 2 <= p < k ensures s[p] != ')' { FirstFromIsFirst(s, j + 2, ')', p); }
      if IsLinkMatch(s, i, l) {
        assert j == l.textEnd;
        assert k == l.urlEnd;
      }
    }
  }

  function LinkUrl(s: string, l: Link): string
    requires l.urlStart <= l.urlEnd <= |s|
  {
    s[l.urlStart..l.urlEnd]
  }

  /** What `replace_link` appends after a link to `url`. */
  function MarkerFor(urlToNumber: map<string, int>, style: string, url: string): string
  {
    if url in urlToNumber then FormatInlineMarker(style, urlToNumber[url]) else []
  }

  /** `re.sub` with `replace_link` from position `i` on: each link keeps its text and,
      when its URL has a number, is followed by that number's marker. */
  function AddMarkersFrom(s: string, urlToNumber: map<string, int>, style: string, i: nat): (r: string)
    requires i <= |s|
    decreases |s| - i
  {
    if i == |s| then []
    else
      var link := LinkAt(s, i);
      if link.None? then [s[i]] + AddMarkersFrom(s, urlToNumber, style, i + 1)
      else
        var e := link.value.urlEnd + 1;
        s[i..e] + MarkerFor(urlToNumber, style, LinkUrl(s, link.value)) + AddMarkersFrom(s, urlToNumber, style, e)
  }

  lemma AddMarkersAtLink(s: string, urlToNumber: map<string, int>, style: string, i: nat, l: Link)
    requires i < |s| && LinkAt(s, i) == Some(l)
    ensures AddMarkersFrom(s, urlToNumber, style, i) ==
            s[i..l.urlEnd + 1] + MarkerFor(urlToNumber, style, LinkUrl(s, l)) + AddMarkersFrom(s, urlToNumber, style, l.urlEnd + 1)
  {
    var e := l.urlEnd + 1;
    var rest := AddMarkersFrom(s, urlToNumber, style, e);
    var m := MarkerFor(urlToNumber, style, LinkUrl(s, l));
    assert AddMarkersFrom(s, urlToNumber, style, i) == s[i..e] + m + rest;
  }

  lemma AddMarkersNoLink(s: string, urlToNumber: map<string, int>, style: string, i: nat)
    requires i < |s| && LinkAt(s, i).None?
    ensures AddMarkersFrom(s, urlToNumber, style, i) == [s[i]] + AddMarkersFrom(s, urlToNumber, style, i + 1)
  {
  }

  /** `add_citation_markers_to_text(text, citations, url_to_number)`; the citation list
      is not consulted. */
  function AddCitationMarkersToText(style: string, text: string, citations: seq<Citation>,
                                    urlToNumber: map<string, int>): string
  {
    AddMarkersFrom(text, urlToNumber, style, 0)
  }

  /** No link found from `i` on points at a numbered URL. */
  ghost predicate LinksUnnumbered(s: string, urlToNumber: map<string, int>, i: nat)
    requires i <= |s|
  {
    forall p :: i <= p < |s| && LinkAt(s, p).Some? ==> LinkUrl(s, LinkAt(s, p).value) !in urlToNumber
  }

  lemma LinkStepUnchanged(s: string, urlToNumber: map<string, int>, style: string, i: nat, l: Link)
    requires i < |s| && LinkAt(s, i) == Some(l) && LinkUrl(s, l) !in urlToNumber
    requires AddMarkersFrom(s, urlToNumber, style, l.urlEnd + 1) == s[l.urlEnd + 1..]
    ensures AddMarkersFrom(s, urlToNumber, style, i) == s[i..]
  {
    var e := l.urlEnd + 1;
    AddMarkersAtLink(s, urlToNumber, style, i, l);
    var front := s[i..e];
    var marker := MarkerFor(urlToNumber, style, LinkUrl(s, l));
    var rest := AddMarkersFrom(s, urlToNumber, style, e);
    assert marker == [];
    assert front + marker + rest == front + rest;
    assert front + rest == s[i..];
  }

  lemma PlainStepUnchanged(s: string, urlToNumber: map<string, int>, style: string, i: nat)
    requires i < |s| && LinkAt(s, i).None?
    requires AddMarkersFrom(s, urlToNumber, style, i + 1) == s[i + 1..]
    ensures AddMarkersFrom(s, urlToNumber, style, i) == s[i..]
  {
    AddMarkersNoLink(s, urlToNumber, style, i);
    assert s[i..] == [s[i]] + s[i + 1..];
  }

  /** Where the scan resumes after position `i`. */
  function NextScan(s: string, i: nat): (r: nat)
    requires i < |s|
    ensures i < r <= |s|
  {
    var link := LinkAt(s, i);
    if link.Some? then link.value.urlEnd + 1 else i + 1
  }

  lemma StepUnchanged(s: string, urlToNumber: map<string, int>, style: string, i: nat)
    requires i < |s| && LinksUnnumbered(s, urlToNumber, i)
    requires AddMarkersFrom(s, urlToNumber, style, NextScan(s, i)) == s[NextScan(s, i)..]
    ensures AddMarkersFrom(s, urlToNumber, style, i) == s[i..]
  {
    var link := LinkAt(s, i);
    if link.Some? {
      var l := link.value;
      assert NextScan(s, i) == l.urlEnd + 1;
      assert LinkUrl(s, l) !in urlToNumber;
      LinkStepUnchanged(s, urlToNumber, style, i, l);
    } else {
      assert NextScan(s, i) == i + 1;
      PlainStepUnchanged(s, urlToNumber, style, i);
    }
  }

  /** Text whose links all point at unnumbered URLs comes back unchanged. */
  lemma {:induction false} UnknownLinksUnchanged(s: string, urlToNumber: map<string, int>, style: string, i: nat)
    requires i <= |s|
    requires LinksUnnumbered(s, urlToNumber, i)
    ensures AddMarkersFrom(s, urlToNumber, style, i) == s[i..]
    decreases |s| - i
  {
    if i < |s| {
      UnknownLinksUnchanged(s, urlToNumber, style, NextScan(s, i));
      StepUnchanged(s, urlToNumber, style, i);
    }
  }

  /** With no numbered URLs the text is unchanged. */
  lemma NoNumbersUnchanged(style: string, text: string, citations: seq<Citation>)
    ensures AddCitationMarkersToText(style, text, citations, map[]) == text
  {
    UnknownLinksUnchanged(text, map[], style, 0);
  }

  /** A link `[title](url)` standing alone gets its marker appended right after the
      closing parenthesis when its URL has a number. */
  lemma SingleLinkMarked(style: string, title: string, url: string, citations: seq<Citation>,
                         urlToNumber: map<string, int>)
    requires title != [] && ']' !in title && url != [] && ')' !in url
    ensures var link := "[" + title + "](" + url + ")";
            AddCitationMarkersToText(style, link, citations, urlToNumber) ==
            link + (if url in urlToNumber then FormatInlineMarker(style, urlToNumber[url]) else [])
  {
    var link := "[" + title + "](" + url + ")";
    var l := Link(1, 1 + |title|, 3 + |title|, 3 + |title| + |url|);
    assert link[1..1 + |title|] == title;
    assert link[3 + |title|..3 + |title| + |url|] == url;
    assert forall k :: l.textStart <= k < l.textEnd ==> link[k] == title[k - 1];
    assert forall k :: l.urlStart <= k < l.urlEnd ==> link[k] == url[k - l.urlStart];
    assert IsLinkMatch(link, 0, l);
    LinkAtIff(link, 0, l);
    assert LinkAt(link, 0) == Some(l);
    assert LinkUrl(link, l) == url;
    assert l.urlEnd + 1 == |link|;
    assert AddMarkersFrom(link, urlToNumber, style, l.urlEnd + 1) == [];
    assert link[0..l.urlEnd + 1] == link;
  }

  // parse_citations_from_report

  /** A citation recovered from a report: the dict with "title", "url" and "format". */
  datatype Found = Found(title: string, url: string, format: string)

  /** The regex searches the parser delegates. `sections(pattern, report)` lists group 1
      of every match of the section pattern followed by `\s*\n((?:(?!\n##).*\n?)*)`
      (case-insensitive, multi-line), in the order `re.finditer` finds them; the others
      list the (title, url) groups of every match, in order, of the numbered pattern,
      the footnote pattern and the HTML anchor pattern within one section. */
  datatype ReportParsers = ReportParsers(
    sections: (string, string) -> seq<string>,
    numbered: string -> seq<(string, string)>,
    footnote: string -> seq<(string, string)>,
    html: string -> seq<(string, string)>)

  const DefaultSectionPatterns: seq<string> :=
    ["(?:##\\s*Key Citations|##\\s*References|##\\s*Sources|##\\s*Bibliography)"]

  predicate IsWebUrl(u: string)
  {
    StartsWith(u, "http://") || StartsWith(u, "https://")
  }

  /** The (title, url) groups of the Markdown link matches from `i` on, as `re.finditer`
      finds them. */
  function MarkdownMatches(s: string, i: nat): seq<(string, string)>
    requires i <= |s|
    decreases |s| - i
  {
    if i == |s| then []
    else match LinkAt(s, i)
      case Some(l) => [(s[l.textStart..l.textEnd], LinkUrl(s, l))] + MarkdownMatches(s, l.urlEnd + 1)
      case None => MarkdownMatches(s, i + 1)
  }

  /** The matches whose URL group starts with a web scheme. */
  function WebOnly(ms: seq<(string, string)>): (r: seq<(string, string)>)
    decreases |ms|
  {
    if |ms| == 0 then []
    else
      var m := ms[|ms| - 1];
      WebOnly(ms[..|ms| - 1]) + (if IsWebUrl(m.1) then [m] else [])
  }

  /** Every match, title and URL stripped. */
  function StripAll(ms: seq<(string, string)>, format: string): (r: seq<Found>)
  {
    seq(|ms|, i requires 0 <= i < |ms| => Recovered(ms[i], format))
  }

  /** The web-URL matches, stripped; the Markdown and HTML extractors. */
  function KeepWeb(ms: seq<(string, string)>, format: string): (r: seq<Found>)
  {
    StripAll(WebOnly(ms), format)
  }

  /** `_extract_markdown_links`, `_extract_numbered_citations`,
      `_extract_footnote_citations` and `_extract_html_links`, in that order. */
  function SectionCandidates(section: string, rp: ReportParsers): seq<Found>
  {
    KeepWeb(MarkdownMatches(section, 0), "markdown") + StripAll(rp.numbered(section), "numbered")
    + StripAll(rp.footnote(section), "footnote") + KeepWeb(rp.html(section), "html")
  }

  function SectionsCandidates(sections: seq<string>, rp: ReportParsers): seq<Found>
    decreases |sections|
  {
    if |sections| == 0 then []
    else SectionsCandidates(sections[..|sections| - 1], rp) + SectionCandidates(sections[|sections| - 1], rp)
  }

  /** Step 1: the candidates of every matching section, pattern by pattern. */
  function ReportCandidates(report: string, patterns: seq<string>, rp: ReportParsers): seq<Found>
    decreases |patterns|
  {
    if |patterns| == 0 then []
    else ReportCandidates(report, patterns[..|patterns| - 1], rp)
         + SectionsCandidates(rp.sections(patterns[|patterns| - 1], report), rp)
  }

  function FoundUrls(cs: seq<Found>): set<string>
  {
    set i | 0 <= i < |cs| :: cs[i].url
  }

  /** Step 3: the first candidate of each non-empty URL, in order. */
  function UniqueByUrl(cs: seq<Found>): (r: seq<Found>)
    decreases |cs|
  {
    if |cs| == 0 then []
    else
      var u := UniqueByUrl(cs[..|cs| - 1]);
      var c := cs[|cs| - 1];
      if c.url != [] && c.url !in FoundUrls(u) then u + [c] else u
  }

  datatype ParsedReport = ParsedReport(citations: seq<Found>, count: nat)

  /** `parse_citations_from_report(report, section_patterns)` as a value; `None` stands
      for the default heading patterns. */
  function ParsedFromReport(report: string, patterns: Option<seq<string>>, rp: ReportParsers): ParsedReport
  {
    var u := UniqueByUrl(ReportCandidates(report, patterns.GetOr(DefaultSectionPatterns), rp));
    ParsedReport(u, |u|)
  }

  lemma StripKeepsWeb(u: string)
    requires IsWebUrl(u)
    ensures IsWebUrl(Strip(u)) && Strip(Strip(u)) == Strip(u)
  {
    if StartsWith(u, "http://") {
      StripKeepsPrefix(u, "http://");
    } else {
      StripKeepsPrefix(u, "https://");
    }
    StripIdempotent(u);
  }

  /** A recovered citation as the extractors leave it: title and URL stripped. */
  predicate Tidy(f: Found)
  {
    Strip(f.url) == f.url && Strip(f.title) == f.title
  }

  lemma TidyFound(title: string, url: string, format: string)
    ensures Tidy(Found(Strip(title), Strip(url), format))
  {
    StripIdempotent(title);
    StripIdempotent(url);
  }

  /** The citation recovered from one match. */
  function Recovered(m: (string, string), format: string): Found
  {
    Found(Strip(m.0), Strip(m.1), format)
  }

  /** The filter keeps exactly the web-URL matches. */
  lemma {:induction false} WebOnlyExactly(ms: seq<(string, string)>)
    ensures var r := WebOnly(ms);
            (forall j :: 0 <= j < |ms| && IsWebUrl(ms[j].1) ==> ms[j] in r) &&
            (forall m :: m in r ==> m in ms && IsWebUrl(m.1))
    decreases |ms|
  {
    if |ms| > 0 {
      var init := ms[..|ms| - 1];
      WebOnlyExactly(init);
      forall j | 0 <= j < |ms| - 1 ensures ms[j] == init[j] { }
      forall m | m in init ensures m in ms { var k :| 0 <= k < |init| && init[k] == m; assert ms[k] == m; }
    }
  }

  /** The Markdown and HTML extractors keep exactly the web-URL matches, each recovered
      with a web URL, tidy and tagged with the format. */
  lemma KeepWebSpec(ms: seq<(string, string)>, format: string)
    ensures var r := KeepWeb(ms, format);
            (forall j :: 0 <= j < |ms| && IsWebUrl(ms[j].1) ==> Recovered(ms[j], format) in r) &&
            (forall i :: 0 <= i < |r| ==>
               r[i].format == format && IsWebUrl(r[i].url) && Tidy(r[i]) &&
               exists m :: m in ms && IsWebUrl(m.1) && r[i] == Recovered(m, format))
  {
    var w := WebOnly(ms);
    var r := KeepWeb(ms, format);
    WebOnlyExactly(ms);
    forall j | 0 <= j < |ms| && IsWebUrl(ms[j].1) ensures Recovered(ms[j], format) in r {
      var k :| 0 <= k < |w| && w[k] == ms[j];
      assert r[k] == Recovered(ms[j], format);
    }
    forall i | 0 <= i < |r|
      ensures r[i].format == format && IsWebUrl(r[i].url) && Tidy(r[i]) &&
              exists m :: m in ms && IsWebUrl(m.1) && r[i] == Recovered(m, format)
    {
      assert w[i] in w;
      StripKeepsWeb(w[i].1);
      RecoveredTidy(w[i], format);
    }
  }

  /** Recovered citations are tidy. */
  lemma RecoveredTidy(m: (string, string), format: string)
    ensures Tidy(Recovered(m, format))
  {
    TidyFound(m.0, m.1, format);
  }

  /** The numbered and footnote extractors recover one tidy, tagged citation per match,
      in match order. */
  lemma StripAllSpec(ms: seq<(string, string)>, format: string)
    ensures var r := StripAll(ms, format);
            |r| == |ms| &&
            forall i :: 0 <= i < |r| ==> r[i] == Recovered(ms[i], format) && r[i].format == format && Tidy(r[i])
  {
    forall i | 0 <= i < |ms| ensures Tidy(Recovered(ms[i], format)) {
      RecoveredTidy(ms[i], format);
    }
  }

  lemma FoundUrlsAppend(cs: seq<Found>, c: Found)
    ensures FoundUrls(cs + [c]) == FoundUrls(cs) + {c.url}
  {
    var l := cs + [c];
    forall u | u in FoundUrls(l) ensures u in FoundUrls(cs) + {c.url} {
      var i :| 0 <= i < |l| && l[i].url == u;
      if i < |cs| { assert cs[i] == l[i]; }
    }
    forall u | u in FoundUrls(cs) + {c.url} ensures u in FoundUrls(l) {
      if u == c.url {
        assert l[|cs|].url == u;
      } else {
        var i :| 0 <= i < |cs| && cs[i].url == u;
        assert l[i].url == u;
      }
    }
  }

  /** The kept citations have non-empty, pairwise distinct URLs; every non-empty URL
      among the candidates is kept. */
  lemma {:induction false} UniqueByUrlUrls(cs: seq<Found>)
    ensures var r := UniqueByUrl(cs);
            (forall i :: 0 <= i < |r| ==> r[i].url != []) &&
            (forall i, j :: 0 <= i < j < |r| ==> r[i].url != r[j].url) &&
            FoundUrls(r) == FoundUrls(cs) - {[]}
    decreases |cs|
  {
    if |cs| > 0 {
      var init := cs[..|cs| - 1];
      var c := cs[|cs| - 1];
      UniqueByUrlUrls(init);
      var u := UniqueByUrl(init);
      FoundUrlsAppend(u, c);
      FoundUrlsAppend(init, c);
      assert init + [c] == cs;
      forall i | 0 <= i < |u| ensures u[i].url in FoundUrls(u) { }
    }
  }

  /** Where each kept citation sits among the candidates. */
  ghost function UniquePos(cs: seq<Found>): seq<nat>
    decreases |cs|
  {
    if |cs| == 0 then []
    else
      var u := UniqueByUrl(cs[..|cs| - 1]);
      var c := cs[|cs| - 1];
      var p := UniquePos(cs[..|cs| - 1]);
      if c.url != [] && c.url !in FoundUrls(u) then p + [|cs| - 1] else p
  }

  /** The kept citations are candidates in candidate order, each the first candidate
      with its URL. */
  lemma {:induction false} UniqueByUrlOrder(cs: seq<Found>)
    ensures var r := UniqueByUrl(cs);
            var pos := UniquePos(cs);
            |pos| == |r| &&
            (forall i :: 0 <= i < |r| ==> pos[i] < |cs| && r[i] == cs[pos[i]]) &&
            (forall i, j :: 0 <= i < j < |r| ==> pos[i] < pos[j]) &&
            (forall i, k :: 0 <= i < |r| && 0 <= k < pos[i] ==> cs[k].url != r[i].url)
    decreases |cs|
  {
    if |cs| > 0 {
      var init := cs[..|cs| - 1];
      UniqueByUrlOrder(init);
      UniqueByUrlUrls(init);
      forall k | 0 <= k < |cs| - 1 ensures cs[k] == init[k] { }
      assert init + [cs[|cs| - 1]] == cs;
      forall k | 0 <= k < |init| ensures init[k].url in FoundUrls(init) { }
    }
  }

  /** Distinct URLs make the count the number of URLs. */
  lemma {:induction false} DistinctUrlsCount(cs: seq<Found>)
    requires forall i, j :: 0 <= i < j < |cs| ==> cs[i].url != cs[j].url
    ensures |FoundUrls(cs)| == |cs|
    decreases |cs|
  {
    if |cs| > 0 {
      var init := cs[..|cs| - 1];
      var c := cs[|cs| - 1];
      DistinctUrlsCount(init);
      FoundUrlsAppend(init, c);
      assert init + [c] == cs;
      assert c.url !in FoundUrls(init);
    }
  }

  /** The reported count is the number of distinct non-empty URLs among the candidates,
      and the citations carry exactly those URLs. */
  lemma ParsedCount(report: string, patterns: Option<seq<string>>, rp: ReportParsers)
    ensures var cs := ReportCandidates(report, patterns.GetOr(DefaultSectionPatterns), rp);
            var r := ParsedFromReport(report, patterns, rp);
            FoundUrls(r.citations) == FoundUrls(cs) - {[]} && r.count == |FoundUrls(cs) - {[]}|
  {
    var cs := ReportCandidates(report, patterns.GetOr(DefaultSectionPatterns), rp);
    UniqueByUrlUrls(cs);
    DistinctUrlsCount(UniqueByUrl(cs));
  }

  /** The numbered and footnote patterns only match web URLs (`https?://`). */
  ghost predicate ParsersSound(rp: ReportParsers)
  {
    (forall t: string, j :: 0 <= j < |rp.numbered(t)| ==> IsWebUrl(rp.numbered(t)[j].1)) &&
    (forall t: string, j :: 0 <= j < |rp.footnote(t)| ==> IsWebUrl(rp.footnote(t)[j].1))
  }

  ghost predicate AllWebTidy(cs: seq<Found>)
  {
    forall i :: 0 <= i < |cs| ==> IsWebUrl(cs[i].url) && Tidy(cs[i])
  }

  lemma AllWebTidyConcat(a: seq<Found>, b: seq<Found>)
    requires AllWebTidy(a) && AllWebTidy(b)
    ensures AllWebTidy(a + b)
  {
    forall i | 0 <= i < |a + b| ensures (a + b)[i] == if i < |a| then a[i] else b[i - |a|] { }
  }

  lemma StripAllWeb(ms: seq<(string, string)>, format: string)
    requires forall j :: 0 <= j < |ms| ==> IsWebUrl(ms[j].1)
    ensures AllWebTidy(StripAll(ms, format))
  {
    StripAllSpec(ms, format);
    forall j | 0 <= j < |ms| ensures IsWebUrl(Strip(ms[j].1)) { StripKeepsWeb(ms[j].1); }
  }

  lemma SectionCandidatesWeb(section: string, rp: ReportParsers)
    requires ParsersSound(rp)
    ensures AllWebTidy(SectionCandidates(section, rp))
  {
    var a := KeepWeb(MarkdownMatches(section, 0), "markdown");
    var b := StripAll(rp.numbered(section), "numbered");
    var c := StripAll(rp.footnote(section), "footnote");
    var d := KeepWeb(rp.html(section), "html");
    KeepWebSpec(MarkdownMatches(section, 0), "markdown");
    KeepWebSpec(rp.html(section), "html");
    StripAllWeb(rp.numbered(section), "numbered");
    StripAllWeb(rp.footnote(section), "footnote");
    AllWebTidyConcat(a, b);
    AllWebTidyConcat(a + b, c);
    AllWebTidyConcat(a + b + c, d);
  }

  lemma {:induction false} SectionsCandidatesWeb(sections: seq<string>, rp: ReportParsers)
    requires ParsersSound(rp)
    ensures AllWebTidy(SectionsCandidates(sections, rp))
    decreases |sections|
  {
    if |sections| > 0 {
      SectionsCandidatesWeb(sections[..|sections| - 1], rp);
      SectionCandidatesWeb(sections[|sections| - 1], rp);
      AllWebTidyConcat(SectionsCandidates(sections[..|sections| - 1], rp), SectionCandidates(sections[|sections| - 1], rp));
    }
  }

  lemma {:induction false} ReportCandidatesWeb(report: string, patterns: seq<string>, rp: ReportParsers)
    requires ParsersSound(rp)
    ensures AllWebTidy(ReportCandidates(report, patterns, rp))
    decreases |patterns|
  {
    if |patterns| > 0 {
      var init := patterns[..|patterns| - 1];
      var secs := rp.sections(patterns[|patterns| - 1], report);
      ReportCandidatesWeb(report, init, rp);
      SectionsCandidatesWeb(secs, rp);
      AllWebTidyConcat(ReportCandidates(report, init, rp), SectionsCandidates(secs, rp));
    }
  }

  /** Every parsed citation has a stripped web URL and a stripped title; the URLs are
      pairwise distinct. */
  lemma ParsedUrlsWeb(report: string, patterns: Option<seq<string>>, rp: ReportParsers)
    requires ParsersSound(rp)
    ensures var r := ParsedFromReport(report, patterns, rp).citations;
            AllWebTidy(r) && forall i, j :: 0 <= i < j < |r| ==> r[i].url != r[j].url
  {
    var cs := ReportCandidates(report, patterns.GetOr(DefaultSectionPatterns), rp);
    ReportCandidatesWeb(report, patterns.GetOr(DefaultSectionPatterns), rp);
    UniqueByUrlOrder(cs);
    UniqueByUrlUrls(cs);
  }

  lemma UniqueByUrlStep(cs: seq<Found>, k: nat)
    requires k < |cs|
    ensures var u := UniqueByUrl(cs[..k]);
            UniqueByUrl(cs[..k + 1]) == if cs[k].url != [] && cs[k].url !in FoundUrls(u) then u + [cs[k]] else u
  {
    assert cs[..k + 1][..k] == cs[..k];
  }

  lemma SectionsCandidatesStep(sections: seq<string>, q: nat, rp: ReportParsers)
    requires q < |sections|
    ensures SectionsCandidates(sections[..q + 1], rp) == SectionsCandidates(sections[..q], rp) + SectionCandidates(sections[q], rp)
  {
    assert sections[..q + 1][..q] == sections[..q];
  }

  lemma ReportCandidatesStep(report: string, patterns: seq<string>, p: nat, rp: ReportParsers)
    requires p < |patterns|
    ensures ReportCandidates(report, patterns[..p + 1], rp) ==
            ReportCandidates(report, patterns[..p], rp) + SectionsCandidates(rp.sections(patterns[p], report), rp)
  {
    assert patterns[..p + 1][..p] == patterns[..p];
  }

  /** The candidates of one section, appended in extractor order. */
  method CollectSections(report: string, pattern: string, rp: ReportParsers, citations: seq<Found>)
    returns (r: seq<Found>)
    ensures r == citations + SectionsCandidates(rp.sections(pattern, report), rp)
  {
    var sections := rp.sections(pattern, report);
    r := citations;
    for q := 0 to |sections|
      invariant r == citations + SectionsCandidates(sections[..q], rp)
    {
      SectionsCandidatesStep(sections, q, rp);
      var found := SectionCandidates(sections[q], rp);
      ConcatAssoc(citations, SectionsCandidates(sections[..q], rp), found);
      r := r + found;
    }
    assert sections[..|sections|] == sections;
  }

  /** `parse_citations_from_report(report, section_patterns)`: the candidates of every
      matching section, then the first citation of each non-empty URL, kept in a dict in
      insertion order, and their number. */
  method ParseCitationsFromReport(report: string, sectionPatterns: Option<seq<string>>, rp: ReportParsers)
    returns (r: ParsedReport)
    ensures r == ParsedFromReport(report, sectionPatterns, rp)
  {
    var patterns := if sectionPatterns.None? then DefaultSectionPatterns else sectionPatterns.value;
    var citations: seq<Found> := [];
    for p := 0 to |patterns|
      invariant citations == ReportCandidates(report, patterns[..p], rp)
    {
      ReportCandidatesStep(report, patterns, p, rp);
      citations := CollectSections(report, patterns[p], rp, citations);
    }
    assert patterns[..|patterns|] == patterns;
    var values, count := UniqueCitations(citations);
    r := ParsedReport(values, count);
  }

  /** The dict and its insertion order at position `k` of the candidates: the keys are
      the kept URLs and `order` lists them as the dict's values are kept. */
  ghost predicate UniqueState(citations: seq<Found>, k: nat, unique: map<string, Found>, order: seq<string>)
    requires k <= |citations|
  {
    var u := UniqueByUrl(citations[..k]);
    |order| == |u| &&
    (forall i :: 0 <= i < |order| ==> order[i] in unique && unique[order[i]] == u[i]) &&
    unique.Keys == FoundUrls(u)
  }

  /** The loop of step 3: `unique_citations[url] = citation` for each new non-empty URL. */
  method FillUnique(citations: seq<Found>) returns (unique: map<string, Found>, order: seq<string>)
    ensures UniqueState(citations, |citations|, unique, order)
  {
    unique := map[];
    order := [];
    for k := 0 to |citations|
      invariant UniqueState(citations, k, unique, order)
    {
      FillStep(citations, k, unique, order);
      var url := citations[k].url;
      if url != [] && url !in unique {
        unique := unique[url := citations[k]];
        order := order + [url];
      }
    }
  }

  /** One step of the loop keeps the dict and its order in line with the candidates. */
  lemma FillStep(citations: seq<Found>, k: nat, unique: map<string, Found>, order: seq<string>)
    requires k < |citations| && UniqueState(citations, k, unique, order)
    ensures var url := citations[k].url;
            if url != [] && url !in unique then UniqueState(citations, k + 1, unique[url := citations[k]], order + [url])
            else UniqueState(citations, k + 1, unique, order)
  {
    UniqueByUrlStep(citations, k);
    var u := UniqueByUrl(citations[..k]);
    var url := citations[k].url;
    if url != [] && url !in unique {
      FoundUrlsAppend(u, citations[k]);
      var u' := u + [citations[k]];
      var unique' := unique[url := citations[k]];
      var order' := order + [url];
      forall i | 0 <= i < |order'| ensures order'[i] in unique' && unique'[order'[i]] == u'[i] {
        if i < |order| {
          assert order'[i] == order[i] && order[i] in unique && order[i] != url;
        }
      }
    }
  }

  /** `list(d.values())` for a dict whose keys were inserted in the order `order`. */
  method DictValues(d: map<string, Found>, order: seq<string>) returns (values: seq<Found>)
    requires forall i :: 0 <= i < |order| ==> order[i] in d
    ensures |values| == |order| && forall i :: 0 <= i < |order| ==> values[i] == d[order[i]]
  {
    values := [];
    for i := 0 to |order|
      invariant |values| == i && forall j :: 0 <= j < i ==> values[j] == d[order[j]]
    {
      values := values + [d[order[i]]];
    }
  }

  /** Step 3 of the parser: the dict's values in insertion order, and its size. */
  method UniqueCitations(citations: seq<Found>) returns (values: seq<Found>, count: nat)
    ensures values == UniqueByUrl(citations) && count == |values|
  {
    var unique, order := FillUnique(citations);
    assert citations[..|citations|] == citations;
    ghost var u := UniqueByUrl(citations);
    assert |order| == |u| && forall i :: 0 <= i < |order| ==> order[i] in unique && unique[order[i]] == u[i];
    assert unique.Keys == FoundUrls(u);
    values := DictValues(unique, order);
    assert values == u;
    UniqueByUrlUrls(citations);
    DistinctUrlsCount(u);
    count := |unique.Keys|;
  }
}
