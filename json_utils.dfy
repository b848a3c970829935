// The JSON helpers: escaping brackets in tool-call arguments, the bracket-balancing scan
// that cuts trailing tokens after a JSON value, code-fence removal before repair, and the
// sanitiser for tool responses.
module JsonUtils {
  import opened Wrappers
  import opened Strings
  import opened Values

  // sanitize_args

  /** `sanitize_args(args)`: "" for anything but a string; otherwise the four brackets
      become HTML character references. */
  function SanitizeArgs(args: Value): string
  {
    if !args.Str? then []
    else
      ReplaceChar(ReplaceChar(ReplaceChar(ReplaceChar(args.s, '[', "&#91;"), ']', "&#93;"), '{', "&#123;"), '}', "&#125;")
  }

  predicate IsBracket(x: char)
  {
    x == '[' || x == ']' || x == '{' || x == '}'
  }

  /** The sanitised text has no bracket and keeps every other character of the input; it
      is the input itself when there is no bracket to replace, and "" for a non-string. */
  lemma SanitizeArgsSpec(s: string, x: char)
    ensures x in SanitizeArgs(Str(s)) ==> !IsBracket(x)
    ensures x in s && !IsBracket(x) ==> x in SanitizeArgs(Str(s))
    ensures (forall i :: 0 <= i < |s| ==> !IsBracket(s[i])) ==> SanitizeArgs(Str(s)) == s
  {
    var r1 := ReplaceChar(s, '[', "&#91;");
    var r2 := ReplaceChar(r1, ']', "&#93;");
    var r3 := ReplaceChar(r2, '{', "&#123;");
    ReplaceCharMembers(s, '[', "&#91;", x);
    ReplaceCharMembers(r1, ']', "&#93;", x);
    ReplaceCharMembers(r2, '{', "&#123;", x);
    ReplaceCharMembers(r3, '}', "&#125;", x);
    if forall i :: 0 <= i < |s| ==> !IsBracket(s[i]) {
      ReplaceCharAbsent(s, '[', "&#91;");
      ReplaceCharAbsent(s, ']', "&#93;");
      ReplaceCharAbsent(s, '{', "&#123;");
      ReplaceCharAbsent(s, '}', "&#125;");
    }
  }

  lemma SanitizeArgsNonString(args: Value)
    requires !args.Str?
    ensures SanitizeArgs(args) == []
  {
  }

  // _extract_json_from_content

  /** The scan's variables after a prefix of the text. */
  datatype ScanState = ScanState(
    braceCount: int, bracketCount: int,
    seenOpeningBrace: bool, seenOpeningBracket: bool,
    inString: bool, escapeNext: bool,
    lastValidEnd: int)

  const InitialScan := ScanState(0, 0, false, false, false, false, -1)

  /** One iteration of the scan, at index `i` holding `ch`. A backslash hides the next
      character wherever it is; a double quote toggles the string state; brackets count
      only outside strings, and a closer that brings its own counter to zero after an
      opener of its kind was seen records its index. */
  function Step(st: ScanState, i: int, ch: char): ScanState
  {
    if st.escapeNext then st.(escapeNext := false)
    else if ch == '\\' then st.(escapeNext := true)
    else if ch == '"' then st.(inString := !st.inString)
    else if st.inString then st
    else if ch == '{' then st.(braceCount := st.braceCount + 1, seenOpeningBrace := true)
    else if ch == '}' then
      var b := st.braceCount - 1;
      st.(braceCount := b, lastValidEnd := if b == 0 && st.seenOpeningBrace then i else st.lastValidEnd)
    else if ch == '[' then st.(bracketCount := st.bracketCount + 1, seenOpeningBracket := true)
    else if ch == ']' then
      var b := st.bracketCount - 1;
      st.(bracketCount := b, lastValidEnd := if b == 0 && st.seenOpeningBracket then i else st.lastValidEnd)
    else st
  }

  /** The state after scanning all of `s`; a recorded end is never the first index,
      because no opener can precede it. */
  function Scan(s: string): (st: ScanState)
    ensures st.lastValidEnd == -1 || 0 < st.lastValidEnd < |s|
    ensures |s| == 0 ==> !st.seenOpeningBrace && !st.seenOpeningBracket
    decreases |s|
  {
    if |s| == 0 then InitialScan else Step(Scan(s[..|s| - 1]), |s| - 1, s[|s| - 1])
  }

  /** In state `st`, character `ch` is a closer that balances its own kind, outside
      strings and escapes, after an opener of that kind. */
  predicate Closes(st: ScanState, ch: char)
  {
    !st.escapeNext && !st.inString &&
    ((ch == '}' && st.braceCount == 1 && st.seenOpeningBrace) ||
     (ch == ']' && st.bracketCount == 1 && st.seenOpeningBracket))
  }

  /** A step records its index exactly when its character closes. */
  lemma StepEnd(st: ScanState, i: int, ch: char)
    ensures Step(st, i, ch).lastValidEnd == if Closes(st, ch) then i else st.lastValidEnd
  {
  }

  /** Index `i` of `s` holds a balancing closer. */
  predicate ClosesAt(s: string, i: nat)
    requires i < |s|
  {
    Closes(Scan(s[..i]), s[i])
  }

  lemma ClosesAtPrefix(s: string, n: nat, i: nat)
    requires i < n <= |s|
    ensures ClosesAt(s[..n], i) == ClosesAt(s, i)
  {
    assert s[..n][..i] == s[..i];
  }

  lemma ScanEnd(s: string)
    requires |s| > 0
    ensures Scan(s).lastValidEnd ==
            if ClosesAt(s, |s| - 1) then |s| - 1 else Scan(s[..|s| - 1]).lastValidEnd
  {
    StepEnd(Scan(s[..|s| - 1]), |s| - 1, s[|s| - 1]);
  }

  /** The recorded end is the last balancing closer, and there is none when it is -1. */
  lemma {:induction false} ScanLastValidEnd(s: string)
    ensures var e := Scan(s).lastValidEnd;
            (e == -1 <==> forall i :: 0 <= i < |s| ==> !ClosesAt(s, i)) &&
            (e >= 0 ==> ClosesAt(s, e) && forall i :: e < i < |s| ==> !ClosesAt(s, i))
    decreases |s|
  {
    if |s| > 0 {
      var n := |s| - 1;
      ScanEnd(s);
      ScanLastValidEnd(s[..n]);
      forall i | 0 <= i < n ensures ClosesAt(s[..n], i) == ClosesAt(s, i) {
        ClosesAtPrefix(s, n, i);
      }
    }
  }

  /** The recorded end was recorded by the step at that index. */
  lemma {:induction false} ScanPrefixAtEnd(s: string)
    requires Scan(s).lastValidEnd >= 0
    ensures var e := Scan(s).lastValidEnd; Scan(s[..e + 1]).lastValidEnd == e
    decreases |s|
  {
    var e := Scan(s).lastValidEnd;
    var n := |s| - 1;
    ScanEnd(s);
    if e != n {
      ScanPrefixAtEnd(s[..n]);
      assert s[..n][..e + 1] == s[..e + 1];
    } else {
      assert s[..e + 1] == s;
    }
  }

  /** `_extract_json_from_content(content)`. */
  function ExtractJson(content: string): (r: string)
    ensures r <= Strip(content)
  {
    var c := Strip(content);
    var e := Scan(c).lastValidEnd;
    if e > 0 then c[..e + 1] else c
  }

  /** The result ends at the last balancing closer of the stripped text, or is all of it
      when there is none. */
  lemma ExtractJsonSpec(content: string)
    ensures var c := Strip(content);
            var r := ExtractJson(content);
            ((forall i :: 0 <= i < |c| ==> !ClosesAt(c, i)) ==> r == c) &&
            (r != c ==> |r| > 0 && ClosesAt(c, |r| - 1) && forall i :: |r| - 1 < i < |c| ==> !ClosesAt(c, i))
  {
    ScanLastValidEnd(Strip(content));
  }

  /** Extraction applied to its own output changes nothing. */
  lemma ExtractJsonIdempotent(content: string)
    ensures ExtractJson(ExtractJson(content)) == ExtractJson(content)
  {
    var c := Strip(content);
    var e := Scan(c).lastValidEnd;
    var r := ExtractJson(content);
    StripIdempotent(content);
    ExtractJsonOfStripped(c);
    if e > 0 {
      ExtractCutIsFixed(c);
    }
  }

  lemma ExtractJsonOfStripped(c: string)
    requires Strip(c) == c
    ensures ExtractJson(c) == if Scan(c).lastValidEnd > 0 then c[..Scan(c).lastValidEnd + 1] else c
  {
  }

  /** A cut stripped text is stripped and scans to the same end. */
  lemma ExtractCutIsFixed(c: string)
    requires Strip(c) == c && Scan(c).lastValidEnd > 0
    ensures var r := c[..Scan(c).lastValidEnd + 1]; ExtractJson(r) == r
  {
    var e := Scan(c).lastValidEnd;
    var r := c[..e + 1];
    assert Strip(r) == r by {
      ScanLastValidEnd(c);
      assert ClosesAt(c, e);
      assert r[0] == c[0] && r[|r| - 1] == c[e];
      StripOfTrimmed(r);
    }
    assert Scan(r).lastValidEnd == e by {
      ScanPrefixAtEnd(c);
    }
    ExtractJsonOfStripped(r);
    assert r[..e + 1] == r;
  }

  /** The scan loop of `_extract_json_from_content`. */
  method ExtractJsonFromContent(content: string) returns (r: string)
    ensures r == ExtractJson(content)
  {
    var c := Strip(content);
    var braceCount, bracketCount := 0, 0;
    var seenOpeningBrace, seenOpeningBracket := false, false;
    var inString, escapeNext := false, false;
    var lastValidEnd := -1;
    for i := 0 to |c|
      invariant ScanState(braceCount, bracketCount, seenOpeningBrace, seenOpeningBracket,
                          inString, escapeNext, lastValidEnd) == Scan(c[..i])
    {
      assert c[..i + 1][..i] == c[..i];
      var ch := c[i];
      if escapeNext {
        escapeNext := false;
      } else if ch == '\\' {
        escapeNext := true;
      } else if ch == '"' {
        inString := !inString;
      } else if inString {
      } else if ch == '{' {
        braceCount := braceCount + 1;
        seenOpeningBrace := true;
      } else if ch == '}' {
        braceCount := braceCount - 1;
        if braceCount == 0 && seenOpeningBrace {
          lastValidEnd := i;
        }
      } else if ch == '[' {
        bracketCount := bracketCount + 1;
        seenOpeningBracket := true;
      } else if ch == ']' {
        bracketCount := bracketCount - 1;
        if bracketCount == 0 && seenOpeningBracket {
          lastValidEnd := i;
        }
      }
    }
    assert c[..|c|] == c;
    if lastValidEnd > 0 {
      r := c[..lastValidEnd + 1];
    } else {
      r := c;
    }
  }

  // repair_json_output: code fences

  predicate IsBlankChar(c: char)
  {
    c == ' ' || c == '\t'
  }

  /** The first index at or after `i` that is not a space or tab. */
  function SkipBlanks(s: string, i: nat): (r: nat)
    requires i <= |s|
    ensures i <= r <= |s| && (r < |s| ==> !IsBlankChar(s[r]))
    decreases |s| - i
  {
    if i < |s| && IsBlankChar(s[i]) then SkipBlanks(s, i + 1) else i
  }

  /** Everything skipped is a space or tab. */
  lemma {:induction false} SkipBlanksSkipped(s: string, i: nat, k: nat)
    requires i <= |s| && i <= k < SkipBlanks(s, i)
    ensures IsBlankChar(s[k])
    decreases |s| - i
  {
    if k > i {
      SkipBlanksSkipped(s, i + 1, k);
    }
  }

  /** The first index at or after `i` that is not a newline. */
  function SkipNewlines(s: string, i: nat): (r: nat)
    requires i <= |s|
    ensures i <= r <= |s| && (r < |s| ==> s[r] != '\n')
    decreases |s| - i
  {
    if i < |s| && s[i] == '\n' then SkipNewlines(s, i + 1) else i
  }

  /** Everything skipped is a newline. */
  lemma {:induction false} SkipNewlinesSkipped(s: string, i: nat, k: nat)
    requires i <= |s| && i <= k < SkipNewlines(s, i)
    ensures s[k] == '\n'
    decreases |s| - i
  {
    if k > i {
      SkipNewlinesSkipped(s, i + 1, k);
    }
  }

  predicate IsFence(s: string, i: nat)
  {
    i + 3 <= |s| && s[i..i + 3] == "```"
  }

  /** `(?:json|ts)?` under IGNORECASE: the index after the optional tag at `i`. */
  function SkipTag(s: string, i: nat): (r: nat)
    requires i <= |s|
    ensures i <= r <= |s|
  {
    if i + 4 <= |s| && LowerChar(s[i]) == 'j' && LowerChar(s[i + 1]) == 's'
       && LowerChar(s[i + 2]) == 'o' && LowerChar(s[i + 3]) == 'n' then i + 4
    else if i + 2 <= |s| && LowerChar(s[i]) == 't' && LowerChar(s[i + 1]) == 's' then i + 2
    else i
  }

  /** A match of `^[ \t]*```(?:json|ts)?[ \t]*\n+` (MULTILINE) at `i`: the end of the
      match. Backtracking never rescues a failed match: giving back a tag leaves a letter
      where `[ \t]*\n+` must start, and giving back blanks leaves a blank where a fence or
      newline must follow. */
  function OpenFenceAt(s: string, i: nat): (r: Option<nat>)
    requires i <= |s|
    ensures r.Some? ==> i < r.value <= |s|
  {
    if !(i == 0 || s[i - 1] == '\n') then None
    else
      var a := SkipBlanks(s, i);
      if !IsFence(s, a) then None
      else
        var b := SkipBlanks(s, SkipTag(s, a + 3));
        var d := SkipNewlines(s, b);
        if d > b then Some(d) else None
  }

  /** A match of `\n*```[ \t]*$` (MULTILINE) at `i`: the end of the match. */
  function CloseFenceAt(s: string, i: nat): (r: Option<nat>)
    requires i <= |s|
    ensures r.Some? ==> i < r.value <= |s|
  {
    var a := SkipNewlines(s, i);
    if !IsFence(s, a) then None
    else
      var b := SkipBlanks(s, a + 3);
      if b == |s| || s[b] == '\n' then Some(b) else None
  }

  /** `re.sub(pattern, '', s[i:])` for a pattern whose match at each index is given by
      `matchAt` (the end of the match, or `None`): a match is deleted and the search
      resumes at its end; elsewhere one character is kept. An end that does not lie ahead
      counts as no match. */
  function SubFrom(s: string, i: nat, matchAt: nat -> Option<nat>): (r: string)
    requires i <= |s|
    ensures |r| <= |s| - i
    decreases |s| - i
  {
    if i == |s| then []
    else if matchAt(i).Some? && i < matchAt(i).value <= |s| then SubFrom(s, matchAt(i).value, matchAt)
    else [s[i]] + SubFrom(s, i + 1, matchAt)
  }

  /** Where nothing matches, the substitution copies the text. */
  lemma {:induction false} SubFromKeeps(s: string, i: nat, j: nat, matchAt: nat -> Option<nat>)
    requires i <= j <= |s|
    requires forall k :: i <= k < j ==> matchAt(k).None?
    ensures SubFrom(s, i, matchAt) == s[i..j] + SubFrom(s, j, matchAt)
    decreases j - i
  {
    if i < j {
      assert matchAt(i).None?;
      assert SubFrom(s, i, matchAt) == [s[i]] + SubFrom(s, i + 1, matchAt);
      SubFromKeeps(s, i + 1, j, matchAt);
      ConsSlice(s, i, j, SubFrom(s, j, matchAt));
    }
  }

  lemma ConsSlice<T>(s: seq<T>, i: nat, j: nat, t: seq<T>)
    requires i < j <= |s|
    ensures [s[i]] + (s[i + 1..j] + t) == s[i..j] + t
  {
    assert s[i..j] == [s[i]] + s[i + 1..j];
  }

  function OpeningMatches(s: string): nat -> Option<nat>
  {
    (k: nat) => if k <= |s| then OpenFenceAt(s, k) else None
  }

  function ClosingMatches(s: string): nat -> Option<nat>
  {
    (k: nat) => if k <= |s| then CloseFenceAt(s, k) else None
  }

  /** The text handed to the bracket scan: stripped, and with both fence patterns
      substituted away when it contains three backticks. */
  function Unfenced(content: string): string
  {
    var c := Strip(content);
    if c != [] && Contains(c, "```") then
      var afterOpening := SubFrom(c, 0, OpeningMatches(c));
      Strip(SubFrom(afterOpening, 0, ClosingMatches(afterOpening)))
    else c
  }

  /** No fence begins at `a` when the character there is not a backtick. */
  lemma NotFence(s: string, a: nat)
    requires a >= |s| || s[a] != '`'
    ensures !IsFence(s, a)
  {
    if a + 3 <= |s| {
      assert s[a..a + 3][0] == s[a];
    }
  }

  /** No opening match starts in a stretch without backticks that ends at a newline or
      the end. */
  lemma NoOpenFence(s: string, i: nat, j: nat)
    requires i < j <= |s| && (j == |s| || s[j] == '\n')
    requires forall k :: i <= k < j ==> s[k] != '`'
    ensures OpenFenceAt(s, i) == None
  {
    var a := SkipBlanks(s, i);
    if a > j {
      SkipBlanksSkipped(s, i, j);
    }
    NotFence(s, a);
  }

  /** No closing match starts in a stretch without backticks whose last character is not
      a newline. */
  lemma NoCloseFence(s: string, i: nat, j: nat)
    requires i < j <= |s| && s[j - 1] != '\n'
    requires forall k :: i <= k < j ==> s[k] != '`'
    ensures CloseFenceAt(s, i) == None
  {
    var a := SkipNewlines(s, i);
    if a >= j {
      SkipNewlinesSkipped(s, i, j - 1);
    }
    NotFence(s, a);
  }

  predicate FenceTag(tag: string)
  {
    tag == [] || Lower(tag) == "json" || Lower(tag) == "ts"
  }

  /** The body of a fenced block: no backticks, and not starting or ending with a
      newline. */
  predicate FenceBody(body: string)
  {
    |body| > 0 && body[0] != '\n' && body[|body| - 1] != '\n' &&
    forall k :: 0 <= k < |body| ==> body[k] != '`'
  }

  lemma SkipTagOf(s: string, tag: string)
    requires FenceTag(tag) && |s| > 3 + |tag| && s[3..3 + |tag|] == tag && s[3 + |tag|] == '\n'
    ensures SkipTag(s, 3) == 3 + |tag|
  {
    if tag != [] {
      assert s[3] == tag[0] && s[4] == tag[1];
      if Lower(tag) == "json" {
        assert s[5] == tag[2] && s[6] == tag[3];
        assert Lower(tag)[0] == 'j' && Lower(tag)[1] == 's' && Lower(tag)[2] == 'o' && Lower(tag)[3] == 'n';
      } else {
        assert Lower(tag)[0] == 't' && Lower(tag)[1] == 's';
      }
    }
  }

  /** The opening fence line of a block is one match, ending where the body starts. */
  lemma OpenFenceAtStart(tag: string, body: string)
    requires FenceTag(tag) && FenceBody(body)
    ensures var s := "```" + tag + "\n" + body + "\n```";
            OpenFenceAt(s, 0) == Some(4 + |tag|)
  {
    var s := "```" + tag + "\n" + body + "\n```";
    var h := 4 + |tag|;
    assert s[..3] == "```" && s[3..3 + |tag|] == tag && s[h - 1] == '\n' && s[h] == body[0];
    assert IsFence(s, 0);
    assert SkipBlanks(s, 0) == 0;
    SkipTagOf(s, tag);
    assert SkipBlanks(s, h - 1) == h - 1;
    assert SkipNewlines(s, h) == h;
    assert SkipNewlines(s, h - 1) == h;
  }

  /** Nothing in the body is an opening match. */
  lemma OpenFenceInBody(tag: string, body: string)
    requires FenceTag(tag) && FenceBody(body)
    ensures var s := "```" + tag + "\n" + body + "\n```";
            forall k :: 4 + |tag| <= k < 4 + |tag| + |body| ==> OpenFenceAt(s, k) == None
  {
    var s := "```" + tag + "\n" + body + "\n```";
    var h := 4 + |tag|;
    var j := h + |body|;
    assert s[h..j] == body && s[j] == '\n';
    forall k | h <= k < j ensures OpenFenceAt(s, k) == None {
      NoOpenFence(s, k, j);
    }
  }

  /** The closing fence of a block is no opening match. */
  lemma OpenFenceAtEnd(tag: string, body: string)
    requires FenceTag(tag) && FenceBody(body)
    ensures var s := "```" + tag + "\n" + body + "\n```";
            var j := 4 + |tag| + |body|;
            forall k :: j <= k < |s| ==> OpenFenceAt(s, k) == None
  {
    var s := "```" + tag + "\n" + body + "\n```";
    var j := 4 + |tag| + |body|;
    assert s[j - 1] == body[|body| - 1] && s[j] == '\n' && s[j + 1..] == "```";
    assert SkipTag(s, j + 4) == j + 4;
  }

  /** A fenced block, its opening line optionally tagged json or ts in any case, loses
      its opening line to the opening pattern. */
  lemma OpeningFenceRemoved(tag: string, body: string)
    requires FenceTag(tag) && FenceBody(body)
    ensures var s := "```" + tag + "\n" + body + "\n```";
            SubFrom(s, 0, OpeningMatches(s)) == body + "\n```"
  {
    var s := "```" + tag + "\n" + body + "\n```";
    var h := 4 + |tag|;
    var j := h + |body|;
    var m := OpeningMatches(s);
    assert SubFrom(s, 0, m) == SubFrom(s, h, m) by {
      OpenFenceAtStart(tag, body);
      assert m(0) == Some(h);
    }
    assert SubFrom(s, h, m) == s[h..|s|] + SubFrom(s, |s|, m) by {
      OpenFenceInBody(tag, body);
      OpenFenceAtEnd(tag, body);
      assert forall k :: h <= k < |s| ==> m(k).None?;
      SubFromKeeps(s, h, |s|, m);
    }
    assert s[h..|s|] == body + "\n```";
  }

  /** What is left then loses its closing fence to the closing pattern. */
  lemma ClosingFenceRemoved(body: string)
    requires FenceBody(body)
    ensures var s := body + "\n```";
            SubFrom(s, 0, ClosingMatches(s)) == body
  {
    var s := body + "\n```";
    var j := |body|;
    var m := ClosingMatches(s);
    assert s[..j] == body && s[j - 1] != '\n';
    forall k | 0 <= k < j ensures m(k).None? {
      NoCloseFence(s, k, j);
    }
    SubFromKeeps(s, 0, j, m);
    assert s[j] == '\n' && s[j + 1..] == "```";
    assert IsFence(s, j + 1);
    assert CloseFenceAt(s, j) == Some(|s|);
  }

  /** A fenced block reaches the bracket scan as its stripped body. */
  lemma FencedBlockUnfenced(tag: string, body: string)
    requires FenceTag(tag) && FenceBody(body)
    ensures Unfenced("```" + tag + "\n" + body + "\n```") == Strip(body)
  {
    var s := "```" + tag + "\n" + body + "\n```";
    StripOfTrimmed(s);
    assert "```" <= s;
    OpeningFenceRemoved(tag, body);
    ClosingFenceRemoved(body);
  }

  /** `repair_json_output(content)`: the unfenced text after the bracket scan, replaced by
      the JSON of what `json_repair.loads` makes of it when that is an object or array and
      both steps succeed. */
  function RepairJsonOutput(content: string, repairLoads: string -> Option<Value>,
                            dumps: Value -> Result<string, string>): (r: string)
    ensures Strip(content) == [] ==> r == []
  {
    var c := Strip(content);
    if c == [] then c
    else
      var extracted := ExtractJson(Unfenced(c));
      match repairLoads(extracted)
      case Some(v) =>
        if !(v.Dict? || v.List?) then extracted
        else (match dumps(v)
              case Ok(text) => text
              case Err(_) => extracted)
      case None => extracted
  }

  /** Text that is not JSON reaches the caller as the bracket scan left it. */
  lemma RepairJsonOutputFallback(content: string, repairLoads: string -> Option<Value>,
                                 dumps: Value -> Result<string, string>)
    requires Strip(content) != []
    requires var x := ExtractJson(Unfenced(content));
             repairLoads(x).None? || !(repairLoads(x).value.Dict? || repairLoads(x).value.List?)
    ensures RepairJsonOutput(content, repairLoads, dumps) == ExtractJson(Unfenced(content))
  {
    StripIdempotent(content);
  }

  // sanitize_tool_response

  /** `[\x00-\x08\x0B-\x0C\x0E-\x1F\x7F-\x9F]`: C0 and C1 controls other than tab,
      newline and carriage return. */
  predicate IsGarbage(c: char)
  {
    var k := c as int;
    0 <= k <= 8 || 11 <= k <= 12 || 14 <= k <= 31 || 127 <= k <= 159
  }

  /** `sanitize_tool_response(content, max_length)`. */
  function SanitizeToolResponse(content: string, maxLength: int): (r: string)
  {
    if content == [] then content
    else
      var c := Strip(content);
      var c1 := if StartsWith(c, "{") || StartsWith(c, "[") then ExtractJson(c) else c;
      Filter(Truncated(c1, maxLength), x => !IsGarbage(x))
  }

  /** Text that sanitising leaves alone: no surrounding whitespace, within the limit, not
      opening a JSON value, and free of control garbage. */
  predicate CleanShortText(content: string, maxLength: int)
  {
    (content == [] || (!IsSpace(content[0]) && !IsSpace(content[|content| - 1]))) &&
    |content| <= maxLength && !StartsWith(content, "{") && !StartsWith(content, "[") &&
    forall i :: 0 <= i < |content| ==> !IsGarbage(content[i])
  }

  /** The response has no control garbage, is at most three characters over a
      non-negative limit, and a clean, stripped, short text that does not open a JSON
      value comes back as it was. */
  lemma SanitizeToolResponseSpec(content: string, maxLength: int)
    ensures var r := SanitizeToolResponse(content, maxLength);
            (forall i :: 0 <= i < |r| ==> !IsGarbage(r[i])) &&
            (maxLength >= 0 ==> |r| <= maxLength + 3) &&
            (content == [] ==> r == []) &&
            (CleanShortText(content, maxLength) ==> r == content)
  {
    if CleanShortText(content, maxLength) && content != [] {
      StripOfTrimmed(content);
    }
  }

  /** JSON with trailing tokens is cut back to the last balancing closer. */
  lemma SanitizeToolResponseJson(content: string, maxLength: int)
    requires StartsWith(Strip(content), "{") || StartsWith(Strip(content), "[")
    requires |ExtractJson(content)| <= maxLength
    requires forall i :: 0 <= i < |Strip(content)| ==> !IsGarbage(Strip(content)[i])
    ensures SanitizeToolResponse(content, maxLength) == ExtractJson(content)
  {
    StripIdempotent(content);
    assert ExtractJson(Strip(content)) == ExtractJson(content);
    var r := ExtractJson(content);
    assert forall i :: 0 <= i < |r| ==> r[i] == Strip(content)[i];
  }
}
