// Citation extraction from agent transcripts (citations/extractor.py): search hits and
// crawl results found in tool messages become citation dicts, deduplicated by URL, and
// batches of citation dicts are merged by relevance score.
module CitationExtraction {
  import opened Wrappers
  import opened Strings
  import opened Values
  import opened Messages

  /** A citation as the extractor hands it on: an insertion-ordered dict. */
  type CitationDict = seq<(string, Value)>

  /** The foreign parsers the extractor calls: `json.loads` (`None` for a decode error),
      `urlparse(url).netloc` (`None` when parsing raises), and the first match's group 1 of
      the four title patterns (`None` when nothing matches): an HTML `<title>` element, a
      level-1 Markdown heading, a level 2-6 heading, and a JSON/YAML `title` field. */
  datatype Parsers = Parsers(
    loads: string -> Option<Value>,
    authority: string -> Option<string>,
    htmlTitle: string -> Option<string>,
    h1Title: string -> Option<string>,
    headingTitle: string -> Option<string>,
    fieldTitle: string -> Option<string>)

  const SearchToolNames: seq<string> :=
    ["web_search", "tavily_search", "duckduckgo_search", "brave_search", "searx_search"]
  const CrawlToolNames: seq<string> := ["crawl_tool", "crawl", "jina_crawl"]

  // _extract_domain

  predicate IsAsciiAlnum(c: char)
  {
    'a' <= c <= 'z' || 'A' <= c <= 'Z' || '0' <= c <= '9'
  }

  /** One label of the fallback hostname pattern: 1 to 63 letters, digits or hyphens,
      beginning and ending with a letter or digit. */
  predicate IsLabel(l: string)
  {
    1 <= |l| <= 63 && IsAsciiAlnum(l[0]) && IsAsciiAlnum(l[|l| - 1]) &&
    forall i :: 0 <= i < |l| ==> IsAsciiAlnum(l[i]) || l[i] == '-'
  }

  /** Labels separated by single dots. */
  predicate IsHostname(h: string)
  {
    forall l :: l in Split(h, ".") ==> IsLabel(l)
  }

  /** The captured group of the fallback pattern: a hostname, optionally `:` and a port. */
  predicate IsHostPort(p: string)
  {
    match Find(p, ":")
    case None => IsHostname(p)
    case Some(i) => IsHostname(p[..i]) && IsDigits(p[i + 1..])
  }

  predicate IsDelim(c: char)
  {
    c == '/' || c == '?' || c == '#'
  }

  /** The position of the first `/`, `?` or `#`. */
  function FirstDelim(s: string): (r: Option<nat>)
    ensures r.Some? ==> r.value < |s| && IsDelim(s[r.value])
    ensures forall i :: 0 <= i < |s| && (r.None? || i < r.value) ==> !IsDelim(s[i])
  {
    if |s| == 0 then None
    else if IsDelim(s[0]) then Some(0)
    else match FirstDelim(s[1..])
      case None => None
      case Some(i) => Some(i + 1)
  }

  /** Where the captured group must end for `(?:[/?#]|$)` to match after it: at the first
      delimiter, or else at the end of the text, which `$` also finds just before a final
      newline. The group itself holds no delimiter and no newline, so no other end works. */
  function HostEnd(url: string): (k: nat)
    ensures k <= |url|
  {
    match FirstDelim(url)
    case Some(i) => i
    case None => if |url| > 0 && url[|url| - 1] == '\n' then |url| - 1 else |url|
  }

  /** The fallback `re.match` of a leading `hostname[:port]`. */
  function HostPrefix(url: string): (r: Option<string>)
  {
    var k := HostEnd(url);
    if IsHostPort(url[..k]) then Some(url[..k]) else None
  }

  /** `_extract_domain(url)`: the parsed authority when it is non-empty, else the leading
      `hostname[:port]`, else the empty string. It never fails. */
  function ExtractDomain(url: string, authority: string -> Option<string>): (r: string)
  {
    if url == [] then []
    else if authority(url).Some? && authority(url).value != [] then authority(url).value
    else HostPrefix(url).GetOr([])
  }

  /** The three outcomes of `_extract_domain`. */
  lemma ExtractDomainCases(url: string, authority: string -> Option<string>)
    ensures url == [] ==> ExtractDomain(url, authority) == []
    ensures url != [] && authority(url).Some? && authority(url).value != [] ==>
              ExtractDomain(url, authority) == authority(url).value
    ensures var r := ExtractDomain(url, authority);
            url != [] && (authority(url).None? || authority(url).value == []) ==>
              (r == [] || (r <= url && IsHostPort(r))) &&
              (forall i :: 0 <= i < |r| ==> !IsDelim(r[i]))
  {
    var k := HostEnd(url);
    assert forall i :: 0 <= i < k ==> !IsDelim(url[i]);
  }

  /** A URL without a scheme that begins with a valid `host[:port]` followed by a path,
      query or fragment yields exactly that host. */
  lemma ExtractDomainBareHost(host: string, d: char, rest: string,
                              authority: string -> Option<string>)
    requires IsHostPort(host) && IsDelim(d)
    requires forall i :: 0 <= i < |host| ==> !IsDelim(host[i])
    requires var url := host + [d] + rest; authority(url).None? || authority(url).value == []
    ensures ExtractDomain(host + [d] + rest, authority) == host
  {
    var url := host + [d] + rest;
    assert url[|host|] == d;
    assert url[..|host|] == host;
    assert FirstDelim(url) == Some(|host|);
  }

  // extract_title_from_content

  /** A stripped line the last rule accepts: longer than 10 characters and opening with
      no fence, separator, list bullet or heading mark. */
  predicate Substantial(line: string)
  {
    |line| > 10 && !StartsWith(line, "```") && !StartsWith(line, "---") && !StartsWith(line, "***") &&
    !StartsWith(line, "- ") && !StartsWith(line, "* ") && !StartsWith(line, "+ ") && !StartsWith(line, "#")
  }

  /** A raw line the last rule accepts once stripped. */
  predicate SubstantialLine(raw: string)
  {
    Substantial(Strip(raw))
  }

  /** The index of the first line that, stripped, is substantial (`|lines|` if none). */
  function FirstSubstantial(lines: seq<string>): (r: nat)
    ensures r <= |lines|
    ensures r < |lines| ==> SubstantialLine(lines[r])
    ensures forall j :: 0 <= j < r ==> !SubstantialLine(lines[j])
  {
    var flags := seq(|lines|, i requires 0 <= i < |lines| => SubstantialLine(lines[i]));
    assert forall j :: 0 <= j < |lines| ==> flags[j] == SubstantialLine(lines[j]);
    match FirstTrue(flags)
    case Some(i) => i
    case None => |lines|
  }

  /** A pattern's group, stripped; the empty string when the pattern did not match. */
  function Group(o: Option<string>): string
  {
    if o.Some? then Strip(o.value) else []
  }

  /** `extract_title_from_content(content, max_length)`: the first rule that yields a
      title wins (HTML title, level-1 heading, other heading, a `title` field longer than
      three characters, first substantial line), cut to `max_length`; "Untitled" when
      the content is empty or no rule applies. */
  function ExtractTitle(content: string, maxLength: int, ps: Parsers): (r: string)
  {
    if content == [] then "Untitled"
    else if Group(ps.htmlTitle(content)) != [] then Take(Group(ps.htmlTitle(content)), maxLength)
    else if Group(ps.h1Title(content)) != [] then Take(Group(ps.h1Title(content)), maxLength)
    else if Group(ps.headingTitle(content)) != [] then Take(Group(ps.headingTitle(content)), maxLength)
    else if |Group(ps.fieldTitle(content))| > 3 then Take(Group(ps.fieldTitle(content)), maxLength)
    else
      var lines := Split(content, "\n");
      var i := FirstSubstantial(lines);
      if i < |lines| then Take(Strip(lines[i]), maxLength) else "Untitled"
  }

  /** A title is "Untitled" or a candidate cut to `max_length`; for a positive limit it
      is non-empty and starts with a non-space character, and it is never longer than
      the limit (or than "Untitled"). */
  lemma ExtractTitleShape(content: string, maxLength: int, ps: Parsers)
    ensures var r := ExtractTitle(content, maxLength, ps);
            (r == "Untitled" ||
             exists t :: t != [] && !IsSpace(t[0]) && r == Take(t, maxLength)) &&
            (maxLength > 0 ==> r != [] && !IsSpace(r[0])) &&
            (maxLength >= 0 ==> |r| <= maxLength || r == "Untitled")
  {
    var r := ExtractTitle(content, maxLength, ps);
    assert !IsSpace("Untitled"[0]);
    if content == [] {
    } else if Group(ps.htmlTitle(content)) != [] {
      CandidateShape(Group(ps.htmlTitle(content)), maxLength);
    } else if Group(ps.h1Title(content)) != [] {
      CandidateShape(Group(ps.h1Title(content)), maxLength);
    } else if Group(ps.headingTitle(content)) != [] {
      CandidateShape(Group(ps.headingTitle(content)), maxLength);
    } else if |Group(ps.fieldTitle(content))| > 3 {
      CandidateShape(Group(ps.fieldTitle(content)), maxLength);
    } else {
      var lines := Split(content, "\n");
      var i := FirstSubstantial(lines);
      if i < |lines| {
        CandidateShape(Strip(lines[i]), maxLength);
      }
    }
  }

  /** A non-empty candidate that starts with a non-space character, cut to the limit. */
  lemma CandidateShape(t: string, maxLength: int)
    requires t != [] && !IsSpace(t[0])
    ensures exists t' :: t' != [] && !IsSpace(t'[0]) && Take(t, maxLength) == Take(t', maxLength)
    ensures maxLength > 0 ==> Take(t, maxLength) != [] && !IsSpace(Take(t, maxLength)[0])
    ensures maxLength >= 0 ==> |Take(t, maxLength)| <= maxLength
  {
    var r := Take(t, maxLength);
    if maxLength > 0 {
      assert r[0] == t[0];
    }
  }

  /** When no pattern matches, the title is the first substantial line. */
  lemma ExtractTitleFromLines(content: string, maxLength: int, ps: Parsers, i: nat)
    requires content != [] && Group(ps.htmlTitle(content)) == [] && Group(ps.h1Title(content)) == []
    requires Group(ps.headingTitle(content)) == [] && |Group(ps.fieldTitle(content))| <= 3
    requires var lines := Split(content, "\n");
             i < |lines| && SubstantialLine(lines[i]) && forall j :: 0 <= j < i ==> !SubstantialLine(lines[j])
    ensures ExtractTitle(content, maxLength, ps) == Take(Strip(Split(content, "\n")[i]), maxLength)
  {
    var lines := Split(content, "\n");
    var k := FirstSubstantial(lines);
    assert k == i;
  }

  // _result_to_citation, _extract_from_search_results

  /** `(v or "")[:n]`: a falsy value gives "", a string or list is sliced, anything else
      cannot be sliced. */
  function SliceOrEmpty(v: Value, n: nat): (r: Result<Value, string>)
  {
    if !Truthy(v) then Ok(Str([]))
    else match v
      case Str(s) => Ok(Str(Take(s, n)))
      case List(xs) => Ok(List(if |xs| <= n then xs else xs[..n]))
      case _ => Err("TypeError: object is not subscriptable")
  }

  /** `citation.get("url", "")`. */
  function UrlOf(c: CitationDict): Value
  {
    Lookup(c, "url").GetOr(Str([]))
  }

  const SearchCitationKeys: seq<string> :=
    ["url", "title", "description", "content_snippet", "relevance_score", "domain", "accessed_at",
     "source_type"]
  const CrawlCitationKeys: seq<string> :=
    ["url", "title", "description", "content_snippet", "raw_content", "domain", "source_type"]

  lemma CitationKeysDistinct()
    ensures Distinct(SearchCitationKeys) && Distinct(CrawlCitationKeys)
  {
  }

  /** Each key of a search-hit citation finds its own value. */
  lemma SearchCitationLookups(vs: seq<Value>)
    requires |vs| == |SearchCitationKeys|
    ensures var c := Zip(SearchCitationKeys, vs);
            Keys(c) == SearchCitationKeys && Lookup(c, "url") == Some(vs[0]) &&
            Lookup(c, "title") == Some(vs[1]) && Lookup(c, "description") == Some(vs[2]) &&
            Lookup(c, "content_snippet") == Some(vs[3]) && Lookup(c, "relevance_score") == Some(vs[4]) &&
            Lookup(c, "domain") == Some(vs[5]) && Lookup(c, "accessed_at") == Some(vs[6]) &&
            Lookup(c, "source_type") == Some(vs[7])
  {
    CitationKeysDistinct();
    LookupZipAll(SearchCitationKeys, vs);
    KeysIndex(Zip(SearchCitationKeys, vs));
  }

  /** Each key of a crawl citation finds its own value. */
  lemma CrawlCitationLookups(vs: seq<Value>)
    requires |vs| == |CrawlCitationKeys|
    ensures var c := Zip(CrawlCitationKeys, vs);
            Keys(c) == CrawlCitationKeys && Lookup(c, "url") == Some(vs[0]) &&
            Lookup(c, "title") == Some(vs[1]) && Lookup(c, "description") == Some(vs[2]) &&
            Lookup(c, "content_snippet") == Some(vs[3]) && Lookup(c, "raw_content") == Some(vs[4]) &&
            Lookup(c, "domain") == Some(vs[5]) && Lookup(c, "source_type") == Some(vs[6])
  {
    CitationKeysDistinct();
    LookupZipAll(CrawlCitationKeys, vs);
    KeysIndex(Zip(CrawlCitationKeys, vs));
  }

  /** `_result_to_citation(result)`: `None` for a hit without a URL; the domain lookup
      fails on a URL that is not a string. */
  function ResultToCitation(result: CitationDict, ps: Parsers): (r: Result<Option<CitationDict>, string>)
  {
    var url := UrlOf(result);
    if !Truthy(url) then Ok(None)
    else
      var snippet :- SliceOrEmpty(Lookup(result, "content").GetOr(Str([])), 500);
      if !url.Str? then Err("TypeError: expected string or bytes-like object")
      else
        Ok(Some(Zip(SearchCitationKeys,
                    [url, Lookup(result, "title").GetOr(Str("Untitled")),
                     Lookup(result, "content").GetOr(Str([])), snippet,
                     Lookup(result, "score").GetOr(Num(0.0)), Str(ExtractDomain(url.s, ps.authority)),
                     Null, Str("web_search")])))
  }

  /** The fields of a search-hit citation. */
  lemma ResultToCitationFields(result: CitationDict, ps: Parsers)
    ensures var r := ResultToCitation(result, ps);
            r.Ok? && r.value.Some? ==>
              var c := r.value.value;
              var content := Lookup(result, "content").GetOr(Str([]));
              UrlOf(result).Str? && UrlOf(result).s != [] && UrlOf(c) == UrlOf(result) &&
              Keys(c) == SearchCitationKeys &&
              Lookup(c, "title") == Some(Lookup(result, "title").GetOr(Str("Untitled"))) &&
              Lookup(c, "description") == Some(content) &&
              Lookup(c, "relevance_score") == Some(Lookup(result, "score").GetOr(Num(0.0))) &&
              Lookup(c, "domain") == Some(Str(ExtractDomain(UrlOf(result).s, ps.authority))) &&
              Lookup(c, "source_type") == Some(Str("web_search")) &&
              (content.Str? ==> Lookup(c, "content_snippet") == Some(Str(Take(content.s, 500))))
    ensures !Truthy(UrlOf(result)) ==> ResultToCitation(result, ps) == Ok(None)
  {
    var r := ResultToCitation(result, ps);
    if r.Ok? && r.value.Some? {
      var url := UrlOf(result);
      var content := Lookup(result, "content").GetOr(Str([]));
      var snippet := SliceOrEmpty(content, 500).value;
      SearchCitationLookups([url, Lookup(result, "title").GetOr(Str("Untitled")), content, snippet,
                             Lookup(result, "score").GetOr(Num(0.0)), Str(ExtractDomain(url.s, ps.authority)),
                             Null, Str("web_search")]);
    }
  }

  /** The loop over a list of hits: dicts not typed "image_url" are converted, and hits
      without a URL are dropped. */
  function SearchHits(items: seq<Value>, ps: Parsers): (r: Result<seq<CitationDict>, string>)
  {
    if |items| == 0 then Ok([])
    else
      var init :- SearchHits(items[..|items| - 1], ps);
      var x := items[|items| - 1];
      if x.Dict? && Lookup(x.entries, "type") != Some(Str("image_url")) then
        var c :- ResultToCitation(x.entries, ps);
        Ok(init + (if c.Some? then [c.value] else []))
      else Ok(init)
  }

  /** Each citation from a list of hits comes from a dict hit, not typed "image_url",
      with a non-empty string URL; and every such hit gives one (unless the batch fails). */
  lemma {:induction false} SearchHitsSpec(items: seq<Value>, ps: Parsers)
    ensures var r := SearchHits(items, ps);
            r.Ok? ==> |r.value| <= |items| &&
                      forall c :: c in r.value ==> UrlOf(c).Str? && UrlOf(c).s != []
  {
    if |items| > 0 {
      SearchHitsSpec(items[..|items| - 1], ps);
      var x := items[|items| - 1];
      if x.Dict? {
        ResultToCitationFields(x.entries, ps);
      }
    }
  }

  /** Hits of type "image_url" and hits without a URL contribute nothing. */
  lemma SearchHitsSkip(items: seq<Value>, x: Value, ps: Parsers)
    requires !x.Dict? || Lookup(x.entries, "type") == Some(Str("image_url")) || !Truthy(UrlOf(x.entries))
    ensures SearchHits(items + [x], ps) == SearchHits(items, ps)
  {
    assert (items + [x])[..|items|] == items;
    var init := SearchHits(items, ps);
    if init.Ok? { assert init.value + [] == init.value; }
    if x.Dict? { ResultToCitationFields(x.entries, ps); }
  }

  /** `_extract_from_search_results(data)`: a list of hits, or a dict whose "results"
      are iterated (a dict with "error" gives nothing). Iterating "results" fails when it
      is null, a number or a boolean. */
  function FromSearchResults(data: Value, ps: Parsers): (r: Result<seq<CitationDict>, string>)
  {
    match data
    case List(items) => SearchHits(items, ps)
    case Dict(es) =>
      if Lookup(es, "error").Some? then Ok([])
      else (match Lookup(es, "results").GetOr(List([]))
        case List(items) => SearchHits(items, ps)
        case Dict(_) => Ok([])
        case Str(_) => Ok([])
        case _ => Err("TypeError: object is not iterable"))
    case _ => Ok([])
  }

  /** A search payload carrying "error" yields no citations. */
  lemma FromSearchResultsError(es: CitationDict, ps: Parsers)
    requires Lookup(es, "error").Some?
    ensures FromSearchResults(Dict(es), ps) == Ok([])
  {
  }

  // _extract_from_crawl_result

  /** `_extract_from_crawl_result(data)`: `None` unless `data` is a dict with a URL. The
      title comes from the crawled content; description and snippet are its first 300
      and 500 characters. Non-string content fails in the title patterns, a non-string
      URL in the domain lookup. */
  function CrawlToCitation(data: Value, ps: Parsers): (r: Result<Option<CitationDict>, string>)
  {
    if !data.Dict? then Ok(None)
    else
      var url := UrlOf(data.entries);
      if !Truthy(url) then Ok(None)
      else
        var content := Lookup(data.entries, "crawled_content").GetOr(Str([]));
        if Truthy(content) && !content.Str? then Err("TypeError: expected string or bytes-like object")
        else if !url.Str? then Err("TypeError: expected string or bytes-like object")
        else
          var text := if content.Str? then content.s else [];
          Ok(Some(Zip(CrawlCitationKeys,
                      [url, Str(ExtractTitle(text, 200, ps)), Str(Take(text, 300)), Str(Take(text, 500)),
                       content, Str(ExtractDomain(url.s, ps.authority)), Str("crawl")])))
  }

  lemma CrawlToCitationFields(data: Value, ps: Parsers)
    ensures var r := CrawlToCitation(data, ps);
            r.Ok? && r.value.Some? ==>
              var c := r.value.value;
              var content := Lookup(data.entries, "crawled_content").GetOr(Str([]));
              var text := if content.Str? then content.s else [];
              data.Dict? && UrlOf(data.entries).Str? && UrlOf(data.entries).s != [] &&
              UrlOf(c) == UrlOf(data.entries) && Keys(c) == CrawlCitationKeys &&
              Lookup(c, "title") == Some(Str(ExtractTitle(text, 200, ps))) &&
              Lookup(c, "description") == Some(Str(Take(text, 300))) &&
              Lookup(c, "content_snippet") == Some(Str(Take(text, 500))) &&
              Lookup(c, "raw_content") == Some(content) &&
              Lookup(c, "domain") == Some(Str(ExtractDomain(UrlOf(data.entries).s, ps.authority))) &&
              Lookup(c, "source_type") == Some(Str("crawl"))
    ensures !data.Dict? || !Truthy(UrlOf(data.entries)) ==> CrawlToCitation(data, ps) == Ok(None)
  {
    var r := CrawlToCitation(data, ps);
    if r.Ok? && r.value.Some? {
      var url := UrlOf(data.entries);
      var content := Lookup(data.entries, "crawled_content").GetOr(Str([]));
      var text := if content.Str? then content.s else [];
      CrawlCitationLookups([url, Str(ExtractTitle(text, 200, ps)), Str(Take(text, 300)), Str(Take(text, 500)),
                            content, Str(ExtractDomain(url.s, ps.authority)), Str("crawl")]);
    }
  }

  // _extract_from_tool_message

  function OptionList(o: Option<CitationDict>): seq<CitationDict>
  {
    if o.Some? then [o.value] else []
  }

  /** `_extract_from_tool_message(message)`: empty content or content that is not JSON
      gives nothing; the tool name picks search or crawl extraction, and any other name
      falls back to the shape of the payload. */
  function FromToolMessage(m: Message, ps: Parsers): (r: Result<seq<CitationDict>, string>)
  {
    if !Truthy(m.content) then Ok([])
    else
      var parsed := if m.content.Str? then ps.loads(m.content.s) else Some(m.content);
      if parsed.None? then Ok([])
      else
        var data := parsed.value;
        var tool := Lower(NameOf(m));
        if tool in SearchToolNames then FromSearchResults(data, ps)
        else if tool in CrawlToolNames then
          var c :- CrawlToCitation(data, ps);
          Ok(OptionList(c))
        else if data.List? && |data.items| > 0 then
          if data.items[0].Dict? && Has(data.items[0], "url") then FromSearchResults(data, ps)
          else Ok([])
        else if data.Dict? && Has(data, "url") && (Has(data, "crawled_content") || Has(data, "content")) then
          var c :- CrawlToCitation(data, ps);
          Ok(OptionList(c))
        else Ok([])
  }

  /** Empty content, or a string that does not parse as JSON, gives no citations and no
      error. */
  lemma FromToolMessageUnparsed(m: Message, ps: Parsers)
    requires !Truthy(m.content) || (m.content.Str? && ps.loads(m.content.s).None?)
    ensures FromToolMessage(m, ps) == Ok([])
  {
  }

  /** The producer the message is routed to. */
  lemma FromToolMessageRouting(m: Message, ps: Parsers, data: Value)
    requires Truthy(m.content)
    requires (m.content.Str? && ps.loads(m.content.s) == Some(data)) || (!m.content.Str? && data == m.content)
    ensures Lower(NameOf(m)) in SearchToolNames ==> FromToolMessage(m, ps) == FromSearchResults(data, ps)
    ensures Lower(NameOf(m)) in CrawlToolNames ==>
              FromToolMessage(m, ps) == (match CrawlToCitation(data, ps)
                                         case Ok(c) => Ok(OptionList(c))
                                         case Err(e) => Err(e))
    ensures Lower(NameOf(m)) !in SearchToolNames && Lower(NameOf(m)) !in CrawlToolNames &&
            data.List? && |data.items| > 0 && data.items[0].Dict? && Has(data.items[0], "url") ==>
              FromToolMessage(m, ps) == FromSearchResults(data, ps)
    ensures Lower(NameOf(m)) !in SearchToolNames && Lower(NameOf(m)) !in CrawlToolNames &&
            !(data.List? && |data.items| > 0) && data.Dict? && Has(data, "url") &&
            (Has(data, "crawled_content") || Has(data, "content")) ==>
              FromToolMessage(m, ps) == (match CrawlToCitation(data, ps)
                                         case Ok(c) => Ok(OptionList(c))
                                         case Err(e) => Err(e))
  {
  }

  /** Every citation taken from a tool message has a non-empty string URL. */
  lemma FromToolMessageUrls(m: Message, ps: Parsers)
    ensures var r := FromToolMessage(m, ps);
            r.Ok? ==> forall c :: c in r.value ==> UrlOf(c).Str? && UrlOf(c).s != []
  {
    if Truthy(m.content) {
      var parsed := if m.content.Str? then ps.loads(m.content.s) else Some(m.content);
      if parsed.Some? {
        var data := parsed.value;
        CrawlToCitationFields(data, ps);
        FromSearchResultsUrls(data, ps);
      }
    }
  }

  lemma FromSearchResultsUrls(data: Value, ps: Parsers)
    ensures var r := FromSearchResults(data, ps);
            r.Ok? ==> forall c :: c in r.value ==> UrlOf(c).Str? && UrlOf(c).s != []
  {
    match data
    case List(items) => SearchHitsSpec(items, ps);
    case Dict(es) =>
      if Lookup(es, "results").Some? && Lookup(es, "results").value.List? {
        SearchHitsSpec(Lookup(es, "results").value.items, ps);
      }
    case _ =>
  }

  // extract_citations_from_messages

  /** The truthy `url` values of a list of citations. */
  function UrlSet(cs: seq<CitationDict>): set<Value>
  {
    set i | 0 <= i < |cs| && Truthy(UrlOf(cs[i])) :: UrlOf(cs[i])
  }

  lemma UrlSetHas(cs: seq<CitationDict>, i: nat)
    requires i < |cs| && Truthy(UrlOf(cs[i]))
    ensures UrlOf(cs[i]) in UrlSet(cs)
  {
  }

  lemma UrlSetAppend(cs: seq<CitationDict>, c: CitationDict)
    ensures UrlSet(cs + [c]) == UrlSet(cs) + (if Truthy(UrlOf(c)) then {UrlOf(c)} else {})
  {
    var e := cs + [c];
    forall u | u in UrlSet(e) ensures u in UrlSet(cs) + (if Truthy(UrlOf(c)) then {UrlOf(c)} else {}) {
      var i :| 0 <= i < |e| && Truthy(UrlOf(e[i])) && UrlOf(e[i]) == u;
      if i < |cs| { UrlSetHas(cs, i); }
    }
    forall u | u in UrlSet(cs) ensures u in UrlSet(e) {
      var i :| 0 <= i < |cs| && Truthy(UrlOf(cs[i])) && UrlOf(cs[i]) == u;
      assert e[i] == cs[i];
      UrlSetHas(e, i);
    }
    if Truthy(UrlOf(c)) { UrlSetHas(e, |cs|); }
  }

  /** The first-occurrence filter shared by extraction and merging: keeps, in order,
      each citation whose URL is truthy, not in `seen`, and not kept before. */
  function Dedup(seen: set<Value>, cs: seq<CitationDict>): (r: seq<CitationDict>)
    decreases |cs|
  {
    if |cs| == 0 then []
    else
      var d := Dedup(seen, cs[..|cs| - 1]);
      var c := cs[|cs| - 1];
      if Truthy(UrlOf(c)) && UrlOf(c) !in seen && UrlOf(c) !in UrlSet(d) then d + [c] else d
  }

  lemma DedupStep(seen: set<Value>, cs: seq<CitationDict>, c: CitationDict)
    ensures var d := Dedup(seen, cs);
            Dedup(seen, cs + [c]) == if Truthy(UrlOf(c)) && UrlOf(c) !in seen && UrlOf(c) !in UrlSet(d) then d + [c] else d
  {
    assert (cs + [c])[..|cs|] == cs;
  }

  /** The kept citations have truthy URLs outside `seen`, pairwise distinct, and every
      such URL among the input is kept. */
  lemma {:induction false} DedupUrls(seen: set<Value>, cs: seq<CitationDict>)
    ensures var r := Dedup(seen, cs);
            (forall i :: 0 <= i < |r| ==> Truthy(UrlOf(r[i])) && UrlOf(r[i]) !in seen) &&
            (forall i, j :: 0 <= i < j < |r| ==> UrlOf(r[i]) != UrlOf(r[j])) &&
            (forall k :: 0 <= k < |cs| && Truthy(UrlOf(cs[k])) && UrlOf(cs[k]) !in seen ==>
                           UrlOf(cs[k]) in UrlSet(r))
  {
    if |cs| > 0 {
      var init := cs[..|cs| - 1];
      var c := cs[|cs| - 1];
      DedupUrls(seen, init);
      var d := Dedup(seen, init);
      UrlSetAppend(d, c);
      forall i | 0 <= i < |d| ensures UrlOf(d[i]) in UrlSet(d) { UrlSetHas(d, i); }
      forall k | 0 <= k < |cs| - 1 ensures cs[k] == init[k] { }
    }
  }

  /** Where each kept citation sits in the input. */
  ghost function DedupPos(seen: set<Value>, cs: seq<CitationDict>): seq<nat>
    decreases |cs|
  {
    if |cs| == 0 then []
    else
      var d := Dedup(seen, cs[..|cs| - 1]);
      var c := cs[|cs| - 1];
      var p := DedupPos(seen, cs[..|cs| - 1]);
      if Truthy(UrlOf(c)) && UrlOf(c) !in seen && UrlOf(c) !in UrlSet(d) then p + [|cs| - 1] else p
  }

  /** The kept citations are input citations in input order, each the first occurrence of
      its URL. */
  lemma {:induction false} DedupOrder(seen: set<Value>, cs: seq<CitationDict>)
    ensures var r := Dedup(seen, cs);
            var pos := DedupPos(seen, cs);
            |pos| == |r| &&
            (forall i :: 0 <= i < |r| ==> pos[i] < |cs| && r[i] == cs[pos[i]]) &&
            (forall i, j :: 0 <= i < j < |r| ==> pos[i] < pos[j]) &&
            (forall i, k :: 0 <= i < |r| && 0 <= k < pos[i] ==> UrlOf(cs[k]) != UrlOf(r[i]))
  {
    if |cs| > 0 {
      var init := cs[..|cs| - 1];
      DedupOrder(seen, init);
      DedupUrls(seen, init);
      forall k | 0 <= k < |cs| - 1 ensures cs[k] == init[k] { }
    }
  }

  /** The citations of the tool messages, in transcript order; messages of other kinds
      contribute nothing. */
  function Candidates(ms: seq<Message>, ps: Parsers): (r: Result<seq<CitationDict>, string>)
    decreases |ms|
  {
    if |ms| == 0 then Ok([])
    else
      var init :- Candidates(ms[..|ms| - 1], ps);
      var m := ms[|ms| - 1];
      if m.kind.Tool? then
        var cs :- FromToolMessage(m, ps);
        Ok(init + cs)
      else Ok(init)
  }

  /** `extract_citations_from_messages(messages)` as a value: the candidates, first
      occurrence of each URL kept. */
  function ExtractedCitations(ms: seq<Message>, ps: Parsers): Result<seq<CitationDict>, string>
  {
    var cs :- Candidates(ms, ps);
    Ok(Dedup({}, cs))
  }

  /** Once a prefix of the transcript fails, the whole transcript fails the same way. */
  lemma {:induction false} CandidatesErrPrefix(ms: seq<Message>, rest: seq<Message>, ps: Parsers)
    requires Candidates(ms, ps).Err?
    ensures Candidates(ms + rest, ps) == Candidates(ms, ps)
    decreases |rest|
  {
    if |rest| > 0 {
      var init := rest[..|rest| - 1];
      CandidatesErrPrefix(ms, init, ps);
      assert (ms + rest)[..|ms + rest| - 1] == ms + init;
    } else {
      assert ms + rest == ms;
    }
  }

  function ToolMessages(ms: seq<Message>): (r: seq<Message>)
    decreases |ms|
  {
    if |ms| == 0 then []
    else ToolMessages(ms[..|ms| - 1]) + (if ms[|ms| - 1].kind.Tool? then [ms[|ms| - 1]] else [])
  }

  /** Only tool messages matter: dropping every other message changes nothing. */
  lemma {:induction false} CandidatesOnlyTools(ms: seq<Message>, ps: Parsers)
    ensures Candidates(ms, ps) == Candidates(ToolMessages(ms), ps)
    decreases |ms|
  {
    if |ms| > 0 {
      var init := ms[..|ms| - 1];
      CandidatesOnlyTools(init, ps);
      var t := ToolMessages(init);
      var m := ms[|ms| - 1];
      if m.kind.Tool? {
        assert ToolMessages(ms) == t + [m];
        assert (t + [m])[..|t|] == t;
        assert (t + [m])[|t|] == m;
      } else {
        assert ToolMessages(ms) == t;
      }
    }
  }

  /** Every candidate URL is a non-empty string. */
  lemma {:induction false} CandidatesUrls(ms: seq<Message>, ps: Parsers)
    ensures var r := Candidates(ms, ps);
            r.Ok? ==> forall c :: c in r.value ==> UrlOf(c).Str? && UrlOf(c).s != []
    decreases |ms|
  {
    if |ms| > 0 {
      CandidatesUrls(ms[..|ms| - 1], ps);
      FromToolMessageUrls(ms[|ms| - 1], ps);
    }
  }

  /** The extracted citations have pairwise distinct non-empty string URLs, and every URL
      a tool message yields is among them. */
  lemma ExtractedCitationsSpec(ms: seq<Message>, ps: Parsers)
    ensures var r := ExtractedCitations(ms, ps);
            r.Ok? ==>
              (forall i :: 0 <= i < |r.value| ==> UrlOf(r.value[i]).Str? && UrlOf(r.value[i]).s != []) &&
              (forall i, j :: 0 <= i < j < |r.value| ==> UrlOf(r.value[i]) != UrlOf(r.value[j])) &&
              (forall c :: c in Candidates(ms, ps).value ==> UrlOf(c) in UrlSet(r.value))
  {
    var cands := Candidates(ms, ps);
    if cands.Ok? {
      CandidatesUrls(ms, ps);
      DedupUrls({}, cands.value);
      DedupOrder({}, cands.value);
      var r := Dedup({}, cands.value);
      var pos := DedupPos({}, cands.value);
      forall i | 0 <= i < |r| ensures UrlOf(r[i]).Str? && UrlOf(r[i]).s != [] {
        assert r[i] in cands.value;
      }
      forall c | c in cands.value ensures UrlOf(c) in UrlSet(r) {
        var k :| 0 <= k < |cands.value| && cands.value[k] == c;
      }
    }
  }

  /** `extract_citations_from_messages(messages)`: the loop over the transcript with its
      `seen_urls` set. */
  method ExtractCitationsFromMessages(ms: seq<Message>, ps: Parsers) returns (r: Result<seq<CitationDict>, string>)
    ensures r == ExtractedCitations(ms, ps)
  {
    var citations: seq<CitationDict> := [];
    var seenUrls: set<Value> := {};
    ghost var cands: seq<CitationDict> := [];
    for i := 0 to |ms|
      invariant Candidates(ms[..i], ps) == Ok(cands)
      invariant citations == Dedup({}, cands)
      invariant seenUrls == UrlSet(citations)
    {
      assert ms[..i + 1][..i] == ms[..i];
      if ms[i].kind.Tool? {
        var toolCitations := FromToolMessage(ms[i], ps);
        if toolCitations.Err? {
          CandidatesErrPrefix(ms[..i + 1], ms[i + 1..], ps);
          assert ms[..i + 1] + ms[i + 1..] == ms;
          return Err(toolCitations.error);
        }
        var tcs := toolCitations.value;
        citations, seenUrls := AddFresh(cands, citations, seenUrls, tcs);
        cands := cands + tcs;
      }
    }
    assert ms[..|ms|] == ms;
    return Ok(citations);
  }

  /** The inner loop of `extract_citations_from_messages`: one tool message's citations
      pass through the `seen_urls` filter. */
  method AddFresh(ghost cands: seq<CitationDict>, citations: seq<CitationDict>, seenUrls: set<Value>,
                  tcs: seq<CitationDict>)
    returns (citations': seq<CitationDict>, seenUrls': set<Value>)
    requires citations == Dedup({}, cands) && seenUrls == UrlSet(citations)
    ensures citations' == Dedup({}, cands + tcs) && seenUrls' == UrlSet(citations')
  {
    citations', seenUrls' := citations, seenUrls;
    assert cands + tcs[..0] == cands;
    for j := 0 to |tcs|
      invariant citations' == Dedup({}, cands + tcs[..j])
      invariant seenUrls' == UrlSet(citations')
    {
      var citation := tcs[j];
      var url := UrlOf(citation);
      assert cands + tcs[..j + 1] == (cands + tcs[..j]) + [citation];
      DedupStep({}, cands + tcs[..j], citation);
      UrlSetAppend(citations', citation);
      if Truthy(url) && url !in seenUrls' {
        seenUrls' := seenUrls' + {url};
        citations' := citations' + [citation];
      }
    }
    assert tcs[..|tcs|] == tcs;
  }

  // merge_citations

  /** Whether a value can go into a set: lists and dicts cannot. */
  predicate Hashable(v: Value)
  {
    !v.List? && !v.Dict?
  }

  /** `citation.get("relevance_score", 0)`. */
  function ScoreOf(c: CitationDict): Value
  {
    Lookup(c, "relevance_score").GetOr(Num(0.0))
  }

  /** A number or a boolean as Python compares it (`True` is 1). */
  function NumericValue(v: Value): real
    requires v.Num? || v.Bool?
  {
    if v.Num? then v.x else if v.b then 1.0 else 0.0
  }

  /** `a > b` on strings: code-point lexicographic order. */
  function StrGreater(a: string, b: string): bool
  {
    if |a| == 0 then false
    else if |b| == 0 then true
    else if a[0] != b[0] then a[0] > b[0]
    else StrGreater(a[1..], b[1..])
  }

  /** Python's `a > b`: numbers and booleans compare as numbers, strings as strings;
      every other pair raises. */
  function Greater(a: Value, b: Value): Result<bool, string>
  {
    if (a.Num? || a.Bool?) && (b.Num? || b.Bool?) then Ok(NumericValue(a) > NumericValue(b))
    else if a.Str? && b.Str? then Ok(StrGreater(a.s, b.s))
    else Err("TypeError: '>' not supported between these types")
  }

  /** The only keys an update may change. */
  const UpdatedKeys: seq<string> := ["relevance_score", "title", "description", "snippet"]

  /** `updated[key] = citation[key]` when that value is truthy. */
  function PutIfTruthy(x: CitationDict, c: CitationDict, key: string): CitationDict
  {
    var v := Lookup(c, key);
    if v.Some? && Truthy(v.value) then Put(x, key, v.value) else x
  }

  /** The selective update of an existing citation by a better-scored one. */
  function Update(x: CitationDict, c: CitationDict): CitationDict
  {
    var scored := if Lookup(c, "relevance_score").Some? then Put(x, "relevance_score", Lookup(c, "relevance_score").value)
                  else x;
    PutIfTruthy(PutIfTruthy(PutIfTruthy(scored, c, "title"), c, "description"), c, "snippet")
  }

  lemma PutIfTruthyLookup(x: CitationDict, c: CitationDict, key: string, k: string)
    ensures Lookup(PutIfTruthy(x, c, key), k) ==
            if k == key && Lookup(c, key).Some? && Truthy(Lookup(c, key).value) then Lookup(c, key) else Lookup(x, k)
  {
    var v := Lookup(c, key);
    if v.Some? && Truthy(v.value) { PutLookup(x, key, v.value, k); }
  }

  /** What an update does to one key. */
  lemma UpdateLookup(x: CitationDict, c: CitationDict, k: string)
    ensures Lookup(Update(x, c), k) ==
            if k == "relevance_score" && Lookup(c, k).Some? then Lookup(c, k)
            else if k in UpdatedKeys[1..] && Lookup(c, k).Some? && Truthy(Lookup(c, k).value) then Lookup(c, k)
            else Lookup(x, k)
  {
    var scored := if Lookup(c, "relevance_score").Some? then Put(x, "relevance_score", Lookup(c, "relevance_score").value)
                  else x;
    if Lookup(c, "relevance_score").Some? { PutLookup(x, "relevance_score", Lookup(c, "relevance_score").value, k); }
    var t := PutIfTruthy(scored, c, "title");
    var d := PutIfTruthy(t, c, "description");
    PutIfTruthyLookup(scored, c, "title", k);
    PutIfTruthyLookup(t, c, "description", k);
    PutIfTruthyLookup(d, c, "snippet", k);
  }

  /** What an update changes: the score when the new citation carries one, each of title,
      description and "snippet" when the new value is truthy, and nothing else. */
  lemma UpdateFields(x: CitationDict, c: CitationDict)
    ensures forall k :: k !in UpdatedKeys ==> Lookup(Update(x, c), k) == Lookup(x, k)
    ensures Lookup(Update(x, c), "relevance_score") ==
            if Lookup(c, "relevance_score").Some? then Lookup(c, "relevance_score") else Lookup(x, "relevance_score")
    ensures forall k :: k in UpdatedKeys[1..] ==>
              Lookup(Update(x, c), k) ==
              if Lookup(c, k).Some? && Truthy(Lookup(c, k).value) then Lookup(c, k) else Lookup(x, k)
  {
    var rest := UpdatedKeys[1..];
    assert rest == ["title", "description", "snippet"];
    forall k | k !in UpdatedKeys ensures Lookup(Update(x, c), k) == Lookup(x, k) {
      UpdateLookup(x, c, k);
      assert k != "relevance_score" && k !in rest;
    }
    assert "relevance_score" !in rest;
    UpdateLookup(x, c, "relevance_score");
    forall k | k in rest
      ensures Lookup(Update(x, c), k) == if Lookup(c, k).Some? && Truthy(Lookup(c, k).value) then Lookup(c, k) else Lookup(x, k)
    {
      UpdateLookup(x, c, k);
      assert k != "relevance_score";
    }
  }

  /** The position of the first citation whose URL is `url` (the length when there is
      none). */
  function IndexOfUrl(cs: seq<CitationDict>, url: Value): (i: nat)
    ensures i <= |cs|
    ensures i < |cs| ==> UrlOf(cs[i]) == url
    ensures forall k :: 0 <= k < i ==> UrlOf(cs[k]) != url
  {
    if |cs| == 0 || UrlOf(cs[0]) == url then 0
    else
      var k := IndexOfUrl(cs[1..], url);
      assert forall j :: 1 <= j <= k ==> cs[j] == cs[1..][j - 1];
      k + 1
  }

  /** One pass of the loop over the new citations: a fresh truthy URL is appended; a
      known URL updates the first entry carrying it when the new score is strictly
      higher; anything else is dropped. An unhashable URL raises. */
  function MergeOne(result: seq<CitationDict>, c: CitationDict): Result<seq<CitationDict>, string>
  {
    var url := UrlOf(c);
    if !Hashable(url) then Err("TypeError: unhashable type")
    else if Truthy(url) && url !in UrlSet(result) then Ok(result + [c])
    else if url in UrlSet(result) then
      var i := IndexOfUrl(result, url);
      if i == |result| then Ok(result)
      else
        var higher :- Greater(ScoreOf(c), ScoreOf(result[i]));
        Ok(if higher then result[i := Update(result[i], c)] else result)
    else Ok(result)
  }

  function MergeAll(existing: seq<CitationDict>, incoming: seq<CitationDict>): Result<seq<CitationDict>, string>
    decreases |incoming|
  {
    if |incoming| == 0 then Ok(existing)
    else
      var r :- MergeAll(existing, incoming[..|incoming| - 1]);
      MergeOne(r, incoming[|incoming| - 1])
  }

  /** Every truthy URL of a list can be hashed. */
  ghost predicate HashableUrls(cs: seq<CitationDict>)
  {
    forall i :: 0 <= i < |cs| && Truthy(UrlOf(cs[i])) ==> Hashable(UrlOf(cs[i]))
  }

  /** `merge_citations(existing, incoming)` as a value: building `seen_urls` from `existing`
      fails on an unhashable URL, then the new citations are merged one by one. */
  function Merged(existing: seq<CitationDict>, incoming: seq<CitationDict>): Result<seq<CitationDict>, string>
  {
    if exists i :: 0 <= i < |existing| && Truthy(UrlOf(existing[i])) && !Hashable(UrlOf(existing[i])) then
      Err("TypeError: unhashable type")
    else MergeAll(existing, incoming)
  }

  /** Two citations that agree on every key an update leaves alone. */
  ghost predicate SameOutside(x: CitationDict, y: CitationDict)
  {
    forall k :: k !in UpdatedKeys ==> Lookup(x, k) == Lookup(y, k)
  }

  ghost predicate Agree(xs: seq<CitationDict>, ys: seq<CitationDict>)
  {
    |xs| == |ys| && forall i :: 0 <= i < |xs| ==> SameOutside(xs[i], ys[i])
  }

  lemma AgreeUrlSet(xs: seq<CitationDict>, ys: seq<CitationDict>)
    requires Agree(xs, ys)
    ensures forall i :: 0 <= i < |xs| ==> UrlOf(xs[i]) == UrlOf(ys[i])
    ensures UrlSet(xs) == UrlSet(ys)
  {
    assert "url" !in UpdatedKeys;
    forall i | 0 <= i < |xs| ensures UrlOf(xs[i]) == UrlOf(ys[i]) {
      assert Lookup(xs[i], "url") == Lookup(ys[i], "url");
    }
    forall u | u in UrlSet(xs) ensures u in UrlSet(ys) {
      var i :| 0 <= i < |xs| && Truthy(UrlOf(xs[i])) && UrlOf(xs[i]) == u;
      UrlSetHas(ys, i);
    }
    forall u | u in UrlSet(ys) ensures u in UrlSet(xs) {
      var i :| 0 <= i < |ys| && Truthy(UrlOf(ys[i])) && UrlOf(ys[i]) == u;
      UrlSetHas(xs, i);
    }
  }

  lemma UrlSetConcat(a: seq<CitationDict>, b: seq<CitationDict>)
    ensures UrlSet(a + b) == UrlSet(a) + UrlSet(b)
  {
    forall u | u in UrlSet(a + b) ensures u in UrlSet(a) + UrlSet(b) {
      var i :| 0 <= i < |a + b| && Truthy(UrlOf((a + b)[i])) && UrlOf((a + b)[i]) == u;
      if i < |a| { UrlSetHas(a, i); } else { UrlSetHas(b, i - |a|); }
    }
    forall u | u in UrlSet(a) ensures u in UrlSet(a + b) {
      var i :| 0 <= i < |a| && Truthy(UrlOf(a[i])) && UrlOf(a[i]) == u;
      UrlSetHas(a + b, i);
    }
    forall u | u in UrlSet(b) ensures u in UrlSet(a + b) {
      var i :| 0 <= i < |b| && Truthy(UrlOf(b[i])) && UrlOf(b[i]) == u;
      UrlSetHas(a + b, |a| + i);
    }
  }

  /** An update keeps every URL, so the URL set and the first position of each URL. */
  lemma UpdateAgree(r: seq<CitationDict>, i: nat, c: CitationDict)
    requires i < |r|
    ensures Agree(r[i := Update(r[i], c)], r)
    ensures UrlSet(r[i := Update(r[i], c)]) == UrlSet(r)
    ensures forall u :: IndexOfUrl(r[i := Update(r[i], c)], u) == IndexOfUrl(r, u)
  {
    var r' := r[i := Update(r[i], c)];
    UpdateFields(r[i], c);
    AgreeUrlSet(r', r);
    forall u ensures IndexOfUrl(r', u) == IndexOfUrl(r, u) { IndexOfUrlSameUrls(r', r, u); }
  }

  lemma IndexOfUrlSameUrls(a: seq<CitationDict>, b: seq<CitationDict>, u: Value)
    requires |a| == |b| && forall m :: 0 <= m < |a| ==> UrlOf(a[m]) == UrlOf(b[m])
    ensures IndexOfUrl(a, u) == IndexOfUrl(b, u)
  {
  }

  /** A URL in the set has a first position. */
  lemma IndexOfUrlFound(cs: seq<CitationDict>, u: Value)
    requires u in UrlSet(cs)
    ensures IndexOfUrl(cs, u) < |cs|
  {
    var i :| 0 <= i < |cs| && Truthy(UrlOf(cs[i])) && UrlOf(cs[i]) == u;
  }

  /** After merging, the existing entries keep their places and agree with their old
      selves outside the updated keys; the entries after them are, in order, the first
      occurrences of the new truthy URLs not already present, up to the same keys. */
  lemma {:induction false} MergeAllShape(existing: seq<CitationDict>, incoming: seq<CitationDict>)
    ensures var r := MergeAll(existing, incoming);
            r.Ok? ==> Agree(r.value, existing + Dedup(UrlSet(existing), incoming))
    decreases |incoming|
  {
    if |incoming| > 0 {
      var init := incoming[..|incoming| - 1];
      var c := incoming[|incoming| - 1];
      MergeAllShape(existing, init);
      var r0 := MergeAll(existing, init);
      if r0.Ok? {
        var d := Dedup(UrlSet(existing), init);
        UrlSetConcat(existing, d);
        MergeOneAgree(r0.value, existing + d, c);
        assert (existing + d) + [c] == existing + (d + [c]);
      }
    }
  }

  /** One merge step keeps a list in agreement with its reference, which grows by the new
      citation exactly when its URL is truthy and new. */
  lemma MergeOneAgree(r: seq<CitationDict>, base: seq<CitationDict>, c: CitationDict)
    requires Agree(r, base)
    ensures var m := MergeOne(r, c);
            m.Ok? ==> Agree(m.value, if Truthy(UrlOf(c)) && UrlOf(c) !in UrlSet(base) then base + [c] else base)
  {
    AgreeUrlSet(r, base);
    var url := UrlOf(c);
    if Hashable(url) && url in UrlSet(r) {
      var i := IndexOfUrl(r, url);
      if i < |r| {
        UpdateFields(r[i], c);
      }
    }
  }

  /** Scores are absent or non-negative numbers. */
  ghost predicate ScoresOk(cs: seq<CitationDict>)
  {
    forall i :: 0 <= i < |cs| ==> ScoreOf(cs[i]).Num? && ScoreOf(cs[i]).x >= 0.0
  }

  /** `r` already holds every citation of `p`: its URL hashes and, when truthy, the
      first entry carrying it scores at least as high. */
  ghost predicate Dominates(r: seq<CitationDict>, p: seq<CitationDict>)
  {
    forall k :: 0 <= k < |p| ==>
      Hashable(UrlOf(p[k])) &&
      (Truthy(UrlOf(p[k])) ==>
         IndexOfUrl(r, UrlOf(p[k])) < |r| &&
         Greater(ScoreOf(p[k]), ScoreOf(r[IndexOfUrl(r, UrlOf(p[k]))])) == Ok(false))
  }

  lemma DominatesAppend(r: seq<CitationDict>, p: seq<CitationDict>, c: CitationDict)
    requires ScoresOk(r) && ScoresOk([c]) && Dominates(r, p)
    requires Hashable(UrlOf(c)) && Truthy(UrlOf(c)) && UrlOf(c) !in UrlSet(r)
    ensures ScoresOk(r + [c]) && Dominates(r + [c], p + [c])
  {
    var r' := r + [c];
    forall m | 0 <= m < |r| ensures r'[m] == r[m] { }
    forall k | 0 <= k < |p| && Truthy(UrlOf(p[k]))
      ensures IndexOfUrl(r', UrlOf(p[k])) == IndexOfUrl(r, UrlOf(p[k]))
    {
      var u := UrlOf(p[k]);
      assert IndexOfUrl(r, u) < |r|;
    }
    forall m | 0 <= m < |r| ensures UrlOf(r[m]) != UrlOf(c) {
      if Truthy(UrlOf(r[m])) { UrlSetHas(r, m); }
    }
    assert IndexOfUrl(r', UrlOf(c)) == |r| by {
      var i' := IndexOfUrl(r', UrlOf(c));
      assert r'[|r|] == c;
    }
    forall k | 0 <= k < |p| ensures (p + [c])[k] == p[k] { }
    assert (p + [c])[|p|] == c;
    assert ScoresOk(r');
  }

  lemma DominatesUpdate(r: seq<CitationDict>, p: seq<CitationDict>, c: CitationDict, i: nat)
    requires ScoresOk(r) && ScoresOk([c]) && Dominates(r, p)
    requires Hashable(UrlOf(c)) && Truthy(UrlOf(c)) && i == IndexOfUrl(r, UrlOf(c)) && i < |r|
    requires Greater(ScoreOf(c), ScoreOf(r[i])) == Ok(true)
    ensures ScoresOk(r[i := Update(r[i], c)]) && Dominates(r[i := Update(r[i], c)], p + [c])
  {
    var r' := r[i := Update(r[i], c)];
    UpdateAgree(r, i, c);
    UpdateLookup(r[i], c, "relevance_score");
    assert ScoreOf(r'[i]) == ScoreOf(c);
    assert ScoresOk(r') by {
      forall k | 0 <= k < |r'| ensures ScoreOf(r'[k]).Num? && ScoreOf(r'[k]).x >= 0.0 {
        if k != i {
          assert r'[k] == r[k];
        } else {
          assert ScoreOf([c][0]).Num?;
        }
      }
    }
    var q := p + [c];
    forall k | 0 <= k < |q|
      ensures Hashable(UrlOf(q[k])) &&
              (Truthy(UrlOf(q[k])) ==>
                 IndexOfUrl(r', UrlOf(q[k])) < |r'| &&
                 Greater(ScoreOf(q[k]), ScoreOf(r'[IndexOfUrl(r', UrlOf(q[k]))])) == Ok(false))
    {
      if k < |p| {
        assert q[k] == p[k];
        DominatedStays(r, p[k], c, i);
      } else {
        assert q[k] == c;
        assert IndexOfUrl(r', UrlOf(c)) == i;
        assert ScoreOf(c) == ScoreOf([c][0]);
      }
    }
  }

  /** An update by a strictly higher score keeps an earlier citation dominated. */
  lemma DominatedStays(r: seq<CitationDict>, x: CitationDict, c: CitationDict, i: nat)
    requires ScoresOk(r) && i < |r| && ScoreOf(c).Num?
    requires Greater(ScoreOf(c), ScoreOf(r[i])) == Ok(true)
    requires IndexOfUrl(r[i := Update(r[i], c)], UrlOf(x)) == IndexOfUrl(r, UrlOf(x))
    requires ScoreOf(Update(r[i], c)) == ScoreOf(c)
    requires Hashable(UrlOf(x)) &&
             (Truthy(UrlOf(x)) ==> IndexOfUrl(r, UrlOf(x)) < |r| &&
                                   Greater(ScoreOf(x), ScoreOf(r[IndexOfUrl(r, UrlOf(x))])) == Ok(false))
    ensures var r' := r[i := Update(r[i], c)];
            Truthy(UrlOf(x)) ==> IndexOfUrl(r', UrlOf(x)) < |r'| &&
                                 Greater(ScoreOf(x), ScoreOf(r'[IndexOfUrl(r', UrlOf(x))])) == Ok(false)
  {
    var r' := r[i := Update(r[i], c)];
    if Truthy(UrlOf(x)) {
      var j := IndexOfUrl(r, UrlOf(x));
      assert ScoreOf(r[j]).Num?;
      if j == i {
        assert ScoreOf(r'[j]) == ScoreOf(c);
      } else {
        assert r'[j] == r[j];
      }
    }
  }

  /** A merge step keeps scores valid and makes the list dominate one more citation. */
  lemma MergeOneDominates(r: seq<CitationDict>, p: seq<CitationDict>, c: CitationDict)
    requires ScoresOk(r) && ScoresOk([c]) && Dominates(r, p) && MergeOne(r, c).Ok?
    ensures ScoresOk(MergeOne(r, c).value) && Dominates(MergeOne(r, c).value, p + [c])
  {
    var url := UrlOf(c);
    forall k | 0 <= k < |p| ensures (p + [c])[k] == p[k] { }
    assert (p + [c])[|p|] == c;
    if Truthy(url) && url !in UrlSet(r) {
      DominatesAppend(r, p, c);
    } else if Truthy(url) {
      IndexOfUrlFound(r, url);
      var i := IndexOfUrl(r, url);
      if Greater(ScoreOf(c), ScoreOf(r[i])) == Ok(true) {
        DominatesUpdate(r, p, c, i);
      }
    }
  }

  lemma {:induction false} MergeAllDominates(existing: seq<CitationDict>, incoming: seq<CitationDict>)
    requires ScoresOk(existing) && ScoresOk(incoming) && MergeAll(existing, incoming).Ok?
    ensures ScoresOk(MergeAll(existing, incoming).value) && Dominates(MergeAll(existing, incoming).value, incoming)
    decreases |incoming|
  {
    if |incoming| > 0 {
      var init := incoming[..|incoming| - 1];
      var c := incoming[|incoming| - 1];
      assert ScoresOk(init) by { forall k | 0 <= k < |init| ensures init[k] == incoming[k] { } }
      assert ScoresOk([c]);
      MergeAllDominates(existing, init);
      MergeOneDominates(MergeAll(existing, init).value, init, c);
      assert init + [c] == incoming;
    }
  }

  /** Merging citations a list already dominates changes nothing. */
  lemma {:induction false} MergeAllNoop(r: seq<CitationDict>, q: seq<CitationDict>)
    requires Dominates(r, q)
    ensures MergeAll(r, q) == Ok(r)
    decreases |q|
  {
    if |q| > 0 {
      var init := q[..|q| - 1];
      assert Dominates(r, init) by { forall k | 0 <= k < |init| ensures init[k] == q[k] { } }
      MergeAllNoop(r, init);
      var c := q[|q| - 1];
      if Truthy(UrlOf(c)) {
        UrlSetHas(r, IndexOfUrl(r, UrlOf(c)));
      }
    }
  }

  /** Merging keeps every truthy URL hashable. */
  lemma {:induction false} MergeAllHashable(existing: seq<CitationDict>, incoming: seq<CitationDict>)
    requires HashableUrls(existing) && MergeAll(existing, incoming).Ok?
    ensures HashableUrls(MergeAll(existing, incoming).value)
    decreases |incoming|
  {
    if |incoming| > 0 {
      var init := incoming[..|incoming| - 1];
      var c := incoming[|incoming| - 1];
      MergeAllHashable(existing, init);
      var r := MergeAll(existing, init).value;
      var url := UrlOf(c);
      if Truthy(url) && url in UrlSet(r) {
        var i := IndexOfUrl(r, url);
        if i < |r| { UpdateAgree(r, i, c); AgreeUrlSet(r[i := Update(r[i], c)], r); }
      }
    }
  }

  /** With scores absent or non-negative, merging the same batch a second time is a
      no-op. */
  lemma MergedIdempotent(existing: seq<CitationDict>, incoming: seq<CitationDict>)
    requires ScoresOk(existing) && ScoresOk(incoming)
    ensures var r := Merged(existing, incoming);
            r.Ok? ==> Merged(r.value, incoming) == r
  {
    var r := Merged(existing, incoming);
    if r.Ok? {
      assert HashableUrls(existing);
      MergeAllDominates(existing, incoming);
      MergeAllHashable(existing, incoming);
      MergeAllNoop(r.value, incoming);
    }
  }

  /** The merged list: existing entries in place (changed only in the updated keys),
      then the fresh first occurrences; no two entries share a truthy URL among the
      appended ones, and none of them repeats an existing URL. */
  lemma MergedSpec(existing: seq<CitationDict>, incoming: seq<CitationDict>)
    ensures var r := Merged(existing, incoming);
            var d := Dedup(UrlSet(existing), incoming);
            r.Ok? ==>
              |r.value| == |existing| + |d| &&
              (forall i :: 0 <= i < |existing| ==> SameOutside(r.value[i], existing[i])) &&
              (forall j :: 0 <= j < |d| ==> SameOutside(r.value[|existing| + j], d[j])) &&
              (forall j :: 0 <= j < |d| ==> Truthy(UrlOf(d[j])) && UrlOf(d[j]) !in UrlSet(existing))
  {
    var r := Merged(existing, incoming);
    if r.Ok? {
      var d := Dedup(UrlSet(existing), incoming);
      MergeAllShape(existing, incoming);
      DedupUrls(UrlSet(existing), incoming);
      forall j | 0 <= j < |d| ensures (existing + d)[|existing| + j] == d[j] { }
    }
  }

  lemma {:induction false} MergeAllErrPrefix(existing: seq<CitationDict>, p: seq<CitationDict>, rest: seq<CitationDict>)
    requires MergeAll(existing, p).Err?
    ensures MergeAll(existing, p + rest) == MergeAll(existing, p)
    decreases |rest|
  {
    if |rest| > 0 {
      var init := rest[..|rest| - 1];
      MergeAllErrPrefix(existing, p, init);
      assert (p + rest)[..|p + rest| - 1] == p + init;
    } else {
      assert p + rest == p;
    }
  }

  /** One pass of the loop over the new citations, with the search for the first entry
      carrying a known URL. */
  method MergeStep(result: seq<CitationDict>, seenUrls: set<Value>, citation: CitationDict)
    returns (r: Result<seq<CitationDict>, string>, seenUrls': set<Value>)
    requires seenUrls == UrlSet(result)
    ensures r == MergeOne(result, citation)
    ensures r.Ok? ==> seenUrls' == UrlSet(r.value)
  {
    var url := UrlOf(citation);
    seenUrls' := seenUrls;
    if !Hashable(url) {
      return Err("TypeError: unhashable type"), seenUrls';
    }
    if Truthy(url) && url !in seenUrls {
      UrlSetAppend(result, citation);
      return Ok(result + [citation]), seenUrls + {url};
    }
    if url !in seenUrls {
      return Ok(result), seenUrls';
    }
    var i := 0;
    while i < |result|
      invariant i <= |result|
      invariant forall m :: 0 <= m < i ==> UrlOf(result[m]) != url
    {
      if UrlOf(result[i]) == url {
        var higher := Greater(ScoreOf(citation), ScoreOf(result[i]));
        if higher.Err? {
          return Err(higher.error), seenUrls';
        }
        if higher.value {
          UpdateAgree(result, i, citation);
          return Ok(result[i := Update(result[i], citation)]), seenUrls';
        }
        return Ok(result), seenUrls';
      }
      i := i + 1;
    }
    return Ok(result), seenUrls';
  }

  /** `merge_citations(existing, new)`: `seen_urls` from the existing list, then the
      loop over the new citations. */
  method MergeCitations(existing: seq<CitationDict>, incoming: seq<CitationDict>)
    returns (r: Result<seq<CitationDict>, string>)
    ensures r == Merged(existing, incoming)
  {
    var seenUrls: set<Value> := {};
    for i := 0 to |existing|
      invariant seenUrls == UrlSet(existing[..i])
      invariant forall m :: 0 <= m < i && Truthy(UrlOf(existing[m])) ==> Hashable(UrlOf(existing[m]))
    {
      var url := UrlOf(existing[i]);
      assert existing[..i + 1] == existing[..i] + [existing[i]];
      UrlSetAppend(existing[..i], existing[i]);
      if Truthy(url) {
        if !Hashable(url) {
          return Err("TypeError: unhashable type");
        }
        seenUrls := seenUrls + {url};
      }
    }
    assert existing[..|existing|] == existing;
    var result := existing;
    for j := 0 to |incoming|
      invariant MergeAll(existing, incoming[..j]) == Ok(result)
      invariant seenUrls == UrlSet(result)
    {
      assert incoming[..j + 1][..j] == incoming[..j];
      var step;
      step, seenUrls := MergeStep(result, seenUrls, incoming[j]);
      if step.Err? {
        MergeAllErrPrefix(existing, incoming[..j + 1], incoming[j + 1..]);
        assert incoming[..j + 1] + incoming[j + 1..] == incoming;
        return step;
      }
      result := step.value;
    }
    assert incoming[..|incoming|] == incoming;
    return Ok(result);
  }

  lemma LookupPair(a: (string, Value), b: (string, Value), k: string)
    ensures Lookup([a, b], k) == if a.0 == k then Some(a.1) else if b.0 == k then Some(b.1) else None
  {
    assert [a, b][1..] == [b] && [b][1..] == [];
    assert Lookup([b], k) == if b.0 == k then Some(b.1) else None;
  }

  lemma LookupTriple(a: (string, Value), b: (string, Value), c: (string, Value), k: string)
    ensures Lookup([a, b, c], k) ==
            if a.0 == k then Some(a.1) else if b.0 == k then Some(b.1) else if c.0 == k then Some(c.1) else None
  {
    assert [a, b, c][1..] == [b, c];
    LookupPair(b, c, k);
  }

  lemma PutPair(a: (string, Value), b: (string, Value), k: string, v: Value)
    requires a.0 != k && b.0 != k
    ensures Put([a, b], k, v) == [a, b, (k, v)]
  {
    assert [a, b][1..] == [b] && [b][1..] == [];
    assert Put([b], k, v) == [b, (k, v)];
  }

  lemma PutTripleSecond(a: (string, Value), b: (string, Value), c: (string, Value), v: Value)
    requires a.0 != b.0
    ensures Put([a, b, c], b.0, v) == [a, (b.0, v), c]
  {
    assert [a, b, c][1..] == [b, c] && [b, c][1..] == [c];
  }

  lemma PutTripleThird(a: (string, Value), b: (string, Value), c: (string, Value), v: Value)
    requires a.0 != c.0 && b.0 != c.0
    ensures Put([a, b, c], c.0, v) == [a, b, (c.0, v)]
  {
    assert [a, b, c][1..] == [b, c] && [b, c][1..] == [c];
    assert Put([c], c.0, v) == [(c.0, v)];
    assert Put([b, c], c.0, v) == [b, (c.0, v)];
  }

  const CounterUrl := Str("u")
  const CounterExisting: CitationDict := [("url", CounterUrl), ("relevance_score", Num(-1.0))]
  const CounterFirst: CitationDict := [("url", CounterUrl), ("title", Str("A"))]
  const CounterSecond: CitationDict := [("url", CounterUrl), ("relevance_score", Num(-0.5)), ("title", Str("B"))]
  const CounterTitled: CitationDict := [("url", CounterUrl), ("relevance_score", Num(-1.0)), ("title", Str("A"))]
  const CounterRetitled: CitationDict := [("url", CounterUrl), ("relevance_score", Num(-0.5)), ("title", Str("A"))]

  lemma CounterUrls(c: CitationDict)
    requires c in [CounterExisting, CounterFirst, CounterSecond, CounterTitled, CounterRetitled]
    ensures UrlOf(c) == CounterUrl && UrlSet([c]) == {CounterUrl}
  {
    UrlSetAppend([], c);
    assert [] + [c] == [c];
  }

  /** The first new citation (no score, so 0) beats -1 and sets the title. */
  lemma CounterStepOne()
    ensures MergeOne([CounterExisting], CounterFirst) == Ok([CounterTitled])
  {
    CounterUrls(CounterExisting);
    CounterUrls(CounterFirst);
    LookupPair(("url", CounterUrl), ("title", Str("A")), "relevance_score");
    LookupPair(("url", CounterUrl), ("title", Str("A")), "title");
    LookupPair(("url", CounterUrl), ("title", Str("A")), "description");
    LookupPair(("url", CounterUrl), ("title", Str("A")), "snippet");
    LookupPair(("url", CounterUrl), ("relevance_score", Num(-1.0)), "relevance_score");
    PutPair(("url", CounterUrl), ("relevance_score", Num(-1.0)), "title", Str("A"));
    assert Update(CounterExisting, CounterFirst) == CounterTitled;
    assert IndexOfUrl([CounterExisting], CounterUrl) == 0;
    assert Greater(ScoreOf(CounterFirst), ScoreOf(CounterExisting)) == Ok(true);
    assert [CounterExisting][0 := CounterTitled] == [CounterTitled];
  }

  /** The second new citation (-0.5) beats -1, raising the score and setting its title. */
  lemma CounterStepTwo()
    ensures MergeOne([CounterTitled], CounterSecond) == Ok([CounterSecond])
  {
    CounterUrls(CounterTitled);
    CounterUrls(CounterSecond);
    var a, b, c := ("url", CounterUrl), ("relevance_score", Num(-0.5)), ("title", Str("B"));
    LookupTriple(a, b, c, "relevance_score");
    LookupTriple(a, b, c, "title");
    LookupTriple(a, b, c, "description");
    LookupTriple(a, b, c, "snippet");
    LookupTriple(a, ("relevance_score", Num(-1.0)), ("title", Str("A")), "relevance_score");
    PutTripleSecond(a, ("relevance_score", Num(-1.0)), ("title", Str("A")), Num(-0.5));
    PutTripleThird(a, b, ("title", Str("A")), Str("B"));
    assert Update(CounterTitled, CounterSecond) == CounterSecond;
    assert IndexOfUrl([CounterTitled], CounterUrl) == 0;
    assert Greater(ScoreOf(CounterSecond), ScoreOf(CounterTitled)) == Ok(true);
    assert [CounterTitled][0 := CounterSecond] == [CounterSecond];
  }

  /** On the second application the score-less citation beats -0.5 and puts "A" back. */
  lemma CounterStepThree()
    ensures MergeOne([CounterSecond], CounterFirst) == Ok([CounterRetitled])
  {
    CounterUrls(CounterSecond);
    CounterUrls(CounterFirst);
    var a := ("url", CounterUrl);
    LookupPair(a, ("title", Str("A")), "relevance_score");
    LookupPair(a, ("title", Str("A")), "title");
    LookupPair(a, ("title", Str("A")), "description");
    LookupPair(a, ("title", Str("A")), "snippet");
    LookupTriple(a, ("relevance_score", Num(-0.5)), ("title", Str("B")), "relevance_score");
    PutTripleThird(a, ("relevance_score", Num(-0.5)), ("title", Str("B")), Str("A"));
    assert Update(CounterSecond, CounterFirst) == CounterRetitled;
    assert IndexOfUrl([CounterSecond], CounterUrl) == 0;
    assert Greater(ScoreOf(CounterFirst), ScoreOf(CounterSecond)) == Ok(true);
    assert [CounterSecond][0 := CounterRetitled] == [CounterRetitled];
  }

  /** And the second citation no longer beats its own score. */
  lemma CounterStepFour()
    ensures MergeOne([CounterRetitled], CounterSecond) == Ok([CounterRetitled])
  {
    CounterUrls(CounterRetitled);
    CounterUrls(CounterSecond);
    var a := ("url", CounterUrl);
    LookupTriple(a, ("relevance_score", Num(-0.5)), ("title", Str("B")), "relevance_score");
    LookupTriple(a, ("relevance_score", Num(-0.5)), ("title", Str("A")), "relevance_score");
  }

  /** With a negative existing score, a second application of the same batch changes the
      result: a score-less citation (default 0) beats the raised score again and puts
      its title back. */
  lemma MergeTwiceDiffers()
    ensures var incoming := [CounterFirst, CounterSecond];
            Merged([CounterExisting], incoming) == Ok([CounterSecond]) &&
            Merged([CounterSecond], incoming) == Ok([CounterRetitled]) &&
            CounterRetitled != CounterSecond
  {
    var incoming := [CounterFirst, CounterSecond];
    assert incoming[..1] == [CounterFirst] && incoming[..1][..0] == [];
    CounterUrls(CounterExisting);
    CounterUrls(CounterSecond);
    CounterStepOne();
    CounterStepTwo();
    CounterStepThree();
    CounterStepFour();
    assert MergeAll([CounterExisting], [CounterFirst]) == Ok([CounterTitled]);
    assert MergeAll([CounterExisting], incoming) == Ok([CounterSecond]);
    assert MergeAll([CounterSecond], [CounterFirst]) == Ok([CounterRetitled]);
    assert MergeAll([CounterSecond], incoming) == Ok([CounterRetitled]);
    assert CounterRetitled[2] != CounterSecond[2];
  }
}
