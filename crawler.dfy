// The crawler front end (crawler/crawler.py): truncating raw text safely, deciding
// whether a fetched body is HTML, choosing the crawler engine from configuration, and
// the fallback articles `crawl` builds when the body is empty, not HTML, or cannot be
// extracted. The fetch itself, `textwrap.shorten` and the readability extractor are
// external: their results are parameters.
module Crawler {
  import opened Wrappers
  import opened Strings
  import opened Values
  import opened CrawlArticle
  import InfoQuestClient

  // ---------------------------------------------------------------------------
  // safe_truncate

  /** A Python `str` element: any code point, surrogates included. */
  type CodePoint = x: int | 0 <= x < 0x11_0000

  predicate IsSurrogate(c: CodePoint)
  {
    0xD800 <= c <= 0xDFFF
  }

  predicate NoSurrogates(cs: seq<CodePoint>)
  {
    forall i :: 0 <= i < |cs| ==> !IsSurrogate(cs[i])
  }

  /** The code points of a Dafny string, which never holds a surrogate. */
  function Chars(s: string): (cs: seq<CodePoint>)
    ensures |cs| == |s| && NoSurrogates(cs)
    ensures forall i :: 0 <= i < |s| ==> cs[i] == s[i] as int
  {
    seq(|s|, i requires 0 <= i < |s| => s[i] as int)
  }

  /** The string of a surrogate-free code point sequence. */
  function Text(cs: seq<CodePoint>): (s: string)
    requires NoSurrogates(cs)
    ensures Chars(s) == cs
  {
    seq(|cs|, i requires 0 <= i < |cs| => cs[i] as char)
  }

  lemma TextOfChars(s: string)
    ensures Text(Chars(s)) == s
  {
  }

  const Ellipsis: seq<CodePoint> := [46, 46, 46]

  /** Drops trailing surrogates: the longest prefix that does not end in one. */
  function TrimSurrogates(t: seq<CodePoint>): (r: seq<CodePoint>)
    ensures r <= t
    ensures r == [] || !IsSurrogate(r[|r| - 1])
    ensures forall k :: |r| <= k < |t| ==> IsSurrogate(t[k])
  {
    if |t| > 0 && IsSurrogate(t[|t| - 1]) then TrimSurrogates(t[..|t| - 1]) else t
  }

  /** What `safe_truncate` returns; `shortened` is what `textwrap.shorten` gives, `None`
      when it raises. */
  function SafeTruncated(text: Option<seq<CodePoint>>, maxLength: int,
                         shortened: Option<seq<CodePoint>>): Option<seq<CodePoint>>
  {
    if text.None? then None
    else if |text.value| <= maxLength then text
    else if maxLength < 3 then Some(Chars(Take("...", maxLength)))
    else if shortened.Some? then shortened
    else Some(TrimSurrogates(text.value[..maxLength - 3]) + Ellipsis)
  }

  /** `safe_truncate`, with the loop that drops trailing surrogates. */
  method SafeTruncate(text: Option<seq<CodePoint>>, maxLength: int, shortened: Option<seq<CodePoint>>)
    returns (r: Option<seq<CodePoint>>)
    ensures r == SafeTruncated(text, maxLength, shortened)
  {
    if text.None? {
      return None;
    }
    if |text.value| <= maxLength {
      return text;
    }
    if maxLength < 3 {
      return Some(Chars(Take("...", maxLength)));
    }
    if shortened.Some? {
      return shortened;
    }
    var truncated := text.value[..maxLength - 3];
    while |truncated| > 0 && IsSurrogate(truncated[|truncated| - 1])
      invariant TrimSurrogates(truncated) == TrimSurrogates(text.value[..maxLength - 3])
      decreases |truncated|
    {
      truncated := truncated[..|truncated| - 1];
    }
    return Some(truncated + Ellipsis);
  }

  /** Text that fits comes back unchanged; a limit below 3 gives that many dots; the
      fallback keeps a prefix of at most `maxLength - 3` code points that does not end in
      a surrogate, followed by "...", so it never exceeds the limit. */
  lemma SafeTruncatedCases(text: seq<CodePoint>, maxLength: int, shortened: Option<seq<CodePoint>>)
    ensures |text| <= maxLength ==> SafeTruncated(Some(text), maxLength, shortened) == Some(text)
    ensures |text| > maxLength && 0 <= maxLength < 3 ==>
      SafeTruncated(Some(text), maxLength, shortened) == Some(Ellipsis[..maxLength])
    ensures |text| > maxLength >= 3 && shortened.None? ==>
      var r := SafeTruncated(Some(text), maxLength, shortened).value;
      |r| <= maxLength && r[|r| - 3..] == Ellipsis && r[..|r| - 3] <= text &&
      (|r| == 3 || !IsSurrogate(r[|r| - 4]))
  {
    if |text| > maxLength && 0 <= maxLength < 3 {
      assert Chars(Take("...", maxLength)) == Ellipsis[..maxLength];
    }
    if |text| > maxLength >= 3 && shortened.None? {
      var p := TrimSurrogates(text[..maxLength - 3]);
      var r := p + Ellipsis;
      assert r[..|r| - 3] == p && r[|r| - 3..] == Ellipsis;
    }
  }

  /** On surrogate-free input the result is surrogate-free. */
  lemma SafeTruncatedNoSurrogates(text: seq<CodePoint>, maxLength: int, shortened: Option<seq<CodePoint>>)
    requires NoSurrogates(text)
    requires shortened.Some? ==> NoSurrogates(shortened.value)
    ensures NoSurrogates(SafeTruncated(Some(text), maxLength, shortened).value)
  {
    if |text| > maxLength >= 3 && shortened.None? {
      var p := TrimSurrogates(text[..maxLength - 3]);
      assert forall i :: 0 <= i < |p| ==> p[i] == text[i];
    }
  }

  /** `safe_truncate` on a string whose code points are all scalar values. */
  function SafeTruncateText(text: string, maxLength: int, shortened: Option<string>): string
  {
    var sh := if shortened.Some? then Some(Chars(shortened.value)) else None;
    SafeTruncatedNoSurrogates(Chars(text), maxLength, sh);
    Text(SafeTruncated(Some(Chars(text)), maxLength, sh).value)
  }

  // ---------------------------------------------------------------------------
  // is_html_content. Case-insensitive patterns are matched against the lower-cased text.

  /** `p` occurs in `s` at index `i`. */
  predicate At(s: string, i: int, p: string)
  {
    0 <= i && i + |p| <= |s| && s[i..i + |p|] == p
  }

  /** `\s*` followed by `c`, starting at `k`. */
  predicate SpacesThen(s: string, k: nat, c: char)
    decreases |s| - k
  {
    k < |s| && (s[k] == c || (IsSpace(s[k]) && SpacesThen(s, k + 1, c)))
  }

  /** `\s*` followed by the word `w`, starting at `k`. */
  predicate SpacesThenWord(s: string, k: nat, w: string)
    decreases |s| - k
  {
    k <= |s| && (At(s, k, w) || (k < |s| && IsSpace(s[k]) && SpacesThenWord(s, k + 1, w)))
  }

  /** `\s*`, an optional slash, then `>`, starting at `k`. */
  predicate SpacesSlashClose(s: string, k: nat)
    decreases |s| - k
  {
    k < |s| &&
    (s[k] == '>' || (s[k] == '/' && k + 1 < |s| && s[k + 1] == '>') || (IsSpace(s[k]) && SpacesSlashClose(s, k + 1)))
  }

  /** `[^>]*?/>`, starting at `k`. */
  predicate SelfCloseFrom(s: string, k: nat)
    decreases |s| - k
  {
    k + 1 < |s| && ((s[k] == '/' && s[k + 1] == '>') || (s[k] != '>' && SelfCloseFrom(s, k + 1)))
  }

  /** `[^>]+>`, starting at `k`. */
  predicate TagBody(s: string, k: nat)
    decreases |s| - k
  {
    k + 1 < |s| && s[k] != '>' && (s[k + 1] == '>' || TagBody(s, k + 1))
  }

  /** `<[^>]+>` occurs somewhere. */
  predicate HasTag(s: string)
  {
    exists i :: 0 <= i < |s| && s[i] == '<' && TagBody(s, i + 1)
  }

  /** `^<!DOCTYPE\s+html`. */
  predicate DoctypeHtml(l: string)
  {
    At(l, 0, "<!doctype") && 9 < |l| && IsSpace(l[9]) && SpacesThenWord(l, 10, "html")
  }

  /** The tags whose leading occurrence marks HTML, as plain prefixes. */
  const StartTags: seq<string> :=
    ["<html", "<head", "<body", "<title", "<meta", "<link", "<script", "<style", "<div",
     "<p>", "<span", "<!doctype"]

  /** One of the leading-tag patterns matches at the start. */
  predicate LeadingTag(l: string)
  {
    (exists k :: 0 <= k < |StartTags| && StartsWith(l, StartTags[k]))
    || (At(l, 0, "<p") && 2 < |l| && IsSpace(l[2]))
    || (At(l, 0, "<h") && 2 < |l| && '1' <= l[2] <= '6')
  }

  /** `name\s*=` at `i`. */
  predicate AttrAt(l: string, i: int, name: string)
  {
    At(l, i, name) && SpacesThen(l, i + |name|, '=')
  }

  /** `tag\s` at `i`. */
  predicate SpacedAt(l: string, i: int, tag: string)
  {
    At(l, i, tag) && i + |tag| < |l| && IsSpace(l[i + |tag|])
  }

  /** One of the attribute or element indicators matches at `i`. */
  predicate IndicatorAt(l: string, i: int)
  {
    AttrAt(l, i, "href") || AttrAt(l, i, "src") || AttrAt(l, i, "class") || AttrAt(l, i, "id")
    || SpacedAt(l, i, "<img") || SpacedAt(l, i, "<a") || At(l, i, "<div") || At(l, i, "<p>")
    || SpacedAt(l, i, "<p") || At(l, i, "<!doctype")
  }

  predicate HasIndicator(l: string)
  {
    exists i :: 0 <= i < |l| && IndicatorAt(l, i)
  }

  /** `tag\s+[^>]*?/>` at `i`. */
  predicate SelfClosingTagAt(l: string, i: int, tag: string)
  {
    SpacedAt(l, i, tag) && SelfCloseFrom(l, i + |tag| + 1)
  }

  /** One of the self-closing tag patterns matches at `i`. */
  predicate SelfClosingAt(l: string, i: int)
  {
    SelfClosingTagAt(l, i, "<img") || (At(l, i, "<br") && SpacesSlashClose(l, i + 3))
    || (At(l, i, "<hr") && SpacesSlashClose(l, i + 3)) || SelfClosingTagAt(l, i, "<input")
    || SelfClosingTagAt(l, i, "<meta") || SelfClosingTagAt(l, i, "<link")
  }

  predicate HasSelfClosing(l: string)
  {
    exists i :: 0 <= i < |l| && SelfClosingAt(l, i)
  }

  /** The markers `is_html_content` looks for in the trimmed text, in the order it
      checks them. */
  predicate HtmlMarkers(c: string)
  {
    var l := Lower(c);
    (StartsWith(c, "<!--") && Contains(c, "-->"))
    || DoctypeHtml(l)
    || (StartsWith(c, "<?xml") && Contains(c, "<html"))
    || LeadingTag(l)
    || (HasTag(c) && (HasIndicator(l) || HasSelfClosing(l)))
  }

  /** `is_html_content`. */
  predicate IsHtmlContent(content: string)
  {
    !IsBlank(content) && HtmlMarkers(Strip(content))
  }

  /** Empty or blank content is never HTML. */
  lemma BlankIsNotHtml(content: string)
    requires IsBlank(content)
    ensures !IsHtmlContent(content)
  {
  }

  /** Every element of the stripped text comes from the original. */
  lemma StripChars(s: string)
    ensures forall i :: 0 <= i < |Strip(s)| ==> Strip(s)[i] in s
  {
    var l := LStrip(s);
    var r := RStrip(l);
    assert Strip(s) == r;
    forall i | 0 <= i < |r| ensures r[i] in s {
      assert r[i] == l[i];
      assert l[i] == s[|s| - |l| + i];
    }
  }

  /** Lower-casing neither creates nor removes a '<'. */
  lemma LowerKeepsAngle(c: string)
    ensures forall i :: 0 <= i < |c| ==> (Lower(c)[i] == '<' <==> c[i] == '<')
  {
  }

  /** Every marker starts with a '<' in the text. */
  lemma {:induction false} MarkersNeedAngle(c: string)
    requires forall i :: 0 <= i < |c| ==> c[i] != '<'
    ensures !HtmlMarkers(c)
  {
    var l := Lower(c);
    LowerKeepsAngle(c);
    assert !HasTag(c);
    assert |c| == 0 || c[0] != '<';
    assert |l| == 0 || l[0] != '<';
    assert forall k :: 0 <= k < |StartTags| ==> StartTags[k][0] == '<';
  }

  /** Content without any '<' is never HTML: every accepted form needs a tag. */
  lemma NoAngleIsNotHtml(content: string)
    requires '<' !in content
    ensures !IsHtmlContent(content)
  {
    StripChars(content);
    MarkersNeedAngle(Strip(content));
  }

  /** Content whose trimmed text starts with one of the leading tags, in any case, is
      HTML. */
  lemma LeadingTagIsHtml(content: string, k: nat)
    requires k < |StartTags| && StartsWith(Lower(Strip(content)), StartTags[k])
    ensures IsHtmlContent(content)
  {
    StripEmptyIffBlank(content);
  }

  /** A trimmed comment opening that is closed later is HTML. */
  lemma CommentIsHtml(content: string)
    requires StartsWith(Strip(content), "<!--") && Contains(Strip(content), "-->")
    ensures IsHtmlContent(content)
  {
    StripEmptyIffBlank(content);
  }

  // ---------------------------------------------------------------------------
  // _select_crawler_tool

  /** The engine the configuration selects, with the InfoQuest timeouts as configured. */
  datatype Tool = Jina | InfoQuest(fetchTime: Value, timeout: Value, naviTimeout: Value)

  /** The exceptions `crawl` lets escape. */
  datatype CrawlError =
    | NoGet                     // the engine section is not a dict
    | UnsupportedEngine(engine: Value)
    | BadTimeout(message: string)
    | FetchFailed(message: string)
    | NotText(message: string)  // the fetched body is neither falsy nor a string

  /** `crawler_config.get(key, -1)`. */
  function TimeoutSetting(config: Value, key: string): Value
  {
    match Get(config, key)
    case Some(v) => v
    case None => Num(-1.0)
  }

  /** `_select_crawler_tool`; the logging test `fetch_time > 0 or timeout > 0 or
      navi_timeout > 0` raises on a value that cannot be compared with 0. */
  function SelectCrawlerTool(config: Value): (r: Result<Tool, CrawlError>)
    ensures !config.Dict? ==> r == Err(NoGet)
    ensures config.Dict? && Get(config, "engine").None? ==> r == Ok(Jina)
    ensures r.Ok? && r.value.InfoQuest? ==>
      Get(config, "engine") == Some(Str("infoquest")) &&
      r.value.fetchTime == TimeoutSetting(config, "fetch_time") &&
      r.value.timeout == TimeoutSetting(config, "timeout") &&
      r.value.naviTimeout == TimeoutSetting(config, "navi_timeout")
    ensures r.Err? && r.error.UnsupportedEngine? ==>
      Get(config, "engine") == Some(r.error.engine) && r.error.engine !in {Str("jina"), Str("infoquest")}
  {
    if !config.Dict? then Err(NoGet)
    else
      var engine := match Get(config, "engine") case Some(v) => v case None => Str("jina");
      if engine == Str("jina") then Ok(Jina)
      else if engine == Str("infoquest") then
        var fetchTime := TimeoutSetting(config, "fetch_time");
        var timeout := TimeoutSetting(config, "timeout");
        var naviTimeout := TimeoutSetting(config, "navi_timeout");
        match InfoQuestClient.AnyPositive([fetchTime, timeout, naviTimeout])
        case Err(e) => Err(BadTimeout(e))
        case Ok(_) => Ok(InfoQuest(fetchTime, timeout, naviTimeout))
      else Err(UnsupportedEngine(engine))
  }

  /** Without any InfoQuest setting the engine is InfoQuest with every timeout unset. */
  lemma InfoQuestDefaults()
    ensures SelectCrawlerTool(Dict([("engine", Str("infoquest"))])) ==
      Ok(InfoQuest(Num(-1.0), Num(-1.0), Num(-1.0)))
  {
    var config := Dict([("engine", Str("infoquest"))]);
    assert Get(config, "fetch_time").None?;
    assert Get(config, "timeout").None?;
    assert Get(config, "navi_timeout").None?;
    assert InfoQuestClient.AnyPositive([Num(-1.0), Num(-1.0), Num(-1.0)]) == Ok(false);
  }

  // ---------------------------------------------------------------------------
  // Crawler.crawl

  /** The extractor's article: its title and HTML. */
  datatype Extracted = Extracted(title: string, htmlContent: Option<string>)

  /** An HTML paragraph. */
  function Paragraph(body: string): (h: string)
    ensures |h| == |body| + 7
    ensures StartsWith(h, "<p>") && EndsWith(h, "</p>") && h[3..|h| - 4] == body
  {
    "<p>" + body + "</p>"
  }

  const EmptyContent: Extracted :=
    Extracted("Empty Content", Some(Paragraph("No content could be extracted from this page")))

  function NonHtml(raw: string): Extracted
  {
    Extracted("Non-HTML Content",
      Some(Paragraph("This URL returned content that cannot be parsed as HTML. Raw content: " + raw)))
  }

  function ExtractionFailed(raw: string): Extracted
  {
    Extracted("Content Extraction Failed", Some(Paragraph("Content extraction failed. Raw content: " + raw)))
  }

  /** The article `crawl` returns, or the exception it raises. `fetched` is what the
      selected client's `crawl` returned (or the message it raised), `shortened` what
      `textwrap.shorten(html, 500)` gives, and `extracted` the extractor's article (or
      the message it raised). */
  function CrawlOutcome(config: Value, fetched: Result<Value, string>, shortened: Option<string>,
                        extracted: Result<Extracted, string>): Result<Extracted, CrawlError>
  {
    match SelectCrawlerTool(config)
    case Err(e) => Err(e)
    case Ok(_) =>
      match fetched
      case Err(m) => Err(FetchFailed(m))
      case Ok(html) => ArticleFor(html, shortened, extracted)
  }

  /** The choice `crawl` makes once the body has been fetched. */
  function ArticleFor(html: Value, shortened: Option<string>, extracted: Result<Extracted, string>)
    : Result<Extracted, CrawlError>
  {
    if !Truthy(html) then Ok(EmptyContent)
    else if !html.Str? then Err(NotText("object has no attribute 'strip'"))
    else if IsBlank(html.s) then Ok(EmptyContent)
    else if !IsHtmlContent(html.s) then Ok(NonHtml(SafeTruncateText(html.s, 500, shortened)))
    else
      match extracted
      case Err(_) => Ok(ExtractionFailed(SafeTruncateText(html.s, 500, shortened)))
      case Ok(a) => Ok(a)
  }

  /** `Crawler.crawl`: the url is set on every article it returns. */
  method Crawl(url: string, config: Value, fetched: Result<Value, string>, shortened: Option<string>,
               extracted: Result<Extracted, string>)
    returns (r: Result<Article, CrawlError>)
    ensures r.Err? <==> CrawlOutcome(config, fetched, shortened, extracted).Err?
    ensures r.Err? ==> r.error == CrawlOutcome(config, fetched, shortened, extracted).error
    ensures r.Ok? ==>
      && fresh(r.value) && r.value.url == Some(url)
      && Extracted(r.value.title, r.value.htmlContent) == CrawlOutcome(config, fetched, shortened, extracted).value
  {
    var tool := SelectCrawlerTool(config);
    if tool.Err? {
      return Err(tool.error);
    }
    if fetched.Err? {
      return Err(FetchFailed(fetched.error));
    }
    var chosen := ArticleFor(fetched.value, shortened, extracted);
    if chosen.Err? {
      return Err(chosen.error);
    }
    var article := new Article(chosen.value.title, chosen.value.htmlContent);
    article.url := Some(url);
    return Ok(article);
  }

  /** The raw text a fallback article embeds: when `textwrap.shorten` is unavailable it
      is at most 500 characters, "..." included, and otherwise a prefix of the body. */
  lemma FallbackRawBounded(html: string)
    ensures var raw := SafeTruncateText(html, 500, None);
      |raw| <= 500 && (|html| <= 500 ==> raw == html) &&
      (|html| > 500 ==> raw == html[..497] + "...")
  {
    var raw := SafeTruncateText(html, 500, None);
    if |html| > 500 {
      var cs := Chars(html);
      assert TrimSurrogates(cs[..497]) == cs[..497];
      assert Chars(raw) == Chars(html[..497] + "...");
      TextOfChars(raw);
      TextOfChars(html[..497] + "...");
    } else {
      TextOfChars(html);
    }
  }

  /** Every article `crawl` builds itself carries a paragraph; only an extracted article
      is passed through as the extractor made it. */
  lemma FallbackArticlesAreParagraphs(config: Value, fetched: Result<Value, string>, shortened: Option<string>,
                                      extracted: Result<Extracted, string>)
    requires CrawlOutcome(config, fetched, shortened, extracted).Ok?
    ensures var a := CrawlOutcome(config, fetched, shortened, extracted).value;
      (extracted.Ok? && a == extracted.value) ||
      (a.htmlContent.Some? && StartsWith(a.htmlContent.value, "<p>") && EndsWith(a.htmlContent.value, "</p>"))
  {
  }

  /** A body that is a non-blank string without any '<' becomes the "Non-HTML Content"
      article, whatever the extractor would have done. */
  lemma PlainTextIsNonHtml(text: string, shortened: Option<string>, extracted: Result<Extracted, string>)
    requires !IsBlank(text) && '<' !in text
    ensures ArticleFor(Str(text), shortened, extracted) == Ok(NonHtml(SafeTruncateText(text, 500, shortened)))
  {
    NoAngleIsNotHtml(text);
    NonHtmlArticle(text, shortened, extracted);
  }

  /** A non-blank string that is not HTML becomes the "Non-HTML Content" article. */
  lemma NonHtmlArticle(text: string, shortened: Option<string>, extracted: Result<Extracted, string>)
    requires !IsBlank(text) && !IsHtmlContent(text)
    ensures ArticleFor(Str(text), shortened, extracted) == Ok(NonHtml(SafeTruncateText(text, 500, shortened)))
  {
    var html := Str(text);
    assert Truthy(html) && html.Str? && !IsBlank(html.s) && !IsHtmlContent(html.s);
  }
}
