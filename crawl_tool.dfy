// The crawl tool (tools/crawl.py): PDF urls are answered without crawling, other urls
// are crawled and answered with the first 1000 characters of the article's markdown, and
// any failure is reported as plain text. The path test follows `urllib.parse.urlparse`.
module CrawlTool {
  import opened Wrappers
  import opened Strings
  import opened Values
  import opened CrawlArticle

  // ---------------------------------------------------------------------------
  // The path component of `urlparse`

  /** The first index of `s` holding one of `stops`, or `|s|` when none does. */
  function IndexOf(s: string, stops: set<char>): (i: nat)
    ensures i <= |s|
    ensures forall k :: 0 <= k < i ==> s[k] !in stops
    ensures i < |s| ==> s[i] in stops
  {
    if |s| == 0 then 0 else if s[0] in stops then 0 else 1 + IndexOf(s[1..], stops)
  }

  /** The last index of `s` holding `c`, or -1. */
  function LastIndexOf(s: string, c: char): (i: int)
    ensures -1 <= i < |s|
    ensures i >= 0 ==> s[i] == c
    ensures forall k :: i < k < |s| ==> s[k] != c
  {
    if |s| == 0 then -1 else if s[|s| - 1] == c then |s| - 1 else LastIndexOf(s[..|s| - 1], c)
  }

  /** The C0 controls and the space, which `urlsplit` strips from the front. */
  predicate IsC0OrSpace(c: char)
  {
    c as int <= 0x20
  }

  function LStripC0(s: string): (r: string)
    ensures |r| <= |s| && r == s[|s| - |r|..]
    ensures r == [] || !IsC0OrSpace(r[0])
  {
    if |s| > 0 && IsC0OrSpace(s[0]) then LStripC0(s[1..]) else s
  }

  /** Tab, carriage return and line feed, which `urlsplit` removes everywhere. */
  predicate IsUnsafe(c: char)
  {
    c == '\t' || c == '\r' || c == '\n'
  }

  predicate IsSchemeChar(c: char)
  {
    'a' <= c <= 'z' || 'A' <= c <= 'Z' || '0' <= c <= '9' || c == '+' || c == '-' || c == '.'
  }

  /** The schemes whose last path segment may carry ";params". */
  const UsesParams: set<string> :=
    {"", "ftp", "hdl", "prospero", "http", "imap", "https", "shttp", "rtsp", "rtsps", "rtspu",
     "sip", "sips", "mms", "sftp", "tel"}

  /** The scheme (lower-cased) and the rest: a scheme is a run of scheme characters
      starting with an ASCII letter and ended by the first ':'. */
  function SplitScheme(url: string): (string, string)
  {
    var i := IndexOf(url, {':'});
    if 0 < i < |url| && ('a' <= url[0] <= 'z' || 'A' <= url[0] <= 'Z')
       && forall k :: 0 <= k < i ==> IsSchemeChar(url[k])
    then (Lower(url[..i]), url[i + 1..])
    else ("", url)
  }

  /** The authority after "//", ended by the first '/', '?' or '#'. */
  function NetlocEnd(rest: string): (j: nat)
    ensures j <= |rest|
  {
    if StartsWith(rest, "//") then 2 + IndexOf(rest[2..], {'/', '?', '#'}) else 0
  }

  /** `_splitparams`: the path without the ";params" of its last segment. */
  function StripParams(path: string): string
  {
    var slash := LastIndexOf(path, '/');
    if slash >= 0 then
      var i := IndexOf(path[slash..], {';'});
      path[..slash + i]
    else path[..IndexOf(path, {';'})]
  }

  /** Tab, carriage return and line feed are dropped. */
  predicate Kept(c: char)
  {
    !IsUnsafe(c)
  }

  /** The url after `urlsplit`'s clean-up. */
  function Clean(url: string): string
  {
    Filter(LStripC0(url), Kept)
  }

  /** What follows the authority, up to the first '#' and then the first '?'. */
  function CutQueryAndFragment(s: string): string
  {
    var noFragment := s[..IndexOf(s, {'#'})];
    noFragment[..IndexOf(noFragment, {'?'})]
  }

  /** The path of what follows the scheme, or the `ValueError` raised for unbalanced
      brackets in the authority. */
  function PathAfterScheme(scheme: string, rest: string): Result<string, string>
  {
    var j := NetlocEnd(rest);
    var netloc := if j == 0 then "" else rest[2..j];
    if ('[' in netloc) != (']' in netloc) then Err("Invalid IPv6 URL")
    else
      var path := CutQueryAndFragment(rest[j..]);
      Ok(if scheme in UsesParams && ';' in path then StripParams(path) else path)
  }

  /** `urlparse(url).path`. */
  function UrlPath(url: string): Result<string, string>
  {
    var (scheme, rest) := SplitScheme(Clean(url));
    PathAfterScheme(scheme, rest)
  }

  /** `is_pdf_url`. */
  function IsPdfUrl(url: Option<string>): Result<bool, string>
  {
    if url.None? || url.value == "" then Ok(false)
    else
      match UrlPath(url.value)
      case Err(e) => Err(e)
      case Ok(path) => Ok(EndsWith(Lower(path), ".pdf"))
  }

  /** A missing or empty url is never a PDF. */
  lemma FalsyUrlIsNotPdf()
    ensures IsPdfUrl(None) == Ok(false) && IsPdfUrl(Some("")) == Ok(false)
  {
  }

  lemma {:induction false} IndexOfAppend(a: string, b: string, stops: set<char>)
    ensures IndexOf(a + b, stops) == if IndexOf(a, stops) < |a| then IndexOf(a, stops) else |a| + IndexOf(b, stops)
  {
    if |a| > 0 {
      assert (a + b)[1..] == a[1..] + b;
      IndexOfAppend(a[1..], b, stops);
    } else {
      assert a + b == b;
    }
  }

  lemma {:induction false} FilterAppend(a: string, b: string, keep: char -> bool)
    ensures Filter(a + b, keep) == Filter(a, keep) + Filter(b, keep)
  {
    if |a| > 0 {
      assert (a + b)[1..] == a[1..] + b;
      FilterAppend(a[1..], b, keep);
    } else {
      assert a + b == b;
    }
  }

  /** `b` holds none of the characters in `cs`. */
  predicate Avoids(b: string, cs: set<char>)
  {
    forall k :: 0 <= k < |b| ==> b[k] !in cs
  }

  /** Appending a query or fragment to text free of '?' and '#' leaves the scheme split
      alone apart from the appended tail. */
  lemma SplitSchemeOfTail(b: string, c: char, t: string)
    requires c == '?' || c == '#'
    requires Avoids(b, {'?', '#'})
    ensures SplitScheme(b + [c] + t).0 == SplitScheme(b).0
    ensures SplitScheme(b + [c] + t).1 == SplitScheme(b).1 + [c] + t
    ensures Avoids(SplitScheme(b).1, {'?', '#'})
  {
    var u := b + [c] + t;
    var i := IndexOf(b, {':'});
    assert IndexOf(u, {':'}) == if i < |b| then i else |b| + IndexOf([c] + t, {':'}) by {
      IndexOfAppend(b, [c] + t, {':'});
      assert u == b + ([c] + t);
    }
    if i < |b| {
      SchemeInHead(b, c, t, i);
    } else {
      assert IndexOf(u, {':'}) > |b|;
      assert u[|b|] == c && !IsSchemeChar(c);
    }
  }

  /** When the head has a ':', the scheme test reads only the head. */
  lemma SchemeInHead(b: string, c: char, t: string, i: nat)
    requires i == IndexOf(b, {':'}) < |b|
    requires IndexOf(b + [c] + t, {':'}) == i
    ensures SplitScheme(b + [c] + t).0 == SplitScheme(b).0
    ensures SplitScheme(b + [c] + t).1 == SplitScheme(b).1 + [c] + t
  {
    var u := b + [c] + t;
    assert u[..i] == b[..i];
    assert u[i + 1..] == b[i + 1..] + [c] + t;
    assert u[0] == b[0];
    assert forall k :: 0 <= k < i ==> u[k] == b[k];
  }

  /** The same for the authority: it ends at the appended '?' or '#' at the latest. */
  lemma NetlocOfTail(r: string, c: char, t: string)
    requires c == '?' || c == '#'
    requires Avoids(r, {'?', '#'})
    ensures NetlocEnd(r + [c] + t) == NetlocEnd(r)
  {
    var u := r + [c] + t;
    if StartsWith(u, "//") {
      assert u[|r|] == c && c != '/';
      assert |r| >= 2;
      assert StartsWith(r, "//") by { assert r[..2] == u[..2]; }
      assert u[2..] == r[2..] + ([c] + t);
      IndexOfAppend(r[2..], [c] + t, {'/', '?', '#'});
    } else {
      assert !StartsWith(r, "//") by {
        if |r| >= 2 { assert u[..2] == r[..2]; }
      }
    }
  }

  /** Cutting at the first '?' or '#' drops an appended query or fragment. */
  lemma CutOfTail(a: string, c: char, t: string)
    requires c == '?' || c == '#'
    requires Avoids(a, {'?', '#'})
    ensures CutQueryAndFragment(a + [c] + t) == a == CutQueryAndFragment(a)
  {
    var u := a + [c] + t;
    assert IndexOf(a, {'#'}) == |a| && IndexOf(a, {'?'}) == |a|;
    assert CutQueryAndFragment(a) == a by {
      assert a[..|a|] == a;
    }
    var i := IndexOf(u, {'#'});
    assert i == |a| + IndexOf([c] + t, {'#'}) by {
      IndexOfAppend(a, [c] + t, {'#'});
      assert u == a + ([c] + t);
    }
    var nf := u[..i];
    assert nf[..|a|] == a;
    if c == '?' {
      assert nf[..IndexOf(nf, {'?'})] == a by {
        assert nf == a + nf[|a|..] && nf[|a|] == '?';
        IndexOfAppend(a, nf[|a|..], {'?'});
      }
    } else {
      assert nf == a;
    }
  }

  /** The path after the scheme ignores an appended query or fragment. */
  lemma PathAfterSchemeOfTail(scheme: string, r: string, c: char, t: string)
    requires c == '?' || c == '#'
    requires Avoids(r, {'?', '#'})
    ensures PathAfterScheme(scheme, r + [c] + t) == PathAfterScheme(scheme, r)
  {
    var u := r + [c] + t;
    NetlocOfTail(r, c, t);
    var j := NetlocEnd(r);
    if j > 0 {
      assert u[2..j] == r[2..j];
    }
    assert u[j..] == r[j..] + [c] + t;
    CutOfTail(r[j..], c, t);
  }

  /** The clean-up keeps a leading part that needs none. */
  lemma CleanOfTail(base: string, c: char, tail: string)
    requires c == '?' || c == '#'
    requires Avoids(base, {'\t', '\r', '\n'})
    requires |base| > 0 && !IsC0OrSpace(base[0])
    ensures Clean(base + [c] + tail) == base + [c] + Filter(tail, Kept)
    ensures Clean(base) == base
  {
    var u := base + [c] + tail;
    assert LStripC0(u) == u;
    assert LStripC0(base) == base;
    FilterOfTail(base, c, tail);
  }

  lemma FilterOfTail(base: string, c: char, tail: string)
    requires c == '?' || c == '#'
    requires Avoids(base, {'\t', '\r', '\n'})
    ensures Filter(base + [c] + tail, Kept) == base + [c] + Filter(tail, Kept)
    ensures Filter(base, Kept) == base
  {
    assert forall i :: 0 <= i < |base| ==> Kept(base[i]);
    ConcatAssoc(base, [c], tail);
    FilterAppend(base, [c] + tail, Kept);
    FilterAppend([c], tail, Kept);
    assert Filter([c], Kept) == [c] by { assert [c][1..] == []; }
    ConcatAssoc(base, [c], Filter(tail, Kept));
  }

  /** The query and fragment do not affect the answer: a url whose text before the
      first '?' or '#' is `base` is a PDF url exactly when `base` is. */
  lemma QueryAndFragmentIgnored(base: string, c: char, tail: string)
    requires c == '?' || c == '#'
    requires Avoids(base, {'?', '#', '\t', '\r', '\n'})
    requires |base| > 0 && !IsC0OrSpace(base[0])
    ensures IsPdfUrl(Some(base + [c] + tail)) == IsPdfUrl(Some(base))
  {
    var ft := Filter(tail, Kept);
    CleanOfTail(base, c, tail);
    SplitSchemeOfTail(base, c, ft);
    var split := SplitScheme(base);
    PathAfterSchemeOfTail(split.0, split.1, c, ft);
    assert UrlPath(base + [c] + tail) == UrlPath(base);
  }

  // ---------------------------------------------------------------------------
  // crawl_tool and compress_crawl_content

  /** `compress_crawl_content`: the first 1000 characters of the titled markdown. */
  function CompressCrawlContent(a: Article, converted: string): (r: string)
    reads a
    ensures |r| <= 1000 && r <= a.ToMarkdown(true, converted)
    ensures |a.ToMarkdown(true, converted)| <= 1000 ==> r == a.ToMarkdown(true, converted)
  {
    Take(a.ToMarkdown(true, converted), 1000)
  }

  /** What the tool hands back: a JSON document or a plain error text. */
  datatype ToolReply = Json(doc: Value) | Plain(text: string)

  const PdfError: string := "PDF files cannot be crawled directly. Please download and view the PDF manually."

  function PdfReply(url: string): Value
  {
    Dict([("url", Str(url)), ("error", Str(PdfError)), ("crawled_content", Null), ("is_pdf", Bool(true))])
  }

  /** `crawl_tool`: `crawled` is the crawler's article, or the `repr` of what it raised;
      `converted` is the converter's output for the article's HTML. The `ValueError` of
      an unparsable url escapes. */
  function CrawlToolReply(url: string, crawled: Result<Article, string>, converted: string): (r: Result<ToolReply, string>)
    reads if crawled.Ok? then {crawled.value} else {}
  {
    match IsPdfUrl(Some(url))
    case Err(e) => Err(e)
    case Ok(true) => Ok(Json(PdfReply(url)))
    case Ok(false) =>
      match crawled
      case Err(e) => Ok(Plain("Failed to crawl. Error: " + e))
      case Ok(a) => Ok(Json(Dict([("url", Str(url)), ("crawled_content", Str(CompressCrawlContent(a, converted)))])))
  }

  /** A PDF url is answered without crawling, whatever the crawl would have given. */
  lemma PdfUrlSkipsCrawl(url: string, crawled: Result<Article, string>, converted: string)
    requires IsPdfUrl(Some(url)) == Ok(true)
    ensures CrawlToolReply(url, crawled, converted) == Ok(Json(PdfReply(url)))
  {
  }

  /** The PDF reply names the url, has no content and is marked as a PDF. */
  lemma PdfReplyFields(url: string)
    ensures var es := PdfReply(url).entries;
      Lookup(es, "url") == Some(Str(url)) && Lookup(es, "crawled_content") == Some(Null) &&
      Lookup(es, "is_pdf") == Some(Bool(true)) && Lookup(es, "error") == Some(Str(PdfError))
  {
    var es := PdfReply(url).entries;
    LookupFirst(es, 0);
    LookupFirst(es, 1);
    LookupFirst(es, 2);
    LookupFirst(es, 3);
  }

  /** A crawled page is answered with at most 1000 characters of its markdown, which
      start with the title heading whenever that heading fits. */
  lemma CrawledReplyShape(url: string, a: Article, converted: string)
    requires IsPdfUrl(Some(url)) == Ok(false)
    ensures CrawlToolReply(url, Ok(a), converted).Ok?
    ensures var r := CrawlToolReply(url, Ok(a), converted).value;
      r.Json? && Lookup(r.doc.entries, "url") == Some(Str(url)) &&
      Lookup(r.doc.entries, "crawled_content").Some? &&
      Lookup(r.doc.entries, "crawled_content").value.Str? &&
      |Lookup(r.doc.entries, "crawled_content").value.s| <= 1000 &&
      (|"# " + a.title + "\n\n"| <= 1000 ==> StartsWith(Lookup(r.doc.entries, "crawled_content").value.s, "# " + a.title + "\n\n"))
  {
    var md := a.ToMarkdown(true, converted);
    var h := "# " + a.title + "\n\n";
    assert md == h + MarkdownBody(a.htmlContent, converted);
    var c := CompressCrawlContent(a, converted);
    if |h| <= 1000 {
      assert |c| >= |h| by {
        if |md| <= 1000 { assert c == md; } else { assert |c| == 1000; }
      }
      assert c[..|h|] == md[..|h|] == h;
    }
  }

  /** A failed crawl is reported as plain text naming the error, never as JSON. */
  lemma FailedCrawlIsPlain(url: string, e: string, converted: string)
    requires IsPdfUrl(Some(url)) == Ok(false)
    ensures CrawlToolReply(url, Err(e), converted) == Ok(Plain("Failed to crawl. Error: " + e))
  {
  }
}
