// Crawled articles (crawler/article.py): the markdown form with its title heading and the
// message parts built from it. The HTML-to-markdown converter, the regular-expression
// split at image links and `urljoin` are external: their results are parameters.
module CrawlArticle {
  import opened Wrappers
  import opened Strings

  /** One entry of an LLM message: a text block or an image reference. */
  datatype Part = TextPart(text: string) | ImagePart(url: string)

  const NoContent: Part := TextPart("No content available")

  /** The error of reading `url` before the crawler has set it. */
  const NoUrl: string := "AttributeError: 'Article' object has no attribute 'url'"

  /** The body `to_markdown` appends: a placeholder for missing or blank HTML, else the
      converter's output. */
  function MarkdownBody(html: Option<string>, converted: string): string
  {
    if html.None? || IsBlank(html.value) then "*No content available*\n" else converted
  }

  /** The message parts after the given pieces of the split: odd pieces are image links
      resolved against the article url, even pieces are kept stripped when not blank. */
  function KeptParts(parts: seq<string>, url: Option<string>, urljoin: (string, string) -> string)
    : Result<seq<Part>, string>
    decreases |parts|
  {
    if |parts| == 0 then Ok([])
    else
      var i := |parts| - 1;
      match KeptParts(parts[..i], url, urljoin)
      case Err(e) => Err(e)
      case Ok(content) => AddPiece(content, i, parts[i], url, urljoin)
  }

  /** The entries after piece `i` of the split is handled. */
  function AddPiece(content: seq<Part>, i: nat, piece: string, url: Option<string>,
                    urljoin: (string, string) -> string): Result<seq<Part>, string>
  {
    if i % 2 == 1 then
      if url.None? then Err(NoUrl) else Ok(content + [ImagePart(urljoin(url.value, Strip(piece)))])
    else if Strip(piece) != "" then Ok(content + [TextPart(Strip(piece))])
    else Ok(content)
  }

  /** One more piece extends the parts of the shorter prefix. */
  lemma KeptPartsStep(parts: seq<string>, i: nat, url: Option<string>, urljoin: (string, string) -> string)
    requires i < |parts| && KeptParts(parts[..i], url, urljoin).Ok?
    ensures KeptParts(parts[..i + 1], url, urljoin)
            == AddPiece(KeptParts(parts[..i], url, urljoin).value, i, parts[i], url, urljoin)
  {
    assert parts[..i + 1][..i] == parts[..i];
  }

  /** What `to_message` returns for the given markdown. */
  function MessageOf(markdown: string, parts: seq<string>, url: Option<string>,
                     urljoin: (string, string) -> string): (r: Result<seq<Part>, string>)
    ensures r.Ok? ==> |r.value| >= 1
  {
    if IsBlank(markdown) then Ok([NoContent])
    else
      match KeptParts(parts, url, urljoin)
      case Err(e) => Err(e)
      case Ok(content) => Ok(if content == [] then [NoContent] else content)
  }

  /** A crawled article. The crawler sets `url` after construction. */
  class Article {
    var title: string
    var htmlContent: Option<string>
    var url: Option<string>

    constructor(title: string, htmlContent: Option<string>)
      ensures this.title == title && this.htmlContent == htmlContent && url == None
    {
      this.title := title;
      this.htmlContent := htmlContent;
      url := None;
    }

    /** `to_markdown`; `converted` is the converter's output for the HTML. */
    function ToMarkdown(includingTitle: bool, converted: string): string
      reads this
    {
      (if includingTitle then "# " + title + "\n\n" else "") + MarkdownBody(htmlContent, converted)
    }

    /** `to_message`: `parts` is the split of `ToMarkdown(true, converted)` at image links. */
    method ToMessage(converted: string, parts: seq<string>, urljoin: (string, string) -> string)
      returns (r: Result<seq<Part>, string>)
      ensures r == MessageOf(ToMarkdown(true, converted), parts, url, urljoin)
    {
      var markdown := ToMarkdown(true, converted);
      if IsBlank(markdown) {
        return Ok([NoContent]);
      }
      var content: seq<Part> := [];
      for i := 0 to |parts|
        invariant KeptParts(parts[..i], url, urljoin) == Ok(content)
      {
        KeptPartsStep(parts, i, url, urljoin);
        if i % 2 == 1 {
          if url.None? {
            KeptPartsErrSticks(parts, i + 1, url, urljoin);
            assert parts[..|parts|] == parts;
            return Err(NoUrl);
          }
          content := content + [ImagePart(urljoin(url.value, Strip(parts[i])))];
        } else {
          var textPart := Strip(parts[i]);
          if textPart != "" {
            content := content + [TextPart(textPart)];
          }
        }
      }
      assert parts[..|parts|] == parts;
      if content == [] {
        content := [NoContent];
      }
      return Ok(content);
    }
  }

  /** Once a prefix has failed, every longer prefix fails the same way. */
  lemma {:induction false} KeptPartsErrSticks(parts: seq<string>, k: nat, url: Option<string>,
                                              urljoin: (string, string) -> string)
    requires k <= |parts| && KeptParts(parts[..k], url, urljoin).Err?
    ensures KeptParts(parts, url, urljoin) == KeptParts(parts[..k], url, urljoin)
    decreases |parts| - k
  {
    if k < |parts| {
      assert parts[..k + 1][..k] == parts[..k];
      KeptPartsErrSticks(parts, k + 1, url, urljoin);
    } else {
      assert parts[..k] == parts;
    }
  }

  /** The titled markdown is never blank, so `to_message` always reaches the split. */
  lemma TitledMarkdownNotBlank(a: Article, converted: string)
    ensures !IsBlank(a.ToMarkdown(true, converted))
  {
    assert a.ToMarkdown(true, converted)[0] == '#';
  }

  /** Missing or blank HTML becomes the placeholder; otherwise the converter's output is
      used. */
  lemma MarkdownOfBlankHtml(a: Article, converted: string)
    requires a.htmlContent.None? || IsBlank(a.htmlContent.value)
    ensures a.ToMarkdown(false, converted) == "*No content available*\n"
    ensures a.ToMarkdown(true, converted) == "# " + a.title + "\n\n" + "*No content available*\n"
  {
    assert MarkdownBody(a.htmlContent, converted) == "*No content available*\n";
  }

  /** Every text entry is stripped and not empty. */
  predicate TextsStripped(c: seq<Part>)
  {
    forall k :: 0 <= k < |c| && c[k].TextPart? ==> c[k].text != "" && Strip(c[k].text) == c[k].text
  }

  /** With the url set, the split always succeeds: one image per odd piece and every text
      entry stripped and not empty. */
  lemma {:induction false} KeptPartsShape(parts: seq<string>, u: string, urljoin: (string, string) -> string)
    ensures KeptParts(parts, Some(u), urljoin).Ok?
    ensures Images(KeptParts(parts, Some(u), urljoin).value) == |parts| / 2
    ensures TextsStripped(KeptParts(parts, Some(u), urljoin).value)
    decreases |parts|
  {
    if |parts| > 0 {
      var i := |parts| - 1;
      KeptPartsShape(parts[..i], u, urljoin);
      var c := KeptParts(parts[..i], Some(u), urljoin).value;
      var t := Strip(parts[i]);
      assert KeptParts(parts, Some(u), urljoin) == AddPiece(c, i, parts[i], Some(u), urljoin);
      if i % 2 == 1 {
        ShapeAppend(c, ImagePart(urljoin(u, t)));
      } else if t != "" {
        StripIdempotent(parts[i]);
        ShapeAppend(c, TextPart(t));
      }
    }
  }

  /** The number of image entries. */
  function Images(c: seq<Part>): nat
  {
    if |c| == 0 then 0 else Images(c[..|c| - 1]) + (if c[|c| - 1].ImagePart? then 1 else 0)
  }

  /** Appending an entry counts it when it is an image and keeps the texts stripped when
      it is a stripped, non-empty text. */
  lemma ShapeAppend(c: seq<Part>, p: Part)
    requires TextsStripped(c) && (p.TextPart? ==> p.text != "" && Strip(p.text) == p.text)
    ensures Images(c + [p]) == Images(c) + (if p.ImagePart? then 1 else 0)
    ensures TextsStripped(c + [p])
  {
    assert (c + [p])[..|c|] == c;
    forall k | 0 <= k < |c + [p]| && (c + [p])[k].TextPart?
      ensures (c + [p])[k].text != "" && Strip((c + [p])[k].text) == (c + [p])[k].text
    {
      if k < |c| {
        assert (c + [p])[k] == c[k];
      }
    }
  }

  /** Without a url, the message fails exactly when the split found an image link. */
  lemma {:induction false} KeptPartsWithoutUrl(parts: seq<string>, urljoin: (string, string) -> string)
    ensures KeptParts(parts, None, urljoin).Err? <==> |parts| >= 2
    decreases |parts|
  {
    if |parts| > 0 {
      KeptPartsWithoutUrl(parts[..|parts| - 1], urljoin);
    }
  }
}
