// Citation records (citations/models.py): source metadata, numbered
// citations, their dict forms and their string forms.
module CitationModels {
  import opened Wrappers
  import opened Strings
  import opened Values

  /** `CitationMetadata`. Scores are reals; `extra` is an insertion-ordered dict. */
  datatype Metadata = Metadata(
    url: string,
    title: string,
    description: Option<string>,
    contentSnippet: Option<string>,
    rawContent: Option<string>,
    domain: Option<string>,
    author: Option<string>,
    publishedDate: Option<string>,
    language: Option<string>,
    images: seq<string>,
    favicon: Option<string>,
    relevanceScore: real,
    credibilityScore: real,
    accessedAt: string,
    extra: seq<(string, Value)>)

  /** `Citation`. */
  datatype Citation = Citation(
    number: int,
    metadata: Metadata,
    context: Option<string>,
    citedText: Option<string>)

  /** An optional string field counts as set only when it is a non-empty string. */
  predicate Present(o: Option<string>)
  {
    o.Some? && o.value != []
  }

  /** The `__init__` hook: when no domain is given and the url is non-empty, the domain
      becomes the url's authority; when parsing fails (`authority` gives `None`) it is
      left as it was. `authority` stands for `urlparse(url).netloc`. */
  function FillDomain(m: Metadata, authority: string -> Option<string>): (r: Metadata)
    ensures r.(domain := m.domain) == m
    ensures Present(m.domain) || m.url == [] ==> r == m
    ensures !Present(m.domain) && m.url != [] && authority(m.url).Some? ==>
              r.domain == Some(authority(m.url).value)
    ensures authority(m.url).None? ==> r == m
  {
    if !Present(m.domain) && m.url != [] then
      match authority(m.url)
      case Some(netloc) => m.(domain := Some(netloc))
      case None => m
    else m
  }

  /** `CitationMetadata(url=..., title=..., ...)` with every other field at its default;
      `now` stands for `datetime.now().isoformat()`. */
  function NewMetadata(url: string, title: string, description: Option<string>,
                       contentSnippet: Option<string>, rawContent: Option<string>,
                       relevanceScore: real, extra: seq<(string, Value)>, now: string,
                       authority: string -> Option<string>): (r: Metadata)
    ensures r.url == url && r.title == title && r.description == description
    ensures r.contentSnippet == contentSnippet && r.rawContent == rawContent
    ensures r.relevanceScore == relevanceScore && r.credibilityScore == 0.0
    ensures r.extra == extra && r.accessedAt == now && r.images == []
    ensures r.author.None? && r.publishedDate.None? && r.language.None? && r.favicon.None?
    ensures url != [] && authority(url).Some? ==> r.domain == authority(url)
    ensures url == [] || authority(url).None? ==> r.domain.None?
  {
    FillDomain(Metadata(url, title, description, contentSnippet, rawContent, None, None,
                        None, None, [], None, relevanceScore, 0.0, now, extra), authority)
  }

  /** `result.get(k)` for an optional text field. */
  function GetOptStr(d: Value, k: string): Option<string>
  {
    match Get(d, k)
    case Some(Str(s)) => Some(s)
    case _ => None
  }

  /** `CitationMetadata.from_search_result(result, query)`. */
  function FromSearchResult(result: Value, query: string, now: string,
                            authority: string -> Option<string>): (r: Metadata)
    ensures r.url == GetStr(result, "url", "")
    ensures !(Get(result, "title").Some? && Get(result, "title").value.Str?) ==> r.title == "Untitled"
    ensures r.relevanceScore == GetNum(result, "score", 0.0)
    ensures var content := GetStr(result, "content", "");
            (content == [] <==> r.contentSnippet.None?) &&
            (r.contentSnippet.Some? ==> r.contentSnippet.value <= content &&
                                        |r.contentSnippet.value| == if |content| < 500 then |content| else 500)
    ensures GetStr(result, "content", "") != [] ==> r.description == Some(GetStr(result, "content", ""))
    ensures Get(result, "content") == Some(Null) ==> r.description.None?
    ensures !Has(result, "content") && Has(result, "description") ==> r.description == GetOptStr(result, "description")
    ensures !Has(result, "content") && !Has(result, "description") ==> r.description == Some("")
    ensures |r.extra| == 2 && r.extra[0] == ("query", Str(query)) && r.extra[1].0 == "result_type"
    ensures !Has(result, "type") ==> r.extra[1].1 == Str("page")
  {
    var content := GetStr(result, "content", "");
    var description :=
      if Has(result, "content") then GetOptStr(result, "content")
      else if Has(result, "description") then GetOptStr(result, "description")
      else Some("");
    var resultType := match Get(result, "type") case Some(v) => v case None => Str("page");
    NewMetadata(GetStr(result, "url", ""), GetStr(result, "title", "Untitled"), description,
                if content != [] then Some(Take(content, 500)) else None,
                GetOptStr(result, "raw_content"), GetNum(result, "score", 0.0),
                [("query", Str(query)), ("result_type", resultType)], now, authority)
  }

  /** `CitationMetadata.id`: the first 12 characters of the url's hex digest. */
  function Id(m: Metadata, hexDigest: string -> string): (r: string)
    ensures |r| <= 12 && r <= hexDigest(m.url)
  {
    Take(hexDigest(m.url), 12)
  }

  const MetadataDictKeys: seq<string> :=
    ["id", "url", "title", "description", "content_snippet", "domain", "author",
     "published_date", "language", "images", "favicon", "relevance_score",
     "credibility_score", "accessed_at", "extra"]

  /** The values `to_dict` writes, in key order. */
  function MetadataValues(m: Metadata, hexDigest: string -> string): (vs: seq<Value>)
    ensures |vs| == |MetadataDictKeys|
  {
    [Str(Id(m, hexDigest)), Str(m.url), Str(m.title), OptStr(m.description),
     OptStr(m.contentSnippet), OptStr(m.domain), OptStr(m.author),
     OptStr(m.publishedDate), OptStr(m.language), StrList(m.images),
     OptStr(m.favicon), Num(m.relevanceScore), Num(m.credibilityScore),
     Str(m.accessedAt), Dict(m.extra)]
  }

  /** `CitationMetadata.to_dict()`. */
  function MetadataToDict(m: Metadata, hexDigest: string -> string): (r: Value)
    ensures r.Dict? && Keys(r.entries) == MetadataDictKeys
  {
    var es := Zip(MetadataDictKeys, MetadataValues(m, hexDigest));
    KeysIndex(es);
    Dict(es)
  }

  /** `to_dict` never writes the raw content. */
  lemma MetadataDictOmitsRawContent(m: Metadata, hexDigest: string -> string)
    ensures Lookup(MetadataToDict(m, hexDigest).entries, "raw_content") == None
  {
    MetadataDictKeysDistinct();
    LookupAbsent(MetadataToDict(m, hexDigest).entries, "raw_content");
  }

  // Field validation as pydantic performs it for the declared field types.

  function RequiredStr(d: seq<(string, Value)>, k: string): Result<string, string>
  {
    match Lookup(d, k)
    case Some(Str(s)) => Ok(s)
    case Some(_) => Err(k + ": not a string")
    case None => Err(k + ": field required")
  }

  function OptionalStr(d: seq<(string, Value)>, k: string): Result<Option<string>, string>
  {
    match Lookup(d, k)
    case None => Ok(None)
    case Some(Null) => Ok(None)
    case Some(Str(s)) => Ok(Some(s))
    case Some(_) => Err(k + ": not a string")
  }

  function AllStrings(xs: seq<Value>): (r: Option<seq<string>>)
    ensures r.Some? ==> StrList(r.value) == List(xs)
  {
    if |xs| == 0 then Some([])
    else if !xs[0].Str? then None
    else match AllStrings(xs[1..])
      case Some(rest) =>
        StrListCons(xs, rest);
        Some([xs[0].s] + rest)
      case None => None
  }

  /** A string in front of a list of strings. */
  lemma StrListCons(xs: seq<Value>, rest: seq<string>)
    requires |xs| > 0 && xs[0].Str? && StrList(rest) == List(xs[1..])
    ensures StrList([xs[0].s] + rest) == List(xs)
  {
    assert StrList([xs[0].s] + rest).items == [xs[0]] + xs[1..];
    assert xs == [xs[0]] + xs[1..];
  }

  lemma {:induction false} AllStringsOfStrList(xs: seq<string>)
    ensures AllStrings(StrList(xs).items) == Some(xs)
  {
    if |xs| > 0 {
      AllStringsOfStrList(xs[1..]);
      var items := StrList(xs).items;
      assert items[0] == Str(xs[0]);
      assert items[1..] == StrList(xs[1..]).items;
      assert [xs[0]] + xs[1..] == xs;
    }
  }

  function StrListField(d: seq<(string, Value)>, k: string): Result<seq<string>, string>
  {
    match Lookup(d, k)
    case None => Ok([])
    case Some(List(xs)) =>
      (match AllStrings(xs)
       case Some(ss) => Ok(ss)
       case None => Err(k + ": not a list of strings"))
    case Some(_) => Err(k + ": not a list")
  }

  function RealField(d: seq<(string, Value)>, k: string): Result<real, string>
  {
    match Lookup(d, k)
    case None => Ok(0.0)
    case Some(Num(x)) => Ok(x)
    case Some(_) => Err(k + ": not a number")
  }

  function StrField(d: seq<(string, Value)>, k: string, default: string): Result<string, string>
  {
    match Lookup(d, k)
    case None => Ok(default)
    case Some(Str(s)) => Ok(s)
    case Some(_) => Err(k + ": not a string")
  }

  function DictField(d: seq<(string, Value)>, k: string): Result<seq<(string, Value)>, string>
  {
    match Lookup(d, k)
    case None => Ok([])
    case Some(Dict(es)) => Ok(es)
    case Some(_) => Err(k + ": not a dict")
  }

  /** `CitationMetadata.from_dict(data)`: drops "id" and validates the rest. Validation
      does not run `__init__`, so the domain is taken as given. */
  function MetadataFromDict(data: Value, now: string): (r: Result<Metadata, string>)
    ensures !data.Dict? ==> r.Err?
    ensures r.Ok? ==> data.Dict? && Lookup(data.entries, "url") == Some(Str(r.value.url))
    ensures r.Ok? ==> Lookup(data.entries, "title") == Some(Str(r.value.title))
  {
    if !data.Dict? then Err("not a dict")
    else
      RemoveLookup(data.entries, "id", "url");
      RemoveLookup(data.entries, "id", "title");
      var d := Remove(data.entries, "id");
      var url :- RequiredStr(d, "url");
      var title :- RequiredStr(d, "title");
      var description :- OptionalStr(d, "description");
      var snippet :- OptionalStr(d, "content_snippet");
      var raw :- OptionalStr(d, "raw_content");
      var domain :- OptionalStr(d, "domain");
      var author :- OptionalStr(d, "author");
      var published :- OptionalStr(d, "published_date");
      var language :- OptionalStr(d, "language");
      var images :- StrListField(d, "images");
      var favicon :- OptionalStr(d, "favicon");
      var relevance :- RealField(d, "relevance_score");
      var credibility :- RealField(d, "credibility_score");
      var accessed :- StrField(d, "accessed_at", now);
      var extra :- DictField(d, "extra");
      Ok(Metadata(url, title, description, snippet, raw, domain, author, published,
                  language, images, favicon, relevance, credibility, accessed, extra))
  }

  /** Every field `to_dict` writes is found again once "id" is dropped. */
  lemma MetadataDictLookups(m: Metadata, hexDigest: string -> string)
    ensures var es := MetadataToDict(m, hexDigest).entries;
            var d := Remove(es, "id");
            var vs := MetadataValues(m, hexDigest);
            d == Zip(MetadataDictKeys[1..], vs[1..]) &&
            forall i :: 1 <= i < |MetadataDictKeys| ==> Lookup(d, MetadataDictKeys[i]) == Some(vs[i])
  {
    var es := MetadataToDict(m, hexDigest).entries;
    var ks := MetadataDictKeys[1..];
    var vs := MetadataValues(m, hexDigest)[1..];
    MetadataDictKeysDistinct();
    assert es[1..] == Zip(ks, vs);
    RemoveZipAbsent(ks, vs, "id");
    assert Remove(es, "id") == Remove(es[1..], "id");
    LookupZipAll(ks, vs);
  }

  lemma MetadataDictKeysDistinct()
    ensures Distinct(MetadataDictKeys) && Distinct(MetadataDictKeys[1..])
    ensures "raw_content" !in MetadataDictKeys && "id" !in MetadataDictKeys[1..]
  {

  }

  /** `from_dict` reads back each field `to_dict` would have written for `m`. */
  predicate HoldsFieldsOf(d: seq<(string, Value)>, m: Metadata)
  {
    Lookup(d, "url") == Some(Str(m.url)) &&
    Lookup(d, "title") == Some(Str(m.title)) &&
    Lookup(d, "description") == Some(OptStr(m.description)) &&
    Lookup(d, "content_snippet") == Some(OptStr(m.contentSnippet)) &&
    Lookup(d, "raw_content") == None &&
    Lookup(d, "domain") == Some(OptStr(m.domain)) &&
    Lookup(d, "author") == Some(OptStr(m.author)) &&
    Lookup(d, "published_date") == Some(OptStr(m.publishedDate)) &&
    Lookup(d, "language") == Some(OptStr(m.language)) &&
    Lookup(d, "images") == Some(StrList(m.images)) &&
    Lookup(d, "favicon") == Some(OptStr(m.favicon)) &&
    Lookup(d, "relevance_score") == Some(Num(m.relevanceScore)) &&
    Lookup(d, "credibility_score") == Some(Num(m.credibilityScore)) &&
    Lookup(d, "accessed_at") == Some(Str(m.accessedAt)) &&
    Lookup(d, "extra") == Some(Dict(m.extra))
  }

  lemma MetadataDictFields(m: Metadata, hexDigest: string -> string)
    ensures HoldsFieldsOf(Remove(MetadataToDict(m, hexDigest).entries, "id"), m)
  {
    MetadataDictLookups(m, hexDigest);
    ZipHoldsFields(m, hexDigest, MetadataValues(m, hexDigest)[1..]);
  }

  lemma ZipHoldsFields(m: Metadata, hexDigest: string -> string, vs: seq<Value>)
    requires vs == MetadataValues(m, hexDigest)[1..]
    ensures HoldsFieldsOf(Zip(MetadataDictKeys[1..], vs), m)
  {
    var ks := MetadataDictKeys[1..];
    MetadataDictKeysDistinct();
    LookupZipAbsent(ks, vs, "raw_content");
    LookupZip(ks, vs, 0);
    LookupZip(ks, vs, 1);
    LookupZip(ks, vs, 2);
    LookupZip(ks, vs, 3);
    LookupZip(ks, vs, 4);
    LookupZip(ks, vs, 5);
    LookupZip(ks, vs, 6);
    LookupZip(ks, vs, 7);
    LookupZip(ks, vs, 8);
    LookupZip(ks, vs, 9);
    LookupZip(ks, vs, 10);
    LookupZip(ks, vs, 11);
    LookupZip(ks, vs, 12);
    LookupZip(ks, vs, 13);
  }

  lemma MetadataFromFields(data: Value, m: Metadata, now: string)
    requires data.Dict? && HoldsFieldsOf(Remove(data.entries, "id"), m)
    ensures MetadataFromDict(data, now) == Ok(m.(rawContent := None))
  {
    AllStringsOfStrList(m.images);
    var d := Remove(data.entries, "id");
    assert RequiredStr(d, "url") == Ok(m.url) && RequiredStr(d, "title") == Ok(m.title);
    assert OptionalStr(d, "description") == Ok(m.description);
    assert OptionalStr(d, "content_snippet") == Ok(m.contentSnippet);
    assert OptionalStr(d, "raw_content") == Ok(None);
    assert OptionalStr(d, "domain") == Ok(m.domain) && OptionalStr(d, "author") == Ok(m.author);
    assert OptionalStr(d, "published_date") == Ok(m.publishedDate);
    assert OptionalStr(d, "language") == Ok(m.language);
    assert StrListField(d, "images") == Ok(m.images);
    assert OptionalStr(d, "favicon") == Ok(m.favicon);
    assert RealField(d, "relevance_score") == Ok(m.relevanceScore);
    assert RealField(d, "credibility_score") == Ok(m.credibilityScore);
    assert StrField(d, "accessed_at", now) == Ok(m.accessedAt);
    assert DictField(d, "extra") == Ok(m.extra);
  }

  /** A dict round trip keeps every field except `raw_content`, which `to_dict` omits. */
  lemma MetadataDictRoundTrip(m: Metadata, hexDigest: string -> string, now: string)
    ensures MetadataFromDict(MetadataToDict(m, hexDigest), now) == Ok(m.(rawContent := None))
  {
    MetadataDictFields(m, hexDigest);
    MetadataFromFields(MetadataToDict(m, hexDigest), m, now);
  }

  /** `Citation.id`, `.url` and `.title` read through to the metadata. */
  function CitationId(c: Citation, hexDigest: string -> string): (r: string)
    ensures r == Id(c.metadata, hexDigest)
  {
    Take(hexDigest(c.metadata.url), 12)
  }

  const CitationDictKeys: seq<string> := ["number", "metadata", "context", "cited_text"]

  /** `Citation.to_dict()`. */
  function CitationToDict(c: Citation, hexDigest: string -> string): (r: Value)
    ensures r.Dict? && Keys(r.entries) == CitationDictKeys
  {
    var es := Zip(CitationDictKeys, [Num(c.number as real), MetadataToDict(c.metadata, hexDigest),
                                     OptStr(c.context), OptStr(c.citedText)]);
    KeysIndex(es);
    Dict(es)
  }

  /** `Citation.from_dict(data)`: "number" and "metadata" must be present; an integral
      number is accepted; a dict metadata goes through `MetadataFromDict`. */
  function CitationFromDict(data: Value, now: string): (r: Result<Citation, string>)
    ensures r.Ok? ==> Has(data, "number") && Has(data, "metadata")
    ensures r.Ok? ==> Get(data, "number") == Some(Num(r.value.number as real))
  {
    match (Get(data, "number"), Get(data, "metadata"))
    case (None, _) => Err("number: KeyError")
    case (_, None) => Err("metadata: KeyError")
    case (Some(n), Some(md)) =>
      if !(n.Num? && n.x == n.x.Floor as real) then Err("number: not an integer")
      else
        var m :- MetadataFromDict(md, now);
        var context :- OptionalStr(data.entries, "context");
        var cited :- OptionalStr(data.entries, "cited_text");
        Ok(Citation(n.x.Floor, m, context, cited))
  }

  lemma CitationDictFields(c: Citation, hexDigest: string -> string)
    ensures var es := CitationToDict(c, hexDigest).entries;
            Lookup(es, "number") == Some(Num(c.number as real)) &&
            Lookup(es, "metadata") == Some(MetadataToDict(c.metadata, hexDigest)) &&
            Lookup(es, "context") == Some(OptStr(c.context)) &&
            Lookup(es, "cited_text") == Some(OptStr(c.citedText))
  {
    assert Distinct(CitationDictKeys);
    LookupZipAll(CitationDictKeys, [Num(c.number as real), MetadataToDict(c.metadata, hexDigest),
                                    OptStr(c.context), OptStr(c.citedText)]);
    assert CitationDictKeys[0] == "number" && CitationDictKeys[1] == "metadata";
    assert CitationDictKeys[2] == "context" && CitationDictKeys[3] == "cited_text";
  }

  /** `Citation.from_dict(c.to_dict())` keeps number, context, cited text and all metadata
      except the raw content. */
  lemma CitationDictRoundTrip(c: Citation, hexDigest: string -> string, now: string)
    ensures CitationFromDict(CitationToDict(c, hexDigest), now)
            == Ok(c.(metadata := c.metadata.(rawContent := None)))
  {
    MetadataDictRoundTrip(c.metadata, hexDigest, now);
    CitationDictFields(c, hexDigest);
    var data := CitationToDict(c, hexDigest);
    assert (c.number as real).Floor == c.number;
    assert OptionalStr(data.entries, "context") == Ok(c.context);
    assert OptionalStr(data.entries, "cited_text") == Ok(c.citedText);
  }

  /** `to_markdown_reference`: "[Title](URL)". */
  function MarkdownReference(c: Citation): (r: string)
  {
    "[" + c.metadata.title + "](" + c.metadata.url + ")"
  }

  /** `to_inline_marker`: "[^n]". */
  function InlineMarker(c: Citation): (r: string)
  {
    "[^" + IntToString(c.number) + "]"
  }

  /** `to_numbered_reference`: "[n] Title - URL". */
  function NumberedReference(c: Citation): (r: string)
  {
    "[" + IntToString(c.number) + "] " + c.metadata.title + " - " + c.metadata.url
  }

  /** `to_footnote`: "[^n]: Title - URL". */
  function Footnote(c: Citation): (r: string)
  {
    InlineMarker(c) + ": " + c.metadata.title + " - " + c.metadata.url
  }

  /** The footnote definition begins with the inline marker it defines, and the
      footnote and numbered forms both end with " - URL" after the title. */
  lemma StringFormsAgree(c: Citation)
    ensures InlineMarker(c) <= Footnote(c)
    ensures Footnote(c)[|InlineMarker(c)|..] == ": " + c.metadata.title + " - " + c.metadata.url
    ensures EndsWith(NumberedReference(c), c.metadata.title + " - " + c.metadata.url)
    ensures EndsWith(Footnote(c), c.metadata.title + " - " + c.metadata.url)
  {
    var tail := c.metadata.title + " - " + c.metadata.url;
    assert NumberedReference(c) == ("[" + IntToString(c.number) + "] ") + tail;
    assert Footnote(c) == (InlineMarker(c) + ": ") + tail;
  }
}
