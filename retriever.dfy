// The retrieval records shared by the RAG providers (rag/retriever.py).
module Retriever {
  import opened Wrappers
  import opened Strings
  import opened Values

  /** One retrieved passage and its similarity score. */
  datatype Chunk = Chunk(content: string, similarity: real)

  /** A Python list of chunks: an object of its own, so two documents can share one. */
  class ChunkList {
    var items: seq<Chunk>

    constructor()
      ensures items == []
    {
      items := [];
    }

    /** `chunks.append(chunk)`. */
    method Append(c: Chunk)
      modifies this
      ensures items == old(items) + [c]
    {
      items := items + [c];
    }
  }

  /** A retrieved document: its id, optional url and title, and its list of chunks. */
  class Document {
    var id: string
    var url: Option<string>
    var title: Option<string>
    var chunks: ChunkList

    /** `Document(id, url, title, chunks)`: the list is stored, not copied. */
    constructor(id: string, url: Option<string>, title: Option<string>, chunks: ChunkList)
      ensures this.id == id && this.url == url && this.title == title && this.chunks == chunks
    {
      this.id := id;
      this.url := url;
      this.title := title;
      this.chunks := chunks;
    }
  }

  /** `Document(...)` with `chunks` omitted: Python evaluates the default `[]` once, so
      every such call receives the same list object, passed here as `sharedDefault`. */
  method NewDocument(id: string, url: Option<string>, title: Option<string>,
                     chunks: Option<ChunkList>, sharedDefault: ChunkList) returns (d: Document)
    ensures fresh(d)
    ensures d.id == id && d.url == url && d.title == title
    ensures d.chunks == if chunks.Some? then chunks.value else sharedDefault
  {
    d := new Document(id, url, title, if chunks.Some? then chunks.value else sharedDefault);
  }

  /** Two documents built without `chunks` alias one list: a chunk appended to the first
      shows up in the second. */
  method DefaultChunksShared(sharedDefault: ChunkList, c: Chunk)
    returns (d1: Document, d2: Document)
    modifies sharedDefault
    ensures d1 != d2 && d1.chunks == d2.chunks
    ensures d2.chunks.items == old(sharedDefault.items) + [c]
  {
    d1 := NewDocument("a", None, None, None, sharedDefault);
    d2 := NewDocument("b", None, None, None, sharedDefault);
    d1.chunks.Append(c);
  }

  function ChunkContents(cs: seq<Chunk>): (r: seq<string>)
    ensures |r| == |cs| && forall i :: 0 <= i < |cs| ==> r[i] == cs[i].content
  {
    seq(|cs|, i requires 0 <= i < |cs| => cs[i].content)
  }

  /** `Document.to_dict()` over the document's fields. */
  function DocumentDict(id: string, url: Option<string>, title: Option<string>,
                        chunks: seq<Chunk>): (r: Value)
  {
    var base := [("id", Str(id)), ("content", Str(Join("\n\n", ChunkContents(chunks))))];
    var withUrl := if Present(url) then base + [("url", Str(url.value))] else base;
    Dict(if Present(title) then withUrl + [("title", Str(title.value))] else withUrl)
  }

  /** `Document.to_dict()`. */
  function ToDict(d: Document): Value
    reads d, d.chunks
  {
    DocumentDict(d.id, d.url, d.title, d.chunks.items)
  }

  /** A field counts when it holds non-empty text (Python truthiness of `str | None`). */
  predicate Present(o: Option<string>)
  {
    o.Some? && o.value != []
  }

  /** The dict always holds the id and the chunk contents joined by blank lines, and holds
      `url` and `title` exactly when they are non-empty, each with its own value. */
  lemma DocumentDictFields(id: string, url: Option<string>, title: Option<string>, chunks: seq<Chunk>)
    ensures Get(DocumentDict(id, url, title, chunks), "id") == Some(Str(id))
    ensures Get(DocumentDict(id, url, title, chunks), "content")
      == Some(Str(Join("\n\n", ChunkContents(chunks))))
    ensures Has(DocumentDict(id, url, title, chunks), "url") <==> Present(url)
    ensures Present(url) ==> Get(DocumentDict(id, url, title, chunks), "url") == Some(Str(url.value))
    ensures Has(DocumentDict(id, url, title, chunks), "title") <==> Present(title)
    ensures Present(title) ==> Get(DocumentDict(id, url, title, chunks), "title") == Some(Str(title.value))
    ensures |DocumentDict(id, url, title, chunks).entries|
      == 2 + (if Present(url) then 1 else 0) + (if Present(title) then 1 else 0)
  {
    var base := [("id", Str(id)), ("content", Str(Join("\n\n", ChunkContents(chunks))))];
    var u: seq<(string, Value)> := if Present(url) then [("url", Str(url.value))] else [];
    var t: seq<(string, Value)> := if Present(title) then [("title", Str(title.value))] else [];
    var e := (base + u) + t;
    assert DocumentDict(id, url, title, chunks).entries == e;
    assert Keys(base) == ["id", "content"] by { KeysIndex(base); }
    assert Keys(base + u) == ["id", "content"] + Keys(u) by { KeysIndex(base + u); KeysIndex(u); }
    assert Keys(u) == if Present(url) then ["url"] else [] by { KeysIndex(u); }
    assert Lookup(e, "id") == Some(Str(id)) && Lookup(e, "content") == Some(base[1].1) by {
      LookupAppend(base + u, t, "id");
      LookupAppend(base + u, t, "content");
      LookupAppend(base, u, "id");
      LookupAppend(base, u, "content");
    }
    assert Lookup(e, "url") == if Present(url) then Some(Str(url.value)) else None by {
      LookupAppend(base + u, t, "url");
      LookupAppend(base, u, "url");
    }
    assert Lookup(e, "title") == if Present(title) then Some(Str(title.value)) else None by {
      LookupAppend(base + u, t, "title");
    }
  }

  /** A single chunk's content is the whole content. */
  lemma SingleChunkContent(id: string, url: Option<string>, title: Option<string>, c: Chunk)
    ensures Get(DocumentDict(id, url, title, [c]), "content") == Some(Str(c.content))
  {
    DocumentDictFields(id, url, title, [c]);
    assert ChunkContents([c]) == [c.content];
  }

  /** A resource a user can attach: `description` defaults to "". */
  datatype Resource = Resource(uri: string, title: string, description: Option<string>)

  /** `Resource(uri=..., title=...)` with the description omitted. */
  function NewResource(uri: string, title: string): (r: Resource)
    ensures r.uri == uri && r.title == title && r.description == Some("")
  {
    Resource(uri, title, Some(""))
  }

  /** The base `Retriever.ingest_file`: always raises. */
  function IngestFile(fileContent: seq<bv8>, filename: string): (r: Result<Resource, string>)
    ensures r.Err? && r.error == "NotImplementedError: ingest_file is not implemented"
  {
    Err("NotImplementedError: ingest_file is not implemented")
  }
}
