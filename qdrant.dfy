// The deterministic parts of the Qdrant provider (rag/qdrant.py): paging through a
// collection, the ids already stored, the resource list of a similarity search and the
// reading of search hits. Its settings, markdown titles, chunking and hit grouping are
// those of the Milvus provider. The client's replies are parameters.
module Qdrant {
  import opened Wrappers
  import opened Strings
  import opened Values
  import opened Retriever
  import opened Milvus

  /** A point id: an unsigned number or a UUID string. */
  datatype PointId = NumId(n: nat) | UuidId(uuid: string)

  /** `str(point.id)`. */
  function PointIdString(id: PointId): string
  {
    match id
    case NumId(n) => NatToString(n)
    case UuidId(u) => u
  }

  /** A stored point with its payload (`Null` for a point without one). */
  datatype Point = Point(id: PointId, payload: Value)

  /** The offset a scroll reply names for the next page: none, a gRPC `PointId` message
      (whose unset fields read as 0 and ""), or a plain id. */
  datatype Offset = NoOffset | GrpcPointId(num: nat, uuid: string) | PlainOffset(id: PointId)

  /** One reply of `client.scroll`. */
  datatype Page = Page(points: seq<Point>, next: Offset)

  /** The stop test of `_scroll_all_points`. */
  predicate Stops(o: Offset)
  {
    o.NoOffset? || (o.GrpcPointId? && o.num == 0 && o.uuid == "")
  }

  /** The points gathered from successive replies: every page up to and including the
      first one that stops. */
  function Scrolled(pages: seq<Page>): seq<Point>
  {
    if |pages| == 0 then []
    else pages[0].points + (if Stops(pages[0].next) then [] else Scrolled(pages[1..]))
  }

  function Flatten(pages: seq<Page>): seq<Point>
  {
    if |pages| == 0 then [] else pages[0].points + Flatten(pages[1..])
  }

  lemma {:induction false} FlattenAppend(a: seq<Page>, b: seq<Page>)
    ensures Flatten(a + b) == Flatten(a) + Flatten(b)
    decreases |a|
  {
    if |a| > 0 {
      assert (a + b)[1..] == a[1..] + b;
      FlattenAppend(a[1..], b);
    } else {
      assert a + b == b;
    }
  }

  /** When page `k` is the first that stops, the result is pages 0..k in order. */
  lemma {:induction false} ScrolledUpToFirstStop(pages: seq<Page>, k: nat)
    requires k < |pages| && Stops(pages[k].next)
    requires forall j :: 0 <= j < k ==> !Stops(pages[j].next)
    ensures Scrolled(pages) == Flatten(pages[..k + 1])
    decreases k
  {
    if k > 0 {
      assert forall j :: 0 <= j < k - 1 ==> pages[1..][j] == pages[j + 1];
      ScrolledUpToFirstStop(pages[1..], k - 1);
      assert pages[..k + 1][1..] == pages[1..][..k];
    } else {
      assert pages[..1][1..] == [];
    }
  }

  /** A reply without a next offset ends the scroll: later replies are never read. */
  lemma NoOffsetEndsScroll(points: seq<Point>, rest: seq<Page>)
    ensures Scrolled([Page(points, NoOffset)] + rest) == points
  {
  }

  /** `_scroll_all_points`: `pages` are the server's replies in the order they are
      requested; the loop also ends if they run out. */
  method ScrollAllPoints(pages: seq<Page>) returns (results: seq<Point>)
    ensures results == Scrolled(pages)
  {
    results := [];
    var stop := false;
    var i := 0;
    while !stop && i < |pages|
      invariant 0 <= i <= |pages|
      invariant stop ==> results == Scrolled(pages)
      invariant !stop ==> results + Scrolled(pages[i..]) == Scrolled(pages)
      decreases |pages| - i
    {
      var page := pages[i];
      stop := Stops(page.next);
      assert pages[i..][1..] == pages[i + 1..];
      results := results + page.points;
      i := i + 1;
    }
    if !stop {
      assert pages[i..] == [];
    }
  }

  /** The id a point stands for: the payload's `doc_id`, else `str(point.id)`. */
  function StoredDocId(p: Point): string
  {
    GetStr(p.payload, "doc_id", PointIdString(p.id))
  }

  /** `_get_existing_document_ids` on the result of the scroll: the ids of the points
      that carry a payload, and nothing when the scroll failed. */
  function ExistingDocumentIds(scroll: Result<seq<Point>, string>): (ids: set<string>)
    ensures scroll.Err? ==> ids == {}
    ensures scroll.Ok? ==> forall p :: p in scroll.value && Truthy(p.payload) ==> StoredDocId(p) in ids
    ensures scroll.Ok? ==> forall id :: id in ids ==>
      exists p :: p in scroll.value && Truthy(p.payload) && StoredDocId(p) == id
  {
    match scroll
    case Err(_) => {}
    case Ok(points) => set p | p in points && Truthy(p.payload) :: StoredDocId(p)
  }

  /** A point without a payload adds no id. */
  lemma PayloadlessPointIgnored(points: seq<Point>, id: PointId)
    ensures ExistingDocumentIds(Ok(points + [Point(id, Null)])) == ExistingDocumentIds(Ok(points))
  {
    var a := ExistingDocumentIds(Ok(points + [Point(id, Null)]));
    var b := ExistingDocumentIds(Ok(points));
    forall x | x in a
      ensures x in b
    {
      var p :| p in points + [Point(id, Null)] && Truthy(p.payload) && StoredDocId(p) == x;
      assert p in points;
    }
  }

  /** A point with a payload but no `doc_id` stands for its own id. */
  lemma PointIdStandsIn(points: seq<Point>, id: nat, payload: seq<(string, Value)>)
    requires |payload| > 0 && Lookup(payload, "doc_id").None?
    ensures NatToString(id) in ExistingDocumentIds(Ok(points + [Point(NumId(id), Dict(payload))]))
  {
    var p := Point(NumId(id), Dict(payload));
    assert p in points + [p];
    assert StoredDocId(p) == NatToString(id);
  }

  /** The search metadata of one hit, as text fields. */
  type Meta = Value

  /** `meta.get("url", "") or f"qdrant://{meta.get('id', '')}"`. */
  function ResourceUri(meta: Meta): (uri: string)
    ensures uri != ""
    ensures (uri == GetStr(meta, "url", "") && uri != "") || "qdrant://" <= uri
  {
    var url := GetStr(meta, "url", "");
    if url != "" then url else "qdrant://" + GetStr(meta, "id", "")
  }

  /** `meta.get("title", "") or meta.get("id", "Unnamed")`. */
  function ResourceTitle(meta: Meta): string
  {
    var title := GetStr(meta, "title", "");
    if title != "" then title else GetStr(meta, "id", "Unnamed")
  }

  function StoredResource(meta: Meta): Resource
  {
    Resource(ResourceUri(meta), ResourceTitle(meta), Some("Stored Qdrant document"))
  }

  predicate Listed(resources: seq<Resource>, uri: string)
  {
    exists i :: 0 <= i < |resources| && resources[i].uri == uri
  }

  /** The resources of the query branch after the given hits: a hit whose URI is already
      listed is skipped. */
  function QueryResources(metas: seq<Meta>): seq<Resource>
    decreases |metas|
  {
    if |metas| == 0 then []
    else
      var rs := QueryResources(metas[..|metas| - 1]);
      var m := metas[|metas| - 1];
      if Listed(rs, ResourceUri(m)) then rs else rs + [StoredResource(m)]
  }

  /** The listed URIs are distinct. */
  predicate DistinctUris(rs: seq<Resource>)
  {
    forall i, j :: 0 <= i < j < |rs| ==> rs[i].uri != rs[j].uri
  }

  lemma {:induction false} QueryResourcesDistinct(metas: seq<Meta>)
    ensures DistinctUris(QueryResources(metas))
    decreases |metas|
  {
    if |metas| > 0 {
      var n := |metas| - 1;
      QueryResourcesDistinct(metas[..n]);
      var rs := QueryResources(metas[..n]);
      var uri := ResourceUri(metas[n]);
      if !Listed(rs, uri) {
        var all := rs + [StoredResource(metas[n])];
        forall i, j | 0 <= i < j < |all|
          ensures all[i].uri != all[j].uri
        {
          if j < |rs| {
            assert all[i] == rs[i] && all[j] == rs[j];
          } else {
            assert all[i] == rs[i] && all[j].uri == uri;
          }
        }
      }
    }
  }

  /** Every hit's URI is listed: its url when that is non-empty, else "qdrant://"
      followed by its id. */
  lemma {:induction false} QueryResourcesCover(metas: seq<Meta>)
    ensures forall k :: 0 <= k < |metas| ==> Listed(QueryResources(metas), ResourceUri(metas[k]))
    ensures forall k :: 0 <= k < |metas| && GetStr(metas[k], "url", "") != "" ==>
      Listed(QueryResources(metas), GetStr(metas[k], "url", ""))
    ensures forall k :: 0 <= k < |metas| && GetStr(metas[k], "url", "") == "" ==>
      Listed(QueryResources(metas), "qdrant://" + GetStr(metas[k], "id", ""))
    decreases |metas|
  {
    if |metas| > 0 {
      var n := |metas| - 1;
      QueryResourcesCover(metas[..n]);
      var rs := QueryResources(metas[..n]);
      var all := QueryResources(metas);
      assert rs <= all;
      forall k | 0 <= k < |metas|
        ensures Listed(all, ResourceUri(metas[k]))
      {
        if k < n {
          assert metas[..n][k] == metas[k];
          var i :| 0 <= i < |rs| && rs[i].uri == ResourceUri(metas[k]);
          assert all[i] == rs[i];
        } else if !Listed(rs, ResourceUri(metas[n])) {
          assert all[|rs|].uri == ResourceUri(metas[n]);
        }
      }
    }
  }

  /** The resource describes the hit: the hit's non-empty url, else "qdrant://" followed
      by its id, as URI, its non-empty title, else its id, as title, and the fixed
      description. */
  predicate DescribesHit(r: Resource, meta: Meta)
  {
    && r.uri == (if GetStr(meta, "url", "") != "" then GetStr(meta, "url", "")
                 else "qdrant://" + GetStr(meta, "id", ""))
    && r.title == (if GetStr(meta, "title", "") != "" then GetStr(meta, "title", "")
                   else GetStr(meta, "id", "Unnamed"))
    && r.description == Some("Stored Qdrant document")
  }

  /** Every listed resource is the stored form of one of the hits, and describes it. */
  lemma {:induction false} QueryResourcesFromHits(metas: seq<Meta>)
    ensures forall r :: r in QueryResources(metas) ==> exists k :: 0 <= k < |metas| && r == StoredResource(metas[k])
    ensures forall r :: r in QueryResources(metas) ==> exists k :: 0 <= k < |metas| && DescribesHit(r, metas[k])
    decreases |metas|
  {
    if |metas| > 0 {
      var n := |metas| - 1;
      QueryResourcesFromHits(metas[..n]);
      forall r | r in QueryResources(metas)
        ensures exists k :: 0 <= k < |metas| && r == StoredResource(metas[k])
      {
        if r in QueryResources(metas[..n]) {
          var k :| 0 <= k < n && r == StoredResource(metas[..n][k]);
          assert metas[..n][k] == metas[k];
        } else {
          assert r == StoredResource(metas[n]);
        }
      }
    }
    forall r | r in QueryResources(metas)
      ensures exists k :: 0 <= k < |metas| && DescribesHit(r, metas[k])
    {
      var k :| 0 <= k < |metas| && r == StoredResource(metas[k]);
    }
  }

  /** `any(r.uri == uri for r in resources)`. */
  method IsListed(resources: seq<Resource>, uri: string) returns (seen: bool)
    ensures seen <==> Listed(resources, uri)
  {
    seen := false;
    var j := 0;
    while j < |resources| && !seen
      invariant 0 <= j <= |resources|
      invariant seen ==> Listed(resources, uri)
      invariant !seen ==> forall k :: 0 <= k < j ==> resources[k].uri != uri
    {
      seen := resources[j].uri == uri;
      j := j + 1;
    }
  }

  /** The query branch of `list_resources`. */
  method ListQueryResources(metas: seq<Meta>) returns (resources: seq<Resource>)
    ensures resources == QueryResources(metas)
  {
    resources := [];
    var i := 0;
    while i < |metas|
      invariant 0 <= i <= |metas|
      invariant resources == QueryResources(metas[..i])
    {
      assert metas[..i + 1][..i] == metas[..i];
      var seen := IsListed(resources, ResourceUri(metas[i]));
      if !seen {
        resources := resources + [StoredResource(metas[i])];
      }
      i := i + 1;
    }
    assert metas[..|metas|] == metas;
  }

  /** The scroll branch of `list_resources`: one resource per point, not deduplicated. */
  function PointResource(p: Point): (r: Resource)
    ensures r.title != "" || StoredDocId(p) == ""
    ensures GetStr(p.payload, "url", "") != "" ==> r.uri == GetStr(p.payload, "url", "")
    ensures GetStr(p.payload, "url", "") == "" ==> r.uri == "qdrant://" + StoredDocId(p)
    ensures GetStr(p.payload, "title", "") != "" ==> r.title == GetStr(p.payload, "title", "")
    ensures GetStr(p.payload, "title", "") == "" ==> r.title == StoredDocId(p)
    ensures r.description == Some("Stored Qdrant document")
  {
    var docId := StoredDocId(p);
    var url := GetStr(p.payload, "url", "");
    var title := GetStr(p.payload, "title", "");
    Resource(if url != "" then url else "qdrant://" + docId,
             if title != "" then title else docId,
             Some("Stored Qdrant document"))
  }

  /** A scored search result. */
  datatype ScoredPoint = ScoredPoint(id: PointId, payload: Value, score: real)

  /** The fields `query_relevant_documents` reads from a result; the document id falls
      back to `str(result.id)`. */
  function HitOf(p: ScoredPoint): (h: Hit)
    ensures Lookup(if p.payload.Dict? then p.payload.entries else [], "doc_id").None? ==>
      h.docId == PointIdString(p.id)
    ensures h.score == p.score
    ensures h.content == GetStr(p.payload, "content", "") && h.title == GetStr(p.payload, "title", "")
    ensures h.url == GetStr(p.payload, "url", "")
    ensures h.docId == GetStr(p.payload, "doc_id", PointIdString(p.id))
  {
    Hit(GetStr(p.payload, "doc_id", PointIdString(p.id)), GetStr(p.payload, "content", ""),
        GetStr(p.payload, "title", ""), GetStr(p.payload, "url", ""), p.score)
  }

  function HitsOf(results: seq<ScoredPoint>): (hits: seq<Hit>)
    ensures |hits| == |results| && forall k :: 0 <= k < |results| ==> hits[k] == HitOf(results[k])
  {
    seq(|results|, k requires 0 <= k < |results| => HitOf(results[k]))
  }

  /** `query_relevant_documents` after the search: the hits grouped as in the Milvus
      provider. */
  method QueryRelevantDocuments(results: seq<ScoredPoint>, resources: seq<Resource>)
    returns (docs: seq<Document>)
    ensures Mirrors(docs, Grouped(HitsOf(results), resources))
    ensures forall k :: 0 <= k < |docs| ==> fresh(docs[k]) && fresh(docs[k].chunks)
    ensures forall k, l :: 0 <= k < l < |docs| ==> docs[k].chunks != docs[l].chunks
  {
    docs := GroupHits(HitsOf(results), resources);
  }
}
