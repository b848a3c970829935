// The citation collector (citations/collector.py): a URL -> metadata map, an
// append-only URL order list, a URL -> position map and a set of used URLs.
// `Store` is the collector's abstract state; the functions below are the
// operations on it, and `Collector` is the mutable object whose methods are
// proved to perform them.
module CitationCollection {
  import opened Wrappers
  import opened Strings
  import opened Values
  import opened CitationModels

  datatype Store = Store(
    citations: map<string, Metadata>,
    order: seq<string>,
    index: map<string, int>,
    used: set<string>)

  const Empty: Store := Store(map[], [], map[], {})

  /** `i` is the last position of `u` in `p`. */
  ghost predicate LastPos(p: seq<string>, u: string, i: int)
  {
    0 <= i < |p| && p[i] == u && forall j :: i < j < |p| ==> p[j] != u
  }

  /** What every reachable collector satisfies: the known URLs are exactly those in the
      order list, the index map has the same keys and gives each URL's last position,
      and each metadata record carries its own URL. */
  ghost predicate Coherent(s: Store)
  {
    KeysMatch(s) && IndexLast(s) && UrlsMatch(s)
  }

  ghost predicate KeysMatch(s: Store)
  {
    (forall u :: u in s.citations <==> u in s.order) && s.index.Keys == s.citations.Keys
  }

  ghost predicate IndexLast(s: Store)
  {
    forall u :: u in s.index ==> LastPos(s.order, u, s.index[u])
  }

  ghost predicate UrlsMatch(s: Store)
  {
    forall u :: u in s.citations ==> s.citations[u].url == u
  }

  /** The order list has no repeated URL (every state except some built by `from_dict`). */
  predicate NoRepeats(s: Store)
  {
    Distinct(s.order)
  }

  /** Every used URL is a known one. */
  predicate UsedKnown(s: Store)
  {
    s.used <= s.citations.Keys
  }

  /** The three invariants the collector keeps when it is not rebuilt from a dict. */
  ghost predicate Valid(s: Store)
  {
    Coherent(s) && NoRepeats(s) && UsedKnown(s)
  }

  lemma EmptyValid()
    ensures Valid(Empty)
  {
  }

  /** With no repeats, the index of the URL at position `i` is `i`. */
  lemma IndexIsPosition(s: Store, i: int)
    requires Coherent(s) && NoRepeats(s) && 0 <= i < |s.order|
    ensures s.order[i] in s.index && s.index[s.order[i]] == i
  {
    var u := s.order[i];
    assert u in s.citations;
    var k := s.index[u];
    assert LastPos(s.order, u, k);
  }

  /** `_citations[url] = m; _citation_order.append(url); _url_to_index[url] = len - 1`. */
  function Record(s: Store, url: string, m: Metadata): Store
  {
    Store(s.citations[url := m], s.order + [url], s.index[url := |s.order|], s.used)
  }

  lemma RecordCoherent(s: Store, url: string, m: Metadata)
    ensures Coherent(s) && m.url == url ==> Coherent(Record(s, url, m))
  {
    var r := Record(s, url, m);
    forall u | Coherent(s) && m.url == url && u in r.index ensures LastPos(r.order, u, r.index[u]) {
      if u != url {
        assert u in s.index;
        assert LastPos(s.order, u, s.index[u]);
      }
    }
  }

  lemma RecordNoRepeats(s: Store, url: string, m: Metadata)
    ensures Coherent(s) && NoRepeats(s) && url !in s.citations ==> NoRepeats(Record(s, url, m))
  {
  }

  // get_number, get_metadata, count, used_count

  /** `get_number(url)`: the 1-based position of a known URL. */
  function Number(s: Store, url: string): (r: Option<int>)
    ensures Coherent(s) ==> (r.Some? <==> url in s.citations)
    ensures Coherent(s) && r.Some? ==> 1 <= r.value <= |s.order| && s.order[r.value - 1] == url
  {
    if url in s.index then Some(s.index[url] + 1) else None
  }

  /** `get_metadata(url)`. */
  function MetadataOf(s: Store, url: string): (r: Option<Metadata>)
    ensures r.Some? <==> url in s.citations
    ensures Coherent(s) && r.Some? ==> r.value.url == url
  {
    if url in s.citations then Some(s.citations[url]) else None
  }

  lemma {:induction false} DistinctCard(p: seq<string>)
    ensures Distinct(p) ==> |set u | u in p| == |p|
  {
    if |p| > 0 && Distinct(p) {
      var init := p[..|p| - 1];
      DistinctCard(init);
      assert (set u | u in p) == (set u | u in init) + {p[|p| - 1]};
      assert p[|p| - 1] !in init;
    }
  }

  /** `count`: the number of distinct URLs in the order list, which is its length when
      it has no repeats. */
  function CountOf(s: Store): (r: int)
    ensures Coherent(s) ==> r == |set u | u in s.order|
    ensures Coherent(s) && NoRepeats(s) ==> r == |s.order|
  {
    assert Coherent(s) ==> s.citations.Keys == set u | u in s.order;
    DistinctCard(s.order);
    |s.citations|
  }

  lemma {:induction false} SubsetCard(a: set<string>, b: set<string>)
    ensures a <= b ==> |a| <= |b|
    decreases |a|
  {
    if a != {} && a <= b {
      var x :| x in a;
      SubsetCard(a - {x}, b - {x});
    }
  }

  /** `used_count`: at most the number of known citations once every used URL is known. */
  function UsedCountOf(s: Store): (r: int)
    ensures UsedKnown(s) ==> r <= |s.citations|
  {
    SubsetCard(s.used, s.citations.Keys);
    |s.used|
  }

  // mark_used

  /** `mark_used(url)`: a known URL joins the used set and its number is returned; an
      unknown URL changes nothing. */
  function Mark(s: Store, url: string): (r: (Store, Option<int>))
    ensures r.0.citations == s.citations && r.0.order == s.order && r.0.index == s.index
    ensures url in s.citations ==> r.0.used == s.used + {url} && r.1 == Number(s, url)
    ensures url !in s.citations ==> r == (s, None)
    ensures Valid(s) ==> Valid(r.0)
  {
    if url in s.citations then (s.(used := s.used + {url}), Number(s, url)) else (s, None)
  }

  // get_all_citations, get_used_citations

  /** Every URL in the order list has metadata (so the getters never raise). */
  predicate Listed(s: Store)
  {
    forall i :: 0 <= i < |s.order| ==> s.order[i] in s.citations
  }

  /** `get_all_citations()`: position i holds citation number i + 1. */
  function AllCitations(s: Store): (r: seq<Citation>)
    requires Listed(s)
    ensures |r| == |s.order|
    ensures forall i :: 0 <= i < |r| ==>
              r[i] == Citation(i + 1, s.citations[s.order[i]], None, None)
  {
    seq(|s.order|, i requires 0 <= i < |s.order| => Citation(i + 1, s.citations[s.order[i]], None, None))
  }

  /** The used URLs of `p`, in their order in `p`. */
  function UsedUrls(p: seq<string>, used: set<string>): (r: seq<string>)
  {
    if |p| == 0 then []
    else UsedUrls(p[..|p| - 1], used) + (if p[|p| - 1] in used then [p[|p| - 1]] else [])
  }

  lemma {:induction false} UsedUrlsMembers(p: seq<string>, used: set<string>)
    ensures forall u :: u in UsedUrls(p, used) <==> u in p && u in used
    ensures |UsedUrls(p, used)| <= |p|
  {
    if |p| > 0 {
      var init := p[..|p| - 1];
      UsedUrlsMembers(init, used);
      assert p == init + [p[|p| - 1]];
    }
  }

  /** The loop of `get_used_citations()` over the prefix `p` of the order list, with
      its running `number` counter. */
  function UsedCitationsOf(p: seq<string>, used: set<string>, cits: map<string, Metadata>): (r: seq<Citation>)
    requires forall i :: 0 <= i < |p| ==> p[i] in cits
  {
    if |p| == 0 then []
    else
      var init := UsedCitationsOf(p[..|p| - 1], used, cits);
      var u := p[|p| - 1];
      if u in used then init + [Citation(|init| + 1, cits[u], None, None)] else init
  }

  /** `get_used_citations()`. */
  function UsedCitations(s: Store): (r: seq<Citation>)
    requires Listed(s)
  {
    UsedCitationsOf(s.order, s.used, s.citations)
  }

  /** The used citations are exactly the used URLs in their original order, numbered
      1..k without gaps. */
  lemma {:induction false} UsedCitationsNumbering(p: seq<string>, used: set<string>, cits: map<string, Metadata>)
    requires forall i :: 0 <= i < |p| ==> p[i] in cits
    ensures var r := UsedCitationsOf(p, used, cits);
            var us := UsedUrls(p, used);
            |r| == |us| &&
            forall j :: 0 <= j < |r| ==> us[j] in cits && r[j] == Citation(j + 1, cits[us[j]], None, None)
  {
    if |p| > 0 {
      UsedCitationsNumbering(p[..|p| - 1], used, cits);
      UsedUrlsMembers(p[..|p| - 1], used);
    }
  }

  lemma UsedCitationsSpec(s: Store)
    requires Listed(s)
    ensures var r := UsedCitations(s);
            var us := UsedUrls(s.order, s.used);
            |r| == |us| <= |s.order| &&
            (forall u :: u in us <==> u in s.order && u in s.used) &&
            forall j :: 0 <= j < |r| ==> us[j] in s.citations && r[j] == Citation(j + 1, s.citations[us[j]], None, None)
  {
    UsedCitationsNumbering(s.order, s.used, s.citations);
    UsedUrlsMembers(s.order, s.used);
  }

  lemma CoherentListed(s: Store)
    requires Coherent(s)
    ensures Listed(s)
  {
  }

  // add_from_search_results

  /** The URLs of a list of metadata records. */
  function Urls(ms: seq<Metadata>): (r: seq<string>)
    ensures |r| == |ms| && forall i :: 0 <= i < |ms| ==> r[i] == ms[i].url
  {
    seq(|ms|, i requires 0 <= i < |ms| => ms[i].url)
  }

  /** One iteration of the loop in `add_from_search_results`: image results and results
      without a URL are skipped; a first-time URL is recorded and reported as added; a
      known URL gets the new metadata only when its relevance score is strictly higher. */
  function SearchStep(s: Store, result: Value, query: string, now: string,
                      authority: string -> Option<string>): (r: (Store, seq<Metadata>))
  {
    var url := GetStr(result, "url", "");
    if Get(result, "type") == Some(Str("image_url")) || url == [] then (s, [])
    else
      var m := FromSearchResult(result, query, now, authority);
      if url !in s.citations then (Record(s, url, m), [m])
      else if m.relevanceScore > s.citations[url].relevanceScore then
        (s.(citations := s.citations[url := m]), [])
      else (s, [])
  }

  /** The three cases of one iteration. */
  lemma SearchStepCases(s: Store, result: Value, query: string, now: string,
                        authority: string -> Option<string>)
    ensures Get(result, "type") == Some(Str("image_url")) || GetStr(result, "url", "") == [] ==>
              SearchStep(s, result, query, now, authority) == (s, [])
    ensures var r := SearchStep(s, result, query, now, authority);
            var url := GetStr(result, "url", "");
            var m := FromSearchResult(result, query, now, authority);
            Get(result, "type") != Some(Str("image_url")) && url != [] ==>
              (url !in s.citations ==> r == (Record(s, url, m), [m])) &&
              (url in s.citations ==>
                 r.1 == [] && r.0.order == s.order && r.0.index == s.index && r.0.used == s.used &&
                 r.0.citations == s.citations[url := if m.relevanceScore > s.citations[url].relevanceScore
                                                      then m else s.citations[url]])
  {
  }

  /** `add_from_search_results(results, query)`: the new state and the `added` list. */
  function AddSearchResults(s: Store, results: seq<Value>, query: string, now: string,
                            authority: string -> Option<string>): (Store, seq<Metadata>)
  {
    if |results| == 0 then (s, [])
    else
      var prev := AddSearchResults(s, results[..|results| - 1], query, now, authority);
      var step := SearchStep(prev.0, results[|results| - 1], query, now, authority);
      (step.0, prev.1 + step.1)
  }

  /** `r` and `added` are what a batch of search results can make of `s`: known URLs keep
      their number and never lose relevance score, the order list grows by exactly the
      URLs of `added`, each of which was unknown before, and used URLs are untouched. */
  ghost predicate Extends(s: Store, r: Store, added: seq<Metadata>)
  {
    r.used == s.used &&
    r.order == s.order + Urls(added) &&
    (forall i :: 0 <= i < |added| ==> added[i].url !in s.citations) &&
    s.citations.Keys <= r.citations.Keys &&
    (forall u :: u in s.index ==> u in r.index && r.index[u] == s.index[u]) &&
    (forall u :: u in s.citations ==> r.citations[u].relevanceScore >= s.citations[u].relevanceScore)
  }

  lemma SearchStepExtends(s: Store, result: Value, query: string, now: string,
                          authority: string -> Option<string>)
    requires Coherent(s)
    ensures var (r, added) := SearchStep(s, result, query, now, authority);
            Coherent(r) && Extends(s, r, added) && (NoRepeats(s) ==> NoRepeats(r))
  {
    var url := GetStr(result, "url", "");
    var m := FromSearchResult(result, query, now, authority);
    SearchStepCases(s, result, query, now, authority);
    if Get(result, "type") != Some(Str("image_url")) && url != [] && url !in s.citations {
      RecordExtends(s, url, m);
    } else if Get(result, "type") != Some(Str("image_url")) && url != [] &&
              m.relevanceScore > s.citations[url].relevanceScore {
      ReplaceExtends(s, url, m);
    } else {
      assert Urls([]) == [];
    }
  }

  lemma RecordExtends(s: Store, url: string, m: Metadata)
    requires Coherent(s) && m.url == url && url !in s.citations
    ensures Coherent(Record(s, url, m)) && Extends(s, Record(s, url, m), [m])
    ensures NoRepeats(s) ==> NoRepeats(Record(s, url, m))
  {
    RecordCoherent(s, url, m);
    RecordNoRepeats(s, url, m);
    assert Urls([m]) == [url];
  }

  lemma ReplaceExtends(s: Store, url: string, m: Metadata)
    requires Coherent(s) && m.url == url && url in s.citations
    requires m.relevanceScore > s.citations[url].relevanceScore
    ensures var r := s.(citations := s.citations[url := m]);
            Coherent(r) && Extends(s, r, []) && (NoRepeats(s) ==> NoRepeats(r))
  {
    assert Urls([]) == [];
  }

  lemma ExtendsTrans(s: Store, p: Store, r: Store, a1: seq<Metadata>, a2: seq<Metadata>)
    requires Extends(s, p, a1) && Extends(p, r, a2)
    ensures Extends(s, r, a1 + a2)
  {
    var a := a1 + a2;
    assert Urls(a) == Urls(a1) + Urls(a2);
    assert r.order == s.order + Urls(a);
    forall i | 0 <= i < |a| ensures a[i].url !in s.citations {
      if i >= |a1| { assert a[i] == a2[i - |a1|]; }
    }
    forall u | u in s.citations
      ensures r.citations[u].relevanceScore >= s.citations[u].relevanceScore
    {
      assert u in p.citations;
    }
  }

  /** `add_from_search_results` extends the collector, keeping it free of repeats and
      its used URLs known. */
  lemma {:induction false} AddSearchResultsSpec(s: Store, results: seq<Value>, query: string,
                                                now: string, authority: string -> Option<string>)
    requires Coherent(s)
    ensures var (r, added) := AddSearchResults(s, results, query, now, authority);
            Coherent(r) && Extends(s, r, added) && (NoRepeats(s) ==> NoRepeats(r)) &&
            (UsedKnown(s) ==> UsedKnown(r))
  {
    if |results| == 0 {
      assert Urls([]) == [];
      assert s.order + [] == s.order;
    } else {
      var init := results[..|results| - 1];
      AddSearchResultsSpec(s, init, query, now, authority);
      var prev := AddSearchResults(s, init, query, now, authority);
      SearchStepExtends(prev.0, results[|results| - 1], query, now, authority);
      var step := SearchStep(prev.0, results[|results| - 1], query, now, authority);
      ExtendsTrans(s, prev.0, step.0, prev.1, step.1);
    }
  }

  /** A step whose URL is already known records nothing and keeps order and index. */
  lemma SearchStepKnown(t: Store, result: Value, query: string, now: string,
                        authority: string -> Option<string>)
    requires GetStr(result, "url", "") in t.citations
    ensures var r := SearchStep(t, result, query, now, authority);
            r.1 == [] && r.0.order == t.order && r.0.index == t.index &&
            r.0.citations.Keys == t.citations.Keys
  {
  }

  /** A batch records nothing in a state that already knows every URL the batch would
      have recorded from `s`. */
  lemma {:induction false} AddSearchResultsKnown(s: Store, t: Store, results: seq<Value>, query: string,
                                                 now: string, authority: string -> Option<string>)
    requires Coherent(s)
    requires AddSearchResults(s, results, query, now, authority).0.citations.Keys <= t.citations.Keys
    ensures var r := AddSearchResults(t, results, query, now, authority);
            r.1 == [] && r.0.order == t.order && r.0.index == t.index &&
            r.0.citations.Keys == t.citations.Keys
  {
    if |results| > 0 {
      var init := results[..|results| - 1];
      var result := results[|results| - 1];
      AddSearchResultsSpec(s, init, query, now, authority);
      var prevS := AddSearchResults(s, init, query, now, authority);
      SearchStepExtends(prevS.0, result, query, now, authority);
      AddSearchResultsKnown(s, t, init, query, now, authority);
      var prevT := AddSearchResults(t, init, query, now, authority);
      var url := GetStr(result, "url", "");
      if Get(result, "type") != Some(Str("image_url")) && url != [] {
        SearchStepKnown(prevT.0, result, query, now, authority);
      }
    }
  }

  /** Applying the same batch twice records nothing new the second time. */
  lemma AddSearchResultsAgain(s: Store, results: seq<Value>, query: string,
                              now: string, authority: string -> Option<string>)
    requires Coherent(s)
    ensures var once := AddSearchResults(s, results, query, now, authority).0;
            var twice := AddSearchResults(once, results, query, now, authority);
            twice.1 == [] && twice.0.order == once.order && twice.0.index == once.index
  {
    AddSearchResultsSpec(s, results, query, now, authority);
    var once := AddSearchResults(s, results, query, now, authority).0;
    AddSearchResultsKnown(s, once, results, query, now, authority);
  }

  // add_from_crawl_result

  /** `add_from_crawl_result(url, title, content)`: the new state and the stored record.
      A known URL takes a non-empty title other than "Untitled", takes non-empty content
      as raw content and, only when it had none, a 500-character snippet of it. A new URL
      is recorded with title defaulting to "Untitled". */
  function CrawlResult(s: Store, url: string, title: string, content: Option<string>, now: string,
                       authority: string -> Option<string>): (r: (Store, Metadata))
  {
    if url in s.citations then
      var m := s.citations[url];
      var m1 := if title != [] && title != "Untitled" then m.(title := title) else m;
      var m2 := if Present(content)
                then m1.(rawContent := content,
                         contentSnippet := if Present(m1.contentSnippet) then m1.contentSnippet
                                           else Some(Take(content.value, 500)))
                else m1;
      (s.(citations := s.citations[url := m2]), m2)
    else
      var m := NewMetadata(url, if title != [] then title else "Untitled", None,
                           if Present(content) then Some(Take(content.value, 500)) else None,
                           content, 0.0, [], now, authority);
      (Record(s, url, m), m)
  }

  /** What `add_from_crawl_result` does to a known and to a new URL. */
  lemma CrawlResultSpec(s: Store, url: string, title: string, content: Option<string>, now: string,
                        authority: string -> Option<string>)
    ensures var r := CrawlResult(s, url, title, content, now, authority);
            r.0.citations == s.citations[url := r.1] && r.0.used == s.used
    ensures var r := CrawlResult(s, url, title, content, now, authority);
            Coherent(s) ==> r.1.url == url
    ensures var r := CrawlResult(s, url, title, content, now, authority);
            url in s.citations ==>
              var old_ := s.citations[url];
              r.0.order == s.order && r.0.index == s.index &&
              r.1.title == (if title != [] && title != "Untitled" then title else old_.title) &&
              r.1.rawContent == (if Present(content) then content else old_.rawContent) &&
              r.1.contentSnippet == (if Present(content) && !Present(old_.contentSnippet)
                                     then Some(Take(content.value, 500)) else old_.contentSnippet) &&
              r.1.(title := old_.title, rawContent := old_.rawContent,
                   contentSnippet := old_.contentSnippet) == old_
    ensures var r := CrawlResult(s, url, title, content, now, authority);
            url !in s.citations ==>
              r.0 == Record(s, url, r.1) &&
              r.1.title == (if title != [] then title else "Untitled") &&
              r.1.rawContent == content && r.1.relevanceScore == 0.0 &&
              r.1.contentSnippet == (if Present(content) then Some(Take(content.value, 500)) else None)
  {
  }

  /** `add_from_crawl_result` keeps the collector coherent and free of repeats. */
  lemma CrawlResultValid(s: Store, url: string, title: string, content: Option<string>, now: string,
                         authority: string -> Option<string>)
    ensures var r := CrawlResult(s, url, title, content, now, authority);
            Coherent(s) ==> Coherent(r.0)
    ensures var r := CrawlResult(s, url, title, content, now, authority);
            Valid(s) ==> Valid(r.0)
  {
    if url !in s.citations {
      var m := CrawlResult(s, url, title, content, now, authority).1;
      RecordCoherent(s, url, m);
      RecordNoRepeats(s, url, m);
    }
  }

  // merge_with

  /** The URLs of `p` that are neither in `known` nor earlier in `p`, in order. */
  function NewUrls(known: set<string>, p: seq<string>): (r: seq<string>)
  {
    if |p| == 0 then []
    else
      var q := NewUrls(known, p[..|p| - 1]);
      var u := p[|p| - 1];
      if u in known || u in q then q else q + [u]
  }

  /** The loop of `merge_with` over the prefix `p` of the other collector's order list. */
  function MergeFrom(s: Store, o: Store, p: seq<string>): (r: Store)
    requires forall i :: 0 <= i < |p| ==> p[i] in o.citations
  {
    if |p| == 0 then s
    else
      var st := MergeFrom(s, o, p[..|p| - 1]);
      var u := p[|p| - 1];
      if u in st.citations then st else Record(st, u, o.citations[u])
  }

  /** `self.merge_with(other)`. */
  function Merge(s: Store, o: Store): (r: Store)
    requires Listed(o)
  {
    var st := MergeFrom(s, o, o.order);
    st.(used := st.used + o.used)
  }

  lemma {:induction false} NewUrlsSpec(known: set<string>, p: seq<string>)
    ensures forall u :: u in NewUrls(known, p) <==> u in p && u !in known
    ensures Distinct(NewUrls(known, p))
  {
    if |p| > 0 {
      NewUrlsSpec(known, p[..|p| - 1]);
    }
  }

  lemma {:induction false} MergeFromCoherent(s: Store, o: Store, p: seq<string>)
    requires Coherent(s) && Coherent(o)
    requires forall i :: 0 <= i < |p| ==> p[i] in o.citations
    ensures Coherent(MergeFrom(s, o, p))
  {
    if |p| > 0 {
      var init := p[..|p| - 1];
      MergeFromCoherent(s, o, init);
      RecordCoherent(MergeFrom(s, o, init), p[|p| - 1], o.citations[p[|p| - 1]]);
    }
  }

  /** What the merge loop over the prefix `p` has built from `s`. */
  ghost predicate MergedFrom(s: Store, o: Store, p: seq<string>, r: Store)
  {
    r.used == s.used && r.order == s.order + NewUrls(s.citations.Keys, p) &&
    r.citations.Keys == s.citations.Keys + (set u | u in p) &&
    (forall u :: u in s.citations ==> r.citations[u] == s.citations[u]) &&
    (forall u :: u in s.index ==> u in r.index && r.index[u] == s.index[u]) &&
    (forall u :: u in r.citations && u !in s.citations ==> u in o.citations && r.citations[u] == o.citations[u])
  }

  lemma {:induction false} MergeFromKeys(s: Store, o: Store, p: seq<string>)
    requires forall i :: 0 <= i < |p| ==> p[i] in o.citations
    ensures var r := MergeFrom(s, o, p);
            r.used == s.used && r.citations.Keys == s.citations.Keys + (set u | u in p)
  {
    if |p| > 0 {
      var init := p[..|p| - 1];
      MergeFromKeys(s, o, init);
      assert (set v | v in p) == (set v | v in init) + {p[|p| - 1]};
    } else {
      assert (set v | v in p) == {};
    }
  }

  lemma {:induction false} MergeFromOrder(s: Store, o: Store, p: seq<string>)
    requires forall i :: 0 <= i < |p| ==> p[i] in o.citations
    ensures MergeFrom(s, o, p).order == s.order + NewUrls(s.citations.Keys, p)
  {
    if |p| > 0 {
      var init := p[..|p| - 1];
      var u := p[|p| - 1];
      MergeFromOrder(s, o, init);
      MergeFromKeys(s, o, init);
      NewUrlsSpec(s.citations.Keys, init);
      if u !in MergeFrom(s, o, init).citations {
        assert u !in s.citations && u !in NewUrls(s.citations.Keys, init);
      } else {
        assert u in s.citations || u in init;
      }
    } else {
      assert s.order + [] == s.order;
    }
  }

  lemma {:induction false} MergeFromValues(s: Store, o: Store, p: seq<string>)
    requires s.index.Keys <= s.citations.Keys
    requires forall i :: 0 <= i < |p| ==> p[i] in o.citations
    ensures var r := MergeFrom(s, o, p);
            (forall u :: u in s.citations ==> u in r.citations && r.citations[u] == s.citations[u]) &&
            (forall u :: u in s.index ==> u in r.index && r.index[u] == s.index[u]) &&
            (forall u :: u in r.citations && u !in s.citations ==>
                           u in o.citations && r.citations[u] == o.citations[u])
  {
    if |p| > 0 {
      MergeFromValues(s, o, p[..|p| - 1]);
      MergeFromKeys(s, o, p[..|p| - 1]);
    }
  }

  lemma MergeFromShape(s: Store, o: Store, p: seq<string>)
    requires Coherent(s)
    requires forall i :: 0 <= i < |p| ==> p[i] in o.citations
    ensures MergedFrom(s, o, p, MergeFrom(s, o, p))
  {
    MergeFromKeys(s, o, p);
    MergeFromOrder(s, o, p);
    MergeFromValues(s, o, p);
  }

  /** Appending URLs that are distinct and unknown keeps the order list free of repeats. */
  lemma AppendUnknown(s: Store, q: seq<string>)
    requires Coherent(s) && NoRepeats(s) && Distinct(q)
    requires forall u :: u in q ==> u !in s.citations
    ensures Distinct(s.order + q)
  {
    var p := s.order + q;
    forall i, j | 0 <= i < j < |p| ensures p[i] != p[j] {
      if i < |s.order| && j >= |s.order| {
        assert p[i] in s.citations;
        assert p[j] == q[j - |s.order|];
      } else if i >= |s.order| {
        assert p[i] == q[i - |s.order|] && p[j] == q[j - |s.order|];
      }
    }
  }

  lemma MergeFromSpec(s: Store, o: Store, p: seq<string>)
    requires Coherent(s) && Coherent(o)
    requires forall i :: 0 <= i < |p| ==> p[i] in o.citations
    ensures var r := MergeFrom(s, o, p);
            Coherent(r) && MergedFrom(s, o, p, r) &&
            (forall u :: u in NewUrls(s.citations.Keys, p) <==> u in p && u !in s.citations) &&
            (NoRepeats(s) ==> NoRepeats(r))
  {
    MergeFromCoherent(s, o, p);
    MergeFromShape(s, o, p);
    NewUrlsSpec(s.citations.Keys, p);
    if NoRepeats(s) {
      AppendUnknown(s, NewUrls(s.citations.Keys, p));
    }
  }

  /** `merge_with` appends, in the other collector's order, exactly the URLs this one
      lacks, and unites the used sets. */
  lemma MergeSpec(s: Store, o: Store)
    requires Coherent(s) && Coherent(o)
    ensures Listed(o)
    ensures var r := Merge(s, o);
            var fresh_ := NewUrls(s.citations.Keys, o.order);
            r.order == s.order + fresh_ &&
            (forall u :: u in fresh_ <==> u in o.citations && u !in s.citations) &&
            r.citations.Keys == s.citations.Keys + o.citations.Keys &&
            r.used == s.used + o.used
  {
    MergeFromKeys(s, o, o.order);
    MergeFromOrder(s, o, o.order);
    NewUrlsSpec(s.citations.Keys, o.order);
    assert (set u | u in o.order) == o.citations.Keys;
  }

  /** `merge_with` keeps the collector coherent. */
  lemma MergeCoherent(s: Store, o: Store)
    requires Coherent(s) && Coherent(o)
    ensures Listed(o) && Coherent(Merge(s, o))
  {
    MergeFromCoherent(s, o, o.order);
  }

  /** Shared URLs keep this collector's metadata and number; new URLs bring the other
      collector's metadata. */
  lemma MergeKeeps(s: Store, o: Store)
    requires Coherent(s) && Listed(o)
    ensures var r := Merge(s, o);
            (forall u :: u in s.citations ==> u in r.citations && r.citations[u] == s.citations[u] &&
                                              Number(r, u) == Number(s, u)) &&
            (forall u :: u in o.order && u !in s.citations ==> u in r.citations &&
                                                               r.citations[u] == o.citations[u])
  {
    MergeFromShape(s, o, o.order);
    var st := MergeFrom(s, o, o.order);
    var r := Merge(s, o);
    assert st.citations == r.citations && st.index == r.index;
    assert MergedFrom(s, o, o.order, st);
    forall u | u in s.citations
      ensures u in r.citations && r.citations[u] == s.citations[u] && Number(r, u) == Number(s, u)
    {
      assert u in s.index;
      assert u in st.index && st.index[u] == s.index[u];
    }
    forall u | u in o.order && u !in s.citations
      ensures u in r.citations && r.citations[u] == o.citations[u]
    {
      assert u in (set v | v in o.order);
      assert u in st.citations.Keys;
    }
  }

  /** After a merge the count is the number of URLs known to either collector, and a
      valid collector merged with one whose used URLs are known stays valid. */
  lemma MergeCount(s: Store, o: Store)
    requires Coherent(s) && Coherent(o)
    ensures Listed(o)
    ensures CountOf(Merge(s, o)) == |s.citations.Keys + o.citations.Keys|
    ensures Valid(s) && UsedKnown(o) ==> Valid(Merge(s, o))
  {
    MergeSpec(s, o);
    MergeCoherent(s, o);
    MergeFromSpec(s, o, o.order);
    assert |Merge(s, o).citations| == |Merge(s, o).citations.Keys|;
  }

  /** A merge step leaves alone a state that already knows every URL of `p`. */
  lemma {:induction false} MergeFromKnown(s: Store, o: Store, p: seq<string>)
    requires forall i :: 0 <= i < |p| ==> p[i] in o.citations && p[i] in s.citations
    ensures MergeFrom(s, o, p) == s
  {
    if |p| > 0 {
      MergeFromKnown(s, o, p[..|p| - 1]);
    }
  }

  /** Merging the same collector twice changes nothing the second time. */
  lemma MergeIdempotent(s: Store, o: Store)
    requires Coherent(s) && Coherent(o)
    ensures Listed(o) && Merge(Merge(s, o), o) == Merge(s, o)
  {
    MergeSpec(s, o);
    var r := Merge(s, o);
    MergeFromKnown(r, o, o.order);
    assert r.used + o.used == r.used;
  }

  // to_dict, from_dict

  /** `list(self._used_citations)`: some listing of the used set, each URL once. The
      listing order follows Python's set iteration order, which the model leaves open. */
  ghost predicate Enumerates(us: seq<string>, used: set<string>)
  {
    Distinct(us) && forall u :: u in us <==> u in used
  }

  /** `to_dict()`, for the listing `usedList` of the used set. */
  function Serialize(s: Store, usedList: seq<string>, hexDigest: string -> string): (r: Value)
    requires Listed(s)
    ensures r.Dict? && Keys(r.entries) == ["citations", "used_urls"]
    ensures Lookup(r.entries, "used_urls") == Some(StrList(usedList))
    ensures Lookup(r.entries, "citations").Some? && Lookup(r.entries, "citations").value.List?
    ensures var items := Lookup(r.entries, "citations").value.items;
            |items| == |s.order| &&
            forall i :: 0 <= i < |items| ==>
              items[i] == CitationToDict(Citation(i + 1, s.citations[s.order[i]], None, None), hexDigest)
  {
    var cs := AllCitations(s);
    var es := [("citations", List(seq(|cs|, i requires 0 <= i < |cs| => CitationToDict(cs[i], hexDigest)))),
               ("used_urls", StrList(usedList))];
    assert Keys(es) == ["citations"] + Keys(es[1..]);
    Dict(es)
  }

  /** `data.get("citations", [])` as `from_dict` iterates it: an empty string or dict
      iterates nothing, any other non-list fails on its first element or on iteration. */
  function CitationItems(data: Value): (r: Result<seq<Value>, string>)
    ensures !data.Dict? ==> r.Err?
    ensures data.Dict? && Lookup(data.entries, "citations") == None ==> r == Ok([])
    ensures Get(data, "citations").Some? && Get(data, "citations").value.List? ==>
              r == Ok(Get(data, "citations").value.items)
  {
    if !data.Dict? then Err("data: not a dict")
    else match Lookup(data.entries, "citations")
      case None => Ok([])
      case Some(List(xs)) => Ok(xs)
      case Some(Str(t)) => if t == [] then Ok([]) else Err("citations: element is not a dict")
      case Some(Dict(es)) => if es == [] then Ok([]) else Err("citations: element is not a dict")
      case Some(_) => Err("citations: not iterable")
  }

  /** `set(data.get("used_urls", []))` for a list of strings, a string (its characters)
      or a dict (its keys); anything else is rejected. */
  function UsedUrlSet(data: Value): (r: Result<set<string>, string>)
    ensures Get(data, "used_urls").None? ==> r == Ok({})
  {
    match Get(data, "used_urls")
    case None => Ok({})
    case Some(List(xs)) =>
      (match AllStrings(xs)
       case Some(us) => Ok(set u | u in us)
       case None => Err("used_urls: not a list of strings"))
    case Some(Str(t)) => Ok(set c | c in t :: [c])
    case Some(Dict(es)) => Ok(set k | k in Keys(es))
    case Some(_) => Err("used_urls: not iterable")
  }

  /** The loop of `from_dict` over `items`: each entry is parsed by `parse` (which is
      `Citation.from_dict`) and appended, with no check for a URL seen before. */
  function FromItems(items: seq<Value>, parse: Value -> Result<Citation, string>): (r: Result<Store, string>)
  {
    if |items| == 0 then Ok(Empty)
    else
      var st :- FromItems(items[..|items| - 1], parse);
      var c :- parse(items[|items| - 1]);
      Ok(Record(st, c.metadata.url, c.metadata))
  }

  /** `CitationCollector.from_dict(data)`. */
  function Deserialize(data: Value, now: string): (r: Result<Store, string>)
    ensures !data.Dict? ==> r.Err?
  {
    var items :- CitationItems(data);
    var st :- FromItems(items, v => CitationFromDict(v, now));
    var used :- UsedUrlSet(data);
    Ok(st.(used := used))
  }

  /** A rebuilt collector is coherent and lists one URL per entry, in input order; it is
      built exactly when every entry parses. */
  lemma {:induction false} FromItemsSpec(items: seq<Value>, parse: Value -> Result<Citation, string>)
    ensures var r := FromItems(items, parse);
            (r.Ok? <==> forall i :: 0 <= i < |items| ==> parse(items[i]).Ok?) &&
            (r.Ok? ==> r.value.used == {} && |r.value.order| == |items| &&
                       forall i :: 0 <= i < |items| ==> r.value.order[i] == parse(items[i]).value.metadata.url)
  {
    if |items| > 0 {
      var init := items[..|items| - 1];
      FromItemsSpec(init, parse);
      assert forall i :: 0 <= i < |init| ==> init[i] == items[i];
    }
  }

  lemma {:induction false} FromItemsCoherent(items: seq<Value>, parse: Value -> Result<Citation, string>)
    ensures FromItems(items, parse).Ok? ==> Coherent(FromItems(items, parse).value)
  {
    if |items| > 0 {
      var init := items[..|items| - 1];
      FromItemsCoherent(init, parse);
      var c := parse(items[|items| - 1]);
      if FromItems(init, parse).Ok? && c.Ok? {
        RecordCoherent(FromItems(init, parse).value, c.value.metadata.url, c.value.metadata);
      }
    }
  }

  /** `from_dict` yields a coherent collector with one order entry per citation entry. */
  lemma FromDictSpec(data: Value, now: string)
    ensures var r := Deserialize(data, now);
            r.Ok? ==> Coherent(r.value) && CitationItems(data).Ok? &&
                      |r.value.order| == |CitationItems(data).value|
  {
    if CitationItems(data).Ok? {
      FromItemsSpec(CitationItems(data).value, v => CitationFromDict(v, now));
      FromItemsCoherent(CitationItems(data).value, v => CitationFromDict(v, now));
    }
  }

  lemma {:induction false} SetOfSeqCard(p: seq<string>)
    ensures |set u | u in p| <= |p|
    ensures !Distinct(p) ==> |set u | u in p| < |p|
  {
    if |p| > 0 {
      var init := p[..|p| - 1];
      var x := p[|p| - 1];
      SetOfSeqCard(init);
      assert p == init + [x];
      assert (set u | u in p) == (set u | u in init) + {x};
      if !Distinct(p) && Distinct(init) {
        var i, j :| 0 <= i < j < |p| && p[i] == p[j];
        assert forall k, l :: 0 <= k < l < |init| ==> p[k] != p[l] by {
          forall k, l | 0 <= k < l < |init| ensures p[k] != p[l] {
            assert p[k] == init[k] && p[l] == init[l];
          }
        }
        assert j == |p| - 1;
        assert x == init[i];
        assert (set u | u in p) == (set u | u in init);
      }
    }
  }

  /** `from_dict` does not deduplicate: two entries with the same URL both stay in the
      order list, so the count falls below its length. */
  lemma FromDictKeepsRepeats(data: Value, now: string, i: int, j: int)
    requires Deserialize(data, now).Ok? && CitationItems(data).Ok?
    requires var items := CitationItems(data).value;
             0 <= i < j < |items| &&
             CitationFromDict(items[i], now).Ok? && CitationFromDict(items[j], now).Ok? &&
             CitationFromDict(items[i], now).value.metadata.url == CitationFromDict(items[j], now).value.metadata.url
    ensures var r := Deserialize(data, now).value;
            |r.order| == |CitationItems(data).value| && r.order[i] == r.order[j] &&
            !NoRepeats(r) && CountOf(r) < |r.order|
  {
    var items := CitationItems(data).value;
    var parse := v => CitationFromDict(v, now);
    FromItemsSpec(items, parse);
    FromItemsCoherent(items, parse);
    var st := FromItems(items, parse).value;
    var r := Deserialize(data, now).value;
    assert r == st.(used := r.used);
    assert r.order[i] == parse(items[i]).value.metadata.url;
    assert Coherent(r);
    SetOfSeqCard(r.order);
    assert CountOf(r) == |set u | u in r.order|;
  }

  /** The metadata map with every raw content dropped, as a dict round trip leaves it. */
  function StripRaw(cits: map<string, Metadata>): (r: map<string, Metadata>)
    ensures r.Keys == cits.Keys
    ensures forall u :: u in cits ==> r[u] == cits[u].(rawContent := None)
  {
    map u | u in cits :: cits[u].(rawContent := None)
  }

  /** The collector `from_dict` has built after the first `k` entries of `to_dict`. */
  function Rebuilt(s: Store, k: int): Store
    requires Listed(s) && 0 <= k <= |s.order|
  {
    if k == 0 then Empty
    else Record(Rebuilt(s, k - 1), s.order[k - 1], s.citations[s.order[k - 1]].(rawContent := None))
  }

  lemma {:induction false} FromItemsRebuilt(s: Store, items: seq<Value>,
                                            parse: Value -> Result<Citation, string>, k: int)
    requires Listed(s) && |items| == |s.order| && 0 <= k <= |s.order|
    requires forall i :: 0 <= i < |items| ==>
               parse(items[i]) == Ok(Citation(i + 1, s.citations[s.order[i]].(rawContent := None), None, None))
    requires forall u :: u in s.citations ==> s.citations[u].url == u
    ensures FromItems(items[..k], parse) == Ok(Rebuilt(s, k))
  {
    if k > 0 {
      FromItemsRebuilt(s, items, parse, k - 1);
      assert items[..k][..k - 1] == items[..k - 1];
      assert items[..k][k - 1] == items[k - 1];
    }
  }

  lemma {:induction false} RebuiltOrder(s: Store, k: int)
    requires Listed(s) && 0 <= k <= |s.order|
    ensures Rebuilt(s, k).order == s.order[..k] && Rebuilt(s, k).used == {}
  {
    if k > 0 {
      RebuiltOrder(s, k - 1);
      assert s.order[..k] == s.order[..k - 1] + [s.order[k - 1]];
    }
  }

  lemma {:induction false} RebuiltMembers(s: Store, k: int)
    requires Listed(s) && 0 <= k <= |s.order|
    ensures forall u :: u in Rebuilt(s, k).citations <==> u in s.order[..k]
  {
    if k > 0 {
      RebuiltMembers(s, k - 1);
      assert s.order[..k] == s.order[..k - 1] + [s.order[k - 1]];
    }
  }

  lemma {:induction false} RebuiltCitations(s: Store, k: int)
    requires Listed(s) && 0 <= k <= |s.order|
    ensures var r := Rebuilt(s, k);
            forall u :: u in r.citations ==>
              u in s.citations && r.citations[u] == s.citations[u].(rawContent := None)
  {
    if k > 0 {
      RebuiltCitations(s, k - 1);
    }
  }

  lemma {:induction false} RebuiltIndex(s: Store, k: int)
    requires Listed(s) && 0 <= k <= |s.order|
    ensures var r := Rebuilt(s, k);
            r.index.Keys == r.citations.Keys &&
            forall u :: u in r.index ==> LastPos(s.order[..k], u, r.index[u])
  {
    if k > 0 {
      RebuiltIndex(s, k - 1);
      RebuiltOrder(s, k - 1);
      var prev := Rebuilt(s, k - 1);
      var u := s.order[k - 1];
      assert s.order[..k] == prev.order + [u];
      var r := Rebuilt(s, k);
      forall v | v in r.index ensures LastPos(s.order[..k], v, r.index[v]) {
        if v != u { assert LastPos(s.order[..k - 1], v, prev.index[v]); }
      }
    }
  }

  lemma LastPosUnique(p: seq<string>, u: string, i: int, j: int)
    requires LastPos(p, u, i) && LastPos(p, u, j)
    ensures i == j
  {
  }

  lemma RebuiltAllCitations(s: Store)
    requires KeysMatch(s)
    ensures Listed(s)
    ensures Rebuilt(s, |s.order|).citations == StripRaw(s.citations)
  {
    RebuiltMembers(s, |s.order|);
    RebuiltCitations(s, |s.order|);
    assert s.order[..|s.order|] == s.order;
  }

  lemma RebuiltAllIndex(s: Store)
    requires KeysMatch(s) && IndexLast(s)
    ensures Listed(s)
    ensures Rebuilt(s, |s.order|).index == s.index
  {
    var k := |s.order|;
    RebuiltMembers(s, k);
    RebuiltIndex(s, k);
    var r := Rebuilt(s, k);
    assert s.order[..k] == s.order;
    assert r.index.Keys == s.index.Keys by {
      forall u ensures u in r.index <==> u in s.index {
        assert u in r.index <==> u in r.citations;
        assert u in s.index <==> u in s.citations;
      }
    }
    forall u | u in s.index ensures r.index[u] == s.index[u] {
      LastPosUnique(s.order, u, r.index[u], s.index[u]);
    }
  }

  /** Rebuilding every entry gives back the collector, raw contents dropped. */
  lemma RebuiltAll(s: Store)
    requires Coherent(s)
    ensures Listed(s)
    ensures Rebuilt(s, |s.order|) == Store(StripRaw(s.citations), s.order, s.index, {})
  {
    RebuiltOrder(s, |s.order|);
    RebuiltAllCitations(s);
    RebuiltAllIndex(s);
    assert s.order[..|s.order|] == s.order;
  }

  /** Each entry `to_dict` writes parses back to its citation, raw content dropped. */
  lemma ToDictEntriesParse(s: Store, items: seq<Value>, hexDigest: string -> string, now: string)
    requires Listed(s) && |items| == |s.order|
    requires forall i :: 0 <= i < |items| ==>
               items[i] == CitationToDict(Citation(i + 1, s.citations[s.order[i]], None, None), hexDigest)
    ensures forall i :: 0 <= i < |items| ==>
              CitationFromDict(items[i], now) ==
              Ok(Citation(i + 1, s.citations[s.order[i]].(rawContent := None), None, None))
  {
    forall i | 0 <= i < |items|
      ensures CitationFromDict(items[i], now) ==
              Ok(Citation(i + 1, s.citations[s.order[i]].(rawContent := None), None, None))
    {
      ToDictEntryParse(Citation(i + 1, s.citations[s.order[i]], None, None), items[i], hexDigest, now);
    }
  }

  lemma ToDictEntryParse(c: Citation, item: Value, hexDigest: string -> string, now: string)
    requires item == CitationToDict(c, hexDigest)
    ensures CitationFromDict(item, now) == Ok(c.(metadata := c.metadata.(rawContent := None)))
  {
    CitationDictRoundTrip(c, hexDigest, now);
  }

  /** Parsing entries that each give back their citation rebuilds the collector. */
  lemma RebuildFromItems(s: Store, items: seq<Value>, parse: Value -> Result<Citation, string>)
    requires Coherent(s) && |items| == |s.order|
    requires forall i :: 0 <= i < |items| ==>
               parse(items[i]) == Ok(Citation(i + 1, s.citations[s.order[i]].(rawContent := None), None, None))
    ensures FromItems(items, parse) == Ok(Store(StripRaw(s.citations), s.order, s.index, {}))
  {
    FromItemsRebuilt(s, items, parse, |items|);
    assert items[..|items|] == items;
    RebuiltAll(s);
  }

  /** `from_dict(to_dict())` rebuilds the same order list, index map and used set, and
      the same metadata apart from the raw content `to_dict` leaves out. */
  lemma DictRoundTrip(s: Store, usedList: seq<string>, hexDigest: string -> string, now: string)
    requires Coherent(s) && Enumerates(usedList, s.used)
    ensures Listed(s)
    ensures Deserialize(Serialize(s, usedList, hexDigest), now) ==
            Ok(Store(StripRaw(s.citations), s.order, s.index, s.used))
  {
    var data := Serialize(s, usedList, hexDigest);
    var items := Lookup(data.entries, "citations").value.items;
    ToDictEntriesParse(s, items, hexDigest, now);
    RebuildFromItems(s, items, v => CitationFromDict(v, now));
    assert CitationItems(data) == Ok(items);
    AllStringsOfStrList(usedList);
    assert (set u | u in usedList) == s.used;
    assert UsedUrlSet(data) == Ok(s.used);
  }

  lemma FromItemsErr(items: seq<Value>, parse: Value -> Result<Citation, string>, k: int)
    requires 0 < k <= |items| && parse(items[k - 1]).Err?
    ensures FromItems(items, parse).Err?
  {
    FromItemsSpec(items, parse);
  }

  /** `CitationCollector`: the four containers as fields; each method performs the
      corresponding operation on `Abs()`. */
  class Collector {
    var citations: map<string, Metadata>
    var order: seq<string>
    var index: map<string, int>
    var used: set<string>

    function Abs(): Store
      reads this
    {
      Store(citations, order, index, used)
    }

    ghost predicate Valid()
      reads this
    {
      Coherent(Abs())
    }

    constructor ()
      ensures Valid() && Abs() == Empty
    {
      citations, order, index, used := map[], [], map[], {};
    }

    /** `add_from_search_results(results, query)`; every result is a dict. */
    method AddFromSearchResults(results: seq<Value>, query: string, now: string,
                                authority: string -> Option<string>)
      returns (added: seq<Metadata>)
      requires Valid()
      requires forall i :: 0 <= i < |results| ==> results[i].Dict?
      modifies this
      ensures Valid()
      ensures (Abs(), added) == AddSearchResults(old(Abs()), results, query, now, authority)
    {
      added := [];
      var i := 0;
      while i < |results|
        invariant 0 <= i <= |results|
        invariant (Abs(), added) == AddSearchResults(old(Abs()), results[..i], query, now, authority)
        invariant Valid()
      {
        ghost var before := Abs();
        var a := AddSearchResult(results[i], query, now, authority);
        added := added + a;
        assert results[..i + 1][..i] == results[..i];
        SearchStepExtends(before, results[i], query, now, authority);
        i := i + 1;
      }
      assert results[..i] == results;
    }

    /** The body of the loop in `add_from_search_results`, for one result. */
    method AddSearchResult(result: Value, query: string, now: string,
                           authority: string -> Option<string>)
      returns (added: seq<Metadata>)
      modifies this
      ensures (Abs(), added) == SearchStep(old(Abs()), result, query, now, authority)
    {
      added := [];
      if Get(result, "type") != Some(Str("image_url")) {
        var url := GetStr(result, "url", "");
        if url != [] {
          var metadata := FromSearchResult(result, query, now, authority);
          if url !in citations {
            citations := citations[url := metadata];
            order := order + [url];
            index := index[url := |order| - 1];
            added := [metadata];
          } else {
            var existing := citations[url];
            if metadata.relevanceScore > existing.relevanceScore {
              citations := citations[url := metadata];
            }
          }
        }
      }
    }

    /** `add_from_crawl_result(url, title, content)`. */
    method AddFromCrawlResult(url: string, title: string, content: Option<string>, now: string,
                              authority: string -> Option<string>)
      returns (metadata: Metadata)
      requires Valid()
      modifies this
      ensures Valid()
      ensures (Abs(), metadata) == CrawlResult(old(Abs()), url, title, content, now, authority)
    {
      if url in citations {
        metadata := citations[url];
        if title != [] && title != "Untitled" {
          metadata := metadata.(title := title);
        }
        if Present(content) {
          metadata := metadata.(rawContent := content);
          if !Present(metadata.contentSnippet) {
            metadata := metadata.(contentSnippet := Some(Take(content.value, 500)));
          }
        }
        citations := citations[url := metadata];
        assert (Abs(), metadata) == CrawlResult(old(Abs()), url, title, content, now, authority);
      } else {
        metadata := NewMetadata(url, if title != [] then title else "Untitled", None,
                                if Present(content) then Some(Take(content.value, 500)) else None,
                                content, 0.0, [], now, authority);
        citations := citations[url := metadata];
        order := order + [url];
        index := index[url := |order| - 1];
        assert (Abs(), metadata) == CrawlResult(old(Abs()), url, title, content, now, authority);
      }
      CrawlResultValid(old(Abs()), url, title, content, now, authority);
    }

    /** `mark_used(url)`. */
    method MarkUsed(url: string) returns (number: Option<int>)
      requires Valid()
      modifies this
      ensures Valid()
      ensures (Abs(), number) == Mark(old(Abs()), url)
    {
      if url in citations {
        used := used + {url};
        number := GetNumber(url);
      } else {
        number := None;
      }
    }

    /** `get_number(url)`. */
    method GetNumber(url: string) returns (number: Option<int>)
      ensures number == Number(Abs(), url)
    {
      if url in index {
        number := Some(index[url] + 1);
      } else {
        number := None;
      }
    }

    /** `get_metadata(url)`. */
    method GetMetadata(url: string) returns (metadata: Option<Metadata>)
      ensures metadata == MetadataOf(Abs(), url)
    {
      if url in citations {
        metadata := Some(citations[url]);
      } else {
        metadata := None;
      }
    }

    /** `get_all_citations()`. */
    method GetAllCitations() returns (cs: seq<Citation>)
      requires Valid()
      ensures Listed(Abs()) && cs == AllCitations(Abs())
    {
      cs := [];
      var i := 0;
      while i < |order|
        invariant 0 <= i <= |order|
        invariant |cs| == i
        invariant forall j :: 0 <= j < i ==> cs[j] == Citation(j + 1, citations[order[j]], None, None)
      {
        var metadata := citations[order[i]];
        cs := cs + [Citation(i + 1, metadata, None, None)];
        i := i + 1;
      }
    }

    /** `get_used_citations()`. */
    method GetUsedCitations() returns (cs: seq<Citation>)
      requires Valid()
      ensures Listed(Abs()) && cs == UsedCitations(Abs())
    {
      cs := [];
      var number := 1;
      var i := 0;
      while i < |order|
        invariant 0 <= i <= |order|
        invariant cs == UsedCitationsOf(order[..i], used, citations)
        invariant number == |cs| + 1
      {
        var url := order[i];
        assert order[..i + 1][..i] == order[..i];
        if url in used {
          cs := cs + [Citation(number, citations[url], None, None)];
          number := number + 1;
        }
        i := i + 1;
      }
      assert order[..i] == order;
    }

    /** `to_dict()`: the used set is listed in some order, each URL once. */
    method ToDict(hexDigest: string -> string) returns (d: Value)
      requires Valid()
      ensures Listed(Abs())
      ensures exists usedList :: Enumerates(usedList, used) && d == Serialize(Abs(), usedList, hexDigest)
    {
      var usedList: seq<string> := [];
      var rest := used;
      while rest != {}
        invariant rest <= used
        invariant Distinct(usedList)
        invariant forall u :: u in usedList <==> u in used && u !in rest
        decreases |rest|
      {
        var u :| u in rest;
        usedList := usedList + [u];
        rest := rest - {u};
      }
      var cs := GetAllCitations();
      d := Dict([("citations", List(seq(|cs|, i requires 0 <= i < |cs| => CitationToDict(cs[i], hexDigest)))),
                 ("used_urls", StrList(usedList))]);
      assert Enumerates(usedList, used) && d == Serialize(Abs(), usedList, hexDigest);
    }

    /** `CitationCollector.from_dict(data)`: a fresh collector, or the error that stops it. */
    static method FromDict(data: Value, now: string) returns (r: Result<Collector, string>)
      ensures r.Ok? <==> Deserialize(data, now).Ok?
      ensures r.Ok? ==> fresh(r.value) && r.value.Valid() && r.value.Abs() == Deserialize(data, now).value
    {
      var items := CitationItems(data);
      if items.Err? {
        return Err(items.error);
      }
      var xs := items.value;
      ghost var parse := v => CitationFromDict(v, now);
      var collector := new Collector();
      var i := 0;
      while i < |xs|
        invariant 0 <= i <= |xs|
        invariant fresh(collector)
        invariant FromItems(xs[..i], parse) == Ok(collector.Abs())
      {
        assert xs[..i + 1][..i] == xs[..i];
        var citation := CitationFromDict(xs[i], now);
        if citation.Err? {
          FromItemsErr(xs, parse, i + 1);
          return Err(citation.error);
        }
        var url := citation.value.metadata.url;
        collector.citations := collector.citations[url := citation.value.metadata];
        var at := |collector.order|;
        collector.order := collector.order + [url];
        collector.index := collector.index[url := at];
        i := i + 1;
      }
      assert xs[..i] == xs;
      var usedSet := UsedUrlSet(data);
      if usedSet.Err? {
        return Err(usedSet.error);
      }
      collector.used := usedSet.value;
      FromDictSpec(data, now);
      r := Ok(collector);
    }

    /** `merge_with(other)`; `other` may be this collector itself. */
    method MergeWith(other: Collector)
      requires Valid() && other.Valid()
      modifies this
      ensures Valid()
      ensures Listed(old(other.Abs())) && Abs() == Merge(old(Abs()), old(other.Abs()))
    {
      ghost var s0 := Abs();
      ghost var o0 := other.Abs();
      var otherOrder, otherCitations, otherUsed := other.order, other.citations, other.used;
      MergeOrder(o0, otherOrder, otherCitations);
      used := used + otherUsed;
      MergeCoherent(s0, o0);
    }

    /** The loop of `merge_with` over the other collector's order list `p`. */
    method MergeOrder(ghost o: Store, p: seq<string>, cits: map<string, Metadata>)
      requires cits == o.citations && forall i :: 0 <= i < |p| ==> p[i] in o.citations
      modifies this
      ensures Abs() == MergeFrom(old(Abs()), o, p)
    {
      var i := 0;
      while i < |p|
        invariant 0 <= i <= |p|
        invariant Abs() == MergeFrom(old(Abs()), o, p[..i])
      {
        assert p[..i + 1][..i] == p[..i];
        MergeUrl(p[i], cits[p[i]]);
        i := i + 1;
      }
      assert p[..i] == p;
    }

    /** One iteration of the loop in `merge_with`. */
    method MergeUrl(url: string, metadata: Metadata)
      modifies this
      ensures Abs() == if url in old(Abs()).citations then old(Abs())
                       else Record(old(Abs()), url, metadata)
    {
      if url !in citations {
        citations := citations[url := metadata];
        order := order + [url];
        index := index[url := |order| - 1];
      }
    }

    /** `clear()`. */
    method Clear()
      modifies this
      ensures Valid() && Abs() == Empty
    {
      citations, order, used, index := map[], [], {}, map[];
    }

    /** `count`. */
    method Count() returns (n: int)
      ensures n == CountOf(Abs())
    {
      n := |citations|;
    }

    /** `used_count`. */
    method UsedCount() returns (n: int)
      ensures n == UsedCountOf(Abs())
    {
      n := |used|;
    }
  }
}
