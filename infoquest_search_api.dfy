// The InfoQuest search client's pure parts (tools/infoquest_search/infoquest_search_api.py):
// the request parameters and headers, and the cleaning of a response into page, news
// and image results with first-wins URL deduplication. The HTTP call is a parameter.
module InfoQuestSearchApi {
  import opened Wrappers
  import opened Strings
  import opened Values

  type Entries = seq<(string, Value)>

  /** The JSON body of a search request: format and query always, the time range only
      when positive, the site only when non-empty. */
  function RequestParams(query: string, timeRange: int, site: string, outputFormat: string): (r: Entries)
    ensures |r| == 2 + (if timeRange > 0 then 1 else 0) + (if site != "" then 1 else 0)
    ensures Lookup(r, "format") == Some(Str(outputFormat)) && Lookup(r, "query") == Some(Str(query))
    ensures timeRange > 0 ==> Lookup(r, "time_range") == Some(Num(timeRange as real))
    ensures timeRange <= 0 ==> Lookup(r, "time_range") == None
    ensures site != "" ==> Lookup(r, "site") == Some(Str(site))
    ensures site == "" ==> Lookup(r, "site") == None
  {
    var base := [("format", Str(outputFormat)), ("query", Str(query))];
    var withTime := if timeRange > 0 then Put(base, "time_range", Num(timeRange as real)) else base;
    var r := if site != "" then Put(withTime, "site", Str(site)) else withTime;
    assert base[1..][1..] == [];
    assert Lookup(base, "time_range") == Lookup(base[1..], "time_range") == Lookup(base[1..][1..], "time_range") == None;
    assert Lookup(base, "site") == Lookup(base[1..], "site") == Lookup(base[1..][1..], "site") == None;
    PutLookup(base, "time_range", Num(timeRange as real), "format");
    PutLookup(base, "time_range", Num(timeRange as real), "query");
    PutLookup(base, "time_range", Num(timeRange as real), "time_range");
    PutLookup(base, "time_range", Num(timeRange as real), "site");
    PutLookup(base, "time_range", Num(timeRange as real), "site");
    LookupSomeIffHasKey(base, "time_range");
    PutKeys(base, "time_range", Num(timeRange as real));
    LookupSomeIffHasKey(withTime, "site");
    PutKeys(withTime, "site", Str(site));
    KeysIndex(base); KeysIndex(withTime); KeysIndex(r);
    PutLookup(withTime, "site", Str(site), "format");
    PutLookup(withTime, "site", Str(site), "query");
    PutLookup(withTime, "site", Str(site), "time_range");
    PutLookup(withTime, "site", Str(site), "site");
    r
  }

  /** The request headers: JSON content and the bearer token. */
  function Headers(apiKey: string): Entries
  {
    [("Content-Type", Str("application/json")), ("Authorization", Str("Bearer " + apiKey))]
  }

  /** `raw_results`: the posted request's `search_result` member. `post` is the HTTP
      call (its error, or a failing status, is `Err`); a reply without the member is a
      `KeyError`. */
  function RawResults(apiKey: string, query: string, timeRange: int, site: string, outputFormat: string,
                      post: (Entries, Entries) -> Result<Value, string>): (r: Result<Value, string>)
    ensures var reply := post(Headers(apiKey), RequestParams(query, timeRange, site, outputFormat));
      r.Ok? <==> reply.Ok? && Get(reply.value, "search_result").Some?
  {
    var reply :- post(Headers(apiKey), RequestParams(query, timeRange, site, outputFormat));
    match Get(reply, "search_result")
    case Some(v) => Ok(v)
    case None => Err("KeyError: 'search_result'")
  }

  // ----- response cleaning -----

  datatype Organic = Organic(title: Value, url: Value, desc: Value)
  datatype NewsItem = NewsItem(timeFrame: Value, title: Value, url: Value, source: Value)
  datatype ImageItem = ImageItem(url: Value, alt: Value)

  /** One entry of the response: its organic results, top stories and images (an absent
      or empty group is an empty sequence). */
  datatype ContentEntry = ContentEntry(organic: seq<Organic>, topStories: seq<NewsItem>, images: seq<ImageItem>)

  datatype Category = Page | News | Image

  /** A cleaned result before deduplication, with the URL it is deduplicated on. */
  datatype Candidate = Candidate(category: Category, entry: Entries, url: Value)

  function OrganicCandidate(o: Organic): Candidate
  {
    Candidate(Page, [("type", Str("page")), ("title", o.title), ("url", o.url), ("desc", o.desc)], o.url)
  }

  function NewsCandidate(n: NewsItem): Candidate
  {
    Candidate(News, [("type", Str("news")), ("time_frame", n.timeFrame), ("title", n.title), ("url", n.url),
                     ("source", n.source)], n.url)
  }

  function ImageCandidate(i: ImageItem): Candidate
  {
    Candidate(Image, [("type", Str("image_url")), ("image_url", i.url), ("image_description", i.alt)], i.url)
  }

  function OrganicCandidates(os: seq<Organic>): (r: seq<Candidate>)
    ensures |r| == |os| && forall i :: 0 <= i < |os| ==> r[i] == OrganicCandidate(os[i])
  {
    seq(|os|, i requires 0 <= i < |os| => OrganicCandidate(os[i]))
  }

  function NewsCandidates(ns: seq<NewsItem>): (r: seq<Candidate>)
    ensures |r| == |ns| && forall i :: 0 <= i < |ns| ==> r[i] == NewsCandidate(ns[i])
  {
    seq(|ns|, i requires 0 <= i < |ns| => NewsCandidate(ns[i]))
  }

  function ImageCandidates(items: seq<ImageItem>): (r: seq<Candidate>)
    ensures |r| == |items| && forall i :: 0 <= i < |items| ==> r[i] == ImageCandidate(items[i])
  {
    seq(|items|, i requires 0 <= i < |items| => ImageCandidate(items[i]))
  }

  /** Every entry in turn: its organic results, then its top stories, then its images. */
  function Candidates(raw: seq<ContentEntry>): seq<Candidate>
  {
    if |raw| == 0 then []
    else
      var e := raw[|raw| - 1];
      Candidates(raw[..|raw| - 1]) + OrganicCandidates(e.organic) + NewsCandidates(e.topStories) +
        ImageCandidates(e.images)
  }

  /** A URL worth keeping: a non-empty string. */
  predicate ValidUrl(u: Value)
  {
    u.Str? && u.s != ""
  }

  /** The shared `seen_urls` deduplication over candidates: a candidate is kept when its
      URL is valid and not yet seen. */
  function Fold(cs: seq<Candidate>, seen: set<string>): (r: (seq<Candidate>, set<string>))
    ensures |r.0| <= |cs|
  {
    if |cs| == 0 then ([], seen)
    else
      var f := Fold(cs[..|cs| - 1], seen);
      var c := cs[|cs| - 1];
      if ValidUrl(c.url) && c.url.s !in f.1 then (f.0 + [c], f.1 + {c.url.s}) else f
  }

  /** What `Fold` keeps is valid, distinct and new, and every kept URL is recorded. */
  lemma {:induction false} FoldProperties(cs: seq<Candidate>, seen: set<string>)
    ensures var r := Fold(cs, seen);
      seen <= r.1 &&
      (forall i :: 0 <= i < |r.0| ==> ValidUrl(r.0[i].url) && r.0[i].url.s in r.1 && r.0[i].url.s !in seen) &&
      (forall i, j :: 0 <= i < j < |r.0| ==> r.0[i].url != r.0[j].url)
  {
    if |cs| > 0 {
      FoldProperties(cs[..|cs| - 1], seen);
    }
  }

  /** Folding a concatenation folds its parts one after the other. */
  lemma {:induction false} FoldAppend(a: seq<Candidate>, b: seq<Candidate>, seen: set<string>)
    ensures Fold(a + b, seen) == (Fold(a, seen).0 + Fold(b, Fold(a, seen).1).0, Fold(b, Fold(a, seen).1).1)
    decreases |b|
  {
    if |b| == 0 {
      assert a + b == a;
      assert Fold(a, seen).0 + [] == Fold(a, seen).0;
    } else {
      var b' := b[..|b| - 1];
      assert (a + b)[..|a + b| - 1] == a + b';
      assert (a + b)[|a + b| - 1] == b[|b| - 1];
      FoldAppend(a, b', seen);
      var fa := Fold(a, seen);
      var fb' := Fold(b', fa.1);
      var c := b[|b| - 1];
      if ValidUrl(c.url) && c.url.s !in fb'.1 {
        assert (fa.0 + fb'.0) + [c] == fa.0 + (fb'.0 + [c]);
      }
    }
  }

  /** The valid URLs of `cs`. */
  function Urls(cs: seq<Candidate>): set<string>
  {
    if |cs| == 0 then {}
    else Urls(cs[..|cs| - 1]) + (if ValidUrl(cs[|cs| - 1].url) then {cs[|cs| - 1].url.s} else {})
  }

  /** The reference definition: candidate `i` is kept iff its URL is valid and no earlier
      candidate has that URL. */
  function FirstWins(cs: seq<Candidate>): seq<Candidate>
  {
    if |cs| == 0 then []
    else
      var c := cs[|cs| - 1];
      FirstWins(cs[..|cs| - 1]) +
        (if ValidUrl(c.url) && c.url.s !in Urls(cs[..|cs| - 1]) then [c] else [])
  }

  lemma {:induction false} FoldIsFirstWins(cs: seq<Candidate>)
    ensures Fold(cs, {}) == (FirstWins(cs), Urls(cs))
  {
    if |cs| > 0 {
      var init := cs[..|cs| - 1];
      FoldIsFirstWins(init);
      var c := cs[|cs| - 1];
      if ValidUrl(c.url) && c.url.s !in Urls(init) {
        assert Fold(cs, {}) == (FirstWins(init) + [c], Urls(init) + {c.url.s});
      } else {
        assert Fold(cs, {}) == Fold(init, {});
        assert FirstWins(cs) == FirstWins(init) + [];
        assert FirstWins(init) + [] == FirstWins(init);
        if ValidUrl(c.url) {
          assert c.url.s in Urls(init);
          assert Urls(cs) == Urls(init) + {c.url.s};
        }
        assert Urls(cs) == Urls(init);
      }
    }
  }

  /** `len(clean_results)` split by category. */
  datatype Counts = Counts(pages: nat, news: nat, images: nat)

  function Total(c: Counts): nat
  {
    c.pages + c.news + c.images
  }

  function AddCounts(a: Counts, b: Counts): Counts
  {
    Counts(a.pages + b.pages, a.news + b.news, a.images + b.images)
  }

  /** How many of `kept` are in category `k`. */
  function Count(kept: seq<Candidate>, k: Category): (n: nat)
    ensures n <= |kept|
  {
    if |kept| == 0 then 0
    else Count(kept[..|kept| - 1], k) + (if kept[|kept| - 1].category == k then 1 else 0)
  }

  function CountsOf(kept: seq<Candidate>): Counts
  {
    Counts(Count(kept, Page), Count(kept, News), Count(kept, Image))
  }

  /** The three counts add up to the number of results. */
  lemma {:induction false} CountsTotal(kept: seq<Candidate>)
    ensures Total(CountsOf(kept)) == |kept|
  {
    if |kept| > 0 {
      CountsTotal(kept[..|kept| - 1]);
    }
  }

  lemma {:induction false} CountAppend(a: seq<Candidate>, b: seq<Candidate>, k: Category)
    ensures Count(a + b, k) == Count(a, k) + Count(b, k)
    decreases |b|
  {
    if |b| == 0 {
      assert a + b == a;
    } else {
      assert (a + b)[..|a + b| - 1] == a + b[..|b| - 1];
      assert (a + b)[|a + b| - 1] == b[|b| - 1];
      CountAppend(a, b[..|b| - 1], k);
    }
  }

  lemma CountsOfAppend(a: seq<Candidate>, b: seq<Candidate>)
    ensures CountsOf(a + b) == AddCounts(CountsOf(a), CountsOf(b))
  {
    CountAppend(a, b, Page);
    CountAppend(a, b, News);
    CountAppend(a, b, Image);
  }

  function EntriesOf(kept: seq<Candidate>): (r: seq<Entries>)
    ensures |r| == |kept| && forall i :: 0 <= i < |kept| ==> r[i] == kept[i].entry
  {
    seq(|kept|, i requires 0 <= i < |kept| => kept[i].entry)
  }

  /** One inner loop: each candidate with a valid, unseen URL is recorded, appended and
      counted. */
  method AdmitAll(cs: seq<Candidate>, seen0: set<string>, clean0: seq<Entries>, counts0: Counts)
    returns (seen: set<string>, clean: seq<Entries>, counts: Counts)
    ensures seen == Fold(cs, seen0).1
    ensures clean == clean0 + EntriesOf(Fold(cs, seen0).0)
    ensures counts == AddCounts(counts0, CountsOf(Fold(cs, seen0).0))
  {
    seen, clean, counts := seen0, clean0, counts0;
    ghost var kept: seq<Candidate> := [];
    var i := 0;
    while i < |cs|
      invariant 0 <= i <= |cs|
      invariant (kept, seen) == Fold(cs[..i], seen0)
      invariant clean == clean0 + EntriesOf(kept)
      invariant counts == AddCounts(counts0, CountsOf(kept))
    {
      var c := cs[i];
      assert cs[..i + 1][..i] == cs[..i];
      if ValidUrl(c.url) && c.url.s !in seen {
        seen := seen + {c.url.s};
        clean := clean + [c.entry];
        assert EntriesOf(kept + [c]) == EntriesOf(kept) + [c.entry];
        CountsOfAppend(kept, [c]);
        assert [c][..0] == [];
        match c.category {
          case Page => counts := counts.(pages := counts.pages + 1);
          case News => counts := counts.(news := counts.news + 1);
          case Image => counts := counts.(images := counts.images + 1);
        }
        kept := kept + [c];
      }
      i := i + 1;
    }
    assert cs[..i] == cs;
  }

  /** The three views the loop keeps of a fold, split over a concatenation. */
  lemma FoldAppendViews(a: seq<Candidate>, b: seq<Candidate>)
    ensures var fa := Fold(a, {});
      var fb := Fold(b, fa.1);
      Fold(a + b, {}).1 == fb.1 &&
      EntriesOf(Fold(a + b, {}).0) == EntriesOf(fa.0) + EntriesOf(fb.0) &&
      CountsOf(Fold(a + b, {}).0) == AddCounts(CountsOf(fa.0), CountsOf(fb.0))
  {
    var fa := Fold(a, {});
    var fb := Fold(b, fa.1);
    FoldAppend(a, b, {});
    assert EntriesOf(fa.0 + fb.0) == EntriesOf(fa.0) + EntriesOf(fb.0);
    CountsOfAppend(fa.0, fb.0);
  }

  /** `clean_results_with_images`. */
  method CleanResultsWithImages(raw: seq<ContentEntry>) returns (clean: seq<Entries>, counts: Counts)
    ensures clean == EntriesOf(Fold(Candidates(raw), {}).0)
    ensures counts == CountsOf(Fold(Candidates(raw), {}).0)
  {
    var seen: set<string> := {};
    clean := [];
    counts := Counts(0, 0, 0);
    var i := 0;
    while i < |raw|
      invariant 0 <= i <= |raw|
      invariant seen == Fold(Candidates(raw[..i]), {}).1
      invariant clean == EntriesOf(Fold(Candidates(raw[..i]), {}).0)
      invariant counts == CountsOf(Fold(Candidates(raw[..i]), {}).0)
    {
      var entry := raw[i];
      assert raw[..i + 1][..i] == raw[..i];
      ghost var before := Candidates(raw[..i]);
      var org, news, imgs := OrganicCandidates(entry.organic), NewsCandidates(entry.topStories),
                             ImageCandidates(entry.images);
      assert Candidates(raw[..i + 1]) == before + org + news + imgs;
      seen, clean, counts := AdmitAll(org, seen, clean, counts);
      FoldAppendViews(before, org);
      seen, clean, counts := AdmitAll(news, seen, clean, counts);
      FoldAppendViews(before + org, news);
      seen, clean, counts := AdmitAll(imgs, seen, clean, counts);
      FoldAppendViews(before + org + news, imgs);
      i := i + 1;
    }
    assert raw[..i] == raw;
  }

  /** The cleaned results have distinct non-empty string URLs, each the first occurrence
      of its URL among all categories, and the three counts add up to their number. */
  lemma CleanedResultsProperties(raw: seq<ContentEntry>)
    ensures var kept := Fold(Candidates(raw), {}).0;
      kept == FirstWins(Candidates(raw)) &&
      (forall i :: 0 <= i < |kept| ==> ValidUrl(kept[i].url)) &&
      (forall i, j :: 0 <= i < j < |kept| ==> kept[i].url != kept[j].url) &&
      Total(CountsOf(kept)) == |EntriesOf(kept)| &&
      |kept| <= |Candidates(raw)|
  {
    FoldIsFirstWins(Candidates(raw));
    FoldProperties(Candidates(raw), {});
    CountsTotal(Fold(Candidates(raw), {}).0);
  }
}
