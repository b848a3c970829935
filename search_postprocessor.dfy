// Search-result post-processing (tools/search_postprocessor.py): deduplication by URL,
// a score filter, removal of inline base64 images, truncation of long text and a stable
// sort by score. The regular-expression substitution of base64 data URIs (RFC 2397) is
// a parameter.
module SearchPostprocessor {
  import opened Wrappers
  import opened Strings
  import opened Values

  /** One search result: a dict. */
  type Entries = seq<(string, Value)>

  /** `SearchResultPostProcessor(min_score_threshold, max_content_length_per_page)`. */
  datatype PostProcessor = PostProcessor(minScoreThreshold: real, maxContentLengthPerPage: int)

  /** `result.get("score", 0)`. */
  function Score(e: Entries): real
  {
    match Lookup(e, "score")
    case Some(Num(x)) => x
    case _ => 0.0
  }

  /** The dedup key: a truthy `url`, else `image_url` (its `url` when it is a dict). */
  function DedupKey(e: Entries): Value
  {
    var url := Lookup(e, "url");
    if url.Some? && Truthy(url.value) then url.value
    else
      var imageUrl := Lookup(e, "image_url").GetOr(Str(""));
      if imageUrl.Dict? then Get(imageUrl, "url").GetOr(Str("")) else imageUrl
  }

  /** A page scoring below a positive threshold. */
  predicate LowScorePage(p: PostProcessor, e: Entries)
  {
    Lookup(e, "type") == Some(Str("page")) && p.minScoreThreshold > 0.0 && Score(e) < p.minScoreThreshold
  }

  /** A text field passed through the base64 substitution. */
  function ScrubField(e: Entries, k: string, scrub: string -> string): Entries
  {
    match Lookup(e, k)
    case Some(Str(s)) => Put(e, k, Str(scrub(s)))
    case _ => e
  }

  /** `processPage`: content and raw content are scrubbed. */
  function ProcessPage(e: Entries, scrub: string -> string): Entries
  {
    ScrubField(ScrubField(e, "content", scrub), "raw_content", scrub)
  }

  /** The `image_url` step of `processImage`: a URL carrying "data:image" is scrubbed,
      and the whole result is dropped when what is left is empty or does not start with
      "http". */
  function CleanImageUrl(e: Entries, scrub: string -> string): (r: Option<Entries>)
    ensures r.None? ==> (exists u :: Lookup(e, "image_url") == Some(Str(u)) && Contains(u, "data:image") &&
                                     (scrub(u) == "" || !StartsWith(scrub(u), "http")))
  {
    match Lookup(e, "image_url")
    case Some(Str(u)) =>
      if !Contains(u, "data:image") then Some(e)
      else
        var c := scrub(u);
        if |c| == 0 || !StartsWith(c, "http") then None else Some(Put(e, "image_url", Str(c)))
    case _ => Some(e)
  }

  /** The `image_description` step of `processImage`: with a non-zero limit a longer
      description is cut (a negative limit slices from the end, as Python does). */
  function CutImageDescription(p: PostProcessor, e: Entries): Entries
  {
    match Lookup(e, "image_description")
    case Some(Str(d)) =>
      if p.maxContentLengthPerPage != 0 && |d| > p.maxContentLengthPerPage
      then Put(e, "image_description", Str(Take(d, p.maxContentLengthPerPage) + "..."))
      else e
    case _ => e
  }

  /** `processImage`. */
  function ProcessImage(p: PostProcessor, e: Entries, scrub: string -> string): Option<Entries>
  {
    match CleanImageUrl(e, scrub)
    case None => None
    case Some(e1) => Some(CutImageDescription(p, e1))
  }

  /** `_remove_base64_images`: pages and images are cleaned, other types kept. */
  function RemoveBase64Images(p: PostProcessor, e: Entries, scrub: string -> string): Option<Entries>
  {
    if Lookup(e, "type") == Some(Str("page")) then Some(ProcessPage(e, scrub))
    else if Lookup(e, "type") == Some(Str("image")) then ProcessImage(p, e, scrub)
    else Some(e)
  }

  /** A text field longer than `n` is cut to its first `n` characters plus "...". */
  function TruncateField(e: Entries, k: string, n: nat): Entries
  {
    match Lookup(e, k)
    case Some(Str(s)) => if |s| > n then Put(e, k, Str(s[..n] + "...")) else e
    case _ => e
  }

  /** `_truncate_long_content` for a positive limit `L`: content to `L`, raw content to
      `2L`. */
  function TruncateLongContent(e: Entries, limit: nat): Entries
  {
    TruncateField(TruncateField(e, "content", limit), "raw_content", 2 * limit)
  }

  /** Steps 2 to 4 for a result that passed deduplication; `None` drops it. */
  function Finish(p: PostProcessor, e: Entries, scrub: string -> string): Option<Entries>
  {
    if e == [] || LowScorePage(p, e) then None
    else
      match RemoveBase64Images(p, e, scrub)
      case None => None
      case Some(e1) =>
        if e1 == [] then None
        else
          var e2 := if p.maxContentLengthPerPage > 0 then TruncateLongContent(e1, p.maxContentLengthPerPage) else e1;
          if e2 == [] then None else Some(e2)
  }

  /** One turn of the loop: a truthy key already seen drops the result; otherwise its
      key is recorded before any filtering and the result is finished. */
  function Step(p: PostProcessor, e: Entries, seen: set<Value>, scrub: string -> string)
    : (Option<Entries>, set<Value>)
  {
    var k := DedupKey(e);
    if Truthy(k) && k in seen then (None, seen)
    else (Finish(p, e, scrub), if Truthy(k) then seen + {k} else seen)
  }

  /** The kept results of `rs` in order, and the keys seen. */
  function Clean(p: PostProcessor, rs: seq<Entries>, scrub: string -> string): (r: (seq<Entries>, set<Value>))
    ensures |r.0| <= |rs|
  {
    if |rs| == 0 then ([], {})
    else
      var (out, seen) := Clean(p, rs[..|rs| - 1], scrub);
      var (kept, seen') := Step(p, rs[|rs| - 1], seen, scrub);
      (out + (if kept.Some? then [kept.value] else []), seen')
  }

  /** The truthy keys of `rs`. */
  function TruthyKeys(rs: seq<Entries>): set<Value>
  {
    if |rs| == 0 then {}
    else TruthyKeys(rs[..|rs| - 1]) + (if Truthy(DedupKey(rs[|rs| - 1])) then {DedupKey(rs[|rs| - 1])} else {})
  }

  /** Result `j` survives deduplication: its key is falsy or no earlier result has it. */
  predicate Admitted(rs: seq<Entries>, j: nat)
    requires j < |rs|
  {
    !Truthy(DedupKey(rs[j])) || DedupKey(rs[j]) !in TruthyKeys(rs[..j])
  }

  /** The reference definition: the finished form of every admitted result, in input
      order. */
  function Reference(p: PostProcessor, rs: seq<Entries>, scrub: string -> string): seq<Entries>
  {
    if |rs| == 0 then []
    else
      var j := |rs| - 1;
      Reference(p, rs[..j], scrub) +
        (if Admitted(rs, j) && Finish(p, rs[j], scrub).Some? then [Finish(p, rs[j], scrub).value] else [])
  }

  /** The loop with its shared `seen_urls` set computes the reference definition, and
      the set ends holding every truthy key, dropped results' keys included. */
  lemma {:induction false} CleanIsReference(p: PostProcessor, rs: seq<Entries>, scrub: string -> string)
    ensures Clean(p, rs, scrub) == (Reference(p, rs, scrub), TruthyKeys(rs))
  {
    if |rs| > 0 {
      var init, x := rs[..|rs| - 1], rs[|rs| - 1];
      CleanIsReference(p, init, scrub);
      CleanLast(p, rs, scrub);
      var st := Step(p, x, TruthyKeys(init), scrub);
      assert Admitted(rs, |rs| - 1) <==> !(Truthy(DedupKey(x)) && DedupKey(x) in TruthyKeys(init));
      assert st.0 == (if Admitted(rs, |rs| - 1) then Finish(p, x, scrub) else None);
      assert st.1 == TruthyKeys(rs);
    }
  }

  /** `Clean` on a non-empty sequence: the last result's step after the others. */
  lemma CleanLast(p: PostProcessor, rs: seq<Entries>, scrub: string -> string)
    requires |rs| > 0
    ensures var c := Clean(p, rs[..|rs| - 1], scrub);
      var st := Step(p, rs[|rs| - 1], c.1, scrub);
      Clean(p, rs, scrub) == (c.0 + (if st.0.Some? then [st.0.value] else []), st.1)
  {
  }

  /** A truthy key is in the keys of every longer prefix. */
  lemma {:induction false} TruthyKeysContains(rs: seq<Entries>, i: nat)
    requires i < |rs| && Truthy(DedupKey(rs[i]))
    ensures DedupKey(rs[i]) in TruthyKeys(rs)
    decreases |rs|
  {
    if i < |rs| - 1 {
      TruthyKeysContains(rs[..|rs| - 1], i);
    }
  }

  /** The first result with a truthy key wins: any later one with the same key is not
      admitted. */
  lemma DuplicateNotAdmitted(rs: seq<Entries>, i: nat, j: nat)
    requires i < j < |rs| && Truthy(DedupKey(rs[i])) && DedupKey(rs[i]) == DedupKey(rs[j])
    ensures !Admitted(rs, j)
  {
    TruthyKeysContains(rs[..j], i);
  }

  // ----- the stable sort by score, descending -----

  predicate SortedDesc(s: seq<Entries>)
  {
    forall i, j :: 0 <= i < j < |s| ==> Score(s[i]) >= Score(s[j])
  }

  /** The results scoring exactly `v`, in order. */
  function WithScore(s: seq<Entries>, v: real): seq<Entries>
  {
    if |s| == 0 then [] else (if Score(s[0]) == v then [s[0]] else []) + WithScore(s[1..], v)
  }

  /** `x` goes before the first element scoring strictly less. */
  function Insert(s: seq<Entries>, x: Entries): seq<Entries>
  {
    if |s| == 0 then [x]
    else if Score(s[0]) < Score(x) then [x] + s
    else [s[0]] + Insert(s[1..], x)
  }

  /** `sorted(xs, key=score, reverse=True)`. */
  function SortByScore(xs: seq<Entries>): seq<Entries>
  {
    if |xs| == 0 then [] else Insert(SortByScore(xs[..|xs| - 1]), xs[|xs| - 1])
  }

  lemma {:induction false} InsertMultiset(s: seq<Entries>, x: Entries)
    ensures multiset(Insert(s, x)) == multiset(s) + multiset{x}
  {
    if |s| > 0 && Score(s[0]) >= Score(x) {
      InsertMultiset(s[1..], x);
      assert s == [s[0]] + s[1..];
      assert multiset([s[0]] + Insert(s[1..], x)) == multiset{s[0]} + multiset(Insert(s[1..], x));
    } else if |s| > 0 {
      assert multiset([x] + s) == multiset{x} + multiset(s);
    }
  }

  lemma {:induction false} InsertSorted(s: seq<Entries>, x: Entries)
    requires SortedDesc(s)
    ensures SortedDesc(Insert(s, x))
  {
    if |s| > 0 && Score(s[0]) >= Score(x) {
      var t := Insert(s[1..], x);
      InsertSorted(s[1..], x);
      InsertMultiset(s[1..], x);
      var r := [s[0]] + t;
      forall i | 0 <= i < |t| ensures Score(s[0]) >= Score(t[i]) {
        assert t[i] in multiset(t);
        if t[i] != x {
          assert t[i] in multiset(s[1..]);
          var j :| 0 <= j < |s[1..]| && s[1..][j] == t[i];
          assert s[j + 1] == t[i];
        }
      }
      forall i, j | 0 <= i < j < |r| ensures Score(r[i]) >= Score(r[j]) {
        if i > 0 {
          assert r[i] == t[i - 1] && r[j] == t[j - 1];
        } else {
          assert r[j] == t[j - 1];
        }
      }
    } else if |s| > 0 {
      var r := [x] + s;
      forall i, j | 0 <= i < j < |r| ensures Score(r[i]) >= Score(r[j]) {
        if i > 0 {
          assert r[i] == s[i - 1] && r[j] == s[j - 1];
        } else {
          assert r[j] == s[j - 1];
        }
      }
    }
  }

  lemma {:induction false} InsertStable(s: seq<Entries>, x: Entries, v: real)
    requires SortedDesc(s)
    ensures WithScore(Insert(s, x), v) == WithScore(s, v) + (if Score(x) == v then [x] else [])
  {
    if |s| == 0 {
    } else if Score(s[0]) < Score(x) {
      assert ([x] + s)[1..] == s;
      if Score(x) == v {
        NoneWithScore(s, v);
      }
    } else {
      InsertStable(s[1..], x, v);
      assert ([s[0]] + Insert(s[1..], x))[1..] == Insert(s[1..], x);
    }
  }

  /** Nothing in a descending sequence headed below `v` scores `v`. */
  lemma {:induction false} NoneWithScore(s: seq<Entries>, v: real)
    requires SortedDesc(s) && (|s| > 0 ==> Score(s[0]) < v)
    ensures WithScore(s, v) == []
  {
    if |s| > 0 {
      NoneWithScore(s[1..], v);
    }
  }

  lemma {:induction false} WithScoreAppend(s: seq<Entries>, x: Entries, v: real)
    ensures WithScore(s + [x], v) == WithScore(s, v) + (if Score(x) == v then [x] else [])
  {
    if |s| > 0 {
      assert (s + [x])[1..] == s[1..] + [x];
      WithScoreAppend(s[1..], x, v);
    }
  }

  /** The sort is descending, a permutation, and stable: the results of each score keep
      their input order. */
  lemma {:induction false} SortByScoreCorrect(xs: seq<Entries>, v: real)
    ensures SortedDesc(SortByScore(xs))
    ensures multiset(SortByScore(xs)) == multiset(xs)
    ensures WithScore(SortByScore(xs), v) == WithScore(xs, v)
  {
    if |xs| > 0 {
      var init := xs[..|xs| - 1];
      var x := xs[|xs| - 1];
      SortByScoreCorrect(init, v);
      InsertSorted(SortByScore(init), x);
      InsertMultiset(SortByScore(init), x);
      InsertStable(SortByScore(init), x, v);
      assert xs == init + [x];
      WithScoreAppend(init, x, v);
    }
  }

  /** `process_results`. */
  method ProcessResults(p: PostProcessor, results: seq<Entries>, scrub: string -> string)
    returns (r: seq<Entries>)
    ensures r == SortByScore(Clean(p, results, scrub).0)
  {
    if |results| == 0 {
      return [];
    }
    var cleaned: seq<Entries> := [];
    var seen: set<Value> := {};
    var i := 0;
    while i < |results|
      invariant 0 <= i <= |results|
      invariant (cleaned, seen) == Clean(p, results[..i], scrub)
    {
      var result := results[i];
      assert results[..i + 1][..i] == results[..i];
      CleanLast(p, results[..i + 1], scrub);
      ghost var st := Step(p, result, seen, scrub);
      ghost var before := cleaned;
      var key := DedupKey(result);
      if !(Truthy(key) && key in seen) {
        assert st.0 == Finish(p, result, scrub);
        assert st.1 == if Truthy(key) then seen + {key} else seen;
        if Truthy(key) {
          seen := seen + {key};
        }
        var finished := Finish(p, result, scrub);
        if finished.Some? {
          cleaned := cleaned + [finished.value];
        }
      } else {
        assert st == (None, seen);
        assert before + [] == before;
      }
      assert cleaned == before + (if st.0.Some? then [st.0.value] else []);
      assert seen == st.1;
      i := i + 1;
    }
    assert results[..i] == results;
    r := SortByScore(cleaned);
  }

  /** Empty input gives no results; otherwise the output is never longer than the
      input, is sorted by score and holds exactly the kept results. */
  lemma ProcessedResults(p: PostProcessor, results: seq<Entries>, scrub: string -> string, v: real)
    ensures results == [] ==> SortByScore(Clean(p, results, scrub).0) == []
    ensures var out := SortByScore(Clean(p, results, scrub).0);
      |out| <= |results| && SortedDesc(out) &&
      multiset(out) == multiset(Reference(p, results, scrub)) &&
      WithScore(out, v) == WithScore(Reference(p, results, scrub), v)
  {
    var cleaned := Clean(p, results, scrub).0;
    SortByScoreCorrect(cleaned, v);
    CleanIsReference(p, results, scrub);
    assert |SortByScore(cleaned)| == |multiset(SortByScore(cleaned))|;
  }

  /** A low-scoring page is dropped, yet its URL still suppresses a later duplicate. */
  lemma LowScorePageBlocksDuplicate(p: PostProcessor, low: Entries, good: Entries, scrub: string -> string)
    requires LowScorePage(p, low) && Truthy(DedupKey(low)) && DedupKey(low) == DedupKey(good)
    ensures Clean(p, [low, good], scrub).0 == []
  {
    assert [low, good][..1] == [low];
    assert [low][..0] == [];
  }

  /** An image whose data URI scrubs to text not starting with "http" is dropped. */
  lemma BadDataUriImageDropped(p: PostProcessor, e: Entries, u: string, scrub: string -> string)
    requires Lookup(e, "type") == Some(Str("image")) && Lookup(e, "image_url") == Some(Str(u))
    requires Contains(u, "data:image") && !StartsWith(scrub(u), "http")
    ensures Finish(p, e, scrub) == None
  {
  }

  /** `s[:n] + "..."` when `s` is longer than `n`, else `s`. */
  function Cut(s: string, n: nat): (r: string)
    ensures |r| <= n + 3
  {
    if |s| > n then s[..n] + "..." else s
  }

  lemma TruncateFieldValue(e: Entries, k: string, n: nat)
    requires Lookup(e, k).Some? && Lookup(e, k).value.Str?
    ensures Lookup(TruncateField(e, k, n), k) == Some(Str(Cut(Lookup(e, k).value.s, n)))
  {
    var s := Lookup(e, k).value.s;
    if |s| > n {
      PutLookup(e, k, Str(s[..n] + "..."), k);
    }
  }

  lemma TruncateFieldOther(e: Entries, k: string, n: nat, k': string)
    requires k' != k
    ensures Lookup(TruncateField(e, k, n), k') == Lookup(e, k')
  {
    match Lookup(e, k)
    case Some(Str(s)) =>
      if |s| > n {
        PutLookup(e, k, Str(s[..n] + "..."), k');
      }
    case _ =>
  }

  /** With a positive limit `L`, text content longer than `L` becomes its first `L`
      characters plus "...", raw content longer than `2L` its first `2L` plus "...";
      so they end at most `L + 3` and `2L + 3` long. */
  lemma TruncationBounds(e: Entries, limit: nat)
    requires limit > 0
    requires Lookup(e, "content").Some? && Lookup(e, "content").value.Str?
    requires Lookup(e, "raw_content").Some? && Lookup(e, "raw_content").value.Str?
    ensures var out := TruncateLongContent(e, limit);
      Lookup(out, "content") == Some(Str(Cut(Lookup(e, "content").value.s, limit))) &&
      Lookup(out, "raw_content") == Some(Str(Cut(Lookup(e, "raw_content").value.s, 2 * limit)))
  {
    var t1 := TruncateField(e, "content", limit);
    TruncateFieldValue(e, "content", limit);
    TruncateFieldOther(e, "content", limit, "raw_content");
    TruncateFieldValue(t1, "raw_content", 2 * limit);
    TruncateFieldOther(t1, "raw_content", 2 * limit, "content");
  }

  /** A page that is not filtered out is scrubbed and then truncated. */
  lemma PageFinished(p: PostProcessor, e: Entries, scrub: string -> string)
    requires e != [] && Lookup(e, "type") == Some(Str("page")) && !LowScorePage(p, e)
    requires p.maxContentLengthPerPage > 0
    ensures Finish(p, e, scrub) == Some(TruncateLongContent(ProcessPage(e, scrub), p.maxContentLengthPerPage))
  {
    var e1 := ProcessPage(e, scrub);
    assert RemoveBase64Images(p, e, scrub) == Some(e1);
    assert e1 != [] by { PutNonEmpty(e, "content", scrub); PutNonEmpty(ScrubField(e, "content", scrub), "raw_content", scrub); }
    var e2 := TruncateLongContent(e1, p.maxContentLengthPerPage);
    assert e2 != [] by {
      var t1 := TruncateField(e1, "content", p.maxContentLengthPerPage);
      TruncateNonEmpty(e1, "content", p.maxContentLengthPerPage);
      TruncateNonEmpty(t1, "raw_content", 2 * p.maxContentLengthPerPage);
    }
  }

  lemma PutNonEmpty(e: Entries, k: string, scrub: string -> string)
    requires e != []
    ensures ScrubField(e, k, scrub) != []
  {
  }

  lemma TruncateNonEmpty(e: Entries, k: string, n: nat)
    requires e != []
    ensures TruncateField(e, k, n) != []
  {
  }
}
