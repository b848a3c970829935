// The deterministic helpers of the Milvus provider (rag/milvus.py): the top_k and
// embedding-dimension settings, the markdown title, the paragraph chunker, chunk ids, the
// Milvus Lite test, file-name sanitising and the grouping of search hits into documents.
// The Qdrant provider shares the title, chunker and grouping logic. The Milvus client,
// the embedding service, hashes and the clock are not modelled.
module Milvus {
  import opened Wrappers
  import opened Strings
  import opened Values
  import opened ConfigLoader
  import opened Retriever

  // ---------------------------------------------------------------------------------
  // Settings

  /** `int(top_k_raw) if top_k_raw.isdigit() else 10`. */
  function TopK(raw: string): (r: nat)
    ensures !IsDigits(raw) ==> r == 10
  {
    if IsDigits(raw) then DigitsValue(raw) else 10
  }

  /** A decimal numeral is read as its value. */
  lemma TopKOfNumeral(n: nat)
    ensures TopK(NatToString(n)) == n
  {
    DigitsValueOfNatToString(n);
  }

  /** The top_k setting of a provider, read from the variable `name` with default "10". */
  function TopKSetting(env: Env, name: string): nat
  {
    TopK(GetStrEnv(env, name, "10"))
  }

  /** An unset variable gives 10. */
  lemma TopKUnsetIsTen(env: Env, name: string)
    requires name !in env
    ensures TopKSetting(env, name) == 10
  {
    assert DigitChar(1) == '1' && DigitChar(0) == '0';
    assert NatToString(10) == NatToString(1) + [DigitChar(0)] == "10";
    TopKOfNumeral(10);
  }

  /** `_get_embedding_dimension`: a positive setting of `dimVar` wins, then the two known
      models, then 1536. */
  function EmbeddingDimension(env: Env, dimVar: string, modelName: string): (r: int)
    ensures r > 0
    ensures GetIntEnv(env, dimVar, 0) > 0 ==> r == GetIntEnv(env, dimVar, 0)
    ensures GetIntEnv(env, dimVar, 0) <= 0 ==> r == (if modelName == "text-embedding-v4" then 2048 else 1536)
  {
    var explicit := GetIntEnv(env, dimVar, 0);
    if explicit > 0 then explicit
    else if modelName == "text-embedding-ada-002" then 1536
    else if modelName == "text-embedding-v4" then 2048
    else 1536
  }

  /** `_is_milvus_lite`. */
  predicate IsMilvusLite(uri: string)
  {
    EndsWith(uri, ".db") || (!StartsWith(uri, "http://") && !StartsWith(uri, "https://") && !Contains(uri, "://"))
  }

  /** A URI without a scheme separator is a Lite file; one with a scheme is a Lite file
      only when it ends in ".db". */
  lemma MilvusLiteIffNoScheme(uri: string)
    ensures !Contains(uri, "://") ==> IsMilvusLite(uri)
    ensures Contains(uri, "://") ==> (IsMilvusLite(uri) <==> EndsWith(uri, ".db"))
  {
    if StartsWith(uri, "http://") {
      ContainsAt(uri, 4, "://");
    }
    if StartsWith(uri, "https://") {
      ContainsAt(uri, 5, "://");
    }
  }

  // ---------------------------------------------------------------------------------
  // Titles

  predicate IsLetter(c: char)
  {
    'a' <= c <= 'z' || 'A' <= c <= 'Z'
  }

  /** `str.title()` on ASCII letters: a letter after a letter is lower-cased, any other
      letter upper-cased. */
  function TitleCase(s: string): (r: string)
    ensures |r| == |s| && forall i :: 0 <= i < |s| && !IsLetter(s[i]) ==> r[i] == s[i]
  {
    seq(|s|, i requires 0 <= i < |s| =>
      if !IsLetter(s[i]) then s[i]
      else if i > 0 && IsLetter(s[i - 1]) then LowerChar(s[i])
      else UpperChar(s[i]))
  }

  /** A stripped line that opens a level-1 heading. */
  predicate IsHeading(line: string)
  {
    StartsWith(Strip(line), "# ")
  }

  /** The position of the first heading line. */
  function FirstHeading(lines: seq<string>): (r: Option<nat>)
    ensures r.Some? ==> r.value < |lines| && IsHeading(lines[r.value])
    ensures r.Some? ==> forall j :: 0 <= j < r.value ==> !IsHeading(lines[j])
    ensures r.None? ==> forall j :: 0 <= j < |lines| ==> !IsHeading(lines[j])
  {
    var flags := seq(|lines|, i requires 0 <= i < |lines| => IsHeading(lines[i]));
    assert forall j :: 0 <= j < |lines| ==> flags[j] == IsHeading(lines[j]);
    FirstTrue(flags)
  }

  /** `_extract_title_from_markdown`. */
  function ExtractTitle(content: string, filename: string): string
  {
    var lines := Split(content, "\n");
    match FirstHeading(lines)
    case Some(i) => Strip(Strip(lines[i])[2..])
    case None => TitleCase(Replace(Replace(filename, ".md", ""), "_", " "))
  }

  /** The first heading gives the title: the text after "# ", stripped. */
  lemma TitleFromFirstHeading(content: string, filename: string, i: nat)
    requires i < |Split(content, "\n")| && IsHeading(Split(content, "\n")[i])
    requires forall j :: 0 <= j < i ==> !IsHeading(Split(content, "\n")[j])
    ensures ExtractTitle(content, filename) == Strip(Strip(Split(content, "\n")[i])[2..])
  {
    FirstHeadingIs(Split(content, "\n"), i);
  }

  /** The first heading is the unique index with a heading and none before it. */
  lemma FirstHeadingIs(lines: seq<string>, i: nat)
    requires i < |lines| && IsHeading(lines[i])
    requires forall j :: 0 <= j < i ==> !IsHeading(lines[j])
    ensures FirstHeading(lines) == Some(i)
  {
    var f := FirstHeading(lines);
    assert f.Some?;
    assert !(f.value < i) && !(i < f.value);
  }

  /** Without a heading the title comes from the file name, and it has no underscore. */
  lemma TitleFromFilename(content: string, filename: string)
    requires forall j :: 0 <= j < |Split(content, "\n")| ==> !IsHeading(Split(content, "\n")[j])
    ensures ExtractTitle(content, filename) == TitleCase(Replace(Replace(filename, ".md", ""), "_", " "))
    ensures '_' !in ExtractTitle(content, filename)
  {
    var spaced := Replace(Replace(filename, ".md", ""), "_", " ");
    ReplaceRemovesChar(Replace(filename, ".md", ""), '_', " ");
    var t := TitleCase(spaced);
    assert forall i :: 0 <= i < |t| ==> t[i] != '_';
  }

  // ---------------------------------------------------------------------------------
  // Chunking

  /** One paragraph of the chunking loop over (chunks, current chunk). */
  function SplitStep(chunkSize: int, st: (seq<string>, string), p: string): (seq<string>, string)
  {
    if |st.1| + |p| <= chunkSize then (st.0, st.1 + p + "\n\n")
    else ((if st.1 != "" then st.0 + [Strip(st.1)] else st.0), p + "\n\n")
  }

  /** The loop state after the given paragraphs. */
  function SplitState(chunkSize: int, ps: seq<string>): (seq<string>, string)
    decreases |ps|
  {
    if |ps| == 0 then ([], "") else SplitStep(chunkSize, SplitState(chunkSize, ps[..|ps| - 1]), ps[|ps| - 1])
  }

  /** `_split_content` as a value. */
  function Chunked(chunkSize: int, content: string): seq<string>
  {
    if |content| <= chunkSize then [content]
    else
      var st := SplitState(chunkSize, Split(content, "\n\n"));
      if st.1 != "" then st.0 + [Strip(st.1)] else st.0
  }

  /** `_split_content`. */
  method SplitContent(chunkSize: int, content: string) returns (chunks: seq<string>)
    ensures chunks == Chunked(chunkSize, content)
  {
    if |content| <= chunkSize {
      return [content];
    }
    chunks := [];
    var paragraphs := Split(content, "\n\n");
    var current := "";
    var i := 0;
    while i < |paragraphs|
      invariant 0 <= i <= |paragraphs|
      invariant (chunks, current) == SplitState(chunkSize, paragraphs[..i])
    {
      assert paragraphs[..i + 1][..i] == paragraphs[..i];
      var p := paragraphs[i];
      if |current| + |p| <= chunkSize {
        current := current + p + "\n\n";
      } else {
        if current != "" {
          chunks := chunks + [Strip(current)];
        }
        current := p + "\n\n";
      }
      i := i + 1;
    }
    assert paragraphs[..|paragraphs|] == paragraphs;
    if current != "" {
      chunks := chunks + [Strip(current)];
    }
  }

  function MaxLen(ps: seq<string>): (m: nat)
    ensures forall i :: 0 <= i < |ps| ==> |ps[i]| <= m
  {
    if |ps| == 0 then 0
    else var rest := MaxLen(ps[1..]); if |ps[0]| > rest then |ps[0]| else rest
  }

  /** Stripping text that ends in a blank line removes at least those two characters. */
  lemma StripDropsBlankLine(s: string)
    requires EndsWith(s, "\n\n")
    ensures |Strip(s)| <= |s| - 2
  {
    var l := LStrip(s);
    var r := RStrip(l);
    var n := |s|;
    assert Strip(s) == r;
    assert s[n - 1] == '\n' && s[n - 2] == '\n' by { assert s[n - 2..] == "\n\n"; }
    assert l == s[n - |l|..];
    assert |l| >= 1 ==> IsSpace(l[|l| - 1]);
    assert |l| >= 2 ==> IsSpace(l[|l| - 2]);
  }

  /** The loop keeps its chunks within the bound and its current chunk within the bound
      plus a trailing blank line; once a paragraph is read the current chunk is
      non-empty, and there are fewer flushed chunks than paragraphs. */
  lemma {:induction false} SplitStateBounds(chunkSize: int, ps: seq<string>, bound: nat)
    requires chunkSize <= bound && forall i :: 0 <= i < |ps| ==> |ps[i]| <= bound
    ensures var st := SplitState(chunkSize, ps);
      (forall c :: c in st.0 ==> |c| <= bound) && |st.1| <= bound + 2 &&
      (st.1 == "" || EndsWith(st.1, "\n\n")) &&
      (|ps| > 0 ==> st.1 != "" && |st.0| < |ps|)
    decreases |ps|
  {
    if |ps| > 0 {
      var init := ps[..|ps| - 1];
      assert forall i :: 0 <= i < |init| ==> init[i] == ps[i];
      SplitStateBounds(chunkSize, init, bound);
      var st := SplitState(chunkSize, init);
      var p := ps[|ps| - 1];
      assert SplitState(chunkSize, ps) == SplitStep(chunkSize, st, p);
      if |st.1| + |p| > chunkSize && st.1 != "" {
        StripDropsBlankLine(st.1);
      }
      assert EndsWith(st.1 + p + "\n\n", "\n\n");
      assert EndsWith(p + "\n\n", "\n\n");
    }
  }

  /** Content within the limit is one chunk; otherwise every chunk fits the limit unless
      a single paragraph is longer, and there are no more chunks than paragraphs. */
  lemma ChunksBounded(chunkSize: int, content: string)
    ensures |content| <= chunkSize ==> Chunked(chunkSize, content) == [content]
    ensures var ps := Split(content, "\n\n");
      var bound := if chunkSize > MaxLen(ps) then chunkSize else MaxLen(ps);
      (forall c :: c in Chunked(chunkSize, content) ==> |c| <= bound) &&
      |Chunked(chunkSize, content)| <= |ps|
  {
    var ps := Split(content, "\n\n");
    var bound := if chunkSize > MaxLen(ps) then chunkSize else MaxLen(ps);
    if |content| > chunkSize {
      SplitStateBounds(chunkSize, ps, bound);
      var st := SplitState(chunkSize, ps);
      StripDropsBlankLine(st.1);
    } else {
      assert MaxLen(ps) >= 0;
    }
  }

  /** The ids of a document's chunks: the document id for a single chunk, else
      "{doc_id}_chunk_{i}". */
  function ChunkIds(docId: string, n: nat): (r: seq<string>)
    ensures |r| == n
  {
    if n == 1 then [docId] else seq(n, i requires 0 <= i < n => docId + "_chunk_" + NatToString(i))
  }

  /** The chunk ids of one file never collide. */
  lemma ChunkIdsDistinct(docId: string, n: nat)
    ensures forall i, j :: 0 <= i < j < n ==> ChunkIds(docId, n)[i] != ChunkIds(docId, n)[j]
  {
    if n != 1 {
      forall i, j | 0 <= i < j < n
        ensures ChunkIds(docId, n)[i] != ChunkIds(docId, n)[j]
      {
        var p := docId + "_chunk_";
        if p + NatToString(i) == p + NatToString(j) {
          assert (p + NatToString(i))[|p|..] == NatToString(i);
          assert (p + NatToString(j))[|p|..] == NatToString(j);
          NatToStringInjective(i, j);
        }
      }
    }
  }

  // ---------------------------------------------------------------------------------
  // File names

  /** `Path(filename).name`: the last component, ignoring empty and "." components. */
  function Basename(filename: string): string
  {
    var parts := Split(filename, "/");
    LastNamed(parts)
  }

  function LastNamed(parts: seq<string>): string
    decreases |parts|
  {
    if |parts| == 0 then ""
    else if parts[|parts| - 1] != "" && parts[|parts| - 1] != "." then parts[|parts| - 1]
    else LastNamed(parts[..|parts| - 1])
  }

  /** `[\w.\-]`, with `\w` on ASCII. */
  predicate SafeChar(c: char)
  {
    IsLetter(c) || IsDigit(c) || c == '_' || c == '.' || c == '-'
  }

  /** `re.sub(r"[^\w.\-]", "_", s)`. */
  function ReplaceUnsafe(s: string): (r: string)
    ensures |r| == |s| && forall i :: 0 <= i < |s| ==> SafeChar(r[i])
  {
    seq(|s|, i requires 0 <= i < |s| => if SafeChar(s[i]) then s[i] else '_')
  }

  /** `re.sub(r"_+", "_", s)`: every run of underscores becomes one. */
  function CollapseUnderscores(s: string): (r: string)
    ensures forall c :: c in r ==> c in s
    decreases |s|
  {
    if |s| == 0 then []
    else
      var r := CollapseUnderscores(s[..|s| - 1]);
      if s[|s| - 1] == '_' && |r| > 0 && r[|r| - 1] == '_' then r else r + [s[|s| - 1]]
  }

  /** No two underscores are adjacent after collapsing. */
  predicate NoDoubleUnderscore(r: string)
  {
    forall i :: 0 <= i < |r| - 1 ==> !(r[i] == '_' && r[i + 1] == '_')
  }

  lemma {:induction false} CollapsedHasNoDoubleUnderscore(s: string)
    ensures NoDoubleUnderscore(CollapseUnderscores(s))
    decreases |s|
  {
    if |s| > 0 {
      var prev := CollapseUnderscores(s[..|s| - 1]);
      CollapsedHasNoDoubleUnderscore(s[..|s| - 1]);
      var r := CollapseUnderscores(s);
      var c := s[|s| - 1];
      if !(c == '_' && |prev| > 0 && prev[|prev| - 1] == '_') {
        assert r == prev + [c];
        forall i | 0 <= i < |r| - 1
          ensures !(r[i] == '_' && r[i + 1] == '_')
        {
          if i < |prev| - 1 {
            assert r[i] == prev[i] && r[i + 1] == prev[i + 1];
            assert !(prev[i] == '_' && prev[i + 1] == '_');
          } else {
            assert r[i] == prev[|prev| - 1] && r[i + 1] == c;
          }
        }
      }
    }
  }

  predicate EdgeChar(c: char)
  {
    c == '_' || c == '.'
  }

  /** `s.strip("_.")`. */
  function StripEdges(s: string): (r: string)
    ensures forall c :: c in r ==> c in s
    ensures r == [] || (!EdgeChar(r[0]) && !EdgeChar(r[|r| - 1]))
    decreases |s|
  {
    if |s| > 0 && EdgeChar(s[0]) then StripEdges(s[1..])
    else if |s| > 0 && EdgeChar(s[|s| - 1]) then StripEdges(s[..|s| - 1])
    else s
  }

  /** The position of the last '.', as `rsplit(".", 1)` finds it. */
  function LastDot(s: string): (r: Option<nat>)
    ensures r.Some? ==> r.value < |s| && s[r.value] == '.' && '.' !in s[r.value + 1..]
    ensures r.None? ==> '.' !in s
    decreases |s|
  {
    if |s| == 0 then None
    else if s[|s| - 1] == '.' then Some(|s| - 1)
    else
      match LastDot(s[..|s| - 1])
      case None => None
      case Some(k) => assert s[k + 1..] == s[..|s| - 1][k + 1..] + [s[|s| - 1]]; Some(k)
  }

  /** The cut to `maxLength`: an extension of at most ten characters is kept. */
  function CutName(s: string, maxLength: int): string
  {
    if |s| <= maxLength then s
    else
      match LastDot(s)
      case Some(k) =>
        if |s| - (k + 1) <= 10 then
          var ext := s[k..];
          Take(s[..k], maxLength - |ext|) + ext
        else Take(s, maxLength)
      case None => Take(s, maxLength)
  }

  /** `_sanitize_filename`. */
  function SanitizeFilename(filename: string, maxLength: int): string
  {
    var cleaned := StripEdges(CollapseUnderscores(ReplaceUnsafe(Basename(filename))));
    CutName(if cleaned == "" then "unnamed_file" else cleaned, maxLength)
  }

  /** Every character of a sanitised name is a word character, '.' or '-': no path
      separator survives. */
  lemma SanitizedSafe(filename: string, maxLength: int)
    ensures forall c :: c in SanitizeFilename(filename, maxLength) ==> SafeChar(c)
  {
    var cleaned := StripEdges(CollapseUnderscores(ReplaceUnsafe(Basename(filename))));
    var named := if cleaned == "" then "unnamed_file" else cleaned;
    assert forall c :: c in ReplaceUnsafe(Basename(filename)) ==> SafeChar(c);
    assert forall c :: c in "unnamed_file" ==> SafeChar(c);
    assert forall c :: c in named ==> SafeChar(c);
    CutKeepsChars(named, maxLength);
  }

  lemma CutKeepsChars(s: string, maxLength: int)
    ensures forall c :: c in CutName(s, maxLength) ==> c in s
  {
    if |s| > maxLength {
      var d := LastDot(s);
      if d.Some? && |s| - (d.value + 1) <= 10 {
        var k := d.value;
        var base := Take(s[..k], maxLength - |s[k..]|);
        assert forall c :: c in base ==> c in s[..k];
        assert forall c :: c in s[..k] ==> c in s;
        assert forall c :: c in s[k..] ==> c in s;
      } else {
        assert forall c :: c in Take(s, maxLength) ==> c in s;
      }
    }
  }

  /** From eleven characters up, the name fits the limit and is not empty. */
  lemma SanitizedFits(filename: string, maxLength: int)
    requires maxLength >= 11
    ensures 0 < |SanitizeFilename(filename, maxLength)| <= maxLength
  {
    var cleaned := StripEdges(CollapseUnderscores(ReplaceUnsafe(Basename(filename))));
    var named := if cleaned == "" then "unnamed_file" else cleaned;
    if |named| > maxLength {
      var d := LastDot(named);
      if d.Some? && |named| - (d.value + 1) <= 10 {
        var k := d.value;
        assert |Take(named[..k], maxLength - |named[k..]|)| <= maxLength - |named[k..]|;
      }
    }
  }

  /** A name within the limit is only cleaned, not cut. */
  lemma ShortNameNotCut(s: string, maxLength: int)
    requires |s| <= maxLength
    ensures CutName(s, maxLength) == s
  {
  }

  // ---------------------------------------------------------------------------------
  // Grouping search hits

  /** A search hit, its fields already read from the result's entity or metadata. */
  datatype Hit = Hit(docId: string, content: string, title: string, url: string, score: real)

  /** The resource check: a non-empty url, or the document id, occurs in some resource
      URI. */
  predicate InResources(h: Hit, resources: seq<Resource>)
  {
    exists i :: 0 <= i < |resources| &&
      ((h.url != "" && Contains(resources[i].uri, h.url)) || Contains(resources[i].uri, h.docId))
  }

  predicate Kept(h: Hit, resources: seq<Resource>)
  {
    |resources| == 0 || InResources(h, resources)
  }

  /** The loop over the resources, stopping at the first match. */
  method DocInResources(h: Hit, resources: seq<Resource>) returns (found: bool)
    ensures found <==> InResources(h, resources)
  {
    found := false;
    var i := 0;
    while i < |resources| && !found
      invariant 0 <= i <= |resources|
      invariant found ==> InResources(h, resources)
      invariant !found ==> forall j :: 0 <= j < i ==>
        !((h.url != "" && Contains(resources[j].uri, h.url)) || Contains(resources[j].uri, h.docId))
    {
      if (h.url != "" && Contains(resources[i].uri, h.url)) || Contains(resources[i].uri, h.docId) {
        found := true;
      }
      i := i + 1;
    }
  }

  /** The resource filter: every hit when no resources are given. */
  method KeepHit(h: Hit, resources: seq<Resource>) returns (keep: bool)
    ensures keep == Kept(h, resources)
  {
    keep := true;
    if |resources| > 0 {
      keep := DocInResources(h, resources);
    }
  }

  /** A grouped document as a value. */
  datatype Group = Group(id: string, url: string, title: string, chunks: seq<Chunk>)

  /** The position recorded for a document id: its group, if any. */
  function IndexOfId(gs: seq<Group>, id: string): (r: Option<nat>)
    ensures r.Some? ==> r.value < |gs| && gs[r.value].id == id
    ensures r.None? ==> forall k :: 0 <= k < |gs| ==> gs[k].id != id
  {
    if |gs| == 0 then None
    else if gs[|gs| - 1].id == id then Some(|gs| - 1)
    else IndexOfId(gs[..|gs| - 1], id)
  }

  lemma IndexOfIdSnoc(gs: seq<Group>, g: Group, id: string)
    ensures IndexOfId(gs + [g], id) == if g.id == id then Some(|gs|) else IndexOfId(gs, id)
  {
    assert (gs + [g])[..|gs|] == gs;
  }

  lemma {:induction false} IndexOfIdSameIds(gs: seq<Group>, hs: seq<Group>, id: string)
    requires |gs| == |hs| && forall k :: 0 <= k < |gs| ==> gs[k].id == hs[k].id
    ensures IndexOfId(gs, id) == IndexOfId(hs, id)
    decreases |gs|
  {
    if |gs| > 0 {
      var n := |gs| - 1;
      assert forall k :: 0 <= k < n ==> gs[..n][k].id == hs[..n][k].id;
      IndexOfIdSameIds(gs[..n], hs[..n], id);
    }
  }

  /** One kept hit: a chunk for the document of its id, created from this hit when the id
      is new. */
  function AddHit(gs: seq<Group>, h: Hit): seq<Group>
  {
    var c := Chunk(h.content, h.score);
    match IndexOfId(gs, h.docId)
    case Some(j) => gs[j := gs[j].(chunks := gs[j].chunks + [c])]
    case None => gs + [Group(h.docId, h.url, h.title, [c])]
  }

  /** The documents after the given hits: one per document id, in first-seen order, each
      with the url and title of its first hit and its chunks in hit order. */
  function Grouped(hits: seq<Hit>, resources: seq<Resource>): seq<Group>
    decreases |hits|
  {
    if |hits| == 0 then []
    else
      var gs := Grouped(hits[..|hits| - 1], resources);
      var h := hits[|hits| - 1];
      if Kept(h, resources) then AddHit(gs, h) else gs
  }

  lemma GroupedPrefix(hits: seq<Hit>, resources: seq<Resource>, i: nat)
    requires i < |hits|
    ensures Grouped(hits[..i + 1], resources) ==
      if Kept(hits[i], resources) then AddHit(Grouped(hits[..i], resources), hits[i])
      else Grouped(hits[..i], resources)
  {
    assert hits[..i + 1][..i] == hits[..i];
  }

  lemma GroupedStep(hits: seq<Hit>, resources: seq<Resource>, i: nat, groups: seq<Group>, keep: bool)
    requires i < |hits| && groups == Grouped(hits[..i], resources) && keep == Kept(hits[i], resources)
    ensures Grouped(hits[..i + 1], resources) == if keep then AddHit(groups, hits[i]) else groups
  {
    GroupedPrefix(hits, resources, i);
  }

  /** Adding a hit keeps every recorded position and records a new id at the end. */
  lemma AddHitIndex(gs: seq<Group>, h: Hit, id: string)
    ensures IndexOfId(AddHit(gs, h), id) ==
      if IndexOfId(gs, id).Some? then IndexOfId(gs, id)
      else if id == h.docId then Some(|gs|)
      else None
  {
    var c := Chunk(h.content, h.score);
    match IndexOfId(gs, h.docId)
    case Some(j) =>
      IndexOfIdSameIds(gs, AddHit(gs, h), id);
    case None =>
      IndexOfIdSnoc(gs, Group(h.docId, h.url, h.title, [c]), id);
  }

  predicate DistinctIds(gs: seq<Group>)
  {
    forall k, l :: 0 <= k < l < |gs| ==> gs[k].id != gs[l].id
  }

  predicate HasKeptHit(hits: seq<Hit>, resources: seq<Resource>, id: string)
  {
    exists i :: 0 <= i < |hits| && hits[i].docId == id && Kept(hits[i], resources)
  }

  /** The grouped documents have distinct ids, and an id is grouped exactly when some kept
      hit carries it. */
  lemma {:induction false} GroupedIds(hits: seq<Hit>, resources: seq<Resource>)
    ensures DistinctIds(Grouped(hits, resources))
    ensures forall id :: IndexOfId(Grouped(hits, resources), id).Some? <==> HasKeptHit(hits, resources, id)
    decreases |hits|
  {
    if |hits| > 0 {
      var n := |hits| - 1;
      var init := hits[..n];
      GroupedIds(init, resources);
      var gs := Grouped(init, resources);
      var h := hits[n];
      forall id
        ensures IndexOfId(Grouped(hits, resources), id).Some? <==> HasKeptHit(hits, resources, id)
      {
        if Kept(h, resources) {
          AddHitIndex(gs, h, id);
        }
        if HasKeptHit(hits, resources, id) {
          var i :| 0 <= i < |hits| && hits[i].docId == id && Kept(hits[i], resources);
          if i < n {
            assert init[i] == hits[i];
          }
        }
        if HasKeptHit(init, resources, id) {
          var i :| 0 <= i < n && init[i].docId == id && Kept(init[i], resources);
          assert hits[i] == init[i];
        }
      }
    }
  }

  /** The hits kept by the resource filter. */
  function KeptHits(hits: seq<Hit>, resources: seq<Resource>): (r: seq<Hit>)
    ensures |r| <= |hits|
    decreases |hits|
  {
    if |hits| == 0 then []
    else
      var rest := KeptHits(hits[..|hits| - 1], resources);
      if Kept(hits[|hits| - 1], resources) then rest + [hits[|hits| - 1]] else rest
  }

  function TotalChunks(gs: seq<Group>): nat
  {
    if |gs| == 0 then 0 else TotalChunks(gs[..|gs| - 1]) + |gs[|gs| - 1].chunks|
  }

  lemma {:induction false} TotalChunksUpdate(gs: seq<Group>, j: nat, g: Group)
    requires j < |gs|
    ensures TotalChunks(gs[j := g]) == TotalChunks(gs) - |gs[j].chunks| + |g.chunks|
    decreases |gs|
  {
    var n := |gs| - 1;
    if j < n {
      assert gs[j := g][..n] == gs[..n][j := g];
      TotalChunksUpdate(gs[..n], j, g);
    } else {
      assert gs[j := g][..n] == gs[..n];
    }
  }

  /** Every kept hit becomes exactly one chunk. */
  lemma {:induction false} GroupedChunkCount(hits: seq<Hit>, resources: seq<Resource>)
    ensures TotalChunks(Grouped(hits, resources)) == |KeptHits(hits, resources)|
    decreases |hits|
  {
    if |hits| > 0 {
      var init := hits[..|hits| - 1];
      GroupedChunkCount(init, resources);
      var gs := Grouped(init, resources);
      var h := hits[|hits| - 1];
      if Kept(h, resources) {
        var c := Chunk(h.content, h.score);
        match IndexOfId(gs, h.docId)
        case Some(j) =>
          TotalChunksUpdate(gs, j, gs[j].(chunks := gs[j].chunks + [c]));
        case None =>
          var g := Group(h.docId, h.url, h.title, [c]);
          assert (gs + [g])[..|gs|] == gs;
      }
    }
  }

  /** Without resources no hit is filtered out. */
  lemma {:induction false} NoResourcesKeepsAll(hits: seq<Hit>)
    ensures KeptHits(hits, []) == hits
    decreases |hits|
  {
    if |hits| > 0 {
      NoResourcesKeepsAll(hits[..|hits| - 1]);
      assert hits[..|hits| - 1] + [hits[|hits| - 1]] == hits;
    }
  }

  /** Each document object holds the fields and chunks of the group at its position. */
  predicate Mirrors(docs: seq<Document>, gs: seq<Group>)
    reads set k | 0 <= k < |docs| :: docs[k]
    reads set k | 0 <= k < |docs| :: docs[k].chunks
  {
    |docs| == |gs| &&
    forall k :: 0 <= k < |docs| ==>
      docs[k].id == gs[k].id && docs[k].url == Some(gs[k].url) && docs[k].title == Some(gs[k].title) &&
      docs[k].chunks.items == gs[k].chunks
  }

  /** The map from document id to position agrees with the groups. */
  ghost predicate IndexAgrees(index: map<string, nat>, gs: seq<Group>)
  {
    (forall id :: id in index <==> IndexOfId(gs, id).Some?) &&
    (forall id :: id in index ==> IndexOfId(gs, id) == Some(index[id]))
  }

  /** After a hit of a known id every position stays. */
  lemma IndexAfterKnown(gs: seq<Group>, h: Hit, index: map<string, nat>)
    requires IndexAgrees(index, gs) && h.docId in index
    ensures IndexAgrees(index, AddHit(gs, h))
  {
    forall id
      ensures id in index <==> IndexOfId(AddHit(gs, h), id).Some?
      ensures id in index ==> IndexOfId(AddHit(gs, h), id) == Some(index[id])
    {
      AddHitIndex(gs, h, id);
    }
  }

  /** After the first hit of an id, that id is recorded at the end. */
  lemma IndexAfterNew(gs: seq<Group>, h: Hit, index: map<string, nat>)
    requires IndexAgrees(index, gs) && h.docId !in index
    ensures IndexAgrees(index[h.docId := |gs|], AddHit(gs, h))
  {
    forall id
      ensures id in index[h.docId := |gs|] <==> IndexOfId(AddHit(gs, h), id).Some?
      ensures id in index[h.docId := |gs|] ==> IndexOfId(AddHit(gs, h), id) == Some(index[h.docId := |gs|][id])
    {
      AddHitIndex(gs, h, id);
    }
  }

  /** A hit of a known id: its chunk is appended to that document's list. */
  method AppendChunk(docs: seq<Document>, ghost gs: seq<Group>, j: nat, h: Hit)
    requires Mirrors(docs, gs) && IndexOfId(gs, h.docId) == Some(j)
    requires forall k, l :: 0 <= k < l < |docs| ==> docs[k].chunks != docs[l].chunks
    modifies docs[j].chunks
    ensures Mirrors(docs, AddHit(gs, h))
    ensures forall k :: 0 <= k < |docs| ==> docs[k].chunks == old(docs[k].chunks)
  {
    docs[j].chunks.Append(Chunk(h.content, h.score));
  }

  /** The first hit of an id: a new document with a fresh chunk list holding its chunk. */
  method AddDocument(docs: seq<Document>, ghost gs: seq<Group>, h: Hit) returns (next: seq<Document>)
    requires Mirrors(docs, gs) && IndexOfId(gs, h.docId).None?
    ensures Mirrors(next, AddHit(gs, h))
    ensures |next| == |docs| + 1 && next[..|docs|] == docs
    ensures fresh(next[|docs|]) && fresh(next[|docs|].chunks)
  {
    var list := new ChunkList();
    list.Append(Chunk(h.content, h.score));
    var d := new Document(h.docId, Some(h.url), Some(h.title), list);
    next := docs + [d];
  }

  /** One kept hit applied to the documents built so far; `lists` names the chunk list
      of each document. */
  method AddHitTo(docs: seq<Document>, index: map<string, nat>, ghost groups: seq<Group>,
                  ghost lists: seq<ChunkList>, h: Hit)
    returns (docs': seq<Document>, index': map<string, nat>, ghost lists': seq<ChunkList>)
    requires Mirrors(docs, groups) && IndexAgrees(index, groups)
    requires |lists| == |docs| && forall k :: 0 <= k < |docs| ==> docs[k].chunks == lists[k]
    requires forall k, l :: 0 <= k < l < |lists| ==> lists[k] != lists[l]
    modifies set k | 0 <= k < |lists| :: lists[k]
    ensures Mirrors(docs', AddHit(groups, h)) && IndexAgrees(index', AddHit(groups, h))
    ensures |lists'| == |docs'| && forall k :: 0 <= k < |docs'| ==> docs'[k].chunks == lists'[k]
    ensures forall k, l :: 0 <= k < l < |lists'| ==> lists'[k] != lists'[l]
    ensures |docs| <= |docs'| && docs'[..|docs|] == docs && lists'[..|lists|] == lists
    ensures forall k :: |docs| <= k < |docs'| ==> fresh(docs'[k]) && fresh(lists'[k])
  {
    if h.docId in index {
      IndexAfterKnown(groups, h, index);
      AppendChunk(docs, groups, index[h.docId], h);
      docs', index', lists' := docs, index, lists;
    } else {
      IndexAfterNew(groups, h, index);
      index' := index[h.docId := |docs|];
      docs' := AddDocument(docs, groups, h);
      lists' := lists + [docs'[|docs|].chunks];
    }
  }

  /** The grouping loop of `query_relevant_documents`: a document is created for a new
      id with a fresh chunk list, and every kept hit appends a chunk to its document. */
  method GroupHits(hits: seq<Hit>, resources: seq<Resource>) returns (docs: seq<Document>)
    ensures Mirrors(docs, Grouped(hits, resources))
    ensures forall k :: 0 <= k < |docs| ==> fresh(docs[k]) && fresh(docs[k].chunks)
    ensures forall k, l :: 0 <= k < l < |docs| ==> docs[k].chunks != docs[l].chunks
  {
    docs := [];
    var index: map<string, nat> := map[];
    ghost var groups: seq<Group> := [];
    ghost var lists: seq<ChunkList> := [];
    var i := 0;
    while i < |hits|
      invariant 0 <= i <= |hits|
      invariant groups == Grouped(hits[..i], resources)
      invariant Mirrors(docs, groups) && IndexAgrees(index, groups)
      invariant |lists| == |docs| && forall k :: 0 <= k < |docs| ==> docs[k].chunks == lists[k]
      invariant forall k :: 0 <= k < |docs| ==> fresh(docs[k]) && fresh(lists[k])
      invariant forall k, l :: 0 <= k < l < |lists| ==> lists[k] != lists[l]
    {
      var h := hits[i];
      var keep := KeepHit(h, resources);
      GroupedStep(hits, resources, i, groups, keep);
      if keep {
        ghost var before := docs;
        docs, index, lists := AddHitTo(docs, index, groups, lists, h);
        assert forall k :: 0 <= k < |before| ==> docs[k] == before[k];
        groups := AddHit(groups, h);
      }
      i := i + 1;
    }
    assert hits[..|hits|] == hits;
  }
}
