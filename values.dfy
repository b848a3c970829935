// Dynamic values: the JSON documents and Python dicts that tools, models and
// configuration files hand to the core. A dict keeps its insertion order.
module Values {
  import opened Wrappers

  datatype Value =
    | Null
    | Bool(b: bool)
    | Num(x: real)
    | Str(s: string)
    | List(items: seq<Value>)
    | Dict(entries: seq<(string, Value)>)

  /** Python truthiness. */
  predicate Truthy(v: Value)
  {
    match v
    case Null => false
    case Bool(b) => b
    case Num(x) => x != 0.0
    case Str(s) => s != []
    case List(xs) => xs != []
    case Dict(es) => es != []
  }

  function Keys(es: seq<(string, Value)>): seq<string>
  {
    if |es| == 0 then [] else [es[0].0] + Keys(es[1..])
  }

  lemma {:induction false} KeysIndex(es: seq<(string, Value)>)
    ensures |Keys(es)| == |es| && forall i :: 0 <= i < |es| ==> Keys(es)[i] == es[i].0
  {
    if |es| > 0 { KeysIndex(es[1..]); }
  }

  predicate HasKey(es: seq<(string, Value)>, k: string)
  {
    k in Keys(es)
  }

  predicate Distinct(ks: seq<string>)
  {
    forall i, j :: 0 <= i < j < |ks| ==> ks[i] != ks[j]
  }

  /** Keys are unique, as in every Python dict. */
  predicate WellFormed(es: seq<(string, Value)>)
  {
    Distinct(Keys(es))
  }

  /** `d[k]`, `None` when the key is absent (the `KeyError` case); the first entry wins. */
  function Lookup(es: seq<(string, Value)>, k: string): Option<Value>
  {
    if |es| == 0 then None
    else if es[0].0 == k then Some(es[0].1)
    else Lookup(es[1..], k)
  }

  lemma {:induction false} LookupSomeIffHasKey(es: seq<(string, Value)>, k: string)
    ensures Lookup(es, k).Some? <==> HasKey(es, k)
  {
    if |es| > 0 {
      assert Keys(es) == [es[0].0] + Keys(es[1..]);
      LookupSomeIffHasKey(es[1..], k);
    }
  }

  /** `d[k] = v`: an existing key keeps its position, a new key goes last. */
  function Put(es: seq<(string, Value)>, k: string, v: Value): seq<(string, Value)>
  {
    if |es| == 0 then [(k, v)]
    else if es[0].0 == k then [(k, v)] + es[1..]
    else [es[0]] + Put(es[1..], k, v)
  }

  lemma {:induction false} PutLookup(es: seq<(string, Value)>, k: string, v: Value, k': string)
    ensures Lookup(Put(es, k, v), k') == if k' == k then Some(v) else Lookup(es, k')
  {
    if |es| > 0 && es[0].0 != k {
      PutLookup(es[1..], k, v, k');
      var r := Put(es, k, v);
      assert r[0] == es[0] && r[1..] == Put(es[1..], k, v);
    } else if |es| > 0 {
      var r := Put(es, k, v);
      assert r[1..] == es[1..];
    }
  }

  lemma {:induction false} PutKeys(es: seq<(string, Value)>, k: string, v: Value)
    ensures HasKey(es, k) ==> Keys(Put(es, k, v)) == Keys(es)
    ensures !HasKey(es, k) ==> Keys(Put(es, k, v)) == Keys(es) + [k]
  {
    if |es| > 0 {
      var r := Put(es, k, v);
      assert Keys(es) == [es[0].0] + Keys(es[1..]);
      if es[0].0 == k {
        assert r[1..] == es[1..];
        assert Keys(r) == Keys(es);
      } else {
        PutKeys(es[1..], k, v);
        assert r[1..] == Put(es[1..], k, v);
        assert Keys(r) == [es[0].0] + Keys(Put(es[1..], k, v));
      }
    }
  }

  /** Storing the value a key already holds changes nothing. */
  lemma {:induction false} PutSame(es: seq<(string, Value)>, k: string, v: Value)
    requires Lookup(es, k) == Some(v)
    ensures Put(es, k, v) == es
  {
    if es[0].0 != k {
      PutSame(es[1..], k, v);
    }
  }

  /** A second store under the same key replaces the first. */
  lemma {:induction false} PutPut(es: seq<(string, Value)>, k: string, v: Value, w: Value)
    ensures Put(Put(es, k, v), k, w) == Put(es, k, w)
  {
    if |es| > 0 && es[0].0 != k {
      PutPut(es[1..], k, v, w);
      assert Put(es, k, v)[1..] == Put(es[1..], k, v);
    }
  }

  /** Storing under a key keeps the keys unique. */
  lemma PutWellFormed(es: seq<(string, Value)>, k: string, v: Value)
    requires WellFormed(es)
    ensures WellFormed(Put(es, k, v))
  {
    PutKeys(es, k, v);
  }

  /** The entries after the first of a dict with unique keys still have unique keys,
      and none of them carries the first key. */
  lemma WellFormedTail(es: seq<(string, Value)>)
    requires WellFormed(es) && |es| > 0
    ensures WellFormed(es[1..]) && !HasKey(es[1..], es[0].0)
  {
    var ks := Keys(es);
    assert ks == [es[0].0] + Keys(es[1..]);
    assert Keys(es[1..]) == ks[1..];
    assert forall j :: 1 <= j < |ks| ==> ks[j] != ks[0];
  }

  /** `d.pop(k, None)`: the dict without the key. */
  function Remove(es: seq<(string, Value)>, k: string): seq<(string, Value)>
  {
    if |es| == 0 then []
    else if es[0].0 == k then Remove(es[1..], k)
    else [es[0]] + Remove(es[1..], k)
  }

  lemma {:induction false} RemoveLookup(es: seq<(string, Value)>, k: string, k': string)
    ensures Lookup(Remove(es, k), k') == if k' == k then None else Lookup(es, k')
  {
    if |es| > 0 {
      RemoveLookup(es[1..], k, k');
      if es[0].0 != k {
        var r := Remove(es, k);
        assert r[0] == es[0] && r[1..] == Remove(es[1..], k);
      }
    }
  }

  /** The first entry carrying a key is the one a lookup finds. */
  lemma {:induction false} LookupFirst(es: seq<(string, Value)>, i: nat)
    requires i < |es|
    requires forall j :: 0 <= j < i ==> es[j].0 != es[i].0
    ensures Lookup(es, es[i].0) == Some(es[i].1)
  {
    if i > 0 {
      LookupFirst(es[1..], i - 1);
    }
  }

  lemma {:induction false} LookupAbsent(es: seq<(string, Value)>, k: string)
    requires !HasKey(es, k)
    ensures Lookup(es, k) == None
  {
    LookupSomeIffHasKey(es, k);
  }

  /** A lookup in a concatenation finds the first part's entry when it has the key. */
  lemma {:induction false} LookupAppend(a: seq<(string, Value)>, b: seq<(string, Value)>, k: string)
    ensures Lookup(a + b, k) == if HasKey(a, k) then Lookup(a, k) else Lookup(b, k)
  {
    if |a| > 0 {
      assert (a + b)[1..] == a[1..] + b;
      assert Keys(a) == [a[0].0] + Keys(a[1..]);
      LookupAppend(a[1..], b, k);
    } else {
      assert a + b == b;
    }
  }

  /** In a dict with unique keys every entry is what a lookup of its key finds. */
  lemma LookupDistinct(es: seq<(string, Value)>, ks: seq<string>)
    requires Keys(es) == ks && Distinct(ks) && |ks| == |es|
    ensures forall i :: 0 <= i < |es| ==> Lookup(es, ks[i]) == Some(es[i].1)
  {
    KeysIndex(es);
    forall i | 0 <= i < |es| ensures Lookup(es, ks[i]) == Some(es[i].1) {
      LookupFirst(es, i);
    }
  }

  lemma {:induction false} RemoveAbsent(es: seq<(string, Value)>, k: string)
    requires !HasKey(es, k)
    ensures Remove(es, k) == es
  {
    if |es| > 0 {
      assert Keys(es) == [es[0].0] + Keys(es[1..]);
      RemoveAbsent(es[1..], k);
    }
  }

  /** The dict with keys `ks` and values `vs`, in that order. */
  function Zip(ks: seq<string>, vs: seq<Value>): (r: seq<(string, Value)>)
    requires |ks| == |vs|
    ensures |r| == |ks| && forall i :: 0 <= i < |ks| ==> r[i] == (ks[i], vs[i])
  {
    if |ks| == 0 then [] else [(ks[0], vs[0])] + Zip(ks[1..], vs[1..])
  }

  lemma {:induction false} LookupZip(ks: seq<string>, vs: seq<Value>, i: nat)
    requires |ks| == |vs| && i < |ks| && Distinct(ks)
    ensures Lookup(Zip(ks, vs), ks[i]) == Some(vs[i])
  {
    if i > 0 {
      assert Zip(ks, vs)[1..] == Zip(ks[1..], vs[1..]);
      LookupZip(ks[1..], vs[1..], i - 1);
    }
  }

  lemma {:induction false} LookupZipAbsent(ks: seq<string>, vs: seq<Value>, k: string)
    requires |ks| == |vs| && k !in ks
    ensures Lookup(Zip(ks, vs), k) == None
  {
    if |ks| > 0 {
      assert Zip(ks, vs)[1..] == Zip(ks[1..], vs[1..]);
      LookupZipAbsent(ks[1..], vs[1..], k);
    }
  }

  lemma {:induction false} RemoveZipAbsent(ks: seq<string>, vs: seq<Value>, k: string)
    requires |ks| == |vs| && k !in ks
    ensures Remove(Zip(ks, vs), k) == Zip(ks, vs)
  {
    if |ks| > 0 {
      assert Zip(ks, vs)[1..] == Zip(ks[1..], vs[1..]);
      RemoveZipAbsent(ks[1..], vs[1..], k);
    }
  }

  /** Every key of a dict with unique keys finds its own value. */
  lemma LookupZipAll(ks: seq<string>, vs: seq<Value>)
    requires |ks| == |vs| && Distinct(ks)
    ensures forall i :: 0 <= i < |ks| ==> Lookup(Zip(ks, vs), ks[i]) == Some(vs[i])
  {
    forall i | 0 <= i < |ks| ensures Lookup(Zip(ks, vs), ks[i]) == Some(vs[i]) {
      LookupZip(ks, vs, i);
    }
  }

  /** `d.get(k)` on a value that may not be a dict. */
  function Get(d: Value, k: string): (r: Option<Value>)
  {
    if d.Dict? then Lookup(d.entries, k) else None
  }

  /** `k in d` for a dict value. */
  predicate Has(d: Value, k: string)
  {
    Get(d, k).Some?
  }

  /** `d.get(k, default)` for a field that holds text: a string value is returned,
      anything else (absent, `None`, another type) gives the default. */
  function GetStr(d: Value, k: string, default: string): (r: string)
    ensures (Get(d, k).Some? && Get(d, k).value.Str?) ==> r == Get(d, k).value.s
    ensures !(Get(d, k).Some? && Get(d, k).value.Str?) ==> r == default
  {
    match Get(d, k)
    case Some(Str(s)) => s
    case _ => default
  }

  /** `d.get(k, default)` for a numeric field. */
  function GetNum(d: Value, k: string, default: real): (r: real)
    ensures (Get(d, k).Some? && Get(d, k).value.Num?) ==> r == Get(d, k).value.x
    ensures !(Get(d, k).Some? && Get(d, k).value.Num?) ==> r == default
  {
    match Get(d, k)
    case Some(Num(x)) => x
    case _ => default
  }

  function OptStr(o: Option<string>): Value
  {
    match o
    case None => Null
    case Some(s) => Str(s)
  }

  function StrList(xs: seq<string>): (v: Value)
    ensures v.List? && |v.items| == |xs|
    ensures forall i :: 0 <= i < |xs| ==> v.items[i] == Str(xs[i])
  {
    List(seq(|xs|, i requires 0 <= i < |xs| => Str(xs[i])))
  }
}
