// Python string operations the model relies on, over `seq<char>`.
module Strings {
  import opened Wrappers

  /** Python's `str.isspace` for one character (the Unicode White_Space set Python uses). */
  predicate IsSpace(c: char)
  {
    var k := c as int;
    k == 32 || 9 <= k <= 13 || 28 <= k <= 31 || k == 0x85 || k == 0xA0 || k == 0x1680
    || 0x2000 <= k <= 0x200A || k == 0x2028 || k == 0x2029 || k == 0x202F || k == 0x205F
    || k == 0x3000
  }

  predicate IsBlank(s: string)
  {
    forall i :: 0 <= i < |s| ==> IsSpace(s[i])
  }

  /** `s.lstrip()`: the suffix left after dropping leading whitespace. */
  function LStrip(s: string): (r: string)
    ensures |r| <= |s| && r == s[|s| - |r|..]
    ensures r == [] || !IsSpace(r[0])
    ensures forall i :: 0 <= i < |s| - |r| ==> IsSpace(s[i])
  {
    if |s| > 0 && IsSpace(s[0]) then LStrip(s[1..]) else s
  }

  /** `s.rstrip()`: the prefix left after dropping trailing whitespace. */
  function RStrip(s: string): (r: string)
    ensures |r| <= |s| && r == s[..|r|]
    ensures r == [] || !IsSpace(r[|r| - 1])
    ensures forall i :: |r| <= i < |s| ==> IsSpace(s[i])
  {
    if |s| > 0 && IsSpace(s[|s| - 1]) then RStrip(s[..|s| - 1]) else s
  }

  /** `s.strip()`. */
  function Strip(s: string): (r: string)
    ensures |r| <= |s|
    ensures r == [] || (!IsSpace(r[0]) && !IsSpace(r[|r| - 1]))
  {
    RStrip(LStrip(s))
  }

  lemma StripEmptyIffBlank(s: string)
    ensures Strip(s) == [] <==> IsBlank(s)
  {

  }

  /** A string that neither starts nor ends with whitespace is its own strip. */
  lemma StripOfTrimmed(s: string)
    requires s == [] || (!IsSpace(s[0]) && !IsSpace(s[|s| - 1]))
    ensures Strip(s) == s
  {
    assert LStrip(s) == s;
  }

  lemma StripIdempotent(s: string)
    ensures Strip(Strip(s)) == Strip(s)
  {
    StripOfTrimmed(Strip(s));
  }

  function LowerChar(c: char): char
  {
    if 'A' <= c <= 'Z' then (c as int + 32) as char else c
  }

  function UpperChar(c: char): char
  {
    if 'a' <= c <= 'z' then (c as int - 32) as char else c
  }

  /** `s.lower()` on ASCII letters. */
  function Lower(s: string): (r: string)
    ensures |r| == |s| && forall i :: 0 <= i < |s| ==> r[i] == LowerChar(s[i])
  {
    seq(|s|, i requires 0 <= i < |s| => LowerChar(s[i]))
  }

  /** Text without capitals is its own lower-case form. */
  lemma LowerOfLowercase(s: string)
    requires forall i :: 0 <= i < |s| ==> !('A' <= s[i] <= 'Z')
    ensures Lower(s) == s
  {
  }

  /** `s.upper()` on ASCII letters. */
  function Upper(s: string): (r: string)
    ensures |r| == |s| && forall i :: 0 <= i < |s| ==> r[i] == UpperChar(s[i])
  {
    seq(|s|, i requires 0 <= i < |s| => UpperChar(s[i]))
  }

  predicate StartsWith(s: string, p: string)
  {
    p <= s
  }

  /** Stripping keeps a prefix that neither starts nor ends with whitespace. */
  lemma StripKeepsPrefix(s: string, p: string)
    requires StartsWith(s, p) && |p| >= 1 && !IsSpace(p[0]) && !IsSpace(p[|p| - 1])
    ensures StartsWith(Strip(s), p)
  {
    assert s[0] == p[0];
    assert LStrip(s) == s;
    var r := RStrip(s);
    assert r[..|p|] == s[..|p|];
  }

  predicate EndsWith(s: string, p: string)
  {
    |p| <= |s| && s[|s| - |p|..] == p
  }

  /** `sub in s`. */
  predicate Contains(s: string, sub: string)
    decreases |s|
  {
    sub <= s || (|s| > 0 && Contains(s[1..], sub))
  }

  /** Text holding `sub` at position `i` contains it. */
  lemma {:induction false} ContainsAt(s: string, i: nat, sub: string)
    requires i <= |s| && sub <= s[i..]
    ensures Contains(s, sub)
    decreases i
  {
    if i > 0 {
      assert s[1..][i - 1..] == s[i..];
      ContainsAt(s[1..], i - 1, sub);
    }
  }

  /** Text shorter than `sub` does not contain it. */
  lemma {:induction false} ContainsLonger(s: string, sub: string)
    requires |s| < |sub|
    ensures !Contains(s, sub)
    decreases |s|
  {
    if |s| > 0 {
      ContainsLonger(s[1..], sub);
    }
  }

  /** `s.replace(pat, rep)` for a non-empty pattern: occurrences are replaced left to
      right, without overlap. */
  function Replace(s: string, pat: string, rep: string): string
    requires |pat| > 0
    decreases |s|
  {
    if |s| == 0 then []
    else if pat <= s then rep + Replace(s[|pat|..], pat, rep)
    else [s[0]] + Replace(s[1..], pat, rep)
  }

  /** Replacing a character by text without it removes every occurrence. */
  lemma {:induction false} ReplaceRemovesChar(s: string, c: char, rep: string)
    requires c !in rep
    ensures c !in Replace(s, [c], rep)
    decreases |s|
  {
    if |s| > 0 {
      if [c] <= s {
        ReplaceRemovesChar(s[1..], c, rep);
      } else {
        ReplaceRemovesChar(s[1..], c, rep);
        assert s[0] != c;
      }
    }
  }

  /** `s.find(sub)` as an option: the first position at which `sub` occurs. */
  function Find(s: string, sub: string): (r: Option<nat>)
    ensures r.Some? ==> r.value + |sub| <= |s| && s[r.value..r.value + |sub|] == sub
    ensures r.None? <==> !Contains(s, sub)
    decreases |s|
  {
    if sub <= s then Some(0)
    else if |s| == 0 then None
    else match Find(s[1..], sub)
      case None => None
      case Some(i) => Some(i + 1)
  }

  /** Python slice `s[:n]` for any integer `n` (a negative `n` counts from the end). */
  function Take(s: string, n: int): (r: string)
    ensures r <= s
    ensures 0 <= n <= |s| ==> |r| == n
    ensures n >= |s| ==> r == s
    ensures n < 0 ==> |r| == if |s| + n < 0 then 0 else |s| + n
  {
    if n >= |s| then s
    else if n >= 0 then s[..n]
    else if |s| + n >= 0 then s[..|s| + n]
    else []
  }

  /** `s[:n].rstrip() + "..."` for text longer than `n`; shorter text is kept. */
  function Truncated(s: string, n: int): (r: string)
    ensures n >= 0 ==> |r| <= n + 3
    ensures |s| <= n ==> r == s
    ensures |s| > n ==> exists k :: 0 <= k <= |s| && r == RStrip(s[..k]) + "..."
  {
    if |s| > n then
      var t := Take(s, n);
      assert t == s[..|t|];
      RStrip(t) + "..."
    else s
  }

  /** Python slice `s[n:]` for `n >= 0`. */
  function Drop(s: string, n: nat): (r: string)
    ensures |r| == if n <= |s| then |s| - n else 0
  {
    if n <= |s| then s[n..] else []
  }

  /** `sep.join(parts)`. */
  function Join(sep: string, parts: seq<string>): (r: string)
    ensures parts == [] ==> r == []
    ensures |parts| == 1 ==> r == parts[0]
  {
    if |parts| == 0 then []
    else if |parts| == 1 then parts[0]
    else parts[0] + sep + Join(sep, parts[1..])
  }

  lemma JoinCons(sep: string, a: string, tail: seq<string>)
    requires |tail| >= 1
    ensures Join(sep, [a] + tail) == a + sep + Join(sep, tail)
  {
    assert ([a] + tail)[1..] == tail;
  }

  lemma {:induction false} JoinAppend(sep: string, a: seq<string>, b: seq<string>)
    requires |a| >= 1 && |b| >= 1
    ensures Join(sep, a + b) == Join(sep, a) + sep + Join(sep, b)
    decreases |a|
  {
    if |a| == 1 {
      assert a + b == [a[0]] + b;
      JoinCons(sep, a[0], b);
    } else {
      JoinAppend(sep, a[1..], b);
      assert a + b == [a[0]] + (a[1..] + b);
      JoinCons(sep, a[0], a[1..] + b);
      assert a == [a[0]] + a[1..];
      JoinCons(sep, a[0], a[1..]);
    }
  }

  /** `s.split(sep)` for a non-empty separator. */
  function Split(s: string, sep: string): (r: seq<string>)
    requires |sep| > 0
    ensures |r| >= 1
    decreases |s|
  {
    match Find(s, sep)
    case None => [s]
    case Some(i) => [s[..i]] + Split(s[i + |sep|..], sep)
  }

  /** Splitting and joining on the same separator gives the text back. */
  lemma SplitAt(s: string, sep: string, i: nat)
    requires |sep| > 0 && Find(s, sep) == Some(i)
    ensures Split(s, sep) == [s[..i]] + Split(s[i + |sep|..], sep)
    ensures s == s[..i] + sep + s[i + |sep|..]
  {
    assert s == s[..i] + s[i..i + |sep|] + s[i + |sep|..];
  }

  lemma {:induction false} JoinSplit(s: string, sep: string)
    requires |sep| > 0
    ensures Join(sep, Split(s, sep)) == s
    decreases |s|
  {
    var f := Find(s, sep);
    if f.Some? {
      var i := f.value;
      var rest := s[i + |sep|..];
      SplitAt(s, sep, i);
      JoinSplit(rest, sep);
      JoinCons(sep, s[..i], Split(rest, sep));
    }
  }

  /** Replace every character by a string (a chain of single-character `str.replace` calls). */
  function FlatMap(s: string, f: char -> string): (r: string)
    ensures |s| == 0 ==> r == []
  {
    if |s| == 0 then [] else f(s[0]) + FlatMap(s[1..], f)
  }

  lemma {:induction false} FlatMapAppend(a: string, b: string, f: char -> string)
    ensures FlatMap(a + b, f) == FlatMap(a, f) + FlatMap(b, f)
  {
    if |a| > 0 {
      assert (a + b)[1..] == a[1..] + b;
      FlatMapAppend(a[1..], b, f);
    } else {
      assert a + b == b;
    }
  }

  /** Every character of `FlatMap(s, f)` comes from the image of some character of `s`. */
  lemma {:induction false} FlatMapChars(s: string, f: char -> string, P: char -> bool)
    requires forall i :: 0 <= i < |s| ==> forall j :: 0 <= j < |f(s[i])| ==> P(f(s[i])[j])
    ensures forall j :: 0 <= j < |FlatMap(s, f)| ==> P(FlatMap(s, f)[j])
    decreases |s|
  {
    if |s| > 0 {
      assert forall i :: 0 <= i < |s[1..]| ==> s[1..][i] == s[i + 1];
      FlatMapChars(s[1..], f, P);
      var head := f(s[0]);
      var tail := FlatMap(s[1..], f);
      assert FlatMap(s, f) == head + tail;
      forall j | 0 <= j < |head + tail| ensures P((head + tail)[j]) {
        if j < |head| { assert (head + tail)[j] == head[j]; }
        else { assert (head + tail)[j] == tail[j - |head|]; }
      }
    }
  }

  /** `s.replace(c, t)` for a one-character pattern. */
  function ReplaceChar(s: string, c: char, t: string): (r: string)
  {
    FlatMap(s, x => if x == c then t else [x])
  }

  /** A character is in the result exactly when it is a character of `s` other than `c`,
      or a character of `t` and `c` occurs in `s`. */
  lemma {:induction false} ReplaceCharMembers(s: string, c: char, t: string, x: char)
    ensures x in ReplaceChar(s, c, t) <==> (x in s && x != c) || (c in s && x in t)
    decreases |s|
  {
    if |s| > 0 {
      ReplaceCharMembers(s[1..], c, t, x);
      assert s == [s[0]] + s[1..];
      assert ReplaceChar(s, c, t) == (if s[0] == c then t else [s[0]]) + ReplaceChar(s[1..], c, t);
    }
  }

  /** Replacing a character that does not occur changes nothing. */
  lemma {:induction false} ReplaceCharAbsent(s: string, c: char, t: string)
    requires c !in s
    ensures ReplaceChar(s, c, t) == s
    decreases |s|
  {
    if |s| > 0 {
      ReplaceCharAbsent(s[1..], c, t);
      assert s == [s[0]] + s[1..];
    }
  }

  /** Two maps that agree on every character of `s` give the same result. */
  lemma {:induction false} FlatMapPointwise(s: string, f: char -> string, g: char -> string)
    requires forall i :: 0 <= i < |s| ==> f(s[i]) == g(s[i])
    ensures FlatMap(s, f) == FlatMap(s, g)
    decreases |s|
  {
    if |s| > 0 {
      FlatMapPointwise(s[1..], f, g);
    }
  }

  /** Mapping every character to itself changes nothing. */
  lemma {:induction false} FlatMapIdentity(s: string, f: char -> string)
    requires forall c :: f(c) == [c]
    ensures FlatMap(s, f) == s
    decreases |s|
  {
    if |s| > 0 {
      FlatMapIdentity(s[1..], f);
      assert s == [s[0]] + s[1..];
    }
  }

  /** A replacement applied after a character map is the same as one map that does both. */
  lemma {:induction false} ReplaceCharAfter(s: string, f: char -> string, c: char, t: string, g: char -> string)
    requires forall x :: g(x) == ReplaceChar(f(x), c, t)
    ensures ReplaceChar(FlatMap(s, f), c, t) == FlatMap(s, g)
    decreases |s|
  {
    if |s| > 0 {
      ReplaceCharAfter(s[1..], f, c, t, g);
      FlatMapAppend(f(s[0]), FlatMap(s[1..], f), x => if x == c then t else [x]);
    }
  }

  /** Keep the characters satisfying `keep` (a regex substitution by ""). */
  function Filter(s: string, keep: char -> bool): (r: string)
    ensures |r| <= |s|
    ensures forall j :: 0 <= j < |r| ==> keep(r[j]) && r[j] in s
    ensures (forall i :: 0 <= i < |s| ==> keep(s[i])) ==> r == s
  {
    if |s| == 0 then []
    else (if keep(s[0]) then [s[0]] else []) + Filter(s[1..], keep)
  }

  predicate IsDigit(c: char)
  {
    '0' <= c <= '9'
  }

  /** `s.isdigit()` restricted to ASCII digits: non-empty and all digits. */
  predicate IsDigits(s: string)
  {
    |s| > 0 && forall i :: 0 <= i < |s| ==> IsDigit(s[i])
  }

  function DigitChar(d: nat): char
    requires d < 10
  {
    ('0' as int + d) as char
  }

  /** `str(n)` for a natural number. */
  function NatToString(n: nat): (r: string)
    ensures IsDigits(r)
    decreases n
  {
    if n < 10 then [DigitChar(n)] else NatToString(n / 10) + [DigitChar(n % 10)]
  }

  /** The value of a string of decimal digits. */
  function DigitsValue(s: string): (v: nat)
    requires forall i :: 0 <= i < |s| ==> IsDigit(s[i])
  {
    if |s| == 0 then 0
    else
      var c := s[|s| - 1];
      assert IsDigit(c);
      DigitsValue(s[..|s| - 1]) * 10 + (c as int - '0' as int)
  }

  lemma {:induction false} DigitsValueOfNatToString(n: nat)
    ensures DigitsValue(NatToString(n)) == n
    decreases n
  {
    if n >= 10 {
      DigitsValueOfNatToString(n / 10);
      var s := NatToString(n);
      assert s[..|s| - 1] == NatToString(n / 10);
    }
  }

  /** Distinct numbers print differently, so numbered identifiers never collide. */
  lemma NatToStringInjective(m: nat, n: nat)
    requires NatToString(m) == NatToString(n)
    ensures m == n
  {
    DigitsValueOfNatToString(m);
    DigitsValueOfNatToString(n);
  }

  function IntToString(i: int): (r: string)
    ensures |r| >= 1
  {
    if i < 0 then "-" + NatToString(-i) else NatToString(i)
  }

  /** The digits of a numeral as Python's `int` reads it: ASCII digits in groups joined
      by single underscores, starting and ending with a digit. */
  predicate IsNumeral(s: string)
  {
    && |s| > 0 && IsDigit(s[0]) && IsDigit(s[|s| - 1])
    && (forall i :: 0 <= i < |s| ==> IsDigit(s[i]) || s[i] == '_')
    && (forall i :: 0 <= i < |s| - 1 ==> s[i] == '_' ==> s[i + 1] != '_')
  }

  /** The text without its underscores. */
  function DropUnderscores(s: string): (r: string)
    ensures |r| <= |s|
    ensures (forall i :: 0 <= i < |s| ==> s[i] != '_') ==> r == s
    decreases |s|
  {
    if |s| == 0 then []
    else (if s[0] == '_' then [] else [s[0]]) + DropUnderscores(s[1..])
  }

  /** A numeral without its underscores is all digits. */
  lemma {:induction false} NumeralDigits(s: string)
    requires forall i :: 0 <= i < |s| ==> IsDigit(s[i]) || s[i] == '_'
    ensures forall i :: 0 <= i < |DropUnderscores(s)| ==> IsDigit(DropUnderscores(s)[i])
    decreases |s|
  {
    if |s| > 0 {
      NumeralDigits(s[1..]);
    }
  }

  /** The value of a numeral. */
  function NumeralValue(s: string): nat
    requires IsNumeral(s)
  {
    NumeralDigits(s);
    DigitsValue(DropUnderscores(s))
  }

  /** Python `int(s)` for decimal text: surrounding whitespace, an optional sign, and
      ASCII digits, possibly grouped by single underscores. `None` is the `ValueError`
      case. */
  function ParseInt(s: string): (r: Option<int>)
    ensures r.Some? ==> Strip(s) != []
  {
    var t := Strip(s);
    if |t| > 0 && (t[0] == '-' || t[0] == '+') && IsNumeral(t[1..]) then
      var v: int := NumeralValue(t[1..]);
      Some(if t[0] == '-' then -v else v)
    else if IsNumeral(t) then Some(NumeralValue(t))
    else None
  }

  lemma {:induction false} ParseIntOfNat(n: nat)
    ensures ParseInt(NatToString(n)) == Some(n)
  {
    var s := NatToString(n);
    StripOfTrimmed(s);
    DigitsValueOfNatToString(n);
    assert forall i :: 0 <= i < |s| ==> s[i] != '_' by {
      assert forall i :: 0 <= i < |s| ==> IsDigit(s[i]);
    }
    assert DropUnderscores(s) == s;
    assert IsNumeral(s);
    assert s[0] != '-' && s[0] != '+';
    assert NumeralValue(s) == n;
  }

  /** A numeral is read as its value. */
  lemma ParseIntOfNumeral(t: string)
    requires IsNumeral(t)
    ensures ParseInt(t) == Some(NumeralValue(t))
  {
    assert !IsSpace(t[0]) && !IsSpace(t[|t| - 1]);
    StripOfTrimmed(t);
  }

  /** A numeral after a minus sign is read as its value negated. */
  lemma ParseIntOfNegated(t: string)
    requires IsNumeral(t)
    ensures ParseInt("-" + t) == Some(-(NumeralValue(t) as int))
  {
    var u := "-" + t;
    assert u[1..] == t;
    assert !IsSpace(u[0]) && !IsSpace(u[|u| - 1]);
    StripOfTrimmed(u);
  }

  lemma GroupedThousand()
    ensures IsNumeral("1_000") && NumeralValue("1_000") == 1000
  {
    var t := "1_000";
    assert DropUnderscores(t[4..]) == "0";
    assert DropUnderscores(t[3..]) == "00";
    assert DropUnderscores(t[2..]) == "000";
    assert DropUnderscores(t) == "1000";
    assert DigitsValue("1000") == 1000 by {
      assert "1000"[..3] == "100" && "100"[..2] == "10" && "10"[..1] == "1";
    }
  }

  /** Underscores between digit groups are skipped, as in "1_000". */
  lemma ParseIntGrouped()
    ensures ParseInt("1_000") == Some(1000)
  {
    GroupedThousand();
    ParseIntOfNumeral("1_000");
  }

  /** A doubled underscore makes the text unparsable. */
  lemma ParseIntDoubledUnderscore()
    ensures ParseInt("1__0") == None
  {
    StripOfTrimmed("1__0");
    assert "1__0"[1] == '_' && "1__0"[2] == '_';
  }

  function Repeat(c: char, n: nat): (r: string)
    ensures |r| == n && forall i :: 0 <= i < n ==> r[i] == c
  {
    seq(n, _ => c)
  }

  /** Concatenation regrouped, for sequences the solver sees only through their parts. */
  lemma ConcatAssoc<T>(a: seq<T>, b: seq<T>, c: seq<T>)
    ensures a + b + c == a + (b + c)
  {
  }
}
