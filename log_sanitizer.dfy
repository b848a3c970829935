// Sanitising user-controlled values before they are written to a log
// (utils/log_sanitizer.py): escape the characters that could forge a log
// line, drop the other control characters, and bound the length.
module LogSanitizer {
  import opened Wrappers
  import opened Strings
  import opened Values

  /** The ANSI escape character, U+001B. */
  const Esc: char := '\U{1b}'

  /** The replacement table, in the order `sanitize_log_input` applies it (backslash first). */
  const Replacements: seq<(char, string)> :=
    [('\\', "\\\\"), ('\n', "\\n"), ('\r', "\\r"), ('\t', "\\t"), ('\0', "\\0"), (Esc, "\\x1b")]

  /** The chain `for char, replacement in table: s = s.replace(char, replacement)`. */
  function ApplyReplacements(s: string, table: seq<(char, string)>): string
    decreases |table|
  {
    if |table| == 0 then s
    else
      var last := table[|table| - 1];
      ReplaceChar(ApplyReplacements(s, table[..|table| - 1]), last.0, last.1)
  }

  /** The escape of one character in a single pass over the text. */
  function EscapeChar(x: char): string
  {
    if x == '\\' then "\\\\"
    else if x == '\n' then "\\n"
    else if x == '\r' then "\\r"
    else if x == '\t' then "\\t"
    else if x == '\0' then "\\0"
    else if x == Esc then "\\x1b"
    else [x]
  }

  /** Single-pass escaping of a whole text. */
  function Escaped(s: string): string
  {
    FlatMap(s, EscapeChar)
  }

  /** The characters removed by `[\x00-\x08\x0b-\x0c\x0e-\x1f]`. */
  predicate IsDropped(c: char)
  {
    var k := c as int;
    0 <= k <= 8 || 11 <= k <= 12 || 14 <= k <= 31
  }

  predicate Kept(c: char)
  {
    !IsDropped(c)
  }

  /** `str(value)`: a string is itself; any other value is rendered by `show`. */
  function StrOf(value: Value, show: Value -> string): string
  {
    if value.Str? then value.s else show(value)
  }

  /** The truncation as the source writes it: `s[:max_length - 3] + "..."` when too long. */
  function TruncateAsWritten(s: string, maxLength: int): (r: string)
    ensures |s| <= maxLength ==> r == s
    ensures |s| > maxLength ==> |r| >= 3
  {
    if |s| > maxLength then Take(s, maxLength - 3) + "..." else s
  }

  /** The truncation the documentation promises: never longer than `maxLength`. */
  function TruncateLog(s: string, maxLength: int): (r: string)
    ensures maxLength >= 0 ==> |r| <= maxLength
    ensures |s| <= maxLength ==> r == s
    ensures forall j :: 0 <= j < |r| ==> r[j] == '.' || r[j] in s
  {
    if |s| <= maxLength then s
    else if maxLength >= 3 then s[..maxLength - 3] + "..."
    else if maxLength > 0 then s[..maxLength]
    else []
  }

  /** `sanitize_log_input(value, max_length)` with the bounded truncation. */
  function SanitizedLog(value: Value, maxLength: int, show: Value -> string): string
  {
    if value.Null? then "None"
    else TruncateLog(Filter(Escaped(StrOf(value, show)), Kept), maxLength)
  }

  /** `sanitize_log_input(value, max_length)` exactly as written. */
  function SanitizedLogAsWritten(value: Value, maxLength: int, show: Value -> string): string
  {
    if value.Null? then "None"
    else TruncateAsWritten(Filter(Escaped(StrOf(value, show)), Kept), maxLength)
  }

  /** `sanitize_log_input`: the replacement loop, the regex substitution and the truncation. */
  method SanitizeLogInput(value: Value, maxLength: int, show: Value -> string) returns (r: string)
    ensures r == SanitizedLog(value, maxLength, show)
  {
    if value.Null? {
      return "None";
    }
    var s := StrOf(value, show);
    var v := s;
    var i := 0;
    while i < |Replacements|
      invariant 0 <= i <= |Replacements|
      invariant v == ApplyReplacements(s, Replacements[..i])
    {
      assert Replacements[..i + 1][..i] == Replacements[..i];
      v := ReplaceChar(v, Replacements[i].0, Replacements[i].1);
      i := i + 1;
    }
    assert Replacements[..i] == Replacements;
    EscapedSinglePass(s);
    v := Filter(v, Kept);
    r := TruncateLog(v, maxLength);
  }

  // ---------------------------------------------------------------------------
  // The replacement chain is a single-pass escape.

  /** The escape of `x` by the first `k` rows of the table, later rows winning. */
  function EscapeUpTo(k: nat, x: char): string
  {
    if k == 0 || k > |Replacements| then [x]
    else if Replacements[k - 1].0 == x then Replacements[k - 1].1
    else EscapeUpTo(k - 1, x)
  }

  /** No key of the table occurs in the replacement text of an earlier row. */
  lemma KeysAbsentFromEarlierTexts(j: nat, m: nat)
    requires j < m < |Replacements|
    ensures Replacements[m].0 !in Replacements[j].1
  {
  }

  /** The keys of the table are pairwise distinct. */
  lemma KeysDistinct(j: nat, m: nat)
    requires j < m < |Replacements|
    ensures Replacements[j].0 != Replacements[m].0
  {
  }

  lemma {:induction false} EscapeUpToUnmatched(k: nat, x: char)
    requires k <= |Replacements|
    requires forall j :: 0 <= j < k ==> Replacements[j].0 != x
    ensures EscapeUpTo(k, x) == [x]
  {
    if k > 0 {
      EscapeUpToUnmatched(k - 1, x);
    }
  }

  lemma {:induction false} EscapeUpToAvoids(k: nat, m: nat, x: char)
    requires k <= m < |Replacements| && x != Replacements[m].0
    ensures Replacements[m].0 !in EscapeUpTo(k, x)
  {
    if k > 0 {
      if Replacements[k - 1].0 == x {
        KeysAbsentFromEarlierTexts(k - 1, m);
      } else {
        EscapeUpToAvoids(k - 1, m, x);
      }
    }
  }

  /** Applying row `k` after the first `k` rows gives the first `k + 1` rows. */
  lemma EscapeStep(k: nat, x: char)
    requires k < |Replacements|
    ensures ReplaceChar(EscapeUpTo(k, x), Replacements[k].0, Replacements[k].1) == EscapeUpTo(k + 1, x)
  {
    var c := Replacements[k].0;
    if x == c {
      forall j | 0 <= j < k ensures Replacements[j].0 != x {
        KeysDistinct(j, k);
      }
      EscapeUpToUnmatched(k, x);
      assert ReplaceChar([x], c, Replacements[k].1) == Replacements[k].1 + ReplaceChar([], c, Replacements[k].1);
    } else {
      EscapeUpToAvoids(k, k, x);
      ReplaceCharAbsent(EscapeUpTo(k, x), c, Replacements[k].1);
    }
  }

  lemma {:induction false} ApplyReplacementsPrefix(s: string, k: nat)
    requires k <= |Replacements|
    ensures ApplyReplacements(s, Replacements[..k]) == FlatMap(s, (x: char) => EscapeUpTo(k, x))
  {
    if k == 0 {
      FlatMapIdentity(s, (x: char) => EscapeUpTo(0, x));
    } else {
      assert Replacements[..k][..k - 1] == Replacements[..k - 1];
      ApplyReplacementsPrefix(s, k - 1);
      forall x ensures EscapeUpTo(k, x)
        == ReplaceChar(EscapeUpTo(k - 1, x), Replacements[k - 1].0, Replacements[k - 1].1)
      {
        EscapeStep(k - 1, x);
      }
      ReplaceCharAfter(s, (x: char) => EscapeUpTo(k - 1, x), Replacements[k - 1].0,
        Replacements[k - 1].1, (x: char) => EscapeUpTo(k, x));
    }
  }

  lemma EscapeUpToAll(x: char)
    ensures EscapeUpTo(|Replacements|, x) == EscapeChar(x)
  {
    assert EscapeUpTo(1, x) == if x == '\\' then "\\\\" else [x];
    assert EscapeUpTo(2, x) == if x == '\n' then "\\n" else EscapeUpTo(1, x);
    assert EscapeUpTo(3, x) == if x == '\r' then "\\r" else EscapeUpTo(2, x);
    assert EscapeUpTo(4, x) == if x == '\t' then "\\t" else EscapeUpTo(3, x);
    assert EscapeUpTo(5, x) == if x == '\0' then "\\0" else EscapeUpTo(4, x);
    assert EscapeUpTo(6, x) == if x == Esc then "\\x1b" else EscapeUpTo(5, x);
  }

  /** The six `str.replace` calls, in table order, escape every character in one pass:
      escaping the backslash first means no escape is altered by a later replacement. */
  lemma EscapedSinglePass(s: string)
    ensures ApplyReplacements(s, Replacements) == Escaped(s)
  {
    ApplyReplacementsPrefix(s, |Replacements|);
    assert Replacements[..|Replacements|] == Replacements;
    forall x ensures EscapeUpTo(|Replacements|, x) == EscapeChar(x) {
      EscapeUpToAll(x);
    }
    FlatMapPointwise(s, (x: char) => EscapeUpTo(|Replacements|, x), EscapeChar);
  }

  // ---------------------------------------------------------------------------
  // Properties of the sanitised text.

  /** No character of the result is a C0 control character: no newline, carriage
      return, tab or escape can reach the log. */
  lemma SanitizedLogNoControl(value: Value, maxLength: int, show: Value -> string)
    ensures forall j :: 0 <= j < |SanitizedLog(value, maxLength, show)| ==>
      SanitizedLog(value, maxLength, show)[j] >= ' '
  {
    if !value.Null? {
      var e := Escaped(StrOf(value, show));
      FlatMapChars(StrOf(value, show), EscapeChar, (c: char) => c != '\t' && c != '\n' && c != '\r');
      var f := Filter(e, Kept);
      assert forall j :: 0 <= j < |f| ==> f[j] >= ' ' by {
        forall j | 0 <= j < |f| ensures f[j] >= ' ' {
          assert Kept(f[j]) && f[j] in e;
        }
      }
    }
  }

  /** A value other than `None` is never longer than `maxLength`. */
  lemma SanitizedLogBound(value: Value, maxLength: int, show: Value -> string)
    requires maxLength >= 0 && !value.Null?
    ensures |SanitizedLog(value, maxLength, show)| <= maxLength
  {
  }

  /** Text without control characters or backslashes that fits is logged unchanged. */
  lemma SanitizedLogPlain(s: string, maxLength: int, show: Value -> string)
    requires forall i :: 0 <= i < |s| ==> s[i] >= ' ' && s[i] != '\\'
    requires |s| <= maxLength
    ensures SanitizedLog(Str(s), maxLength, show) == s
  {
    FlatMapPointwise(s, EscapeChar, (x: char) => [x]);
    FlatMapIdentity(s, (x: char) => [x]);
    assert Escaped(s) == s;
    assert forall i :: 0 <= i < |s| ==> Kept(s[i]);
    assert Filter(Escaped(StrOf(Str(s), show)), Kept) == s;
  }

  /** Escaping grows a text at most fourfold and never shrinks it. */
  lemma {:induction false} EscapedLength(s: string)
    ensures |s| <= |Escaped(s)| <= 4 * |s|
    decreases |s|
  {
    if |s| > 0 {
      EscapedLength(s[1..]);
    }
  }

  // ---------------------------------------------------------------------------
  // Decoding the escapes back.

  function EscapeCode(c: char): Option<char>
  {
    if c == '\\' then Some('\\')
    else if c == 'n' then Some('\n')
    else if c == 'r' then Some('\r')
    else if c == 't' then Some('\t')
    else if c == '0' then Some('\0')
    else None
  }

  /** Reads a logged text back, undoing each escape. */
  function Unescape(s: string): string
    decreases |s|
  {
    if |s| == 0 then []
    else if s[0] == '\\' && |s| >= 4 && s[1..4] == "x1b" then [Esc] + Unescape(s[4..])
    else if s[0] == '\\' && |s| >= 2 && EscapeCode(s[1]).Some? then
      [EscapeCode(s[1]).value] + Unescape(s[2..])
    else [s[0]] + Unescape(s[1..])
  }

  lemma UnescapeCons(c: char, rest: string)
    ensures Unescape(EscapeChar(c) + rest) == [c] + Unescape(rest)
  {
    var t := EscapeChar(c) + rest;
    if |EscapeChar(c)| == 1 {
      assert t[1..] == rest;
    } else if c == Esc {
      assert t[1..4] == "x1b" && t[4..] == rest;
    } else {
      assert !(|t| >= 4 && t[1..4] == "x1b") by {
        assert t[1] == EscapeChar(c)[1] != 'x';
      }
      assert t[2..] == rest;
    }
  }

  /** Escaping loses nothing: the escaped text reads back as the original. */
  lemma {:induction false} UnescapeEscaped(s: string)
    ensures Unescape(Escaped(s)) == s
    decreases |s|
  {
    if |s| > 0 {
      UnescapeEscaped(s[1..]);
      UnescapeCons(s[0], Escaped(s[1..]));
      assert s == [s[0]] + s[1..];
    }
  }

  /** Text whose only control characters are among the escaped ones, short enough for its
      escapes to fit, is recoverable from the log line. */
  lemma SanitizedLogRoundTrip(s: string, maxLength: int, show: Value -> string)
    requires forall i :: 0 <= i < |s| ==> IsDropped(s[i]) ==> s[i] == '\0' || s[i] == Esc
    requires 4 * |s| <= maxLength
    ensures Unescape(SanitizedLog(Str(s), maxLength, show)) == s
  {
    FlatMapChars(s, EscapeChar, Kept);
    EscapedLength(s);
    UnescapeEscaped(s);
  }

  // ---------------------------------------------------------------------------
  // The bounded and the as-written truncation.

  /** From `max_length >= 3` on, the bounded truncation is the one the source performs. */
  lemma TruncateLogAgrees(s: string, maxLength: int)
    requires maxLength >= 3
    ensures TruncateLog(s, maxLength) == TruncateAsWritten(s, maxLength)
  {
  }

  lemma SanitizedLogAgrees(value: Value, maxLength: int, show: Value -> string)
    requires maxLength >= 3
    ensures SanitizedLog(value, maxLength, show) == SanitizedLogAsWritten(value, maxLength, show)
  {
  }

  /** As written, a limit below 3 lets any longer plain text through at more than the
      limit: `s[:max_length - 3]` counts from the end when `max_length - 3` is negative. */
  lemma AsWrittenExceedsLimit(s: string, maxLength: int, show: Value -> string)
    requires forall i :: 0 <= i < |s| ==> s[i] >= ' ' && s[i] != '\\'
    requires 0 <= maxLength < 3 && |s| > maxLength
    ensures |SanitizedLogAsWritten(Str(s), maxLength, show)| > maxLength
  {
    SanitizedLogPlain(s, |s|, show);
  }

  /** The smallest instance: with `max_length = 2`, "hello" is logged with 7 characters. */
  lemma AsWrittenHello(show: Value -> string)
    ensures |SanitizedLogAsWritten(Str("hello"), 2, show)| == 7
  {
    var s := "hello";
    assert forall i :: 0 <= i < |s| ==> s[i] >= ' ' && s[i] != '\\';
    SanitizedLogPlain(s, |s|, show);
  }

  // ---------------------------------------------------------------------------
  // The per-field wrappers.

  function SanitizeThreadId(threadId: Value, show: Value -> string): (r: string)
    ensures |r| <= 100
    ensures forall j :: 0 <= j < |r| ==> r[j] >= ' '
    ensures r == SanitizedLogAsWritten(threadId, 100, show)
  {
    SanitizedLogNoControl(threadId, 100, show);
    SanitizedLogAgrees(threadId, 100, show);
    SanitizedLog(threadId, 100, show)
  }

  function SanitizeUserContent(content: Value, show: Value -> string): (r: string)
    ensures |r| <= 200
    ensures forall j :: 0 <= j < |r| ==> r[j] >= ' '
    ensures r == SanitizedLogAsWritten(content, 200, show)
  {
    SanitizedLogNoControl(content, 200, show);
    SanitizedLogAgrees(content, 200, show);
    SanitizedLog(content, 200, show)
  }

  function SanitizeAgentName(agentName: Value, show: Value -> string): (r: string)
    ensures |r| <= 100
    ensures forall j :: 0 <= j < |r| ==> r[j] >= ' '
    ensures r == SanitizedLogAsWritten(agentName, 100, show)
  {
    SanitizedLogNoControl(agentName, 100, show);
    SanitizedLogAgrees(agentName, 100, show);
    SanitizedLog(agentName, 100, show)
  }

  function SanitizeToolName(toolName: Value, show: Value -> string): (r: string)
    ensures |r| <= 100
    ensures forall j :: 0 <= j < |r| ==> r[j] >= ' '
    ensures r == SanitizedLogAsWritten(toolName, 100, show)
  {
    SanitizedLogNoControl(toolName, 100, show);
    SanitizedLogAgrees(toolName, 100, show);
    SanitizedLog(toolName, 100, show)
  }

  function SanitizeFeedback(feedback: Value, show: Value -> string): (r: string)
    ensures |r| <= 150
    ensures forall j :: 0 <= j < |r| ==> r[j] >= ' '
    ensures r == SanitizedLogAsWritten(feedback, 150, show)
  {
    SanitizedLogNoControl(feedback, 150, show);
    SanitizedLogAgrees(feedback, 150, show);
    SanitizedLog(feedback, 150, show)
  }
}
