// The context manager: a character-based token estimate, the two-stage compressor that
// keeps a transcript within a token budget, and the content validation run before
// messages go to a model.
module ContextManagement {
  import opened Wrappers
  import opened Strings
  import opened Values
  import opened Messages

  /** The JSON and `str()` conversions the manager calls: `json.loads` (`None` on a
      decode error), `json.dumps` (`Err` with the exception text when the value cannot
      be serialised) and `str()`. */
  datatype Codec = Codec(
    loads: string -> Option<Value>,
    dumps: Value -> Result<string, string>,
    repr: Value -> string)

  /** `ContextManager(token_limit, preserve_prefix_message_count)`; `None` is an unset limit. */
  datatype Manager = Manager(tokenLimit: Option<int>, preservePrefixMessageCount: int)

  // Python slicing on lists

  /** `s[:k]`. */
  function SliceTo<T>(s: seq<T>, k: int): (r: seq<T>)
    ensures r <= s
    ensures 0 <= k <= |s| ==> |r| == k
  {
    if k >= |s| then s else if k >= 0 then s[..k] else if |s| + k >= 0 then s[..|s| + k] else []
  }

  /** `s[k:]`. */
  function SliceFrom<T>(s: seq<T>, k: int): (r: seq<T>)
    ensures SliceTo(s, k) + r == s
  {
    if k >= |s| then [] else if k >= 0 then s[k..] else if |s| + k >= 0 then s[|s| + k..] else s
  }

  function Reversed<T>(s: seq<T>): (r: seq<T>)
    ensures |r| == |s| && forall i :: 0 <= i < |s| ==> r[i] == s[|s| - 1 - i]
  {
    if |s| == 0 then [] else [s[|s| - 1]] + Reversed(s[..|s| - 1])
  }

  // _count_text_tokens

  /** The characters with a code point below 128. */
  function AsciiCount(t: string): (n: nat)
    ensures n <= |t|
  {
    if |t| == 0 then 0 else AsciiCount(t[..|t| - 1]) + (if (t[|t| - 1] as int) < 128 then 1 else 0)
  }

  /** The estimate: four ASCII characters make a token, any other character is one. */
  function TextTokens(t: string): nat
  {
    AsciiCount(t) / 4 + (|t| - AsciiCount(t))
  }

  /** `_count_text_tokens(text)`. */
  method CountTextTokens(text: string) returns (n: nat)
    ensures n == TextTokens(text)
  {
    if |text| == 0 {
      return 0;
    }
    var english := 0;
    var nonEnglish := 0;
    for i := 0 to |text|
      invariant english == AsciiCount(text[..i]) && nonEnglish == i - english
    {
      assert text[..i + 1][..i] == text[..i];
      if (text[i] as int) < 128 {
        english := english + 1;
      } else {
        nonEnglish := nonEnglish + 1;
      }
    }
    assert text[..|text|] == text;
    n := english / 4 + nonEnglish;
  }

  lemma {:induction false} AsciiCountAppend(a: string, b: string)
    ensures AsciiCount(a + b) == AsciiCount(a) + AsciiCount(b)
    decreases |b|
  {
    if |b| == 0 {
      assert a + b == a;
    } else {
      AsciiCountAppend(a, b[..|b| - 1]);
      assert (a + b)[..|a + b| - 1] == a + b[..|b| - 1];
    }
  }

  /** The estimate is zero exactly for text of at most three ASCII characters, and never
      exceeds the length. */
  lemma TextTokensZero(t: string)
    ensures TextTokens(t) <= |t|
    ensures TextTokens(t) == 0 <==> (|t| < 4 && AsciiCount(t) == |t|)
  {
  }

  /** Joining two texts adds their estimates, give or take the one token that two
      partial groups of ASCII characters can make together. */
  lemma TextTokensConcat(a: string, b: string)
    ensures TextTokens(a) + TextTokens(b) <= TextTokens(a + b) <= TextTokens(a) + TextTokens(b) + 1
  {
    AsciiCountAppend(a, b);
  }

  // _count_message_tokens

  /** `int(n * 1.1)`, `int(n * 1.2)` and `int(n * 1.3)` for system, AI and tool messages,
      computed exactly; human messages and other classes keep `n`. */
  function Scaled(k: Kind, n: nat): nat
  {
    match k
    case System => n * 11 / 10
    case AI => n * 12 / 10
    case Tool => n * 13 / 10
    case _ => n
  }

  /** The tokens of the content when it is a non-empty string. */
  function ContentTokens(m: Message): nat
  {
    if m.content.Str? then TextTokens(m.content.s) else 0
  }

  /** The tokens `additional_kwargs` adds when it is non-empty: its `str()` and 50 more
      for a "tool_calls" entry. */
  function KwargsTokens(m: Message, c: Codec): nat
  {
    if m.additionalKwargs == [] then 0
    else TextTokens(c.repr(Dict(m.additionalKwargs))) + (if HasKey(m.additionalKwargs, "tool_calls") then 50 else 0)
  }

  /** `_count_message_tokens(message)`. */
  function MessageTokens(m: Message, c: Codec): (n: nat)
    ensures n >= 1
  {
    var base := Scaled(m.kind, ContentTokens(m) + TextTokens(TypeTag(m.kind)));
    var total := base + KwargsTokens(m, c);
    if total < 1 then 1 else total
  }

  /** Scaling never lowers an estimate and raises it by at most three tenths. */
  lemma ScaledBounds(k: Kind, n: nat)
    ensures n <= Scaled(k, n) <= n + n * 3 / 10
  {
  }

  /** A message costs at least its scaled content and type tag, and at least 50 more when
      its extra arguments carry tool calls. */
  lemma MessageTokensAtLeast(m: Message, c: Codec)
    ensures MessageTokens(m, c) >= ContentTokens(m) + TextTokens(TypeTag(m.kind))
    ensures HasKey(m.additionalKwargs, "tool_calls") ==> MessageTokens(m, c) >= 50 + ContentTokens(m)
  {
    ScaledBounds(m.kind, ContentTokens(m) + TextTokens(TypeTag(m.kind)));
  }

  /** A human message with text content and no extra arguments costs the text's estimate
      plus the one token of its "human" tag. */
  lemma HumanMessageTokens(text: string, name: Option<string>, c: Codec)
    ensures MessageTokens(TextMessage(Human, text, name), c) == TextTokens(text) + 1
  {
    AsciiCountAllAscii("human");
  }

  lemma {:induction false} AsciiCountAllAscii(t: string)
    requires forall i :: 0 <= i < |t| ==> (t[i] as int) < 128
    ensures AsciiCount(t) == |t|
    decreases |t|
  {
    if |t| > 0 {
      AsciiCountAllAscii(t[..|t| - 1]);
    }
  }

  // count_tokens and is_over_limit

  function TotalTokens(ms: seq<Message>, c: Codec): nat
    decreases |ms|
  {
    if |ms| == 0 then 0 else TotalTokens(ms[..|ms| - 1], c) + MessageTokens(ms[|ms| - 1], c)
  }

  /** `count_tokens(messages)`. */
  method CountTokens(ms: seq<Message>, c: Codec) returns (n: nat)
    ensures n == TotalTokens(ms, c)
  {
    n := 0;
    for i := 0 to |ms|
      invariant n == TotalTokens(ms[..i], c)
    {
      assert ms[..i + 1][..i] == ms[..i];
      n := n + MessageTokens(ms[i], c);
    }
    assert ms[..|ms|] == ms;
  }

  /** `is_over_limit(messages)`: strictly more tokens than the limit. */
  predicate OverLimit(ms: seq<Message>, limit: int, c: Codec)
  {
    TotalTokens(ms, c) > limit
  }

  method IsOverLimit(ms: seq<Message>, limit: int, c: Codec) returns (b: bool)
    ensures b == OverLimit(ms, limit, c)
  {
    var n := CountTokens(ms, c);
    b := n > limit;
  }

  lemma {:induction false} TotalTokensAppend(a: seq<Message>, b: seq<Message>, c: Codec)
    ensures TotalTokens(a + b, c) == TotalTokens(a, c) + TotalTokens(b, c)
    decreases |b|
  {
    if |b| == 0 {
      assert a + b == a;
    } else {
      TotalTokensAppend(a, b[..|b| - 1], c);
      assert (a + b)[..|a + b| - 1] == a + b[..|b| - 1];
    }
  }

  /** Every message costs at least one token. */
  lemma {:induction false} TotalTokensAtLeastLength(ms: seq<Message>, c: Codec)
    ensures TotalTokens(ms, c) >= |ms|
    decreases |ms|
  {
    if |ms| > 0 {
      TotalTokensAtLeastLength(ms[..|ms| - 1], c);
    }
  }

  /** The count is a sum, so reordering the messages does not change it. */
  lemma {:induction false} TotalTokensPermutation(a: seq<Message>, b: seq<Message>, c: Codec)
    requires multiset(a) == multiset(b)
    ensures TotalTokens(a, c) == TotalTokens(b, c)
    decreases |a|
  {
    if |a| == 0 {
      assert |b| == |multiset(b)| == 0;
    } else {
      var x := a[|a| - 1];
      var a' := a[..|a| - 1];
      assert a == a' + [x];
      assert multiset(a) == multiset(a') + multiset{x};
      assert x in multiset(b);
      var j :| 0 <= j < |b| && b[j] == x;
      MultisetRemove(b, j);
      TotalTokensRemove(b, j, c);
      TotalTokensPermutation(a', b[..j] + b[j + 1..], c);
    }
  }

  lemma MultisetRemove<T>(b: seq<T>, j: nat)
    requires j < |b|
    ensures multiset(b[..j] + b[j + 1..]) == multiset(b) - multiset{b[j]}
  {
    assert b == b[..j] + [b[j]] + b[j + 1..];
  }

  lemma TotalTokensRemove(b: seq<Message>, j: nat, c: Codec)
    requires j < |b|
    ensures TotalTokens(b, c) == TotalTokens(b[..j] + b[j + 1..], c) + MessageTokens(b[j], c)
  {
    assert b == b[..j] + ([b[j]] + b[j + 1..]);
    TotalTokensAppend(b[..j], [b[j]] + b[j + 1..], c);
    TotalTokensAppend([b[j]], b[j + 1..], c);
    TotalTokensAppend(b[..j], b[j + 1..], c);
    assert TotalTokens([b[j]], c) == MessageTokens(b[j], c);
  }

  // Stage 1: trimming raw_content in web_search results

  const SmallContentLength := 2048
  const RawContentLimit := 1024

  /** The item has a string "raw_content" longer than the limit. */
  predicate NeedsTrim(item: Value)
  {
    item.Dict? && match Lookup(item.entries, "raw_content")
                  case Some(Str(raw)) => |raw| > RawContentLimit
                  case _ => false
  }

  /** `item["raw_content"] = raw_content[:1024]` when the item needs it. */
  function TrimItem(item: Value): (r: Value)
  {
    if NeedsTrim(item) then
      var raw := Lookup(item.entries, "raw_content").value.s;
      Dict(Put(item.entries, "raw_content", Str(raw[..RawContentLimit])))
    else item
  }

  function TrimItems(items: seq<Value>): (r: seq<Value>)
  {
    seq(|items|, i requires 0 <= i < |items| => TrimItem(items[i]))
  }

  /** A trimmed item keeps every other key and the first 1024 characters of its raw
      content; an item that needs no trim is unchanged. */
  lemma TrimItemSpec(item: Value, k: string)
    ensures !NeedsTrim(item) ==> TrimItem(item) == item
    ensures NeedsTrim(item) ==>
              TrimItem(item).Dict? &&
              (k != "raw_content" ==> Lookup(TrimItem(item).entries, k) == Lookup(item.entries, k)) &&
              exists raw :: Lookup(item.entries, "raw_content") == Some(Str(raw)) &&
                |raw| > RawContentLimit &&
                Lookup(TrimItem(item).entries, "raw_content") == Some(Str(raw[..RawContentLimit]))
  {
    if NeedsTrim(item) {
      var raw := Lookup(item.entries, "raw_content").value.s;
      PutLookup(item.entries, "raw_content", Str(raw[..RawContentLimit]), k);
      PutLookup(item.entries, "raw_content", Str(raw[..RawContentLimit]), "raw_content");
    }
  }

  /** After trimming, no item needs trimming. */
  lemma TrimItemsDone(items: seq<Value>)
    ensures forall i :: 0 <= i < |items| ==> !NeedsTrim(TrimItems(items)[i])
  {
    forall i | 0 <= i < |items| ensures !NeedsTrim(TrimItem(items[i])) {
      var item := items[i];
      if NeedsTrim(item) {
        var raw := Lookup(item.entries, "raw_content").value.s;
        PutLookup(item.entries, "raw_content", Str(raw[..RawContentLimit]), "raw_content");
      }
    }
  }

  predicate IsWebSearchResult(m: Message)
  {
    m.kind.Tool? && m.name == Some("web_search")
  }

  /** The items of a web_search message worth inspecting: string content of at least
      2048 characters that parses as JSON, or list content. */
  function ContentData(m: Message, c: Codec): Option<Value>
  {
    match m.content
    case Str(s) => if |s| < SmallContentLength then None else c.loads(s)
    case List(xs) => Some(m.content)
    case _ => None
  }

  /** One pass of stage 1 over a message: a web_search result whose data is a list with
      an item to trim is re-serialised with the trimmed items; anything else, including
      a serialisation error, leaves the message as it was. */
  function CompressMessage(m: Message, c: Codec): Message
  {
    if !IsWebSearchResult(m) then m
    else match ContentData(m, c)
      case Some(List(items)) =>
        if exists i :: 0 <= i < |items| && NeedsTrim(items[i]) then
          match c.dumps(List(TrimItems(items)))
          case Ok(text) => m.(content := Str(text))
          case Err(_) => m
        else m
      case _ => m
  }

  /** Stage 1 changes only the content, only of web_search results, and only to the
      serialisation of the trimmed items. */
  lemma CompressMessageSpec(m: Message, c: Codec)
    ensures var r := CompressMessage(m, c);
            r == m.(content := r.content) &&
            (r != m ==> IsWebSearchResult(m) && ContentData(m, c).Some? &&
                        ContentData(m, c).value.List? &&
                        Ok(r.content.s) == c.dumps(List(TrimItems(ContentData(m, c).value.items))))
  {
  }

  function Stage1(ms: seq<Message>, c: Codec): (r: seq<Message>)
  {
    seq(|ms|, i requires 0 <= i < |ms| => CompressMessage(ms[i], c))
  }

  /** Stage 1 of `_compress_messages`, on the copied list. */
  method CompressRawContents(ms: seq<Message>, c: Codec) returns (r: seq<Message>)
    ensures r == Stage1(ms, c)
  {
    r := ms;
    for i := 0 to |ms|
      invariant |r| == |ms|
      invariant forall j :: 0 <= j < i ==> r[j] == CompressMessage(ms[j], c)
      invariant forall j :: i <= j < |ms| ==> r[j] == ms[j]
    {
      r := r[i := CompressMessage(ms[i], c)];
    }
  }

  // Stage 2: eviction

  /** The stage-2 loop: `insert(len(preserved_messages), msg)` on a list that IS
      `preserved_messages`, so each message, newest first, lands at the end; the loop
      stops once the result is within the limit. */
  function Evict(result: seq<Message>, newestFirst: seq<Message>, limit: int, c: Codec): seq<Message>
    decreases |newestFirst|
  {
    if |newestFirst| == 0 then result
    else
      var next := result + [newestFirst[0]];
      if !OverLimit(next, limit, c) then next else Evict(next, newestFirst[1..], limit, c)
  }

  lemma EvictStep(result: seq<Message>, newestFirst: seq<Message>, limit: int, c: Codec)
    requires |newestFirst| > 0 && OverLimit(result + [newestFirst[0]], limit, c)
    ensures Evict(result, newestFirst, limit, c) == Evict(result + [newestFirst[0]], newestFirst[1..], limit, c)
  {
  }

  /** Adding a message never brings a list back within the limit. */
  lemma OverLimitGrows(ms: seq<Message>, m: Message, limit: int, c: Codec)
    requires OverLimit(ms, limit, c)
    ensures OverLimit(ms + [m], limit, c)
  {
    TotalTokensAppend(ms, [m], c);
  }

  /** Once over the limit, adding messages keeps it over, so the loop runs to the end. */
  lemma {:induction false} EvictOver(result: seq<Message>, newestFirst: seq<Message>, limit: int, c: Codec)
    requires OverLimit(result, limit, c)
    ensures Evict(result, newestFirst, limit, c) == result + newestFirst
    decreases |newestFirst|
  {
    if |newestFirst| > 0 {
      var next := result + [newestFirst[0]];
      OverLimitGrows(result, newestFirst[0], limit, c);
      EvictStep(result, newestFirst, limit, c);
      EvictOver(next, newestFirst[1..], limit, c);
      assert next + newestFirst[1..] == result + newestFirst;
    }
  }

  /** The outcome of stage 2: the prefix and the newest message when that fits, else the
      prefix followed by every other message, newest first. */
  lemma EvictOutcome(prefix: seq<Message>, remaining: seq<Message>, limit: int, c: Codec)
    requires OverLimit(prefix + remaining, limit, c)
    ensures var r := Evict(prefix, Reversed(remaining), limit, c);
            if |remaining| > 0 && !OverLimit(prefix + [remaining[|remaining| - 1]], limit, c)
            then r == prefix + [remaining[|remaining| - 1]]
            else r == prefix + Reversed(remaining)
  {
    var rev := Reversed(remaining);
    if |remaining| == 0 {
      assert rev == [];
    } else {
      var next := prefix + [rev[0]];
      if OverLimit(next, limit, c) {
        EvictOver(next, rev[1..], limit, c);
        assert next + rev[1..] == prefix + rev;
      }
    }
  }

  /** `_compress_messages(messages)` as a value. */
  function Compressed(mgr: Manager, ms: seq<Message>, c: Codec): seq<Message>
    requires mgr.tokenLimit.Some?
  {
    var limit := mgr.tokenLimit.value;
    var s1 := Stage1(ms, c);
    if OverLimit(s1, limit, c) then
      var k := mgr.preservePrefixMessageCount;
      Evict(SliceTo(s1, k), Reversed(SliceFrom(s1, k)), limit, c)
    else s1
  }

  /** The stage-2 loop. */
  method EvictOldest(preserved: seq<Message>, remaining: seq<Message>, limit: int, c: Codec)
    returns (r: seq<Message>)
    ensures r == Evict(preserved, Reversed(remaining), limit, c)
  {
    var rev := Reversed(remaining);
    r := preserved;
    var i := 0;
    while i < |rev|
      invariant 0 <= i <= |rev|
      invariant Evict(preserved, rev, limit, c) == Evict(r, rev[i..], limit, c)
      decreases |rev| - i
    {
      r := r + [rev[i]];
      assert rev[i..][1..] == rev[i + 1..];
      var over := IsOverLimit(r, limit, c);
      if !over {
        return;
      }
      i := i + 1;
    }
  }

  /** `_compress_messages(messages)`. */
  method CompressMessageList(mgr: Manager, ms: seq<Message>, c: Codec) returns (r: seq<Message>)
    requires mgr.tokenLimit.Some?
    ensures r == Compressed(mgr, ms, c)
  {
    var limit := mgr.tokenLimit.value;
    r := CompressRawContents(ms, c);
    var over := IsOverLimit(r, limit, c);
    if over {
      var k := mgr.preservePrefixMessageCount;
      r := EvictOldest(SliceTo(r, k), SliceFrom(r, k), limit, c);
    }
  }

  /** The preserved prefix of the stage-1 list leads the result, and nothing is added. */
  lemma CompressedKeepsPrefix(mgr: Manager, ms: seq<Message>, c: Codec)
    requires mgr.tokenLimit.Some?
    ensures var r := Compressed(mgr, ms, c);
            SliceTo(Stage1(ms, c), mgr.preservePrefixMessageCount) <= r && |r| <= |ms|
  {
    var limit := mgr.tokenLimit.value;
    var s1 := Stage1(ms, c);
    var k := mgr.preservePrefixMessageCount;
    if OverLimit(s1, limit, c) {
      var prefix := SliceTo(s1, k);
      var rest := SliceFrom(s1, k);
      EvictOutcome(prefix, rest, limit, c);
    }
  }

  /** `compress_messages(state)` on the state's "messages" entry (`None` when the state
      has none): unchanged without a limit, without messages or within the limit. */
  function CompressedState(mgr: Manager, messages: Option<seq<Message>>, c: Codec): Option<seq<Message>>
  {
    if mgr.tokenLimit.None? || messages.None? then messages
    else if !OverLimit(messages.value, mgr.tokenLimit.value, c) then messages
    else Some(Compressed(mgr, messages.value, c))
  }

  method CompressMessages(mgr: Manager, messages: Option<seq<Message>>, c: Codec) returns (r: Option<seq<Message>>)
    ensures r == CompressedState(mgr, messages, c)
  {
    if mgr.tokenLimit.None? || messages.None? {
      return messages;
    }
    var over := IsOverLimit(messages.value, mgr.tokenLimit.value, c);
    if !over {
      return messages;
    }
    var compressed := CompressMessageList(mgr, messages.value, c);
    r := Some(compressed);
  }

  /** The state is untouched unless there is a limit, there are messages and they exceed
      it. */
  lemma CompressedStateUnchanged(mgr: Manager, messages: Option<seq<Message>>, c: Codec)
    ensures CompressedState(mgr, messages, c) != messages ==>
              mgr.tokenLimit.Some? && messages.Some? && OverLimit(messages.value, mgr.tokenLimit.value, c)
  {
  }

  // validate_message_content

  /** The string the content becomes: `None` gives "", a list or dict its JSON, a string
      itself, anything else `str()`; over-long text is cut to the limit, right-stripped
      and marked with "...". `Err` carries the exception text of a failed conversion. */
  function ValidContent(m: Message, maxContentLength: int, c: Codec): Result<string, string>
  {
    var s :- match m.content
             case Null => Ok([])
             case List(_) => c.dumps(m.content)
             case Dict(_) => c.dumps(m.content)
             case Str(s) => Ok(s)
             case _ => Ok(c.repr(m.content));
    Ok(Truncated(s, maxContentLength))
  }

  /** One message after validation; a failed conversion becomes a JSON error envelope for
      a tool message and bracketed text otherwise. `Err` means the envelope itself could
      not be serialised, which escapes the function. */
  function ValidMessage(m: Message, maxContentLength: int, c: Codec): Result<Message, string>
  {
    match ValidContent(m, maxContentLength, c)
    case Ok(s) => Ok(m.(content := Str(s)))
    case Err(e) =>
      if m.kind.Tool? then
        var envelope :- c.dumps(Dict([("error", Str(e))]));
        Ok(m.(content := Str(envelope)))
      else Ok(m.(content := Str("[Error processing message: " + e + "]")))
  }

  function ValidMessages(ms: seq<Message>, maxContentLength: int, c: Codec): Result<seq<Message>, string>
    decreases |ms|
  {
    if |ms| == 0 then Ok([])
    else
      var init :- ValidMessages(ms[..|ms| - 1], maxContentLength, c);
      var last :- ValidMessage(ms[|ms| - 1], maxContentLength, c);
      Ok(init + [last])
  }

  /** `validate_message_content(messages, max_content_length)`. */
  method ValidateMessageContent(ms: seq<Message>, maxContentLength: int, c: Codec)
    returns (r: Result<seq<Message>, string>)
    ensures r == ValidMessages(ms, maxContentLength, c)
    ensures EncodesErrorEnvelopes(c) ==> r.Ok? && ContentOnly(r.value, ms)
  {
    var validated: seq<Message> := [];
    for i := 0 to |ms|
      invariant ValidMessages(ms[..i], maxContentLength, c) == Ok(validated)
    {
      assert ms[..i + 1][..i] == ms[..i];
      var v := ValidMessage(ms[i], maxContentLength, c);
      if v.Err? {
        assert ms[..i + 1] + ms[i + 1..] == ms;
        ValidMessagesErrPrefix(ms[..i + 1], ms[i + 1..], maxContentLength, c);
        return Err(v.error);
      }
      validated := validated + [v.value];
    }
    assert ms[..|ms|] == ms;
    r := Ok(validated);
    ValidMessagesShape(ms, maxContentLength, c);
  }

  lemma {:induction false} ValidMessagesErrPrefix(ms: seq<Message>, rest: seq<Message>, maxContentLength: int, c: Codec)
    requires ValidMessages(ms, maxContentLength, c).Err?
    ensures ValidMessages(ms + rest, maxContentLength, c) == ValidMessages(ms, maxContentLength, c)
    decreases |rest|
  {
    if |rest| == 0 {
      assert ms + rest == ms;
    } else {
      ValidMessagesErrPrefix(ms, rest[..|rest| - 1], maxContentLength, c);
      assert (ms + rest)[..|ms + rest| - 1] == ms + rest[..|rest| - 1];
    }
  }

  /** Validated content is text within the limit plus the three-character marker, and
      text already within the limit is kept as it is. */
  lemma ValidContentBound(m: Message, maxContentLength: int, c: Codec)
    requires ValidContent(m, maxContentLength, c).Ok?
    ensures var s := ValidContent(m, maxContentLength, c).value;
            (maxContentLength >= 0 ==> |s| <= maxContentLength + 3) &&
            (m.content.Str? && |m.content.s| <= maxContentLength ==> s == m.content.s) &&
            (m.content.Null? && maxContentLength >= 0 ==> s == [])
  {
  }

  /** Validation keeps the messages and their order, changes only their content, and
      leaves every content a string. */
  lemma {:induction false} ValidMessagesShape(ms: seq<Message>, maxContentLength: int, c: Codec)
    ensures var r := ValidMessages(ms, maxContentLength, c);
            r.Ok? ==> |r.value| == |ms| &&
                      forall i :: 0 <= i < |ms| ==>
                        r.value[i].content.Str? && r.value[i] == ms[i].(content := r.value[i].content)
    decreases |ms|
  {
    if |ms| > 0 && ValidMessages(ms, maxContentLength, c).Ok? {
      var n := |ms| - 1;
      var init := ValidMessages(ms[..n], maxContentLength, c).value;
      var last := ValidMessage(ms[n], maxContentLength, c).value;
      assert ValidMessages(ms, maxContentLength, c).value == init + [last];
      assert ContentOnly(init, ms[..n]) by {
        ValidMessagesShape(ms[..n], maxContentLength, c);
      }
      assert last.content.Str? && last == ms[n].(content := last.content) by {
        ValidMessageShape(ms[n], maxContentLength, c);
      }
      ContentOnlyAppend(init, last, ms);
    }
  }

  /** The encoder serialises every `{"error": text}` envelope, as `json.dumps` does for a
      one-key dict holding a string. */
  ghost predicate EncodesErrorEnvelopes(c: Codec)
  {
    forall e: string :: c.dumps(Dict([("error", Str(e))])).Ok?
  }

  /** With such an encoder one message never fails: a failed conversion is caught and
      replaced by its envelope or bracketed text. */
  lemma ValidMessageNeverFails(m: Message, maxContentLength: int, c: Codec)
    requires EncodesErrorEnvelopes(c)
    ensures ValidMessage(m, maxContentLength, c).Ok?
  {
  }

  /** With such an encoder `validate_message_content` never raises, and the result keeps
      the messages and their order with every content a string. */
  lemma {:induction false} ValidMessagesNeverFails(ms: seq<Message>, maxContentLength: int, c: Codec)
    requires EncodesErrorEnvelopes(c)
    ensures ValidMessages(ms, maxContentLength, c).Ok?
    ensures ContentOnly(ValidMessages(ms, maxContentLength, c).value, ms)
    decreases |ms|
  {
    if |ms| > 0 {
      ValidMessagesNeverFails(ms[..|ms| - 1], maxContentLength, c);
      ValidMessageNeverFails(ms[|ms| - 1], maxContentLength, c);
    }
    ValidMessagesShape(ms, maxContentLength, c);
  }

  /** `r` is `ms` with every content replaced by a string. */
  predicate ContentOnly(r: seq<Message>, ms: seq<Message>)
  {
    |r| == |ms| && forall i :: 0 <= i < |ms| ==> r[i].content.Str? && r[i] == ms[i].(content := r[i].content)
  }

  lemma ContentOnlyAppend(init: seq<Message>, last: Message, ms: seq<Message>)
    requires |ms| > 0 && ContentOnly(init, ms[..|ms| - 1])
    requires last.content.Str? && last == ms[|ms| - 1].(content := last.content)
    ensures ContentOnly(init + [last], ms)
  {
    var n := |ms| - 1;
    forall i | 0 <= i < |ms|
      ensures (init + [last])[i].content.Str? && (init + [last])[i] == ms[i].(content := (init + [last])[i].content)
    {
      if i < n {
        assert ms[..n][i] == ms[i] && (init + [last])[i] == init[i];
      } else {
        assert (init + [last])[i] == last;
      }
    }
  }

  /** One validated message differs from the original only in its content, now a string. */
  lemma ValidMessageShape(m: Message, maxContentLength: int, c: Codec)
    ensures var v := ValidMessage(m, maxContentLength, c);
            v.Ok? ==> v.value.content.Str? && v.value == m.(content := v.value.content)
  {
  }
}
