// The InfoQuest crawler client (crawler/infoquest_client.py): the request body and
// headers it sends, and how it turns the service's reply into the crawled text. The
// HTTP call and `json.loads` are external: their results are parameters.
module InfoQuestClient {
  import opened Wrappers
  import opened Strings
  import opened Values
  import ConfigLoader

  type Entries = seq<(string, Value)>

  /** Python's name for the type of a decoded JSON value. */
  function TypeName(v: Value): string
  {
    match v
    case Null => "NoneType"
    case Bool(_) => "bool"
    case Num(x) => if x.Floor as real == x then "int" else "float"
    case Str(_) => "str"
    case List(_) => "list"
    case Dict(_) => "dict"
  }

  /** `v > 0`: numbers and booleans compare, anything else raises `TypeError`. */
  function Positive(v: Value): (r: Result<bool, string>)
    ensures r.Ok? <==> v.Num? || v.Bool?
    ensures v.Num? ==> r == Ok(v.x > 0.0)
    ensures v.Bool? ==> r == Ok(v.b)
  {
    match v
    case Num(x) => Ok(x > 0.0)
    case Bool(b) => Ok(b)
    case _ => Err("'>' not supported between instances of '" + TypeName(v) + "' and 'int'")
  }

  /** `vs[0] > 0 or vs[1] > 0 or ...`, evaluated left to right. */
  function AnyPositive(vs: seq<Value>): (r: Result<bool, string>)
  {
    if |vs| == 0 then Ok(false)
    else
      match Positive(vs[0])
      case Err(e) => Err(e)
      case Ok(true) => Ok(true)
      case Ok(false) => AnyPositive(vs[1..])
  }

  /** The disjunction is false exactly when every operand compares and is not positive,
      and true only when some operand is positive. */
  lemma {:induction false} AnyPositiveMeaning(vs: seq<Value>)
    ensures AnyPositive(vs) == Ok(false) <==> forall i :: 0 <= i < |vs| ==> Positive(vs[i]) == Ok(false)
    ensures AnyPositive(vs) == Ok(true) ==> exists i :: 0 <= i < |vs| && Positive(vs[i]) == Ok(true)
  {
    if |vs| > 0 {
      AnyPositiveMeaning(vs[1..]);
      if Positive(vs[0]) == Ok(false) {
        assert forall i :: 0 < i < |vs| ==> vs[i] == vs[1..][i - 1];
        if AnyPositive(vs) == Ok(true) {
          var j :| 0 <= j < |vs[1..]| && Positive(vs[1..][j]) == Ok(true);
          assert Positive(vs[j + 1]) == Ok(true);
        }
      }
    }
  }

  /** `_prepare_request_data`'s format: "html" in any case becomes "HTML". */
  function NormalizedFormat(returnFormat: string): string
  {
    if returnFormat != "" && Lower(returnFormat) == "html" then "HTML" else returnFormat
  }

  /** The format sent is "HTML" exactly when the requested one is "html" in some case;
      any other format is sent as given. */
  lemma NormalizedFormatMeaning(returnFormat: string)
    ensures NormalizedFormat(returnFormat) == "HTML" <==> Lower(returnFormat) == "html"
    ensures Lower(returnFormat) != "html" ==> NormalizedFormat(returnFormat) == returnFormat
  {
    var l := Lower("HTML");
    assert l[0] == 'h' && l[1] == 't' && l[2] == 'm' && l[3] == 'l';
    assert l == "html";
  }

  /** The entry a timeout adds to the request: only a positive value is sent. */
  function TimeoutEntry(key: string, v: Value): Entries
  {
    if Positive(v) == Ok(true) then [(key, v)] else []
  }

  lemma KeysOfEntry(key: string, v: Value)
    ensures Keys(TimeoutEntry(key, v)) == if Positive(v) == Ok(true) then [key] else []
  {
    if Positive(v) == Ok(true) {
      assert TimeoutEntry(key, v)[1..] == [];
    }
  }

  /** Storing a key the entries do not have appends it. */
  lemma {:induction false} PutNew(es: Entries, k: string, v: Value)
    requires !HasKey(es, k)
    ensures Put(es, k, v) == es + [(k, v)]
  {
    if |es| > 0 {
      assert Keys(es) == [es[0].0] + Keys(es[1..]);
      PutNew(es[1..], k, v);
      assert es == [es[0]] + es[1..];
    }
  }

  lemma KeysAppend(a: Entries, b: Entries)
    ensures Keys(a + b) == Keys(a) + Keys(b)
  {
    if |a| > 0 {
      assert (a + b)[1..] == a[1..] + b;
      KeysAppend(a[1..], b);
    } else {
      assert a + b == b;
    }
  }

  /** One step of building `timeout_params`: the key is stored when the value is
      positive; comparing a value that is not a number raises. */
  method AddTimeout(params: Entries, key: string, v: Value) returns (r: Result<Entries, string>)
    requires !HasKey(params, key)
    ensures r.Ok? <==> Positive(v).Ok?
    ensures r.Ok? ==> r.value == params + TimeoutEntry(key, v)
  {
    var p := Positive(v);
    if p.Err? {
      return Err(p.error);
    }
    if p.value {
      PutNew(params, key, v);
      return Ok(Put(params, key, v));
    }
    return Ok(params);
  }

  /** `data.update(params)` when no key of `params` is in `data`: the entries are
      appended in order. */
  method Update(data: Entries, params: Entries) returns (r: Entries)
    requires WellFormed(data + params)
    ensures r == data + params
  {
    r := data;
    KeysIndex(data + params);
    for i := 0 to |params|
      invariant r == data + params[..i]
    {
      var prefix := data + params[..i];
      KeysIndex(prefix);
      assert forall j :: 0 <= j < |prefix| ==> prefix[j] == (data + params)[j];
      assert params[i] == (data + params)[|data| + i];
      assert params[i].0 !in Keys(prefix);
      PutNew(r, params[i].0, params[i].1);
      r := Put(r, params[i].0, params[i].1);
      assert params[..i + 1] == params[..i] + [params[i]];
    }
    assert params[..|params|] == params;
  }

  /** The client with the timeouts it was built with; -1 means "not set". */
  class Client {
    const fetchTime: Value
    const timeout: Value
    const naviTimeout: Value

    constructor(fetchTime: Value, timeout: Value, naviTimeout: Value)
      ensures this.fetchTime == fetchTime && this.timeout == timeout && this.naviTimeout == naviTimeout
    {
      this.fetchTime := fetchTime;
      this.timeout := timeout;
      this.naviTimeout := naviTimeout;
    }

    /** `_prepare_request_data`: url and format first, then each timeout that is
        positive, in the order fetch_time, timeout, navi_timeout; a timeout that cannot
        be compared with 0 raises. */
    method PrepareRequestData(url: string, returnFormat: string) returns (r: Result<Entries, string>)
      ensures r.Ok? <==> Positive(fetchTime).Ok? && Positive(timeout).Ok? && Positive(naviTimeout).Ok?
      ensures r.Ok? ==> r.value == RequestData(url, returnFormat, fetchTime, timeout, naviTimeout)
    {
      var data: Entries := [("url", Str(url)), ("format", Str(NormalizedFormat(returnFormat)))];
      var params: Entries := [];
      var added := AddTimeout(params, "fetch_time", fetchTime);
      if added.Err? {
        return Err(added.error);
      }
      params := added.value;
      assert !HasKey(params, "timeout") by {
        assert params == TimeoutEntry("fetch_time", fetchTime);
        KeysOfEntry("fetch_time", fetchTime);
      }
      added := AddTimeout(params, "timeout", timeout);
      if added.Err? {
        return Err(added.error);
      }
      params := added.value;
      assert !HasKey(params, "navi_timeout") by {
        KeysOfEntry("fetch_time", fetchTime);
        KeysOfEntry("timeout", timeout);
        KeysAppend(TimeoutEntry("fetch_time", fetchTime), TimeoutEntry("timeout", timeout));
      }
      added := AddTimeout(params, "navi_timeout", naviTimeout);
      if added.Err? {
        return Err(added.error);
      }
      params := added.value;
      assert data + params == RequestData(url, returnFormat, fetchTime, timeout, naviTimeout);
      assert WellFormed(data + params) by {
        RequestDataLookups(url, returnFormat, fetchTime, timeout, naviTimeout);
      }
      data := Update(data, params);
      return Ok(data);
    }
  }

  /** The request body `_prepare_request_data` builds from its parts. */
  function RequestData(url: string, returnFormat: string, fetchTime: Value, timeout: Value, naviTimeout: Value): Entries
  {
    [("url", Str(url)), ("format", Str(NormalizedFormat(returnFormat)))] +
    TimeoutEntry("fetch_time", fetchTime) + TimeoutEntry("timeout", timeout) +
    TimeoutEntry("navi_timeout", naviTimeout)
  }

  /** The keys sent: url, format, then the positive timeouts in order. */
  lemma RequestDataKeys(url: string, returnFormat: string, fetchTime: Value, timeout: Value, naviTimeout: Value)
    ensures Keys(RequestData(url, returnFormat, fetchTime, timeout, naviTimeout)) ==
      ["url", "format"] + (if Positive(fetchTime) == Ok(true) then ["fetch_time"] else []) +
      (if Positive(timeout) == Ok(true) then ["timeout"] else []) +
      (if Positive(naviTimeout) == Ok(true) then ["navi_timeout"] else [])
  {
    var base := [("url", Str(url)), ("format", Str(NormalizedFormat(returnFormat)))];
    var a := TimeoutEntry("fetch_time", fetchTime);
    var b := TimeoutEntry("timeout", timeout);
    var c := TimeoutEntry("navi_timeout", naviTimeout);
    KeysAppend(base, a);
    KeysAppend(base + a, b);
    KeysAppend(base + a + b, c);
  }

  /** The request always carries the url and the normalized format; a timeout is sent
      exactly when it is positive, and no key is sent twice. */
  lemma RequestDataLookups(url: string, returnFormat: string, fetchTime: Value, timeout: Value, naviTimeout: Value)
    ensures var d := RequestData(url, returnFormat, fetchTime, timeout, naviTimeout);
      Lookup(d, "url") == Some(Str(url)) &&
      Lookup(d, "format") == Some(Str(NormalizedFormat(returnFormat))) &&
      (Lookup(d, "fetch_time").Some? <==> Positive(fetchTime) == Ok(true)) &&
      (Lookup(d, "timeout").Some? <==> Positive(timeout) == Ok(true)) &&
      (Lookup(d, "navi_timeout").Some? <==> Positive(naviTimeout) == Ok(true)) &&
      WellFormed(d)
  {
    var d := RequestData(url, returnFormat, fetchTime, timeout, naviTimeout);
    RequestDataKeys(url, returnFormat, fetchTime, timeout, naviTimeout);
    LookupSomeIffHasKey(d, "fetch_time");
    LookupSomeIffHasKey(d, "timeout");
    LookupSomeIffHasKey(d, "navi_timeout");
    OptionalKeysDistinct(Positive(fetchTime) == Ok(true), Positive(timeout) == Ok(true), Positive(naviTimeout) == Ok(true));
  }

  /** The keys of every request body are distinct, whichever timeouts are sent. */
  lemma OptionalKeysDistinct(a: bool, b: bool, c: bool)
    ensures Distinct(["url", "format"] + (if a then ["fetch_time"] else []) + (if b then ["timeout"] else []) +
                     (if c then ["navi_timeout"] else []))
  {
    var ks := ["url", "format"] + (if a then ["fetch_time"] else []) + (if b then ["timeout"] else []) +
              (if c then ["navi_timeout"] else []);
    var lengths := [3, 6] + (if a then [10] else []) + (if b then [7] else []) + (if c then [12] else []);
    assert |ks| == |lengths| && forall i :: 0 <= i < |ks| ==> |ks[i]| == lengths[i];
    assert forall i, j :: 0 <= i < j < |lengths| ==> lengths[i] != lengths[j];
  }

  /** `_prepare_headers`: the JSON content type, plus a bearer token when the API key is
      set to a non-empty value. */
  function PrepareHeaders(env: ConfigLoader.Env): (h: seq<(string, string)>)
    ensures |h| >= 1 && h[0] == ("Content-Type", "application/json")
    ensures |h| == 2 <==> "INFOQUEST_API_KEY" in env && env["INFOQUEST_API_KEY"] != ""
    ensures |h| == 2 ==> h[1] == ("Authorization", "Bearer " + env["INFOQUEST_API_KEY"])
    ensures |h| <= 2
  {
    var headers := [("Content-Type", "application/json")];
    if "INFOQUEST_API_KEY" in env && env["INFOQUEST_API_KEY"] != "" then
      headers + [("Authorization", "Bearer " + env["INFOQUEST_API_KEY"])]
    else headers
  }

  /** The HTTP reply. */
  datatype Response = Response(status: int, text: string)

  /** The in-band error text `crawl` returns instead of raising. */
  function ErrorText(message: string): (t: string)
    ensures StartsWith(t, "Error: ") && t[7..] == message
  {
    "Error: " + message
  }

  function RequestFailed(e: string): string
  {
    ErrorText("Request to InfoQuest API failed: " + e)
  }

  /** The key the reply is read from, as `key in data` followed by `data[key]` on the
      decoded body: a dict yields its entry, a string or list containing the key raises
      on indexing, and a scalar raises on the membership test. `None` means neither key
      is present and the raw text is returned. */
  function ReadField(data: Value): Result<Option<Value>, string>
  {
    match data
    case Dict(es) =>
      if HasKey(es, "reader_result") then Ok(Lookup(es, "reader_result"))
      else if HasKey(es, "content") then Ok(Lookup(es, "content"))
      else Ok(None)
    case Str(s) =>
      if Contains(s, "reader_result") || Contains(s, "content") then Err("string indices must be integers, not 'str'")
      else Ok(None)
    case List(xs) =>
      if Str("reader_result") in xs || Str("content") in xs then Err("list indices must be integers or slices, not str")
      else Ok(None)
    case _ => Err("argument of type '" + TypeName(data) + "' is not iterable")
  }

  /** What `InfoQuestClient.crawl` returns: `post` is the HTTP reply or the message of
      the exception the request raised, `decoded` the JSON parse of the reply text
      (`None` when it is not JSON). */
  function CrawlReply(post: Result<Response, string>, decoded: Option<Value>): (r: Value)
    ensures post.Err? ==> r == Str(RequestFailed(post.error))
    ensures post.Ok? && post.value.status != 200 ==>
      r == Str(ErrorText("InfoQuest API returned status " + IntToString(post.value.status) + ": " + post.value.text))
    ensures post.Ok? && post.value.status == 200 && IsBlank(post.value.text) ==>
      r == Str(ErrorText("InfoQuest Crawler API returned empty response"))
    ensures post.Ok? && post.value.status == 200 && !IsBlank(post.value.text) && decoded.None? ==>
      r == Str(post.value.text)
  {
    match post
    case Err(e) => Str(RequestFailed(e))
    case Ok(response) =>
      if response.status != 200 then
        Str(ErrorText("InfoQuest API returned status " + IntToString(response.status) + ": " + response.text))
      else if IsBlank(response.text) then Str(ErrorText("InfoQuest Crawler API returned empty response"))
      else
        match decoded
        case None => Str(response.text)
        case Some(data) =>
          match ReadField(data)
          case Err(e) => Str(RequestFailed(e))
          case Ok(Some(v)) => v
          case Ok(None) => Str(response.text)
  }

  /** A decoded dict with "reader_result" yields it whatever else it holds; without it,
      "content" is used; with neither, the raw text comes back. */
  lemma DictReplyFields(response: Response, es: Entries)
    requires response.status == 200 && !IsBlank(response.text)
    ensures HasKey(es, "reader_result") ==>
      Lookup(es, "reader_result") == Some(CrawlReply(Ok(response), Some(Dict(es))))
    ensures !HasKey(es, "reader_result") && HasKey(es, "content") ==>
      Lookup(es, "content") == Some(CrawlReply(Ok(response), Some(Dict(es))))
    ensures !HasKey(es, "reader_result") && !HasKey(es, "content") ==>
      CrawlReply(Ok(response), Some(Dict(es))) == Str(response.text)
  {
    LookupSomeIffHasKey(es, "reader_result");
    LookupSomeIffHasKey(es, "content");
  }

  /** Every failure is reported in-band as text starting with "Error: "; the reply never
      raises. */
  lemma FailuresAreErrorText(post: Result<Response, string>, decoded: Option<Value>)
    requires post.Err? || post.value.status != 200 || IsBlank(post.value.text) ||
      (decoded.Some? && ReadField(decoded.value).Err?)
    ensures CrawlReply(post, decoded).Str? && StartsWith(CrawlReply(post, decoded).s, "Error: ")
  {
    if post.Ok? && post.value.status == 200 && !IsBlank(post.value.text) {
      var e := ReadField(decoded.value).error;
      assert CrawlReply(post, decoded) == Str(RequestFailed(e));
    }
  }
}
