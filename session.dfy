/** Session state the client keeps from server pushes, its clock offset, the
    verdict on the authentication answer and the outcome of a request sent
    with retries (myiq/core/client.py), as functions of the old state and
    what the server sent. The client class runs the loops against them. */
module Session {
  import opened PyJson
  import opened Constants

  // ------------------------------------------ features and user-settings

  /** The loop shared by `_on_features` (value key `status`) and
      `_on_user_settings` (value key `config`): each dict item with a truthy
      `name` sets `table[name]` to the item's value key (`None` when it is
      missing); an item that is not a dict, or a truthy but unhashable
      name, raises, which the handler catches, ending the loop. */
  function Named(table: map<Json, Json>, items: seq<Json>, valueKey: string): map<Json, Json>
    decreases |items|
  {
    if items == [] then table
    else if !items[0].Obj? then table
    else
      var name := GetOr(items[0].fields, "name", Null);
      if !Truthy(name) then Named(table, items[1..], valueKey)
      else if !Hashable(name) then table
      else Named(table[name := GetOr(items[0].fields, valueKey, Null)], items[1..], valueKey)
  }

  /** What a handler reading `message.msg[listKey]` leaves in its table. */
  function NamedSpec(table: map<Json, Json>, message: Json, listKey: string, valueKey: string): map<Json, Json> {
    if !message.Obj? then table
    else
      var msg := GetOr(message.fields, "msg", EMPTY_OBJ);
      if msg.Obj? then Named(table, ListItems(msg.fields, listKey), valueKey) else table
  }

  /** `_on_features`. */
  function FeaturesSpec(features: map<Json, Json>, message: Json): map<Json, Json> {
    NamedSpec(features, message, "features", "status")
  }

  /** `_on_user_settings`. */
  function SettingsSpec(settings: map<Json, Json>, message: Json): map<Json, Json> {
    NamedSpec(settings, message, "configs", "config")
  }

  /** The item at `i` names `name`, and it is reached: every item before it
      is a dict whose name is falsy or hashable. */
  ghost predicate Reached(items: seq<Json>, i: nat) {
    i < |items| && forall j :: 0 <= j < i ==> items[j].Obj? && (Truthy(GetOr(items[j].fields, "name", Null)) ==> Hashable(GetOr(items[j].fields, "name", Null)))
  }

  /** Entries are only added or overwritten, never removed. */
  lemma {:induction false} NamedKeepsKeys(table: map<Json, Json>, items: seq<Json>, valueKey: string)
    ensures table.Keys <= Named(table, items, valueKey).Keys
    decreases |items|
  {
    if items != [] && items[0].Obj? {
      var name := GetOr(items[0].fields, "name", Null);
      if !Truthy(name) {
        NamedKeepsKeys(table, items[1..], valueKey);
      } else if Hashable(name) {
        NamedKeepsKeys(table[name := GetOr(items[0].fields, valueKey, Null)], items[1..], valueKey);
      }
    }
  }

  /** A name no dict item carries keeps its entry, or its absence. */
  lemma {:induction false} NamedFrame(table: map<Json, Json>, items: seq<Json>, valueKey: string, name: Json)
    requires forall j :: 0 <= j < |items| && items[j].Obj? ==> GetOr(items[j].fields, "name", Null) != name
    ensures name in Named(table, items, valueKey) <==> name in table
    ensures name in table ==> Named(table, items, valueKey)[name] == table[name]
    decreases |items|
  {
    if items != [] && items[0].Obj? {
      var n := GetOr(items[0].fields, "name", Null);
      assert forall j :: 0 <= j < |items[1..]| ==> items[1..][j] == items[j + 1];
      if !Truthy(n) {
        NamedFrame(table, items[1..], valueKey, name);
      } else if Hashable(n) {
        NamedFrame(table[n := GetOr(items[0].fields, valueKey, Null)], items[1..], valueKey, name);
      }
    }
  }

  /** A reached item with a truthy, hashable name sets its entry, unless a
      later item carries the same name (then the later value wins). */
  lemma {:induction false} NamedSets(table: map<Json, Json>, items: seq<Json>, valueKey: string, i: nat)
    requires Reached(items, i) && items[i].Obj?
    requires Truthy(GetOr(items[i].fields, "name", Null)) && Hashable(GetOr(items[i].fields, "name", Null))
    requires forall j :: i < j < |items| && items[j].Obj? ==> GetOr(items[j].fields, "name", Null) != GetOr(items[i].fields, "name", Null)
    ensures var name := GetOr(items[i].fields, "name", Null);
            name in Named(table, items, valueKey) && Named(table, items, valueKey)[name] == GetOr(items[i].fields, valueKey, Null)
    decreases |items|
  {
    var n := GetOr(items[0].fields, "name", Null);
    var next := if !Truthy(n) then table else table[n := GetOr(items[0].fields, valueKey, Null)];
    assert forall j :: 0 <= j < |items[1..]| ==> items[1..][j] == items[j + 1];
    if i == 0 {
      NamedFrame(next, items[1..], valueKey, n);
    } else {
      NamedSets(next, items[1..], valueKey, i - 1);
    }
  }

  /** An item with an empty or missing name is skipped, and the loop goes on. */
  lemma NamelessItemSkipped(table: map<Json, Json>, item: seq<Field>, rest: seq<Json>, valueKey: string)
    requires !Truthy(GetOr(item, "name", Null))
    ensures Named(table, [Obj(item)] + rest, valueKey) == Named(table, rest, valueKey)
  {
    assert ([Obj(item)] + rest)[1..] == rest;
  }

  // ------------------------------------------------------------- profile

  /** `_on_profile`: the profile becomes `msg` exactly when `msg` is truthy;
      the `.get("user_id")` that follows only feeds the log. */
  function ProfileSpec(profile: Json, message: Json): (r: Json)
    ensures message.Obj? && Truthy(GetOr(message.fields, "msg", EMPTY_OBJ)) ==> r == GetOr(message.fields, "msg", EMPTY_OBJ)
    ensures r != profile ==> message.Obj? && Truthy(r) && r == GetOr(message.fields, "msg", EMPTY_OBJ)
  {
    if !message.Obj? then profile
    else
      var msg := GetOr(message.fields, "msg", EMPTY_OBJ);
      if Truthy(msg) then msg else profile
  }

  // ---------------------------------------------------------- clock sync

  /** `_on_ws_message`: a `timeSync` push sets the offset to the server's
      millisecond time minus the local one; other messages leave it. A
      missing or non-numeric server time makes the subtraction raise. */
  function TimeSyncOffset(offset: real, msg: Json, localMs: int): (r: Result<real>)
    ensures msg.Obj? && GetOr(msg.fields, "name", Null) != Str(EV_TIME_SYNC) ==> r == Ok(offset)
    ensures msg.Obj? && GetOr(msg.fields, "name", Null) == Str(EV_TIME_SYNC) && AsNumber(GetOr(msg.fields, "msg", Null)).Some? ==>
              r == Ok(AsNumber(GetOr(msg.fields, "msg", Null)).value - localMs as real)
    ensures r.Raise? <==> !msg.Obj? || (GetOr(msg.fields, "name", Null) == Str(EV_TIME_SYNC)
                                        && AsNumber(GetOr(msg.fields, "msg", Null)).None?)
  {
    if !msg.Obj? then Raise("AttributeError")
    else if GetOr(msg.fields, "name", Null) != Str(EV_TIME_SYNC) then Ok(offset)
    else match AsNumber(GetOr(msg.fields, "msg", Null))
      case None => Raise("TypeError")
      case Some(server) => Ok(server - localMs as real)
  }

  /** `get_server_timestamp`: whole seconds of the corrected clock,
      truncated toward zero as `int()` does. */
  function ServerTimestamp(localMs: int, offset: real): (r: int)
    ensures localMs as real + offset >= 0.0 ==> r as real * 1000.0 <= localMs as real + offset < (r + 1) as real * 1000.0
    ensures localMs as real + offset < 0.0 ==> (r - 1) as real * 1000.0 < localMs as real + offset <= r as real * 1000.0
  {
    Trunc((localMs as real + offset) / 1000.0)
  }

  /** Truncation preserves order. */
  lemma TruncMonotone(x: real, y: real)
    requires x <= y
    ensures Trunc(x) <= Trunc(y)
  {
  }

  /** The server clock never runs backwards while the offset stands. */
  lemma ServerTimestampMonotone(t1: int, t2: int, offset: real)
    requires t1 <= t2
    ensures ServerTimestamp(t1, offset) <= ServerTimestamp(t2, offset)
  {
    TruncMonotone((t1 as real + offset) / 1000.0, (t2 as real + offset) / 1000.0);
  }

  /** After a sync that reported server time `server` at local time `t0`, the
      timestamp at local time `t` is the server time advanced by the local
      time elapsed since, in whole seconds. */
  lemma SyncedTimestamp(server: int, t0: int, t: int)
    requires server + (t - t0) >= 0
    ensures var offset := TimeSyncOffset(0.0, Obj([Field("name", Str(EV_TIME_SYNC)), Field("msg", Int(server))]), t0);
            offset.Ok? && ServerTimestamp(t, offset.value) == (server + (t - t0)) / 1000
  {
    var msg := Obj([Field("name", Str(EV_TIME_SYNC)), Field("msg", Int(server))]);
    assert msg.fields[0].key != "msg" && msg.fields[1..] == [Field("msg", Int(server))];
    assert Find(msg.fields, "msg") == Some(1);
    var offset := (server - t0) as real;
    assert TimeSyncOffset(0.0, msg, t0) == Ok(offset);
    var n := server + (t - t0);
    assert t as real + offset == n as real;
    var r := ServerTimestamp(t, offset);
    assert r * 1000 <= n < (r + 1) * 1000;
  }

  // ------------------------------------------------------ authentication

  /** The test of line 312 on the first answer: an `error` message, or one
      whose truthy `msg` is the string `unauthenticated`. */
  predicate AuthRejected(res: Json)
    requires res.Obj?
  {
    GetOr(res.fields, "name", Null) == Str("error")
    || (Truthy(GetOr(res.fields, "msg", Null)) && res.fields[Find(res.fields, "msg").value].val == Str("unauthenticated"))
  }

  /** The truthiness guard only protects the subscript: the test is
      "named error, or `msg` is `unauthenticated`". */
  lemma AuthRejectedMeans(res: Json)
    requires res.Obj?
    ensures AuthRejected(res) <==> (GetOr(res.fields, "name", Null) == Str("error")
                                   || Lookup(res.fields, "msg") == Some(Str("unauthenticated")))
  {
  }

  /** `_authenticate`'s answer: `True`, `False` when nothing arrived within
      the timeout, or `ConnectionError` on a rejection, its message
      formatted from the answer's `msg`. */
  function AuthVerdict(first: Option<Json>): (r: Result<bool>)
    requires first.Some? ==> first.value.Obj?
    ensures r == Ok(false) <==> first.None?
    ensures r.Raise? <==> first.Some? && AuthRejected(first.value)
    ensures r.Raise? ==> r.exception == "ConnectionError" && r.detail == GetOr(first.value.fields, "msg", Null)
  {
    match first
    case None => Ok(false)
    case Some(res) => if AuthRejected(res) then Raise("ConnectionError", GetOr(res.fields, "msg", Null)) else Ok(true)
  }

  lemma AuthExamples()
    ensures AuthVerdict(Some(Obj([Field("name", Str("authenticated")), Field("msg", Bool(true))]))) == Ok(true)
    ensures AuthVerdict(Some(Obj([Field("name", Str("authenticated")), Field("msg", Str("unauthenticated"))]))).Raise?
    ensures AuthVerdict(Some(Obj([Field("name", Str("error"))]))).Raise?
  {
    var ok := Obj([Field("name", Str("authenticated")), Field("msg", Bool(true))]);
    assert ok.fields[0].key != "msg" && ok.fields[1..] == [Field("msg", Bool(true))];
    assert Find(ok.fields, "msg") == Some(1);
    var no := Obj([Field("name", Str("authenticated")), Field("msg", Str("unauthenticated"))]);
    assert no.fields[0].key != "msg" && no.fields[1..] == [Field("msg", Str("unauthenticated"))];
    assert Find(no.fields, "msg") == Some(1);
  }

  /** What reaches `_authenticate` within its timeout: the response
      correlated by `request_id`, the `authenticated` push its listener
      catches, or nothing. */
  datatype AuthArrival = Reply(message: Json) | Pushed(message: Json) | Silence

  /** `_authenticate` once its request is sent: the verdict on the first
      answer, `False` on silence; `.get` on an answer that is not a dict
      raises. */
  function AuthOutcome(a: AuthArrival): (r: Result<bool>)
    ensures r == Ok(false) <==> a.Silence?
    ensures r == Ok(true) <==> !a.Silence? && a.message.Obj? && !AuthRejected(a.message)
    ensures r.Raise? && r.exception == "ConnectionError" <==> !a.Silence? && a.message.Obj? && AuthRejected(a.message)
    ensures r.Raise? && r.exception == "ConnectionError" ==> r.detail == GetOr(a.message.fields, "msg", Null)
  {
    match a
    case Silence => AuthVerdict(None)
    case Reply(m) => if m.Obj? then AuthVerdict(Some(m)) else Raise("AttributeError")
    case Pushed(m) => if m.Obj? then AuthVerdict(Some(m)) else Raise("AttributeError")
  }

  // ------------------------------------------------------------- requests

  /** A frame written to the socket under its `request_id`: a
      `sendMessage` frame around operation `op`, or the `authenticate`
      frame. */
  datatype Outbound =
    | Request(requestId: string, op: string, version: string, body: Json)
    | Auth(requestId: string, ssid: Json)

  /** The frame's `name`. */
  function FrameName(o: Outbound): string {
    if o.Request? then SEND_MESSAGE else OP_AUTHENTICATE
  }

  /** The frame's `msg` as it goes on the wire. */
  function Msg(o: Outbound): (m: Json)
    ensures m.Obj?
    ensures o.Request? ==> && Lookup(m.fields, "name") == Some(Str(o.op))
                           && Lookup(m.fields, "version") == Some(Str(o.version))
                           && Lookup(m.fields, "body") == Some(o.body)
    ensures o.Auth? ==> Lookup(m.fields, "ssid") == Some(o.ssid) && Lookup(m.fields, "protocol") == Some(Int(3))
  {
    match o
    case Request(_, op, version, body) =>
      var fs := [Field("name", Str(op)), Field("version", Str(version)), Field("body", body)];
      LookupAt(fs, 0, "name");
      LookupAt(fs, 1, "version");
      LookupAt(fs, 2, "body");
      Obj(fs)
    case Auth(_, ssid) =>
      var fs := [Field("ssid", ssid), Field("protocol", Int(3))];
      LookupAt(fs, 0, "ssid");
      LookupAt(fs, 1, "protocol");
      Obj(fs)
  }

  // ---------------------------------------------------------------- retry

  /** What became of one attempt of `_send_with_retry`: the awaited response,
      a timeout of `wait_for`, or any other exception (a failed send). */
  datatype Attempt = Answered(response: Json) | TimedOut | Failed

  /** The attempt numbered `k` from zero; an environment that says nothing
      about it never answers. */
  function AttemptAt(attempts: seq<Attempt>, k: nat): Attempt {
    if k < |attempts| then attempts[k] else TimedOut
  }

  /** The first of the first `n` attempts that was answered. */
  function FirstAnswered(attempts: seq<Attempt>, n: nat): (r: Option<nat>)
    ensures r.Some? ==> r.value < n && AttemptAt(attempts, r.value).Answered?
    ensures r.Some? ==> forall j :: 0 <= j < r.value ==> !AttemptAt(attempts, j).Answered?
    ensures r.None? <==> forall j :: 0 <= j < n ==> !AttemptAt(attempts, j).Answered?
    decreases n
  {
    if n == 0 then None
    else match FirstAnswered(attempts, n - 1)
      case Some(k) => Some(k)
      case None => if AttemptAt(attempts, n - 1).Answered? then Some(n - 1) else None
  }

  datatype RetryResult = Response(message: Json) | TimeoutError | Reraised | EmptyDict

  /** Reference definition of `_send_with_retry(retries=...)`: the first
      response among the allowed attempts; failing that the last attempt's
      error (`TimeoutError` for a timeout, the exception itself otherwise);
      `{}` only when no attempt is allowed. */
  function RetrySpec(attempts: seq<Attempt>, retries: int): (r: RetryResult)
    ensures r == EmptyDict <==> retries < 1
    ensures r.Response? ==> exists k :: 0 <= k < retries && AttemptAt(attempts, k) == Answered(r.message)
    ensures retries >= 1 && (forall k :: 0 <= k < retries ==> !AttemptAt(attempts, k).Answered?) ==>
              r == (if AttemptAt(attempts, retries - 1).TimedOut? then TimeoutError else Reraised)
  {
    if retries < 1 then EmptyDict
    else match FirstAnswered(attempts, retries)
      case Some(k) => Response(AttemptAt(attempts, k).response)
      case None => if AttemptAt(attempts, retries - 1).TimedOut? then TimeoutError else Reraised
  }

  /** The frames the first `n` attempts write, the `k`-th under request id
      `str(base + k)`: every attempt but a failed send writes one. */
  function RetryFrames(attempts: seq<Attempt>, n: nat, base: nat, op: string, version: string, body: Json): (r: seq<Outbound>)
    ensures |r| <= n
    decreases n
  {
    if n == 0 then []
    else
      RetryFrames(attempts, n - 1, base, op, version, body) + AttemptFrame(attempts, n - 1, base, op, version, body)
  }

  /** The frame attempt `k` writes under request id `str(base + k)`, none
      when its send fails. */
  function AttemptFrame(attempts: seq<Attempt>, k: nat, base: nat, op: string, version: string, body: Json): (r: seq<Outbound>)
    ensures |r| <= 1
    ensures AttemptAt(attempts, k).Failed? <==> r == []
  {
    if AttemptAt(attempts, k).Failed? then [] else [Request(IntToString(base + k), op, version, body)]
  }

  /** The frames of `n` attempts are those of the first `n - 1` and the
      last attempt's own. */
  lemma RetryFramesStep(attempts: seq<Attempt>, n: nat, base: nat, op: string, version: string, body: Json,
                         before: seq<Outbound>)
    requires n >= 1
    ensures before + RetryFrames(attempts, n, base, op, version, body)
            == (before + RetryFrames(attempts, n - 1, base, op, version, body)) + AttemptFrame(attempts, n - 1, base, op, version, body)
  {
    var a, b := RetryFrames(attempts, n - 1, base, op, version, body), AttemptFrame(attempts, n - 1, base, op, version, body);
    assert RetryFrames(attempts, n, base, op, version, body) == a + b;
    assert before + (a + b) == (before + a) + b;
  }

  /** How many attempts are made: up to and including the first answered
      one, else all of them. */
  function AttemptsMade(attempts: seq<Attempt>, retries: int): (n: nat)
    ensures retries >= 1 ==> 1 <= n <= retries
    ensures retries < 1 ==> n == 0
  {
    if retries < 1 then 0
    else match FirstAnswered(attempts, retries)
      case Some(k) => k + 1
      case None => retries
  }

  /** Only the first response counts: attempts after it are never made. */
  lemma LaterAttemptsIrrelevant(attempts: seq<Attempt>, more: seq<Attempt>, retries: int, k: nat)
    requires k < retries && k < |attempts| && attempts[k].Answered?
    requires forall j :: 0 <= j < k ==> !AttemptAt(attempts, j).Answered?
    ensures RetrySpec(attempts[..k + 1] + more, retries) == RetrySpec(attempts, retries) == Response(attempts[k].response)
  {
    var a' := attempts[..k + 1] + more;
    forall j | 0 <= j <= k ensures AttemptAt(a', j) == AttemptAt(attempts, j) {
      assert a'[j] == attempts[j];
    }
    FirstAnsweredIs(attempts, retries, k);
    FirstAnsweredIs(a', retries, k);
  }

  lemma FirstAnsweredIs(attempts: seq<Attempt>, n: nat, k: nat)
    requires k < n && AttemptAt(attempts, k).Answered?
    requires forall j :: 0 <= j < k ==> !AttemptAt(attempts, j).Answered?
    ensures FirstAnswered(attempts, n) == Some(k)
  {
    var r := FirstAnswered(attempts, n);
    assert r.Some? && AttemptAt(attempts, r.value).Answered?;
  }

  /** With no attempt allowed the loop never runs: nothing is sent and the
      result is the empty dict. */
  lemma NoAttempts(attempts: seq<Attempt>, retries: int, base: nat, op: string, version: string, body: Json)
    requires retries < 1
    ensures RetrySpec(attempts, retries) == EmptyDict
    ensures AttemptsMade(attempts, retries) == 0 && RetryFrames(attempts, 0, base, op, version, body) == []
  {
  }

  /** Where the loop of `_send_with_retry` stops: at attempt `k` when it is
      the first answered one or the last one allowed. */
  lemma RetryStops(attempts: seq<Attempt>, retries: int, k: nat, last: Attempt)
    requires k < retries && last == AttemptAt(attempts, k)
    requires FirstAnswered(attempts, k).None?
    requires last.Answered? || k == retries - 1
    ensures AttemptsMade(attempts, retries) == k + 1
    ensures RetrySpec(attempts, retries)
            == if last.Answered? then Response(last.response)
               else if last.TimedOut? then TimeoutError
               else Reraised
  {
    if last.Answered? {
      FirstAnsweredIs(attempts, retries, k);
    } else {
      assert FirstAnswered(attempts, retries).None?;
    }
  }
}
