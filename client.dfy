/** The `IQOption` client object (myiq/core/client.py): the session state it
    keeps, the push handlers that update it, and the request flows that
    drive its dispatcher (authentication, requests with retries and the
    blitz trade). Each handler and flow is proved against the reference
    functions of the Actives, Session and Trade modules. */
module Client {
  import opened PyJson
  import opened Constants
  import opened Dispatch
  import opened Actives
  import opened Session
  import Trade

  /** Every event name has the same callbacks, in the same order, as before. */
  ghost predicate SameListeners(a: map<string, seq<Callback>>, b: map<string, seq<Callback>>) {
    forall name :: ListenersOf(a, name) == ListenersOf(b, name)
  }

  /** Registering a callback absent from a list and then removing it
      restores every list. */
  lemma AddThenRemove(m: map<string, seq<Callback>>, name: string, cb: Callback)
    requires cb !in ListenersOf(m, name)
    ensures var m1 := m[name := ListenersOf(m, name) + [cb]];
            SameListeners(m1[name := RemoveFirst(m1[name], cb)], m)
  {
    RemoveAppended(ListenersOf(m, name), cb);
  }

  /** The list of `name` is `s` and every other list is as in `m0`. */
  ghost predicate ListenersAre(m: map<string, seq<Callback>>, m0: map<string, seq<Callback>>, name: string, s: seq<Callback>) {
    && ListenersOf(m, name) == s
    && forall other | other != name :: ListenersOf(m, other) == ListenersOf(m0, other)
  }

  /** `add_listener(name, cb)` appends to the list of `name` only. */
  lemma AddKeeps(m: map<string, seq<Callback>>, m0: map<string, seq<Callback>>, name: string, s: seq<Callback>, cb: Callback)
    requires ListenersAre(m, m0, name, s)
    ensures ListenersAre(m[name := ListenersOf(m, name) + [cb]], m0, name, s + [cb])
  {
  }

  /** `remove_listener(name, cb)` removes the first copy of `cb` from the
      list of `name` only. */
  lemma RemoveKeeps(m: map<string, seq<Callback>>, m0: map<string, seq<Callback>>, name: string, s: seq<Callback>, cb: Callback)
    requires ListenersAre(m, m0, name, s)
    ensures ListenersAre(if name in m && cb in m[name] then m[name := RemoveFirst(m[name], cb)] else m,
                         m0, name, RemoveFirst(s, cb))
  {
  }

  /** `add_listener(name, cb)` on a listener table. */
  function Added(m: map<string, seq<Callback>>, name: string, cb: Callback): map<string, seq<Callback>> {
    m[name := ListenersOf(m, name) + [cb]]
  }

  /** The five registrations of `start` append each handler to the list of
      its own event and leave every other list alone. */
  lemma RegisteredAll(m0: map<string, seq<Callback>>)
    ensures var m := Added(Added(Added(Added(Added(m0,
                       EV_UNDERLYING_LIST_CHANGED, Method("_on_underlying_list_changed")),
                       EV_PROFILE, Method("_on_profile")),
                       EV_FEATURES, Method("_on_features")),
                       EV_USER_SETTINGS, Method("_on_user_settings")),
                       EV_INIT_DATA, Method("_on_initialization_data"));
            forall name :: ListenersOf(m, name) == ListenersOf(m0, name) + Handlers(name)
  {
    // the five event names differ in length, hence pairwise
    assert |EV_UNDERLYING_LIST_CHANGED| == 23 && |EV_PROFILE| == 7 && |EV_FEATURES| == 8;
    assert |EV_USER_SETTINGS| == 13 && |EV_INIT_DATA| == 19;
    var m1 := Added(m0, EV_UNDERLYING_LIST_CHANGED, Method("_on_underlying_list_changed"));
    var m2 := Added(m1, EV_PROFILE, Method("_on_profile"));
    var m3 := Added(m2, EV_FEATURES, Method("_on_features"));
    var m4 := Added(m3, EV_USER_SETTINGS, Method("_on_user_settings"));
    var m5 := Added(m4, EV_INIT_DATA, Method("_on_initialization_data"));
    forall name ensures ListenersOf(m5, name) == ListenersOf(m0, name) + Handlers(name) {
      AddedOf(m0, EV_UNDERLYING_LIST_CHANGED, Method("_on_underlying_list_changed"), name);
      AddedOf(m1, EV_PROFILE, Method("_on_profile"), name);
      AddedOf(m2, EV_FEATURES, Method("_on_features"), name);
      AddedOf(m3, EV_USER_SETTINGS, Method("_on_user_settings"), name);
      AddedOf(m4, EV_INIT_DATA, Method("_on_initialization_data"), name);
      if name !in {EV_UNDERLYING_LIST_CHANGED, EV_PROFILE, EV_FEATURES, EV_USER_SETTINGS, EV_INIT_DATA} {
        assert Handlers(name) == [];
      }
    }
  }

  lemma AddedOf(m: map<string, seq<Callback>>, n: string, cb: Callback, name: string)
    ensures ListenersOf(Added(m, n, cb), name) == ListenersOf(m, name) + if name == n then [cb] else []
  {
  }

  /** The bound methods `start` registers, by event name. */
  function Handlers(name: string): seq<Callback> {
    if name == EV_UNDERLYING_LIST_CHANGED then [Method("_on_underlying_list_changed")]
    else if name == EV_PROFILE then [Method("_on_profile")]
    else if name == EV_FEATURES then [Method("_on_features")]
    else if name == EV_USER_SETTINGS then [Method("_on_user_settings")]
    else if name == EV_INIT_DATA then [Method("_on_initialization_data")]
    else []
  }

  // ------------------------------------------- futures of awaited requests

  /** The dispatcher's tables after one request awaited under `id` with the
      fresh handle `h`: the future is created, then popped and fulfilled
      when the response arrives, cancelled but left in the table when the
      wait times out (`asyncio.wait_for` never pops it), and left pending
      when the send raised. */
  function Awaited(t: Tables, outcome: Attempt, id: string, h: Handle): Tables {
    Tables(if outcome.Answered? then t.futures - {id} else t.futures[id := h], t.handles[h := FinalState(outcome)], t.log)
  }

  /** The state an awaited future ends in. */
  function FinalState(outcome: Attempt): HandleState {
    match outcome
    case Answered(response) => Resolved(response)
    case TimedOut => Cancelled
    case Failed => Pending
  }

  /** The tables after the first `n` attempts of `_send_with_retry`,
      attempt `k` under request id `str(base + k)` and handle `hbase + k`. */
  function RetryTables(t: Tables, attempts: seq<Attempt>, n: nat, base: nat, hbase: nat): Tables
    decreases n
  {
    if n == 0 then t
    else Awaited(RetryTables(t, attempts, n - 1, base, hbase), AttemptAt(attempts, n - 1),
                 IntToString(base + n - 1), Handle(hbase + n - 1))
  }

  /** The tables after one more attempt are those of `n + 1` attempts. */
  lemma RetryTablesStep(t: Tables, attempts: seq<Attempt>, n: nat, base: nat, hbase: nat, before: Tables, after: Tables)
    requires before == RetryTables(t, attempts, n, base, hbase)
    requires after == Awaited(before, AttemptAt(attempts, n), IntToString(base + n), Handle(hbase + n))
    ensures after == RetryTables(t, attempts, n + 1, base, hbase)
  {
  }

  /** The request ids of the first `n` attempts. */
  function RetryIds(base: nat, n: nat): set<string>
    decreases n
  {
    if n == 0 then {} else RetryIds(base, n - 1) + {IntToString(base + n - 1)}
  }

  /** What an awaited request leaves under its id `id` and handle `h`: no
      entry and a fulfilled future when it was answered, otherwise the
      entry still pointing at `h`, cancelled after a timeout and pending
      after a failed send. */
  predicate LeftBehind(t: Tables, outcome: Attempt, id: string, h: Handle) {
    && h in t.handles
    && match outcome
       case Answered(response) => id !in t.futures && t.handles[h] == Resolved(response)
       case TimedOut => id in t.futures && t.futures[id] == h && t.handles[h] == Cancelled
       case Failed => id in t.futures && t.futures[id] == h && t.handles[h] == Pending
  }

  lemma AwaitedLeaves(t: Tables, outcome: Attempt, id: string, h: Handle)
    ensures LeftBehind(Awaited(t, outcome, id, h), outcome, id, h)
  {
  }

  /** A later request under another id and handle keeps what an earlier
      one left behind. */
  lemma AwaitedKeepsLeft(t: Tables, outcome': Attempt, id': string, h': Handle, outcome: Attempt, id: string, h: Handle)
    requires id != id' && h != h' && LeftBehind(t, outcome, id, h)
    ensures LeftBehind(Awaited(t, outcome', id', h'), outcome, id, h)
  {
  }

  /** After the attempts, the future of attempt `k` is gone when it was
      answered, and otherwise still in the table under its id: cancelled
      after a timeout, pending after a failed send. */
  lemma {:induction false} RetryTablesAt(t: Tables, attempts: seq<Attempt>, n: nat, base: nat, hbase: nat, k: nat)
    requires k < n
    ensures LeftBehind(RetryTables(t, attempts, n, base, hbase), AttemptAt(attempts, k), IntToString(base + k), Handle(hbase + k))
    decreases n
  {
    var prev := RetryTables(t, attempts, n - 1, base, hbase);
    var id, h := IntToString(base + n - 1), Handle(hbase + n - 1);
    if k < n - 1 {
      RetryTablesAt(t, attempts, n - 1, base, hbase, k);
      AttemptIdsDiffer(base, k, n - 1);
      AwaitedKeepsLeft(prev, AttemptAt(attempts, n - 1), id, h, AttemptAt(attempts, k), IntToString(base + k), Handle(hbase + k));
    } else {
      AwaitedLeaves(prev, AttemptAt(attempts, n - 1), id, h);
    }
  }

  /** Distinct attempts draw distinct request ids. */
  lemma AttemptIdsDiffer(base: nat, k: nat, m: nat)
    requires k != m
    ensures IntToString(base + k) != IntToString(base + m)
  {
    if IntToString(base + k) == IntToString(base + m) {
      IntToStringInjective(base + k, base + m);
    }
  }

  /** Request ids no attempt used keep their entry, handles older than the
      attempts keep their state, the log is untouched, and the only new
      handles are those of the attempts. */
  lemma {:induction false} RetryTablesFrame(t: Tables, attempts: seq<Attempt>, n: nat, base: nat, hbase: nat, id: string, h: Handle)
    requires id !in RetryIds(base, n)
    ensures var r := RetryTables(t, attempts, n, base, hbase);
            && (id in r.futures <==> id in t.futures)
            && (id in t.futures ==> r.futures[id] == t.futures[id])
            && (h.serial < hbase ==> (h in r.handles <==> h in t.handles) && (h in t.handles ==> r.handles[h] == t.handles[h]))
            && (h in r.handles ==> h in t.handles || hbase <= h.serial < hbase + n)
            && r.log == t.log
    decreases n
  {
    if n > 0 {
      RetryTablesFrame(t, attempts, n - 1, base, hbase, id, h);
    }
  }

  /** Where the request future of `_authenticate` ends up, as an attempt:
      the send raised; the correlated reply came first; or the timeout or
      the `authenticated` push came first, and the future was cancelled. */
  function AuthAttempt(arrival: AuthArrival, sendFails: bool): Attempt {
    if sendFails then Failed
    else match arrival
      case Reply(message) => Answered(message)
      case _ => TimedOut
  }

  /** Where the acknowledgement future of `buy_blitz` ends up, as an attempt:
      the send raised, the 10 s wait timed out, or the acknowledgement came. */
  function AckAttempt(env: Trade.BlitzEnv): Attempt {
    if env.openSendFails then Failed
    else match env.ack
      case None => TimedOut
      case Some(ack) => Answered(ack)
  }

  /** The loop shared by `_on_features` and `_on_user_settings`. */
  method ApplyNamed(table: map<Json, Json>, items: seq<Json>, valueKey: string) returns (r: map<Json, Json>)
    ensures r == Named(table, items, valueKey)
  {
    r := table;
    var i := 0;
    while i < |items|
      invariant 0 <= i <= |items|
      invariant Named(r, items[i..], valueKey) == Named(table, items, valueKey)
    {
      var item := items[i];
      assert items[i..][0] == item && items[i..][1..] == items[i + 1..];
      if !item.Obj? {
        return;
      }
      var name := GetOr(item.fields, "name", Null);
      if Truthy(name) {
        if !Hashable(name) {
          return;
        }
        r := r[name := GetOr(item.fields, valueKey, Null)];
      }
      i := i + 1;
    }
  }

  class IQOption {
    const ssid: Json
    const dispatcher: Dispatcher
    var activeBalanceId: Json
    var serverTimeOffset: real
    var cache: Cache
    var profile: Json
    var features: map<Json, Json>
    var userSettings: map<Json, Json>
    /** Request ids are the decimal forms of this counter. */
    var nextRequest: nat
    /** Every frame written to the socket, oldest first. */
    var sent: seq<Outbound>

    ghost predicate Valid()
      reads dispatcher
    {
      dispatcher.Valid()
    }

    /** `__init__`, with the session token the HTTP login produced. */
    constructor (ssid: Json)
      ensures Valid() && fresh(dispatcher) && this.ssid == ssid
      ensures activeBalanceId == Null && serverTimeOffset == 0.0 && cache == EMPTY_CACHE && profile == EMPTY_OBJ
      ensures features == map[] && userSettings == map[] && nextRequest == 0 && sent == []
      ensures dispatcher.futures == map[] && dispatcher.handles == map[]
      ensures dispatcher.listeners == map[] && dispatcher.log == []
    {
      this.ssid := ssid;
      dispatcher := new Dispatcher();
      activeBalanceId, serverTimeOffset, cache, profile := Null, 0.0, EMPTY_CACHE, EMPTY_OBJ;
      features, userSettings, nextRequest, sent := map[], map[], 0, [];
    }

    /** The handler registrations of `start`. */
    method RegisterHandlers()
      requires Valid()
      modifies dispatcher`listeners
      ensures Valid()
      ensures forall name :: ListenersOf(dispatcher.listeners, name) == ListenersOf(old(dispatcher.listeners), name) + Handlers(name)
    {
      ghost var m0 := dispatcher.listeners;
      dispatcher.AddListener(EV_UNDERLYING_LIST_CHANGED, Method("_on_underlying_list_changed"));
      dispatcher.AddListener(EV_PROFILE, Method("_on_profile"));
      dispatcher.AddListener(EV_FEATURES, Method("_on_features"));
      dispatcher.AddListener(EV_USER_SETTINGS, Method("_on_user_settings"));
      dispatcher.AddListener(EV_INIT_DATA, Method("_on_initialization_data"));
      RegisteredAll(m0);
    }

    /** `get_req_id`. */
    method NextRequestId() returns (id: string)
      modifies this`nextRequest
      ensures id == IntToString(old(nextRequest)) && nextRequest == old(nextRequest) + 1
    {
      id := IntToString(nextRequest);
      nextRequest := nextRequest + 1;
    }

    // ------------------------------------------------------ push handlers

    /** `_on_underlying_list_changed`. */
    method OnUnderlyingListChanged(message: Json)
      modifies this`cache
      ensures cache == UnderlyingSpec(old(cache), message)
    {
      if !message.Obj? {
        return;
      }
      var msg := GetOr(message.fields, "msg", EMPTY_OBJ);
      if !msg.Obj? {
        return;
      }
      var category := UnderlyingCategory(GetOr(msg.fields, "name", Str("")));
      if category.None? {
        return;
      }
      var cat := category.value;
      var items := ListItems(msg.fields, "underlying");
      var i := 0;
      while i < |items| && items[i].Obj?
        invariant 0 <= i <= |items|
        invariant StoreItems(cache, cat, items[i..]) == StoreItems(old(cache), cat, items)
      {
        var item := items[i];
        assert items[i..][0] == item && items[i..][1..] == items[i + 1..];
        var key := ItemKey(item);
        if NonEmpty(key) {
          cache := Store(cache, cat, key, Tagged(item, cat));
        }
        i := i + 1;
      }
    }

    /** The inner loop of `_on_initialization_data`, over one category's
        `actives`; `ok` is false when an entry raised. */
    method StoreActives(cat: string, actives: seq<Field>) returns (ok: bool)
      modifies this`cache
      ensures Progress(cache, ok) == InitActives(old(cache), cat, actives)
    {
      var j := 0;
      while j < |actives|
        invariant 0 <= j <= |actives|
        invariant InitActives(cache, cat, actives[j..]) == InitActives(old(cache), cat, actives)
      {
        assert actives[j..][0] == actives[j] && actives[j..][1..] == actives[j + 1..];
        var rec := InitEntry(actives[j].val, cat);
        if rec.None? {
          return false;
        }
        cache := Store(cache, cat, Chars(actives[j].key), rec.value);
        j := j + 1;
      }
      return true;
    }

    /** `_on_initialization_data`. */
    method OnInitializationData(message: Json)
      modifies this`cache
      ensures cache == InitSpec(old(cache), message)
    {
      if !message.Obj? {
        return;
      }
      var msg := GetOr(message.fields, "msg", EMPTY_OBJ);
      if !msg.Obj? {
        return;
      }
      var cats := msg.fields;
      var i := 0;
      while i < |cats|
        invariant 0 <= i <= |cats|
        invariant InitCategories(cache, cats[i..]) == InitCategories(old(cache), cats)
      {
        assert cats[i..][0] == cats[i] && cats[i..][1..] == cats[i + 1..];
        var actives := ActivesOf(cats[i].val);
        if actives.Some? {
          var ok := StoreActives(cats[i].key, actives.value);
          if !ok {
            return;
          }
        }
        i := i + 1;
      }
    }

    /** `_on_profile`. */
    method OnProfile(message: Json)
      modifies this`profile
      ensures profile == ProfileSpec(old(profile), message)
    {
      if message.Obj? {
        var msg := GetOr(message.fields, "msg", EMPTY_OBJ);
        if Truthy(msg) {
          profile := msg;
        }
      }
    }

    /** `_on_features`. */
    method OnFeatures(message: Json)
      modifies this`features
      ensures features == FeaturesSpec(old(features), message)
    {
      if message.Obj? {
        var msg := GetOr(message.fields, "msg", EMPTY_OBJ);
        if msg.Obj? {
          features := ApplyNamed(features, ListItems(msg.fields, "features"), "status");
        }
      }
    }

    /** `_on_user_settings`. */
    method OnUserSettings(message: Json)
      modifies this`userSettings
      ensures userSettings == SettingsSpec(old(userSettings), message)
    {
      if message.Obj? {
        var msg := GetOr(message.fields, "msg", EMPTY_OBJ);
        if msg.Obj? {
          userSettings := ApplyNamed(userSettings, ListItems(msg.fields, "configs"), "config");
        }
      }
    }

    /** `_on_ws_message`, the hook that sees every frame, with the local
        clock in milliseconds; `raised` tells that an exception left it. */
    method OnWsMessage(msg: Json, localMs: int) returns (raised: bool)
      modifies this`serverTimeOffset
      ensures match TimeSyncOffset(old(serverTimeOffset), msg, localMs)
              case Ok(offset) => !raised && serverTimeOffset == offset
              case Raise(_, _) => raised && serverTimeOffset == old(serverTimeOffset)
    {
      if !msg.Obj? {
        return true;
      }
      raised := false;
      if GetOr(msg.fields, "name", Null) == Str(EV_TIME_SYNC) {
        match AsNumber(GetOr(msg.fields, "msg", Null))
        case None =>
          raised := true;
        case Some(server) =>
          serverTimeOffset := server - localMs as real;
      }
    }

    /** `change_balance`. */
    method ChangeBalance(balanceId: Json)
      modifies this`activeBalanceId
      ensures activeBalanceId == balanceId
    {
      activeBalanceId := balanceId;
    }

    // ------------------------------------------------------ authentication

    /** `_authenticate`. The request's send lies outside the `try`, so when
        it raises, the `authenticated` listener registered just before it
        is never removed. */
    method Authenticate(arrival: AuthArrival, sendFails: bool) returns (r: Result<bool>)
      requires Valid()
      modifies this`nextRequest, this`sent, dispatcher`futures, dispatcher`handles, dispatcher`nextHandle, dispatcher`listeners, dispatcher`nextClosure
      ensures Valid()
      ensures r == if sendFails then Raise(SEND_FAILED) else AuthOutcome(arrival)
      ensures nextRequest == old(nextRequest) + 1
      ensures sent == old(sent) + if sendFails then [] else [Auth(IntToString(old(nextRequest)), ssid)]
      ensures !sendFails ==> SameListeners(dispatcher.listeners, old(dispatcher.listeners))
      ensures sendFails ==> |ListenersOf(dispatcher.listeners, EV_AUTHENTICATED)| == |ListenersOf(old(dispatcher.listeners), EV_AUTHENTICATED)| + 1
      ensures dispatcher.State() == Awaited(old(dispatcher.State()), AuthAttempt(arrival, sendFails), IntToString(old(nextRequest)),
                                            Handle(old(dispatcher.nextHandle)))
    {
      var reqId := NextRequestId();
      ghost var t0 := dispatcher.State();
      var future := dispatcher.CreateFuture(reqId);
      var onAuthMsg := dispatcher.NewClosure();
      ghost var before := dispatcher.listeners;
      dispatcher.AddListener(EV_AUTHENTICATED, onAuthMsg);
      if sendFails {
        return Raise(SEND_FAILED);
      }
      r := AuthExchange(reqId, future, arrival, t0);
      // finally
      dispatcher.RemoveListener(EV_AUTHENTICATED, onAuthMsg);
      AddThenRemove(before, EV_AUTHENTICATED, onAuthMsg);
    }

    /** The wait for the response correlated by `reqId` on the future just
        created for it (`asyncio.wait_for`, or `asyncio.wait` in
        `_authenticate`): the response pops and fulfils the future;
        otherwise the future is cancelled and stays in the table. */
    method WaitReply(reqId: string, future: Handle, reply: Option<Json>, ghost t0: Tables)
      requires Valid()
      requires dispatcher.State() == Tables(t0.futures[reqId := future], t0.handles[future := Pending], t0.log)
      modifies dispatcher`futures, dispatcher`handles
      ensures Valid()
      ensures dispatcher.State() == Awaited(t0, if reply.Some? then Answered(reply.value) else TimedOut, reqId, future)
    {
      if reply.None? {
        dispatcher.Cancel(future);
      } else {
        dispatcher.ResolvePending(Chars(reqId), reply.value);
        assert t0.futures[reqId := future] - {reqId} == t0.futures - {reqId};
      }
    }

    /** The authentication frame is written and the first answer awaited:
        a reply by request id fulfils the future, anything else leaves it to
        be cancelled. */
    method AuthExchange(reqId: string, future: Handle, arrival: AuthArrival, ghost t0: Tables) returns (r: Result<bool>)
      requires Valid()
      requires dispatcher.State() == Tables(t0.futures[reqId := future], t0.handles[future := Pending], t0.log)
      modifies this`sent, dispatcher`futures, dispatcher`handles
      ensures Valid()
      ensures r == AuthOutcome(arrival)
      ensures sent == old(sent) + [Auth(reqId, ssid)]
      ensures dispatcher.State() == Awaited(t0, AuthAttempt(arrival, false), reqId, future)
    {
      sent := sent + [Auth(reqId, ssid)];
      WaitReply(reqId, future, if arrival.Reply? then Some(arrival.message) else None, t0);
      r := AuthOutcome(arrival);
    }

    // ------------------------------------------------------------- retries

    /** Attempt `k` of the loop of `_send_with_retry`: a fresh request id
        and future, the frame written unless the send fails, and the future
        fulfilled by the response or cancelled by the timeout. A failed send
        leaves its future pending. */
    method SendAttempt(op: string, body: Json, version: string, attempts: seq<Attempt>, k: nat, ghost base: nat)
      returns (outcome: Attempt)
      requires Valid() && nextRequest == base + k
      modifies this`nextRequest, this`sent, dispatcher`futures, dispatcher`handles, dispatcher`nextHandle
      ensures Valid()
      ensures outcome == AttemptAt(attempts, k)
      ensures nextRequest == old(nextRequest) + 1
      ensures sent == old(sent) + AttemptFrame(attempts, k, base, op, version, body)
      ensures dispatcher.State() == Awaited(old(dispatcher.State()), outcome, IntToString(old(nextRequest)), Handle(old(dispatcher.nextHandle)))
      ensures dispatcher.nextHandle == old(dispatcher.nextHandle) + 1
    {
      outcome := AttemptAt(attempts, k);
      var reqId := NextRequestId();
      ghost var before := dispatcher.State();
      var future := dispatcher.CreateFuture(reqId);
      if !outcome.Failed? {
        sent := sent + [Request(reqId, op, version, body)];
        WaitReply(reqId, future, if outcome.Answered? then Some(outcome.response) else None, before);
      }
    }

    /** One more turn of the loop of `_send_with_retry`: after attempt `n`,
        the frames and tables are those of the first `n + 1` attempts. */
    method NextAttempt(op: string, body: Json, version: string, attempts: seq<Attempt>, n: nat,
                       ghost base: nat, ghost hbase: nat, ghost t0: Tables, ghost sent0: seq<Outbound>)
      returns (outcome: Attempt)
      requires Valid() && nextRequest == base + n && dispatcher.nextHandle == hbase + n
      requires sent == sent0 + RetryFrames(attempts, n, base, op, version, body)
      requires dispatcher.State() == RetryTables(t0, attempts, n, base, hbase)
      modifies this`nextRequest, this`sent, dispatcher`futures, dispatcher`handles, dispatcher`nextHandle
      ensures Valid() && nextRequest == base + n + 1 && dispatcher.nextHandle == hbase + n + 1
      ensures outcome == AttemptAt(attempts, n)
      ensures sent == sent0 + RetryFrames(attempts, n + 1, base, op, version, body)
      ensures dispatcher.State() == RetryTables(t0, attempts, n + 1, base, hbase)
    {
      ghost var before := dispatcher.State();
      outcome := SendAttempt(op, body, version, attempts, n, base);
      assert sent == sent0 + RetryFrames(attempts, n + 1, base, op, version, body) by {
        RetryFramesStep(attempts, n + 1, base, op, version, body, sent0);
      }
      ghost var after := dispatcher.State();
      assert A: after == Awaited(before, outcome, IntToString(base + n), Handle(hbase + n));
      RetryTablesStep(t0, attempts, n, base, hbase, before, after);
    }

    /** `_send_with_retry(op, body, version, retries=retries)`: attempt `k`
        (from zero) fares as `AttemptAt(attempts, k)` says. */
    method SendWithRetry(op: string, body: Json, version: string, retries: int, attempts: seq<Attempt>)
      returns (r: RetryResult)
      requires Valid()
      modifies this`nextRequest, this`sent, dispatcher`futures, dispatcher`handles, dispatcher`nextHandle
      ensures Valid()
      ensures r == RetrySpec(attempts, retries)
      ensures nextRequest == old(nextRequest) + AttemptsMade(attempts, retries)
      ensures sent == old(sent) + RetryFrames(attempts, AttemptsMade(attempts, retries), old(nextRequest), op, version, body)
      ensures dispatcher.State() == RetryTables(old(dispatcher.State()), attempts, AttemptsMade(attempts, retries),
                                                old(nextRequest), old(dispatcher.nextHandle))
      ensures dispatcher.nextHandle == old(dispatcher.nextHandle) + AttemptsMade(attempts, retries)
    {
      var n, last := RunAttempts(op, body, version, retries, attempts);
      if n == 0 {
        NoAttempts(attempts, retries, old(nextRequest), op, version, body);
        return EmptyDict;
      }
      RetryStops(attempts, retries, n - 1, last);
      return if last.Answered? then Response(last.response)
             else if last.TimedOut? then TimeoutError else Reraised;
    }

    /** The loop of `_send_with_retry`: attempts are made, each with its own
        request id and future, until one is answered or `retries` of them
        are over. `n` attempts were made and `last` is how the last fared. */
    method RunAttempts(op: string, body: Json, version: string, retries: int, attempts: seq<Attempt>)
      returns (n: nat, last: Attempt)
      requires Valid()
      modifies this`nextRequest, this`sent, dispatcher`futures, dispatcher`handles, dispatcher`nextHandle
      ensures Valid()
      ensures n == AttemptsMade(attempts, retries)
      ensures n > 0 ==> && last == AttemptAt(attempts, n - 1) && FirstAnswered(attempts, n - 1).None?
                        && (last.Answered? || n == retries)
      ensures nextRequest == old(nextRequest) + n && dispatcher.nextHandle == old(dispatcher.nextHandle) + n
      ensures sent == old(sent) + RetryFrames(attempts, n, old(nextRequest), op, version, body)
      ensures dispatcher.State() == RetryTables(old(dispatcher.State()), attempts, n, old(nextRequest), old(dispatcher.nextHandle))
    {
      ghost var base, hbase, t0, sent0 := nextRequest, dispatcher.nextHandle, dispatcher.State(), sent;
      // the source counts the attempts as `attempt`, from 1 to `retries`
      n, last := 0, TimedOut;
      while n < retries
        invariant retries >= 1 ==> n <= retries
        invariant retries < 1 ==> n == 0
        invariant FirstAnswered(attempts, n).None?
        invariant n > 0 ==> last == AttemptAt(attempts, n - 1) && FirstAnswered(attempts, n - 1).None?
        invariant Valid()
        invariant nextRequest == base + n && dispatcher.nextHandle == hbase + n
        invariant sent == sent0 + RetryFrames(attempts, n, base, op, version, body)
        invariant dispatcher.State() == RetryTables(t0, attempts, n, base, hbase)
        decreases retries - n
      {
        last := NextAttempt(op, body, version, attempts, n, base, hbase, t0, sent0);
        n := n + 1;
        if last.Answered? {
          break;
        }
      }
      if n > 0 {
        RetryStops(attempts, retries, n - 1, last);
      }
    }

    // --------------------------------------------------------- blitz trade

    /** `buy_blitz(active_id, direction, amount, duration)` in the world
        `env` describes. Whatever happens, every listener it registers is
        gone when it returns. */
    method BuyBlitz(activeId: int, direction: string, amount: real, duration: int, env: Trade.BlitzEnv)
      returns (r: Result<Trade.TradeResult>)
      requires Valid()
      modifies this`nextRequest, this`sent, dispatcher`futures, dispatcher`handles, dispatcher`nextHandle, dispatcher`listeners, dispatcher`nextClosure
      ensures Valid()
      ensures r == Trade.BlitzSpec(old(activeBalanceId), ProfitPercent(GetActive(old(cache), activeId)), env, duration)
      ensures SameListeners(dispatcher.listeners, old(dispatcher.listeners))
      ensures !Truthy(old(activeBalanceId)) || ProfitPercent(GetActive(old(cache), activeId)).Raise? ==>
                sent == old(sent) && nextRequest == old(nextRequest)
      ensures Truthy(old(activeBalanceId)) && ProfitPercent(GetActive(old(cache), activeId)).Ok? ==>
                sent == old(sent) + Trade.BlitzFrames(old(activeBalanceId), activeId, direction, amount, duration,
                                                      ProfitPercent(GetActive(old(cache), activeId)).value,
                                                      ServerTimestamp(env.localMs, old(serverTimeOffset)), env, old(nextRequest))
                && nextRequest == old(nextRequest) + Trade.BlitzRequests(env)
                && dispatcher.State() == Awaited(old(dispatcher.State()), AckAttempt(env), IntToString(old(nextRequest)),
                                                 Handle(old(dispatcher.nextHandle)))
      ensures !Truthy(old(activeBalanceId)) || ProfitPercent(GetActive(old(cache), activeId)).Raise? ==>
                dispatcher.State() == old(dispatcher.State())
    {
      if !Truthy(activeBalanceId) {
        return Raise("ValueError");
      }
      var profit := ProfitPercent(GetActive(cache, activeId));
      if profit.Raise? {
        return Raise(profit.exception, profit.detail);
      }
      r := PlaceOrder(activeBalanceId, activeId, direction, amount, duration, env, profit.value,
                      ServerTimestamp(env.localMs, serverTimeOffset));
    }

    /** `buy_blitz` once it has a balance and a payout: the order frame,
        the wait for its acknowledgement and, in the `finally` clause, the
        removal of both listeners it may have registered. */
    method PlaceOrder(balanceId: Json, activeId: int, direction: string, amount: real, duration: int, env: Trade.BlitzEnv,
                      profitPercent: Json, serverTimestamp: int)
      returns (r: Result<Trade.TradeResult>)
      requires Valid()
      modifies this`nextRequest, this`sent, dispatcher`futures, dispatcher`handles, dispatcher`nextHandle, dispatcher`listeners, dispatcher`nextClosure
      ensures Valid()
      ensures r == Trade.OrderStage(env, duration)
      ensures SameListeners(dispatcher.listeners, old(dispatcher.listeners))
      ensures sent == old(sent) + Trade.BlitzFrames(balanceId, activeId, direction, amount, duration, profitPercent,
                                                    serverTimestamp, env, old(nextRequest))
      ensures nextRequest == old(nextRequest) + Trade.BlitzRequests(env)
      ensures dispatcher.State() == Awaited(old(dispatcher.State()), AckAttempt(env), IntToString(old(nextRequest)),
                                            Handle(old(dispatcher.nextHandle)))
    {
      ghost var m0 := dispatcher.listeners;
      ghost var t0 := dispatcher.State();
      ghost var L := ListenersOf(m0, EV_POSITION_CHANGED);
      ghost var sent0, nextRequest0 := sent, nextRequest;
      var reqId := NextRequestId();
      var serverTime := Trade.TradeTime(serverTimestamp, env.localMs);
      var body := Trade.OrderBody(balanceId, activeId, direction, Trade.Expiry(serverTime), duration, amount, profitPercent);
      var ackFuture, onOrderCreated := AwaitOrder(reqId);
      var onResult;
      r, onResult := SendOrder(reqId, body, ackFuture, onOrderCreated, env, duration, L, m0, t0);
      // finally
      RemoveOrderListeners(onOrderCreated, onResult, L, m0);
    }

    /** The future for the order's acknowledgement under `reqId`, and
        `on_order_created` appended to the `position-changed` listeners. */
    method AwaitOrder(reqId: string) returns (ackFuture: Handle, onOrderCreated: Callback)
      requires Valid()
      modifies dispatcher`futures, dispatcher`handles, dispatcher`nextHandle, dispatcher`listeners, dispatcher`nextClosure
      ensures Valid()
      ensures ackFuture == Handle(old(dispatcher.nextHandle)) && dispatcher.nextHandle == old(dispatcher.nextHandle) + 1
      ensures onOrderCreated.Closure? && onOrderCreated.serial < dispatcher.nextClosure
      ensures onOrderCreated !in ListenersOf(old(dispatcher.listeners), EV_POSITION_CHANGED)
      ensures ListenersAre(dispatcher.listeners, old(dispatcher.listeners), EV_POSITION_CHANGED,
                           ListenersOf(old(dispatcher.listeners), EV_POSITION_CHANGED) + [onOrderCreated])
      ensures dispatcher.futures == old(dispatcher.futures)[reqId := ackFuture]
      ensures dispatcher.handles == old(dispatcher.handles)[ackFuture := Pending]
    {
      ghost var m0 := dispatcher.listeners;
      ackFuture := dispatcher.CreateFuture(reqId);
      onOrderCreated := dispatcher.NewClosure();
      dispatcher.AddListener(EV_POSITION_CHANGED, onOrderCreated);
      AddKeeps(m0, m0, EV_POSITION_CHANGED, ListenersOf(m0, EV_POSITION_CHANGED), onOrderCreated);
    }

    /** The `finally` clause of `buy_blitz`: `on_order_created` and, once
        defined, `on_result` are removed, which leaves every list as it
        was before the trade. */
    method RemoveOrderListeners(onOrderCreated: Callback, onResult: Option<Callback>,
                                ghost L: seq<Callback>, ghost m0: map<string, seq<Callback>>)
      requires Valid()
      requires onOrderCreated !in L
      requires onResult.None? ==> || ListenersAre(dispatcher.listeners, m0, EV_POSITION_CHANGED, L)
                                  || ListenersAre(dispatcher.listeners, m0, EV_POSITION_CHANGED, L + [onOrderCreated])
      requires onResult.Some? ==> && ListenersAre(dispatcher.listeners, m0, EV_POSITION_CHANGED, L + [onResult.value])
                                  && onResult.value != onOrderCreated && onResult.value !in L
      modifies dispatcher`listeners
      ensures Valid()
      ensures ListenersAre(dispatcher.listeners, m0, EV_POSITION_CHANGED, L)
    {
      ghost var rest := if onResult.Some? then [onResult.value] else [];
      ghost var m1 := dispatcher.listeners;
      ghost var before := ListenersOf(m1, EV_POSITION_CHANGED);
      dispatcher.RemoveListener(EV_POSITION_CHANGED, onOrderCreated);
      RemoveKeeps(m1, m0, EV_POSITION_CHANGED, before, onOrderCreated);
      if before == L + [onOrderCreated] {
        RemoveAppended(L, onOrderCreated);
      }
      assert ListenersAre(dispatcher.listeners, m0, EV_POSITION_CHANGED, L + rest);
      if onResult.Some? {
        ghost var m2 := dispatcher.listeners;
        dispatcher.RemoveListener(EV_POSITION_CHANGED, onResult.value);
        RemoveKeeps(m2, m0, EV_POSITION_CHANGED, L + rest, onResult.value);
        RemoveAppended(L, onResult.value);
      }
    }

    /** The `try` body of `buy_blitz`: the order frame under `reqId`, the
        wait for its acknowledgement and what follows it. */
    method SendOrder(reqId: string, body: Json, ackFuture: Handle, onOrderCreated: Callback, env: Trade.BlitzEnv, duration: int,
                     ghost L: seq<Callback>, ghost m0: map<string, seq<Callback>>, ghost t0: Tables)
      returns (r: Result<Trade.TradeResult>, onResult: Option<Callback>)
      requires Valid()
      requires dispatcher.State() == Tables(t0.futures[reqId := ackFuture], t0.handles[ackFuture := Pending], t0.log)
      requires onOrderCreated.Closure? && onOrderCreated.serial < dispatcher.nextClosure && onOrderCreated !in L
      requires ListenersAre(dispatcher.listeners, m0, EV_POSITION_CHANGED, L + [onOrderCreated])
      modifies this`nextRequest, this`sent, dispatcher`futures, dispatcher`handles, dispatcher`listeners, dispatcher`nextClosure
      ensures Valid()
      ensures r == Trade.OrderStage(env, duration)
      ensures dispatcher.State() == Awaited(t0, AckAttempt(env), reqId, ackFuture)
      ensures sent == old(sent) + Trade.FramesAfter(env, Trade.OrderFrame(reqId, body), IntToString(old(nextRequest)))
      ensures nextRequest + 1 == old(nextRequest) + Trade.BlitzRequests(env)
      ensures onResult.None? ==> || ListenersAre(dispatcher.listeners, m0, EV_POSITION_CHANGED, L)
                                 || ListenersAre(dispatcher.listeners, m0, EV_POSITION_CHANGED, L + [onOrderCreated])
      ensures onResult.Some? ==> && ListenersAre(dispatcher.listeners, m0, EV_POSITION_CHANGED, L + [onResult.value])
                                 && onResult.value != onOrderCreated && onResult.value !in L
    {
      onResult := None;
      if env.openSendFails {
        return Raise(SEND_FAILED), None;
      }
      sent := sent + [Trade.OrderFrame(reqId, body)];
      WaitReply(reqId, ackFuture, env.ack, t0);
      if env.ack.None? {
        return Ok(Trade.Timeout), None;
      }
      r, onResult := AfterAck(env.ack.value, env, duration, onOrderCreated, L, m0);
      assert (old(sent) + [Trade.OrderFrame(reqId, body)]) + Trade.SubscribeFrames(env.ack.value, env, IntToString(old(nextRequest)))
          == old(sent) + ([Trade.OrderFrame(reqId, body)] + Trade.SubscribeFrames(env.ack.value, env, IntToString(old(nextRequest))));
    }

    /** The `try` body of `buy_blitz` once the acknowledgement is in, with
        `on_order_created` last among the `position-changed` listeners;
        `onResult` is `on_result` once it is defined. */
    method AfterAck(ack: Json, env: Trade.BlitzEnv, duration: int, onOrderCreated: Callback,
                    ghost L: seq<Callback>, ghost m0: map<string, seq<Callback>>)
      returns (r: Result<Trade.TradeResult>, onResult: Option<Callback>)
      requires Valid()
      requires onOrderCreated.Closure? && onOrderCreated.serial < dispatcher.nextClosure && onOrderCreated !in L
      requires ListenersAre(dispatcher.listeners, m0, EV_POSITION_CHANGED, L + [onOrderCreated])
      modifies this`nextRequest, this`sent, dispatcher`listeners, dispatcher`nextClosure
      ensures Valid()
      ensures r == Trade.AckStage(ack, env, duration)
      ensures nextRequest == old(nextRequest) + (if Trade.Subscribes(ack) then 1 else 0)
      ensures sent == old(sent) + Trade.SubscribeFrames(ack, env, IntToString(old(nextRequest)))
      ensures onResult.None? ==> || ListenersAre(dispatcher.listeners, m0, EV_POSITION_CHANGED, L)
                                 || ListenersAre(dispatcher.listeners, m0, EV_POSITION_CHANGED, L + [onOrderCreated])
      ensures onResult.Some? ==> && ListenersAre(dispatcher.listeners, m0, EV_POSITION_CHANGED, L + [onResult.value])
                                 && onResult.value != onOrderCreated && onResult.value !in L
    {
      onResult := None;
      if !ack.Obj? {
        return Raise("AttributeError"), None;
      }
      if Trade.CheckAck(ack.fields).Rejected? {
        return Raise("RuntimeError", Trade.CheckAck(ack.fields).detail), None;
      }
      var orderId := Trade.OrderIdOf(ack.fields);
      if orderId.Raise? {
        return Raise(orderId.exception, orderId.detail), None;
      }
      r, onResult := Subscribe(orderId.value, env, duration, onOrderCreated, L, m0);
    }

    /** The accepted order: `on_order_created` is removed, the position
        subscription written and `on_result` registered. */
    method Subscribe(orderId: Json, env: Trade.BlitzEnv, duration: int, onOrderCreated: Callback,
                     ghost L: seq<Callback>, ghost m0: map<string, seq<Callback>>)
      returns (r: Result<Trade.TradeResult>, onResult: Option<Callback>)
      requires Valid()
      requires onOrderCreated !in L
      requires ListenersAre(dispatcher.listeners, m0, EV_POSITION_CHANGED, L + [onOrderCreated])
      modifies this`nextRequest, this`sent, dispatcher`listeners, dispatcher`nextClosure
      ensures Valid()
      ensures r == if env.subscribeSendFails then Raise(SEND_FAILED) else Ok(Trade.Outcome(env.events, orderId, duration))
      ensures nextRequest == old(nextRequest) + 1
      ensures sent == old(sent) + if env.subscribeSendFails then [] else [Trade.SubscribeFrame(IntToString(old(nextRequest)), orderId)]
      ensures onResult.None? ==> ListenersAre(dispatcher.listeners, m0, EV_POSITION_CHANGED, L)
      ensures onResult.Some? ==> && ListenersAre(dispatcher.listeners, m0, EV_POSITION_CHANGED, L + [onResult.value])
                                 && onResult.value != onOrderCreated && onResult.value !in L
    {
      ghost var m1 := dispatcher.listeners;
      dispatcher.RemoveListener(EV_POSITION_CHANGED, onOrderCreated);
      RemoveKeeps(m1, m0, EV_POSITION_CHANGED, L + [onOrderCreated], onOrderCreated);
      RemoveAppended(L, onOrderCreated);
      var subId := NextRequestId();
      if env.subscribeSendFails {
        return Raise(SEND_FAILED), None;
      }
      sent := sent + [Trade.SubscribeFrame(subId, orderId)];
      var onResultCb := dispatcher.NewClosure();
      assert onResultCb !in L;
      ghost var m2 := dispatcher.listeners;
      dispatcher.AddListener(EV_POSITION_CHANGED, onResultCb);
      AddKeeps(m2, m0, EV_POSITION_CHANGED, L, onResultCb);
      r := Ok(Trade.Outcome(env.events, orderId, duration));
      onResult := Some(onResultCb);
    }
  }
}
