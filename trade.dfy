/** The decision parts of `buy_blitz` (myiq/core/client.py:644-830): the
    expiry it asks for, the acceptance test on the acknowledgement, which
    `position-changed` pushes belong to the order and settle it, the profit
    or loss it reports, and the synthetic result of a timeout. */
module Trade {
  import opened PyJson
  import opened Constants
  import opened Session

  /** `server_time`, falling back to the local clock, `int(time.time())`,
      when the corrected clock reads 0. */
  function TradeTime(serverTime: int, localMs: int): int {
    if serverTime == 0 then Trunc(localMs as real / 1000.0) else serverTime
  }

  /** `expired`: the start of the minute after next. Python's `%` by a
      positive divisor never goes negative, like Dafny's. */
  function Expiry(serverTime: int): (e: int)
    ensures e % 60 == 0
    ensures serverTime + 60 < e <= serverTime + 120
  {
    (serverTime - serverTime % 60) + 120
  }

  /** The order body sent with `binary-options.open-option`. */
  function OrderBody(balanceId: Json, activeId: int, direction: string, expired: int,
                     duration: int, amount: real, profitPercent: Json): (r: Json)
    ensures r.Obj? && Lookup(r.fields, "expired") == Some(Int(expired))
    ensures Lookup(r.fields, "option_type_id") == Some(Int(OPTION_TYPE_BLITZ))
  {
    var fs := [Field("user_balance_id", balanceId), Field("active_id", Int(activeId)),
               Field("option_type_id", Int(OPTION_TYPE_BLITZ)), Field("direction", Str(Lower(direction))),
               Field("expired", Int(expired)), Field("expiration_size", Int(duration)),
               Field("refund_value", Int(0)), Field("price", Float(amount)), Field("value", Int(0)),
               Field("profit_percent", profitPercent)];
    LookupAt(fs, 4, "expired");
    LookupAt(fs, 2, "option_type_id");
    Obj(fs)
  }

  /** The `binary-options.open-option` frame. */
  function OrderFrame(requestId: string, body: Json): Outbound {
    Request(requestId, OP_OPEN_OPTION, "2.0", body)
  }

  /** The `subscribe-positions` frame for the acknowledged order. */
  function SubscribeFrame(requestId: string, orderId: Json): Outbound {
    Request(requestId, OP_SUBSCRIBE_POSITIONS, "1.0", Obj([Field("frequency", Str("frequent")), Field("ids", Arr([orderId]))]))
  }

  /** On the wire the order frame is a `sendMessage` whose `msg` names
      the open-option operation, version 2.0, and carries the order. */
  lemma OrderFrameWire(requestId: string, body: Json)
    ensures var o := OrderFrame(requestId, body);
            && FrameName(o) == SEND_MESSAGE && o.requestId == requestId
            && Lookup(Msg(o).fields, "name") == Some(Str(OP_OPEN_OPTION))
            && Lookup(Msg(o).fields, "version") == Some(Str("2.0"))
            && Lookup(Msg(o).fields, "body") == Some(body)
  {
  }

  /** The subscription asks for frequent updates of exactly the order. */
  lemma SubscribeFrameWire(requestId: string, orderId: Json)
    ensures var o := SubscribeFrame(requestId, orderId);
            && FrameName(o) == SEND_MESSAGE && o.requestId == requestId
            && Lookup(Msg(o).fields, "name") == Some(Str(OP_SUBSCRIBE_POSITIONS))
            && Msg(o).fields[2].val.Obj?
            && Lookup(Msg(o).fields[2].val.fields, "ids") == Some(Arr([orderId]))
            && Lookup(Msg(o).fields[2].val.fields, "frequency") == Some(Str("frequent"))
  {
    var fs := [Field("frequency", Str("frequent")), Field("ids", Arr([orderId]))];
    LookupAt(fs, 0, "frequency");
    LookupAt(fs, 1, "ids");
  }

  // --------------------------------------------------------------- the ack

  datatype AckVerdict = Accepted | Rejected(detail: Json)

  /** The acknowledgement is accepted when its `status` is in `[0, 2000]`
      (by `==`, so `0.0` and `False` pass too); otherwise the error names
      `msg`, or `msg.message` when `msg` is a dict. */
  function CheckAck(ack: seq<Field>): (r: AckVerdict)
    ensures r.Accepted? <==> NumEq(GetOr(ack, "status", Null), 0) || NumEq(GetOr(ack, "status", Null), 2000)
    ensures r.Rejected? && !GetOr(ack, "msg", Null).Obj? ==> r.detail == GetOr(ack, "msg", Null)
    ensures r.Rejected? && GetOr(ack, "msg", Null).Obj? ==> r.detail == GetOr(GetOr(ack, "msg", Null).fields, "message", Null)
  {
    var status := GetOr(ack, "status", Null);
    if NumEq(status, 0) || NumEq(status, 2000) then Accepted
    else
      var err := GetOr(ack, "msg", Null);
      Rejected(if err.Obj? then GetOr(err.fields, "message", Null) else err)
  }

  /** `ack.get("msg", {}).get("id")`; `.get` raises on a non-dict `msg`. */
  function OrderIdOf(ack: seq<Field>): (r: Result<Json>)
    ensures r.Raise? <==> !GetOr(ack, "msg", EMPTY_OBJ).Obj?
    ensures GetOr(ack, "msg", EMPTY_OBJ).Obj? && Lookup(GetOr(ack, "msg", EMPTY_OBJ).fields, "id").Some? ==>
              r == Ok(Lookup(GetOr(ack, "msg", EMPTY_OBJ).fields, "id").value)
    ensures GetOr(ack, "msg", EMPTY_OBJ).Obj? && Lookup(GetOr(ack, "msg", EMPTY_OBJ).fields, "id").None? ==> r == Ok(Null)
  {
    var m := GetOr(ack, "msg", EMPTY_OBJ);
    if m.Obj? then Ok(GetOr(m.fields, "id", Null)) else Raise("AttributeError")
  }

  // --------------------------------------------------------- settlement

  /** `is_same_id`: the push's `id` or `external_id` prints as the order id
      does, so an int id and its decimal string match. */
  predicate SameOrder(raw: seq<Field>, orderId: Json) {
    PyStr(GetOr(raw, "id", Null)) == PyStr(orderId) || PyStr(GetOr(raw, "external_id", Null)) == PyStr(orderId)
  }

  const FINAL_RESULTS: seq<Json> := [Str("win"), Str("loose"), Str("equal")]

  datatype TradeResult = Closed(outcome: Json, pnl: Json, orderId: Json) | Timeout

  /** The dict `buy_blitz` returns. */
  function ResultJson(r: TradeResult): (j: Json)
    ensures j.Obj? && Lookup(j.fields, "status") == Some(Str(if r.Closed? then "closed" else "error"))
  {
    match r
    case Closed(outcome, pnl, orderId) =>
      Obj([Field("status", Str("closed")), Field("result", outcome), Field("profit", pnl),
           Field("pnl", pnl), Field("order_id", orderId)])
    case Timeout => Obj([Field("status", Str("error")), Field("result", Str("timeout")), Field("pnl", Int(0))])
  }

  /** The inner event `raw.raw_event.binary_options_option_changed1`; `None`
      where a `.get` on the way raises. */
  function InnerEvent(raw: seq<Field>): Option<seq<Field>> {
    var re := GetOr(raw, "raw_event", EMPTY_OBJ);
    if !re.Obj? then None
    else
      var evt := GetOr(re.fields, "binary_options_option_changed1", EMPTY_OBJ);
      if evt.Obj? then Some(evt.fields) else None
  }

  /** `pnl`: the push's own `pnl` (0 when missing), replaced by
      `profit_amount - amount` of the inner event only when it equals 0 and
      the inner event has `profit_amount`; `None` where that subtraction
      raises. */
  function Pnl(raw: seq<Field>, evt: seq<Field>): (r: Option<Json>)
    ensures !(NumEq(GetOr(raw, "pnl", Int(0)), 0) && HasKey(evt, "profit_amount")) ==> r == Some(GetOr(raw, "pnl", Int(0)))
    ensures NumEq(GetOr(raw, "pnl", Int(0)), 0) && HasKey(evt, "profit_amount") ==>
              r == PySub(GetOr(evt, "profit_amount", Int(0)), GetOr(evt, "amount", Int(0)))
  {
    var pnl := GetOr(raw, "pnl", Int(0));
    if NumEq(pnl, 0) && HasKey(evt, "profit_amount") then
      PySub(GetOr(evt, "profit_amount", Int(0)), GetOr(evt, "amount", Int(0)))
    else Some(pnl)
  }

  /** What `on_result` makes of one push: the settled result, or `None` when
      the push is not a settlement of this order or the listener raises on
      it (the dispatcher catches that). */
  function Settlement(message: Json, orderId: Json): (r: Option<TradeResult>)
    ensures r.Some? ==> r.value.Closed? && r.value.orderId == orderId
    ensures r.Some? ==> message.Obj? && GetOr(message.fields, "name", Null) == Str(EV_POSITION_CHANGED)
    ensures r.Some? ==> var raw := GetOr(message.fields, "msg", EMPTY_OBJ);
                        && raw.Obj? && SameOrder(raw.fields, orderId) && InnerEvent(raw.fields).Some?
                        && (GetOr(raw.fields, "status", Null) == Str("closed")
                            || GetOr(InnerEvent(raw.fields).value, "result", Null) in FINAL_RESULTS)
                        && Some(r.value.pnl) == Pnl(raw.fields, InnerEvent(raw.fields).value)
  {
    if !message.Obj? || GetOr(message.fields, "name", Null) != Str(EV_POSITION_CHANGED) then None
    else
      var raw := GetOr(message.fields, "msg", EMPTY_OBJ);
      if !raw.Obj? || !SameOrder(raw.fields, orderId) then None
      else match InnerEvent(raw.fields)
        case None => None
        case Some(evt) =>
          var result := GetOr(evt, "result", Null);
          if !(GetOr(raw.fields, "status", Null) == Str("closed") || result in FINAL_RESULTS) then None
          else match Pnl(raw.fields, evt)
            case None => None
            case Some(pnl) =>
              Some(Closed(if Truthy(result) then result else GetOr(raw.fields, "close_reason", Null), pnl, orderId))
  }

  /** A push delivered to `on_result`, `at` seconds after it was registered. */
  datatype TimedEvent = TimedEvent(at: real, message: Json)

  /** `max(duration, 60) + 30` seconds. */
  function WaitTime(duration: int): (w: int)
    ensures w >= 90 && w >= duration + 30
    ensures w == 90 || w == duration + 30
  {
    (if duration > 60 then duration else 60) + 30
  }

  /** What `on_result` makes of each push, in arrival order: nothing for
      those that arrive after the wait is over. */
  function Replies(events: seq<TimedEvent>, orderId: Json, wait: int): (r: seq<Option<TradeResult>>)
    ensures |r| == |events|
    ensures forall i :: 0 <= i < |events| ==>
              r[i] == if events[i].at < wait as real then Settlement(events[i].message, orderId) else None
  {
    seq(|events|, i requires 0 <= i < |events| =>
      if events[i].at < wait as real then Settlement(events[i].message, orderId) else None)
  }

  /** Index of the first present entry. */
  function FirstSome<T>(s: seq<Option<T>>): (r: Option<nat>)
    ensures r.Some? ==> r.value < |s| && s[r.value].Some?
    ensures r.Some? ==> forall j :: 0 <= j < r.value ==> s[j].None?
    ensures r.None? <==> forall j :: 0 <= j < |s| ==> s[j].None?
  {
    if s == [] then None
    else if s[0].Some? then Some(0)
    else match FirstSome(s[1..])
      case None => None
      case Some(i) => Some(i + 1)
  }

  /** The result `buy_blitz` waits for: the first settlement within the
      wait (`result_future` is set once), else the timeout result. */
  function Outcome(events: seq<TimedEvent>, orderId: Json, duration: int): (r: TradeResult)
    ensures r.Closed? ==> exists i :: 0 <= i < |events| && events[i].at < WaitTime(duration) as real
                                      && Settlement(events[i].message, orderId) == Some(r)
    ensures r.Timeout? <==> forall j :: 0 <= j < |events| && events[j].at < WaitTime(duration) as real ==>
                                         Settlement(events[j].message, orderId).None?
  {
    var replies := Replies(events, orderId, WaitTime(duration));
    match FirstSome(replies)
    case Some(i) => replies[i].value
    case None =>
      assert forall j :: 0 <= j < |events| ==> replies[j].None?;
      Timeout
  }

  /** Only the first settlement counts: later pushes, settling or not,
      change nothing. */
  lemma FirstSettlementWins(before: seq<TimedEvent>, e: TimedEvent, after: seq<TimedEvent>, orderId: Json, duration: int)
    requires e.at < WaitTime(duration) as real && Settlement(e.message, orderId).Some?
    requires forall j :: 0 <= j < |before| && before[j].at < WaitTime(duration) as real ==>
               Settlement(before[j].message, orderId).None?
    ensures Outcome(before + [e] + after, orderId, duration) == Settlement(e.message, orderId).value
  {
    var evs := before + [e] + after;
    var replies := Replies(evs, orderId, WaitTime(duration));
    assert evs[|before|] == e;
    assert replies[|before|].Some?;
    forall j | 0 <= j < |before| ensures replies[j].None? {
      assert evs[j] == before[j];
    }
    var r := FirstSome(replies);
    assert r.value == |before|;
  }

  /** The `position-changed` push around an order event `raw`. */
  function Push(raw: seq<Field>): Json {
    Obj([Field("name", Str(EV_POSITION_CHANGED)), Field("msg", Obj(raw))])
  }

  lemma PushParts(raw: seq<Field>)
    ensures GetOr(Push(raw).fields, "name", Null) == Str(EV_POSITION_CHANGED)
    ensures GetOr(Push(raw).fields, "msg", EMPTY_OBJ) == Obj(raw)
  {
    LookupAt(Push(raw).fields, 0, "name");
    LookupAt(Push(raw).fields, 1, "msg");
  }

  /** The `raw_event` wrapper around an inner event. */
  function Wrapped(evt: seq<Field>): Json {
    Obj([Field("binary_options_option_changed1", Obj(evt))])
  }

  /** A push that only reports the position opened (`status` "open", inner
      `result` "opened") settles nothing. */
  lemma OpenedDoesNotSettle(orderId: Json, evt: seq<Field>)
    requires Lookup(evt, "result") == Some(Str("opened"))
    ensures Settlement(Push([Field("id", orderId), Field("status", Str("open")), Field("raw_event", Wrapped(evt))]),
                       orderId).None?
  {
    var raw := [Field("id", orderId), Field("status", Str("open")), Field("raw_event", Wrapped(evt))];
    PushParts(raw);
    OpenParts(orderId, evt);
    assert GetOr(evt, "result", Null) == Str("opened");
    assert Str("opened") !in FINAL_RESULTS by {
      var o := "opened";
      assert o[0] == 'o' && "win"[0] == 'w' && "loose"[0] == 'l' && "equal"[0] == 'e';
      assert o != "win" && o != "loose" && o != "equal";
    }
  }

  lemma OpenParts(orderId: Json, evt: seq<Field>)
    ensures var raw := [Field("id", orderId), Field("status", Str("open")), Field("raw_event", Wrapped(evt))];
            GetOr(raw, "status", Null) == Str("open") && InnerEvent(raw) == Some(evt)
  {
    var raw := [Field("id", orderId), Field("status", Str("open")), Field("raw_event", Wrapped(evt))];
    LookupAt(raw, 1, "status");
    LookupAt(raw, 2, "raw_event");
    LookupAt(Wrapped(evt).fields, 0, "binary_options_option_changed1");
  }

  /** An int id in the push matches the order id in its decimal string form,
      and back. */
  lemma IntAndStringIdsMatch(raw: seq<Field>, n: int)
    requires Lookup(raw, "id") == Some(Int(n))
    ensures SameOrder(raw, Str(IntToString(n)))
    ensures SameOrder([Field("id", Str(IntToString(n)))], Int(n))
  {
  }

  /** With no `id` in the acknowledgement, `str(None)` is `"None"`, so any
      push that has neither `id` nor `external_id` passes as this order. */
  lemma MissingOrderIdMatchesIdless(raw: seq<Field>)
    requires !HasKey(raw, "id") && !HasKey(raw, "external_id")
    ensures SameOrder(raw, Null)
  {
  }

  /** A zero `pnl` with a `profit_amount` in the inner event is replaced by
      `profit_amount - amount`; any other `pnl` is kept. */
  lemma PnlFallback(pa: int, amount: int)
    ensures Pnl([Field("pnl", Int(0))], [Field("profit_amount", Int(pa)), Field("amount", Int(amount))]) == Some(Int(pa - amount))
    ensures Pnl([Field("pnl", Float(0.86))], [Field("profit_amount", Int(pa))]) == Some(Float(0.86))
  {
    var evt := [Field("profit_amount", Int(pa)), Field("amount", Int(amount))];
    assert evt[0].key != "amount" && evt[1..] == [Field("amount", Int(amount))];
    assert Find(evt, "amount") == Some(1);
  }

  /** The settlement of a win: status `closed`, inner result `win`,
      `pnl` 0.86. */
  lemma WinSettles(orderId: Json)
    ensures Settlement(Push(Payload(orderId, Str("closed"), Float(0.86), [Field("result", Str("win"))])), orderId)
            == Some(Closed(Str("win"), Float(0.86), orderId))
  {
    var evt := [Field("result", Str("win"))];
    var raw := Payload(orderId, Str("closed"), Float(0.86), evt);
    PayloadParts(orderId, Str("closed"), Float(0.86), evt);
    LookupAt(evt, 0, "result");
    assert Pnl(raw, evt) == Some(Float(0.86));
    ClosedSettles(raw, orderId, evt);
  }

  /** A position push payload with an id, a status, a `pnl` and a wrapped
      inner event. */
  function Payload(orderId: Json, status: Json, pnl: Json, evt: seq<Field>): seq<Field> {
    [Field("id", orderId), Field("status", status), Field("pnl", pnl), Field("raw_event", Wrapped(evt))]
  }

  lemma PayloadParts(orderId: Json, status: Json, pnl: Json, evt: seq<Field>)
    ensures var raw := Payload(orderId, status, pnl, evt);
            && SameOrder(raw, orderId) && InnerEvent(raw) == Some(evt)
            && GetOr(raw, "status", Null) == status && GetOr(raw, "pnl", Int(0)) == pnl
  {
    var raw := Payload(orderId, status, pnl, evt);
    LookupAt(raw, 0, "id");
    LookupAt(raw, 1, "status");
    PayloadTail(orderId, status, pnl, evt);
  }

  lemma PayloadTail(orderId: Json, status: Json, pnl: Json, evt: seq<Field>)
    ensures var raw := Payload(orderId, status, pnl, evt);
            InnerEvent(raw) == Some(evt) && GetOr(raw, "pnl", Int(0)) == pnl
  {
    var raw := Payload(orderId, status, pnl, evt);
    LookupAt(raw, 2, "pnl");
    LookupAt(raw, 3, "raw_event");
    LookupAt(Wrapped(evt).fields, 0, "binary_options_option_changed1");
  }

  /** A closed push of this order with a truthy inner `result` settles it
      with that result and its `pnl`. */
  lemma ClosedSettles(raw: seq<Field>, orderId: Json, evt: seq<Field>)
    requires SameOrder(raw, orderId) && InnerEvent(raw) == Some(evt)
    requires GetOr(raw, "status", Null) == Str("closed") && Truthy(GetOr(evt, "result", Null))
    requires Pnl(raw, evt).Some?
    ensures Settlement(Push(raw), orderId) == Some(Closed(GetOr(evt, "result", Null), Pnl(raw, evt).value, orderId))
  {
    PushParts(raw);
  }

  /** Both directions of the settlement test for a push of the order whose
      inner event is readable and whose `pnl` can be computed: it settles
      exactly when the status is `closed` or the inner result is final, with
      whatever status, and the outcome is the inner result when truthy,
      otherwise the push's `close_reason`. */
  lemma PushSettles(raw: seq<Field>, orderId: Json, evt: seq<Field>)
    requires SameOrder(raw, orderId) && InnerEvent(raw) == Some(evt) && Pnl(raw, evt).Some?
    ensures Settlement(Push(raw), orderId).Some? <==>
              GetOr(raw, "status", Null) == Str("closed") || GetOr(evt, "result", Null) in FINAL_RESULTS
    ensures Settlement(Push(raw), orderId).Some? ==>
              var result := GetOr(evt, "result", Null);
              Settlement(Push(raw), orderId).value
                == Closed(if Truthy(result) then result else GetOr(raw, "close_reason", Null), Pnl(raw, evt).value, orderId)
  {
    PushParts(raw);
  }

  /** A push reporting a `win` settles the order while its status is still
      `open`. */
  lemma OpenWinSettles(orderId: Json)
    ensures Settlement(Push(Payload(orderId, Str("open"), Float(0.86), [Field("result", Str("win"))])), orderId)
            == Some(Closed(Str("win"), Float(0.86), orderId))
  {
    var evt := [Field("result", Str("win"))];
    var raw := Payload(orderId, Str("open"), Float(0.86), evt);
    PayloadParts(orderId, Str("open"), Float(0.86), evt);
    LookupAt(evt, 0, "result");
    assert Pnl(raw, evt) == Some(Float(0.86));
    PushSettles(raw, orderId, evt);
  }

  /** A closed push whose inner result is missing reports its
      `close_reason` as the outcome. */
  lemma ClosedWithoutResult(raw: seq<Field>, orderId: Json, evt: seq<Field>)
    requires SameOrder(raw, orderId) && InnerEvent(raw) == Some(evt) && Pnl(raw, evt).Some?
    requires GetOr(raw, "status", Null) == Str("closed") && !HasKey(evt, "result")
    ensures Settlement(Push(raw), orderId) == Some(Closed(GetOr(raw, "close_reason", Null), Pnl(raw, evt).value, orderId))
  {
    PushSettles(raw, orderId, evt);
  }

  /** A win pushed within the wait yields the closed result dict. */
  lemma WinExample(orderId: Json, at: real)
    requires 0.0 <= at < 90.0
    ensures ResultJson(Outcome([TimedEvent(at, Push(Payload(orderId, Str("closed"), Float(0.86),
                                                            [Field("result", Str("win"))])))],
                               orderId, 30))
            == Obj([Field("status", Str("closed")), Field("result", Str("win")), Field("profit", Float(0.86)),
                    Field("pnl", Float(0.86)), Field("order_id", orderId)])
  {
    var e := TimedEvent(at, Push(Payload(orderId, Str("closed"), Float(0.86), [Field("result", Str("win"))])));
    WinSettles(orderId);
    OnlySettlement(e, orderId, 30);
  }

  /** A lone push that settles the order within the wait decides it. */
  lemma OnlySettlement(e: TimedEvent, orderId: Json, duration: int)
    requires e.at < WaitTime(duration) as real && Settlement(e.message, orderId).Some?
    ensures Outcome([e], orderId, duration) == Settlement(e.message, orderId).value
  {
    assert [e][0] == e;
  }

  /** No settlement within the wait gives the fixed timeout dict. */
  lemma TimeoutResult(events: seq<TimedEvent>, orderId: Json, duration: int)
    requires forall j :: 0 <= j < |events| ==> events[j].at >= WaitTime(duration) as real
    ensures ResultJson(Outcome(events, orderId, duration))
              == Obj([Field("status", Str("error")), Field("result", Str("timeout")), Field("pnl", Int(0))])
  {
  }

  // ------------------------------------------------------- the whole trade

  /** What the world does while `buy_blitz` runs: the local clock, whether
      the order frame's send raises, the acknowledgement (none within the
      10 seconds), whether the subscription frame's send raises, and the
      pushes `on_result` sees. */
  datatype BlitzEnv = BlitzEnv(localMs: int, openSendFails: bool, ack: Option<Json>,
                               subscribeSendFails: bool, events: seq<TimedEvent>)

  /** Reference definition of what `buy_blitz` returns or raises, given the
      selected balance and what `get_profit_percent` returned or raised. */
  function BlitzSpec(balanceId: Json, profit: Result<Json>, env: BlitzEnv, duration: int): (r: Result<TradeResult>)
    ensures !Truthy(balanceId) ==> r == Raise("ValueError")
    ensures Truthy(balanceId) && profit.Raise? ==> r == Raise(profit.exception, profit.detail)
    ensures r.Ok? ==> Truthy(balanceId) && profit.Ok? && !env.openSendFails
    ensures Truthy(balanceId) && profit.Ok? && !env.openSendFails && env.ack.None? ==> r == Ok(Timeout)
    ensures (Truthy(balanceId) && profit.Ok? && !env.openSendFails && env.ack.Some? && env.ack.value.Obj?
             && CheckAck(env.ack.value.fields).Rejected?) ==> r == Raise("RuntimeError", CheckAck(env.ack.value.fields).detail)
    ensures (Truthy(balanceId) && profit.Ok? && !env.openSendFails && env.ack.Some? && Subscribes(env.ack.value)
             && !env.subscribeSendFails) ==> r == Ok(Outcome(env.events, OrderIdOf(env.ack.value.fields).value, duration))
    ensures r.Ok? && r.value.Closed? ==>
              && env.ack.Some? && env.ack.value.Obj? && CheckAck(env.ack.value.fields).Accepted?
              && OrderIdOf(env.ack.value.fields) == Ok(r.value.orderId) && !env.subscribeSendFails
              && exists i :: 0 <= i < |env.events| && env.events[i].at < WaitTime(duration) as real
                            && Settlement(env.events[i].message, r.value.orderId) == Some(r.value)
  {
    if !Truthy(balanceId) then Raise("ValueError")
    else if profit.Raise? then Raise(profit.exception, profit.detail)
    else OrderStage(env, duration)
  }

  /** `buy_blitz` from the send of the order frame on. */
  function OrderStage(env: BlitzEnv, duration: int): (r: Result<TradeResult>)
    ensures r.Ok? ==> !env.openSendFails
    ensures r == Ok(Timeout) <== !env.openSendFails && env.ack.None?
  {
    if env.openSendFails then Raise(SEND_FAILED)
    else match env.ack
      case None => Ok(Timeout)
      case Some(ack) => AckStage(ack, env, duration)
  }

  /** `buy_blitz` from the arrival of the acknowledgement on: its check,
      the order id, the subscription and the wait for the result. */
  function AckStage(ack: Json, env: BlitzEnv, duration: int): (r: Result<TradeResult>)
    ensures r.Ok? <==> Subscribes(ack) && !env.subscribeSendFails
  {
    if !ack.Obj? then Raise("AttributeError")
    else if CheckAck(ack.fields).Rejected? then Raise("RuntimeError", CheckAck(ack.fields).detail)
    else match OrderIdOf(ack.fields)
      case Raise(e, d) => Raise(e, d)
      case Ok(orderId) =>
        if env.subscribeSendFails then Raise(SEND_FAILED)
        else Ok(Outcome(env.events, orderId, duration))
  }

  /** Whether the acknowledgement gets `buy_blitz` as far as subscribing
      to the order's position: a dict, accepted, with a readable order id. */
  predicate Subscribes(ack: Json) {
    ack.Obj? && CheckAck(ack.fields).Accepted? && OrderIdOf(ack.fields).Ok?
  }

  /** The subscription frame written after the acknowledgement `ack`, under
      request id `requestId`, unless the send fails. */
  function SubscribeFrames(ack: Json, env: BlitzEnv, requestId: string): (r: seq<Outbound>)
    ensures |r| <= 1
    ensures |r| == 1 <==> Subscribes(ack) && !env.subscribeSendFails
    ensures |r| == 1 ==> r[0].requestId == requestId
  {
    if Subscribes(ack) && !env.subscribeSendFails then [SubscribeFrame(requestId, OrderIdOf(ack.fields).value)] else []
  }

  /** Every frame `buy_blitz` writes once it has a balance and a payout:
      the order under request id `str(base)`, expiring at the next minute
      mark but one after the server time, and then the subscription under
      `str(base + 1)`. */
  function BlitzFrames(balanceId: Json, activeId: int, direction: string, amount: real, duration: int,
                       profitPercent: Json, serverTimestamp: int, env: BlitzEnv, base: nat): (r: seq<Outbound>)
    ensures |r| <= 2
    ensures r == [] <==> env.openSendFails
    ensures r != [] ==> r[0] == OrderFrame(IntToString(base),
                                   OrderBody(balanceId, activeId, direction, Expiry(TradeTime(serverTimestamp, env.localMs)),
                                             duration, amount, profitPercent))
    ensures |r| == 2 <==> !env.openSendFails && env.ack.Some? && Subscribes(env.ack.value) && !env.subscribeSendFails
  {
    FramesAfter(env, OrderFrame(IntToString(base),
                                OrderBody(balanceId, activeId, direction, Expiry(TradeTime(serverTimestamp, env.localMs)),
                                          duration, amount, profitPercent)),
                IntToString(base + 1))
  }

  /** The frames written from the order frame `order` on: none when its
      send fails, else `order` and the subscription under `subscribeId`. */
  function FramesAfter(env: BlitzEnv, order: Outbound, subscribeId: string): (r: seq<Outbound>)
    ensures r == [] <==> env.openSendFails
    ensures r != [] ==> r[0] == order
    ensures |r| == 2 <==> !env.openSendFails && env.ack.Some? && Subscribes(env.ack.value) && !env.subscribeSendFails
  {
    if env.openSendFails then []
    else [order] + if env.ack.Some? then SubscribeFrames(env.ack.value, env, subscribeId) else []
  }

  /** How many request ids `buy_blitz` draws once it has a balance and a
      payout: one for the order, one more for the subscription. */
  function BlitzRequests(env: BlitzEnv): (n: nat)
    ensures 1 <= n <= 2
    ensures n == 2 <==> !env.openSendFails && env.ack.Some? && Subscribes(env.ack.value)
  {
    if env.openSendFails then 1
    else match env.ack
      case None => 1
      case Some(ack) => if Subscribes(ack) then 2 else 1
  }

  /** An accepted order whose acknowledgement carries id `n`, followed by a
      win within the wait, returns the closed result for order `n`. */
  lemma AcceptedWin(balanceId: Json, profit: Json, localMs: int, n: int, at: real)
    requires Truthy(balanceId) && 0.0 <= at < 90.0
    ensures var ack := Obj([Field("status", Int(2000)), Field("msg", Obj([Field("id", Int(n))]))]);
            var win := Push([Field("id", Int(n)), Field("status", Str("closed")), Field("pnl", Float(0.86)),
                             Field("raw_event", Wrapped([Field("result", Str("win"))]))]);
            BlitzSpec(balanceId, Ok(profit), BlitzEnv(localMs, false, Some(ack), false, [TimedEvent(at, win)]), 30)
              == Ok(Closed(Str("win"), Float(0.86), Int(n)))
  {
    var idf := [Field("id", Int(n))];
    var ack := [Field("status", Int(2000)), Field("msg", Obj(idf))];
    LookupAt(ack, 0, "status");
    LookupAt(ack, 1, "msg");
    LookupAt(idf, 0, "id");
    assert CheckAck(ack).Accepted?;
    assert OrderIdOf(ack) == Ok(Int(n));
    WinExample(Int(n), at);
    WinSettles(Int(n));
  }

  /** A rejected acknowledgement whose `msg` is a dict raises a
      `RuntimeError` formatted from `msg.message`, the text callers search
      for words such as "suspended". */
  lemma RejectedAckDetail(balanceId: Json, profit: Json, env: BlitzEnv, reason: string)
    requires Truthy(balanceId) && !env.openSendFails
    requires env.ack == Some(Obj([Field("status", Int(4000)), Field("msg", Obj([Field("message", Str(reason))]))]))
    ensures BlitzSpec(balanceId, Ok(profit), env, 30) == Raise("RuntimeError", Str(reason))
  {
    var err := [Field("message", Str(reason))];
    var ack := [Field("status", Int(4000)), Field("msg", Obj(err))];
    LookupAt(ack, 0, "status");
    LookupAt(ack, 1, "msg");
    LookupAt(err, 0, "message");
  }
}
