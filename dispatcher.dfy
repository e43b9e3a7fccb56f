/** The message dispatcher (myiq/core/dispatcher.py): the single consumer of
    inbound messages. It correlates responses with pending requests by
    `request_id`, fans named events out to their listeners, and re-dispatches
    the payload of a `sendMessage` envelope.

    What a callback does is abstracted: each call is recorded in an
    append-only log, together with whether the callback raised (the
    dispatcher catches that and goes on). */
module Dispatch {
  import opened PyJson
  import opened Constants

  /** A completion handle (an asyncio future). */
  datatype Handle = Handle(serial: nat)

  datatype HandleState = Pending | Resolved(message: Json) | Cancelled

  /** A registered callback: a bound method of the client, named after its
      handler, or a closure created by one call of a client operation. */
  datatype Callback = Method(name: string) | Closure(serial: nat)

  datatype Invocation = Invocation(callback: Callback, message: Json, raised: bool)

  /** The part of the dispatcher's state that `dispatch` changes. */
  datatype Tables = Tables(futures: map<string, Handle>, handles: map<Handle, HandleState>, log: seq<Invocation>)

  /** `dispatch` returns normally, or an exception escapes it. */
  datatype Outcome = Returned | Raised

  function ListenersOf(listeners: map<string, seq<Callback>>, name: string): seq<Callback> {
    if name in listeners then listeners[name] else []
  }

  /** Every entry of the pending table names a known handle that is not yet
      fulfilled, and no handle is pending under two ids. */
  ghost predicate FuturesValid(t: Tables) {
    && (forall k | k in t.futures :: t.futures[k] in t.handles && !t.handles[t.futures[k]].Resolved?)
    && (forall k1, k2 | k1 in t.futures && k2 in t.futures && k1 != k2 :: t.futures[k1] != t.futures[k2])
  }

  ghost predicate ClosuresBelow(listeners: map<string, seq<Callback>>, bound: nat) {
    forall name, cb | name in listeners && cb in listeners[name] :: cb.Closure? ==> cb.serial < bound
  }

  // ------------------------------------------------------------ listeners

  /** Position of the first occurrence of `x`. */
  function IndexOf<T(==)>(s: seq<T>, x: T): (i: nat)
    requires x in s
    ensures i < |s| && s[i] == x && x !in s[..i]
  {
    if s[0] == x then 0
    else
      var j := IndexOf(s[1..], x);
      assert s[..j + 1] == [s[0]] + s[1..][..j];
      1 + j
  }

  /** `list.remove(x)`: scans for `x` and drops its first occurrence; a list
      without `x` is returned as it is (the dispatcher tests membership
      before calling `remove`). */
  function RemoveFirst<T(==)>(s: seq<T>, x: T): (r: seq<T>)
    ensures x !in s ==> r == s
    ensures x in s ==> r == s[..IndexOf(s, x)] + s[IndexOf(s, x) + 1..]
  {
    if s == [] then []
    else if s[0] == x then s[1..]
    else
      var rest := RemoveFirst(s[1..], x);
      RemoveFirstStep(s, x, rest);
      [s[0]] + rest
  }

  /** Behind a head that is not `x`, removing from the tail removes from the list. */
  lemma RemoveFirstStep<T>(s: seq<T>, x: T, rest: seq<T>)
    requires s != [] && s[0] != x
    requires x !in s[1..] ==> rest == s[1..]
    requires x in s[1..] ==> rest == s[1..][..IndexOf(s[1..], x)] + s[1..][IndexOf(s[1..], x) + 1..]
    ensures x !in s ==> [s[0]] + rest == s
    ensures x in s ==> [s[0]] + rest == s[..IndexOf(s, x)] + s[IndexOf(s, x) + 1..]
  {
    assert s == [s[0]] + s[1..];
    if x in s[1..] {
      ShiftIndex(s, x, IndexOf(s[1..], x));
    }
  }

  lemma ShiftIndex<T>(s: seq<T>, x: T, j: nat)
    requires s != [] && s[0] != x && x in s[1..] && j == IndexOf(s[1..], x)
    ensures IndexOf(s, x) == j + 1
    ensures [s[0]] + (s[1..][..j] + s[1..][j + 1..]) == s[..j + 1] + s[j + 2..]
  {
    ShiftSlices(s, j);
  }

  lemma ShiftSlices<T>(s: seq<T>, j: nat)
    requires j + 2 <= |s|
    ensures [s[0]] + (s[1..][..j] + s[1..][j + 1..]) == s[..j + 1] + s[j + 2..]
  {
    assert s[..j + 1] == [s[0]] + s[1..][..j];
    assert s[j + 2..] == s[1..][j + 1..];
  }

  /** `remove` takes out one copy of the callback and nothing else. */
  lemma RemoveFirstCount<T>(s: seq<T>, x: T)
    ensures multiset(RemoveFirst(s, x)) == multiset(s) - multiset{x}
  {
    if x in s {
      var i := IndexOf(s, x);
      assert s == s[..i] + [x] + s[i + 1..];
      DropOneCopy(s[..i], x, s[i + 1..]);
    } else {
      DropAbsent(s, x);
    }
  }

  lemma DropAbsent<T>(s: seq<T>, x: T)
    requires x !in s
    ensures multiset(s) - multiset{x} == multiset(s)
  {
    assert multiset(s)[x] == 0;
  }

  lemma DropOneCopy<T>(a: seq<T>, x: T, b: seq<T>)
    ensures multiset(a + [x] + b) - multiset{x} == multiset(a + b)
  {
    assert multiset(a + [x] + b) == multiset(a) + multiset{x} + multiset(b);
  }

  /** Removing a callback that was just appended, and was not registered
      before, restores the list: a listener added and later removed leaves
      nothing behind. */
  lemma {:induction false} RemoveAppended<T>(s: seq<T>, x: T)
    requires x !in s
    ensures RemoveFirst(s + [x], x) == s
  {
    if s != [] {
      assert (s + [x])[1..] == s[1..] + [x];
      RemoveAppended(s[1..], x);
    }
  }

  /** With an earlier registration of the same callback, that earlier copy
      is the one removed and whatever was appended later stays. */
  lemma {:induction false} RemoveEarlierCopy<T>(s: seq<T>, x: T, y: T)
    requires x in s
    ensures RemoveFirst(s + [y], x) == RemoveFirst(s, x) + [y]
  {
    assert (s + [y])[1..] == s[1..] + [y];
    if s[0] != x {
      RemoveEarlierCopy(s[1..], x, y);
    }
  }

  /** One invocation per registered callback, in registration order. */
  function Calls(cbs: seq<Callback>, message: Json, raises: set<(Callback, Json)>): (r: seq<Invocation>)
    ensures |r| == |cbs|
    ensures forall i :: 0 <= i < |cbs| ==> r[i] == Invocation(cbs[i], message, (cbs[i], message) in raises)
  {
    if cbs == [] then []
    else [Invocation(cbs[0], message, (cbs[0], message) in raises)] + Calls(cbs[1..], message, raises)
  }

  lemma CallsSnoc(cbs: seq<Callback>, i: nat, message: Json, raises: set<(Callback, Json)>)
    requires i < |cbs|
    ensures Calls(cbs[..i + 1], message, raises)
         == Calls(cbs[..i], message, raises) + [Invocation(cbs[i], message, (cbs[i], message) in raises)]
  {
    var a := Calls(cbs[..i + 1], message, raises);
    var b := Calls(cbs[..i], message, raises) + [Invocation(cbs[i], message, (cbs[i], message) in raises)];
    assert |a| == |b|;
    forall j | 0 <= j < |a| ensures a[j] == b[j] {
      assert cbs[..i + 1][j] == cbs[j];
    }
  }

  // ------------------------------------------------------- dispatch, as values

  /** Step 1 of dispatch: pop the entry pending under `key` and fulfil its
      handle with the message, unless the handle is already done. */
  function ResolveStep(t: Tables, key: StrForm, message: Json): Tables {
    if key.Chars? && key.s in t.futures then
      var h := t.futures[key.s];
      Tables(t.futures - {key.s},
             if h in t.handles && t.handles[h].Pending? then t.handles[h := Resolved(message)] else t.handles,
             t.log)
    else t
  }

  /** `message.get("name")`. */
  function NameOf(message: Json): Json
    requires message.Obj?
  {
    GetOr(message.fields, "name", Null)
  }

  /** `str(message.get("request_id", ""))`. */
  function KeyOf(message: Json): StrForm
    requires message.Obj?
  {
    PyStr(GetOr(message.fields, "request_id", Str("")))
  }

  /** Steps 1 and 2 of dispatch for a message with a hashable, truthy name:
      its pending id, then every listener of its name. Only a string name
      can match a listener table key. */
  function Deliver(t: Tables, listeners: map<string, seq<Callback>>, message: Json,
                   raises: set<(Callback, Json)>): Tables
    requires message.Obj?
  {
    var t1 := ResolveStep(t, KeyOf(message), message);
    var name := NameOf(message);
    if name.Str? then t1.(log := t1.log + Calls(ListenersOf(listeners, name.s), message, raises)) else t1
  }

  /** Step 3: where a `sendMessage` envelope keeps a dict payload. */
  function EnvelopeAt(message: Json): (r: Option<nat>)
    requires message.Obj?
    ensures r.Some? <==> NameOf(message) == Str(SEND_MESSAGE) && Lookup(message.fields, "msg").Some?
                         && Lookup(message.fields, "msg").value.Obj?
    ensures r.Some? ==> r.value < |message.fields| && Lookup(message.fields, "msg") == Some(message.fields[r.value].val)
  {
    if NameOf(message) == Str(SEND_MESSAGE) then
      match Find(message.fields, "msg")
      case Some(i) => if message.fields[i].val.Obj? then Some(i) else None
      case None => None
    else None
  }

  /** The whole effect of `dispatch(message)` on the tables, and whether an
      exception escapes: a non-dict message fails at `message.get`, an
      unhashable name at `name in self._listeners`, after step 1. */
  function DispatchSpec(t: Tables, listeners: map<string, seq<Callback>>, message: Json,
                        raises: set<(Callback, Json)>): (Tables, Outcome)
    decreases message
  {
    if !message.Obj? then (t, Raised)
    else if !Truthy(NameOf(message)) then (t, Returned)
    else if !Hashable(NameOf(message)) then (ResolveStep(t, KeyOf(message), message), Raised)
    else
      var t2 := Deliver(t, listeners, message, raises);
      match EnvelopeAt(message)
      case Some(i) =>
        assert message.fields[i] in message.fields;
        DispatchSpec(t2, listeners, message.fields[i].val, raises)
      case None => (t2, Returned)
  }

  /** Reference definition of the callbacks a message reaches: those of its
      own name, then those its `sendMessage` payload reaches. It mentions no
      pending state at all. */
  function Invocations(listeners: map<string, seq<Callback>>, message: Json,
                       raises: set<(Callback, Json)>): seq<Invocation>
    decreases message
  {
    if !message.Obj? || !Truthy(NameOf(message)) || !Hashable(NameOf(message)) then []
    else
      var name := NameOf(message);
      var own := if name.Str? then Calls(ListenersOf(listeners, name.s), message, raises) else [];
      match EnvelopeAt(message)
      case Some(i) =>
        assert message.fields[i] in message.fields;
        own + Invocations(listeners, message.fields[i].val, raises)
      case None => own
  }

  /** Reference definition of the request ids a message consumes: its own,
      then those its `sendMessage` payload consumes. */
  function TouchedKeys(message: Json): set<string>
    decreases message
  {
    if !message.Obj? || !Truthy(NameOf(message)) then {}
    else
      var key := KeyOf(message);
      var own := if key.Chars? then {key.s} else {};
      if !Hashable(NameOf(message)) then own
      else match EnvelopeAt(message)
        case Some(i) =>
          assert message.fields[i] in message.fields;
          own + TouchedKeys(message.fields[i].val)
        case None => own
  }

  /** Reference definition of when an exception escapes `dispatch`. */
  predicate Escapes(message: Json)
    decreases message
  {
    if !message.Obj? then true
    else if !Truthy(NameOf(message)) then false
    else if !Hashable(NameOf(message)) then true
    else match EnvelopeAt(message)
      case Some(i) =>
        assert message.fields[i] in message.fields;
        Escapes(message.fields[i].val)
      case None => false
  }

  // ------------------------------------------------------------ properties

  /** A message without a (truthy) name changes nothing, even when its
      `request_id` is pending. */
  lemma NamelessChangesNothing(t: Tables, listeners: map<string, seq<Callback>>, message: Json,
                               raises: set<(Callback, Json)>)
    requires message.Obj? && !Truthy(NameOf(message))
    ensures DispatchSpec(t, listeners, message, raises) == (t, Returned)
  {
  }

  /** The listener calls of a dispatch are exactly `Invocations`: every
      listener of the message's name once, in registration order, whether or
      not earlier ones raised, followed by those of the inner message. */
  lemma {:induction false} DispatchLog(t: Tables, listeners: map<string, seq<Callback>>, message: Json,
                                      raises: set<(Callback, Json)>)
    ensures DispatchSpec(t, listeners, message, raises).0.log == t.log + Invocations(listeners, message, raises)
    decreases message
  {
    if message.Obj? && Truthy(NameOf(message)) && Hashable(NameOf(message)) {
      match EnvelopeAt(message)
      case Some(i) =>
        assert message.fields[i] in message.fields;
        DispatchLog(Deliver(t, listeners, message, raises), listeners, message.fields[i].val, raises);
      case None =>
    }
  }

  /** A listener that raises never stops the dispatch: an exception escapes
      exactly when the message (or a payload it carries) is not a dict or
      has an unhashable name, whatever the callbacks do. */
  lemma {:induction false} ListenerErrorsContained(t: Tables, listeners: map<string, seq<Callback>>, message: Json,
                                                  raises: set<(Callback, Json)>)
    ensures DispatchSpec(t, listeners, message, raises).1 == Raised <==> Escapes(message)
    decreases message
  {
    if message.Obj? && Truthy(NameOf(message)) && Hashable(NameOf(message)) {
      match EnvelopeAt(message)
      case Some(i) =>
        assert message.fields[i] in message.fields;
        ListenerErrorsContained(Deliver(t, listeners, message, raises), listeners, message.fields[i].val, raises);
      case None =>
    }
  }

  /** A message named by any string other than `sendMessage` returns
      normally, reaches exactly the listeners registered under its own name
      and consumes only its own request id. */
  lemma PlainMessage(t: Tables, listeners: map<string, seq<Callback>>, message: Json, name: string,
                     raises: set<(Callback, Json)>)
    requires message.Obj? && NameOf(message) == Str(name) && name != "" && name != SEND_MESSAGE
    ensures DispatchSpec(t, listeners, message, raises).1 == Returned
    ensures Invocations(listeners, message, raises) == Calls(ListenersOf(listeners, name), message, raises)
    ensures TouchedKeys(message) == if KeyOf(message).Chars? then {KeyOf(message).s} else {}
  {
  }

  /** Dispatch removes exactly the pending ids the message consumes and
      never adds or re-points an entry. */
  lemma {:induction false} DispatchFutures(t: Tables, listeners: map<string, seq<Callback>>, message: Json,
                                           raises: set<(Callback, Json)>)
    ensures DispatchSpec(t, listeners, message, raises).0.futures == t.futures - TouchedKeys(message)
    decreases message
  {
    if message.Obj? && Truthy(NameOf(message)) && Hashable(NameOf(message)) {
      var own := if KeyOf(message).Chars? then {KeyOf(message).s} else {};
      var t2 := Deliver(t, listeners, message, raises);
      DeliverFutures(t, listeners, message, raises);
      DispatchStep(t, listeners, message, raises);
      match EnvelopeAt(message)
      case Some(i) =>
        assert message.fields[i] in message.fields;
        DispatchFutures(t2, listeners, message.fields[i].val, raises);
        MinusTwice(t.futures, own, TouchedKeys(message.fields[i].val));
      case None =>
    }
  }

  /** Steps 1 and 2 remove the message's own pending id and nothing else. */
  lemma DeliverFutures(t: Tables, listeners: map<string, seq<Callback>>, message: Json,
                       raises: set<(Callback, Json)>)
    requires message.Obj?
    ensures Deliver(t, listeners, message, raises).futures
            == t.futures - if KeyOf(message).Chars? then {KeyOf(message).s} else {}
  {
  }

  lemma MinusTwice<K, V>(m: map<K, V>, a: set<K>, b: set<K>)
    ensures (m - a) - b == m - (a + b)
  {
  }

  /** Dispatch never forgets a handle and never touches one that is already
      done: a fulfilled (or cancelled) handle keeps its state forever. */
  lemma {:induction false} DoneHandlesKept(t: Tables, listeners: map<string, seq<Callback>>, message: Json,
                                           raises: set<(Callback, Json)>)
    ensures DispatchSpec(t, listeners, message, raises).0.handles.Keys == t.handles.Keys
    ensures forall h | h in t.handles && !t.handles[h].Pending? ::
              DispatchSpec(t, listeners, message, raises).0.handles[h] == t.handles[h]
    decreases message
  {
    if message.Obj? && Truthy(NameOf(message)) && Hashable(NameOf(message)) {
      var t2 := Deliver(t, listeners, message, raises);
      DeliverKeepsDone(t, listeners, message, raises);
      DispatchStep(t, listeners, message, raises);
      match EnvelopeAt(message)
      case Some(i) =>
        assert message.fields[i] in message.fields;
        DoneHandlesKept(t2, listeners, message.fields[i].val, raises);
      case None =>
    }
  }

  /** One round of dispatch for a dict message with a truthy, hashable name. */
  lemma DispatchStep(t: Tables, listeners: map<string, seq<Callback>>, message: Json,
                     raises: set<(Callback, Json)>)
    requires message.Obj? && Truthy(NameOf(message)) && Hashable(NameOf(message))
    ensures var t2 := Deliver(t, listeners, message, raises);
            DispatchSpec(t, listeners, message, raises)
              == match EnvelopeAt(message)
                 case Some(i) => DispatchSpec(t2, listeners, message.fields[i].val, raises)
                 case None => (t2, Returned)
  {
  }

  /** Steps 1 and 2 keep every handle and every done handle's state. */
  lemma DeliverKeepsDone(t: Tables, listeners: map<string, seq<Callback>>, message: Json,
                         raises: set<(Callback, Json)>)
    requires message.Obj?
    ensures var t2 := Deliver(t, listeners, message, raises);
            && t2.handles.Keys == t.handles.Keys
            && forall h | h in t.handles && !t.handles[h].Pending? :: t2.handles[h] == t.handles[h]
  {
  }

  /** A message whose `str(request_id)` is pending fulfils that handle with
      the whole message and removes the entry. */
  lemma DispatchFulfils(t: Tables, listeners: map<string, seq<Callback>>, message: Json,
                        raises: set<(Callback, Json)>, id: string)
    requires message.Obj? && Truthy(NameOf(message)) && KeyOf(message) == Chars(id)
    requires id in t.futures && t.futures[id] in t.handles && t.handles[t.futures[id]].Pending?
    ensures var r := DispatchSpec(t, listeners, message, raises).0;
            id !in r.futures && t.futures[id] in r.handles && r.handles[t.futures[id]] == Resolved(message)
  {
    DispatchFutures(t, listeners, message, raises);
    if Hashable(NameOf(message)) {
      var t2 := Deliver(t, listeners, message, raises);
      assert t2.handles[t.futures[id]] == Resolved(message);
      match EnvelopeAt(message)
      case Some(i) =>
        DoneHandlesKept(t2, listeners, message.fields[i].val, raises);
      case None =>
    }
  }

  /** Each id is fulfilled at most once: once a message has consumed `id`, a
      second message with the same id finds nothing pending under it and the
      handle keeps the first message. */
  lemma FulfilledAtMostOnce(t: Tables, listeners: map<string, seq<Callback>>, first: Json, second: Json,
                            raises: set<(Callback, Json)>, id: string)
    requires first.Obj? && Truthy(NameOf(first)) && KeyOf(first) == Chars(id)
    requires id in t.futures && t.futures[id] in t.handles && t.handles[t.futures[id]].Pending?
    ensures var t1 := DispatchSpec(t, listeners, first, raises).0;
            var t2 := DispatchSpec(t1, listeners, second, raises).0;
            id !in t2.futures && t.futures[id] in t2.handles && t2.handles[t.futures[id]] == Resolved(first)
  {
    var t1 := DispatchSpec(t, listeners, first, raises).0;
    DispatchFulfils(t, listeners, first, raises, id);
    DoneHandlesKept(t1, listeners, second, raises);
    DispatchFutures(t1, listeners, second, raises);
  }

  lemma ResolveKeepsFuturesValid(t: Tables, key: StrForm, message: Json)
    requires FuturesValid(t)
    ensures FuturesValid(ResolveStep(t, key, message))
  {
    if key.Chars? && key.s in t.futures {
      var h := t.futures[key.s];
      var r := ResolveStep(t, key, message);
      forall k | k in r.futures ensures r.futures[k] in r.handles && !r.handles[r.futures[k]].Resolved? {
        assert k != key.s && r.futures[k] == t.futures[k] != h;
      }
    }
  }

  /** The pending-table invariant survives every dispatch. */
  lemma {:induction false} DispatchKeepsFuturesValid(t: Tables, listeners: map<string, seq<Callback>>,
                                                     message: Json, raises: set<(Callback, Json)>)
    requires FuturesValid(t)
    ensures FuturesValid(DispatchSpec(t, listeners, message, raises).0)
    decreases message
  {
    if message.Obj? && Truthy(NameOf(message)) {
      ResolveKeepsFuturesValid(t, KeyOf(message), message);
      if Hashable(NameOf(message)) {
        match EnvelopeAt(message)
        case Some(i) =>
          assert message.fields[i] in message.fields;
          DispatchKeepsFuturesValid(Deliver(t, listeners, message, raises), listeners, message.fields[i].val, raises);
        case None =>
      }
    }
  }

  // ---------------------------------------------------------- the object

  class Dispatcher {
    var futures: map<string, Handle>
    var handles: map<Handle, HandleState>
    var listeners: map<string, seq<Callback>>
    var log: seq<Invocation>
    var nextHandle: nat
    var nextClosure: nat

    ghost predicate Valid()
      reads this
    {
      && FuturesValid(State())
      && (forall h | h in handles :: h.serial < nextHandle)
      && ClosuresBelow(listeners, nextClosure)
    }

    function State(): Tables
      reads this
    {
      Tables(futures, handles, log)
    }

    constructor ()
      ensures Valid()
      ensures futures == map[] && handles == map[] && listeners == map[] && log == []
    {
      futures, handles, listeners, log := map[], map[], map[], [];
      nextHandle, nextClosure := 0, 0;
    }

    /** `create_future(request_id)`: a fresh pending handle under the id,
        replacing whatever was pending under it before. */
    method CreateFuture(requestId: string) returns (h: Handle)
      requires Valid()
      modifies this`futures, this`handles, this`nextHandle
      ensures Valid()
      ensures h == Handle(old(nextHandle)) && h !in old(handles) && nextHandle == old(nextHandle) + 1
      ensures futures == old(futures)[requestId := h] && handles == old(handles)[h := Pending]
    {
      h := Handle(nextHandle);
      nextHandle := nextHandle + 1;
      futures := futures[requestId := h];
      handles := handles[h := Pending];
    }

    /** `future.cancel()`, as `asyncio.wait_for` does on a timeout. The
        pending entry stays in the table. */
    method Cancel(h: Handle)
      requires Valid()
      modifies this`handles
      ensures Valid()
      ensures handles == if h in old(handles) && old(handles)[h].Pending? then old(handles)[h := Cancelled] else old(handles)
    {
      if h in handles && handles[h].Pending? {
        handles := handles[h := Cancelled];
      }
    }

    /** A new function object, distinct from every callback registered so far. */
    method NewClosure() returns (cb: Callback)
      requires Valid()
      modifies this`nextClosure
      ensures Valid()
      ensures cb == Closure(old(nextClosure)) && nextClosure == old(nextClosure) + 1
      ensures forall name | name in listeners :: cb !in listeners[name]
    {
      cb := Closure(nextClosure);
      nextClosure := nextClosure + 1;
    }

    /** `add_listener`: appends, keeping duplicates. */
    method AddListener(eventName: string, callback: Callback)
      requires Valid()
      requires callback.Closure? ==> callback.serial < nextClosure
      modifies this`listeners
      ensures Valid()
      ensures listeners == old(listeners)[eventName := ListenersOf(old(listeners), eventName) + [callback]]
    {
      if eventName !in listeners {
        listeners := listeners[eventName := []];
      }
      listeners := listeners[eventName := listeners[eventName] + [callback]];
    }

    /** `remove_listener`: drops the first occurrence; a no-op for an unknown
        name or an absent callback. An emptied list stays registered. */
    method RemoveListener(eventName: string, callback: Callback)
      requires Valid()
      modifies this`listeners
      ensures Valid()
      ensures listeners == if eventName in old(listeners) && callback in old(listeners)[eventName]
                           then old(listeners)[eventName := RemoveFirst(old(listeners)[eventName], callback)]
                           else old(listeners)
    {
      if eventName in listeners {
        if callback in listeners[eventName] {
          listeners := listeners[eventName := RemoveFirst(listeners[eventName], callback)];
        }
      }
    }

    /** Step 1 of `dispatch`, which also stands for the arrival of a
        correlated response while a caller awaits it. */
    method ResolvePending(key: StrForm, message: Json)
      requires Valid()
      modifies this`futures, this`handles
      ensures Valid()
      ensures State() == ResolveStep(old(State()), key, message)
    {
      ResolveKeepsFuturesValid(State(), key, message);
      if key.Chars? && key.s in futures {
        var future := futures[key.s];
        futures := futures - {key.s};
        if future in handles && handles[future].Pending? {
          handles := handles[future := Resolved(message)];
        }
      }
    }

    /** Step 2 of dispatch: every callback in `cbs` is called in order, and
        one that raises is logged and skipped. */
    method CallListeners(cbs: seq<Callback>, message: Json, raises: set<(Callback, Json)>)
      modifies this`log
      ensures log == old(log) + Calls(cbs, message, raises)
    {
      var i := 0;
      while i < |cbs|
        invariant 0 <= i <= |cbs|
        invariant log == old(log) + Calls(cbs[..i], message, raises)
      {
        CallsSnoc(cbs, i, message, raises);
        log := log + [Invocation(cbs[i], message, (cbs[i], message) in raises)];
        i := i + 1;
      }
      assert cbs[..|cbs|] == cbs;
    }

    /** `dispatch(message)`; `raises` says which callbacks raise on which
        messages. */
    method Dispatch(message: Json, raises: set<(Callback, Json)>) returns (outcome: Outcome)
      requires Valid()
      modifies this`futures, this`handles, this`log
      ensures Valid()
      ensures (State(), outcome) == DispatchSpec(old(State()), old(listeners), message, raises)
      decreases message
    {
      if !message.Obj? {
        return Raised;
      }
      var name := GetOr(message.fields, "name", Null);
      if !Truthy(name) {
        return Returned;
      }
      ResolvePending(PyStr(GetOr(message.fields, "request_id", Str(""))), message);
      if !Hashable(name) {
        return Raised;
      }
      if name.Str? {
        CallListeners(ListenersOf(listeners, name.s), message, raises);
      }
      assert State() == Deliver(old(State()), listeners, message, raises);
      var at := EnvelopeAt(message);
      if at.Some? {
        assert message.fields[at.value] in message.fields;
        outcome := Dispatch(message.fields[at.value].val, raises);
        return;
      }
      return Returned;
    }
  }
}
