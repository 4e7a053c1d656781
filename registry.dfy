/**
 * The value-level specification of the domain event dispatcher: the registry
 * that maps an event-type name to the ordered list of handlers registered
 * under it, the effect of register / unregister on it, and the sequence of
 * `handle` calls that notify makes.  The class in dispatcher.dfy is proved
 * against these functions.
 */
module Registry {

  /** A handler instance.  Only its identity matters to the dispatcher:
      two distinct instances of the same handler class are different
      handlers, which is exactly Dafny's reference equality. */
  class Handler {
    const className: string

    constructor (className: string)
      ensures this.className == className
    {
      this.className := className;
    }
  }

  /** An event: the name of its class (the registry key) and an opaque payload.
      The construction timestamp is not modelled. */
  datatype Event<P> = Event(className: string, eventData: P)

  /** One call `handler.handle(event)`. */
  datatype Invocation<P> = Invocation(handler: Handler, event: Event<P>)

  /** Event-type name to handlers, in registration order.  A key bound to
      the empty sequence is different from an absent key. */
  type HandlerMap = map<string, seq<Handler>>

  /** The handlers registered under `eventName`, none if the key is absent. */
  function Lookup(r: HandlerMap, eventName: string): seq<Handler>
  {
    if eventName in r then r[eventName] else []
  }

  /** `Array.prototype.indexOf` with `===`: the first position of `h`, or -1. */
  function IndexOf(s: seq<Handler>, h: Handler): (i: int)
    ensures -1 <= i < |s|
    ensures i == -1 <==> h !in s
    ensures 0 <= i ==> s[i] == h && h !in s[..i]
  {
    if s == [] then -1
    else if s[0] == h then 0
    else
      var j := IndexOf(s[1..], h);
      if j == -1 then -1
      else
        assert s[1..][..j] == s[1..j + 1];
        j + 1
  }

  /** `splice(i, 1)`: the sequence without its element at `i`. */
  function RemoveAt(s: seq<Handler>, i: nat): seq<Handler>
    requires i < |s|
  {
    s[..i] + s[i + 1..]
  }

  /** The registry after `register(eventName, h)`: the list is created when
      the key is absent, then `h` is pushed at its end. */
  function Registered(r: HandlerMap, eventName: string, h: Handler): HandlerMap
  {
    var handlers := if eventName in r then r[eventName] else [];
    r[eventName := handlers + [h]]
  }

  /** The registry after `unregister(eventName, h)`: the first occurrence of
      `h` is spliced out; an absent key or a missing handler is a no-op, and
      the key stays present even when its list becomes empty. */
  function Unregistered(r: HandlerMap, eventName: string, h: Handler): HandlerMap
  {
    if eventName in r then
      var index := IndexOf(r[eventName], h);
      if index != -1 then r[eventName := RemoveAt(r[eventName], index)] else r
    else r
  }

  /** The calls `notify(event)` makes when `handlers` is the list for the
      event's class name, as `forEach` makes them: the head first, then the rest. */
  function Calls<P>(handlers: seq<Handler>, event: Event<P>): seq<Invocation<P>>
  {
    if handlers == [] then [] else [Invocation(handlers[0], event)] + Calls(handlers[1..], event)
  }

  /** How many calls in `trace` went to `h`. */
  function CallsTo<P>(trace: seq<Invocation<P>>, h: Handler): nat
  {
    if trace == [] then 0
    else (if trace[0].handler == h then 1 else 0) + CallsTo(trace[1..], h)
  }

  // ---------------------------------------------------------------------
  // register

  /** `register` on a fresh dispatcher defines the key with exactly that handler. */
  lemma RegisterOnEmpty(eventName: string, h: Handler)
    ensures var r := Registered(map[], eventName, h);
      eventName in r && |r[eventName]| == 1 && r[eventName][0] == h && r.Keys == {eventName}
  {
  }

  /** `register` appends at the end of the list for its key and changes no other key. */
  lemma RegisterAppends(r: HandlerMap, eventName: string, h: Handler)
    ensures var r' := Registered(r, eventName, h);
      && eventName in r'
      && r'[eventName] == Lookup(r, eventName) + [h]
      && r'.Keys == r.Keys + {eventName}
      && (forall k :: k in r && k != eventName ==> r'[k] == r[k])
  {
  }

  /** Two registrations under one key keep call order: A then B gives [.., A, B]. */
  lemma RegisterInCallOrder(r: HandlerMap, eventName: string, a: Handler, b: Handler)
    ensures var r' := Registered(Registered(r, eventName, a), eventName, b);
      eventName in r' && r'[eventName] == Lookup(r, eventName) + [a, b]
  {
  }

  // ---------------------------------------------------------------------
  // unregister

  /** Unregistering a handler that is not in the list (or under an absent key)
      leaves the registry as it was. */
  lemma UnregisterMissingIsNoOp(r: HandlerMap, eventName: string, h: Handler)
    requires h !in Lookup(r, eventName)
    ensures Unregistered(r, eventName, h) == r
  {
  }

  /** Unregistering a registered handler removes exactly its first occurrence:
      the key stays, everything before that occurrence and everything after it
      is kept in order, one fewer copy of `h` remains, and no other key changes. */
  lemma UnregisterRemovesFirst(r: HandlerMap, eventName: string, h: Handler)
    requires h in Lookup(r, eventName)
    ensures var r' := Unregistered(r, eventName, h);
      && r'.Keys == r.Keys
      && (forall k :: k in r && k != eventName ==> r'[k] == r[k])
      && multiset(r'[eventName]) == multiset(r[eventName]) - multiset{h}
      && (exists i :: 0 <= i < |r[eventName]|
           && r[eventName][i] == h && h !in r[eventName][..i]
           && r'[eventName] == r[eventName][..i] + r[eventName][i + 1..])
  {
    var s := r[eventName];
    var i := IndexOf(s, h);
    assert s == s[..i] + [s[i]] + s[i + 1..];
    assert multiset(s) == multiset(s[..i]) + multiset{h} + multiset(s[i + 1..]);
  }

  /** Registering a handler that was not yet under a key and unregistering it
      again leaves that key present (bound to its former list, the empty list
      if it was absent) and every other key as it was. */
  lemma RegisterThenUnregister(r: HandlerMap, eventName: string, h: Handler)
    requires h !in Lookup(r, eventName)
    ensures Unregistered(Registered(r, eventName, h), eventName, h)
         == r[eventName := Lookup(r, eventName)]
  {
    var s := Lookup(r, eventName);
    var i := IndexOf(s + [h], h);
    assert (s + [h])[|s|] == h;
    assert i == |s|;
    assert RemoveAt(s + [h], |s|) == s by {
      assert (s + [h])[..|s|] == s;
      assert (s + [h])[|s| + 1..] == [];
    }
  }

  /** In particular, on a key that was absent the list left behind is empty,
      not undefined. */
  lemma RegisterThenUnregisterLeavesEmptyList(eventName: string, h: Handler)
    ensures var r := Unregistered(Registered(map[], eventName, h), eventName, h);
      eventName in r && r[eventName] == []
  {
    RegisterThenUnregister(map[], eventName, h);
  }

  /** Whatever was registered before, register followed by unregister of the
      same handler keeps the key and the multiset of handlers under it. */
  lemma RegisterThenUnregisterKeepsHandlers(r: HandlerMap, eventName: string, h: Handler)
    ensures var r' := Unregistered(Registered(r, eventName, h), eventName, h);
      eventName in r' && multiset(r'[eventName]) == multiset(Lookup(r, eventName))
  {
    var r1 := Registered(r, eventName, h);
    assert h in r1[eventName] by {
      assert r1[eventName][|r1[eventName]| - 1] == h;
    }
    UnregisterRemovesFirst(r1, eventName, h);
  }

  // ---------------------------------------------------------------------
  // notify

  /** The calls of `notify` in the order they happen: the registered handlers,
      in registration order, each with the notified event. */
  lemma {:induction false} NotifyCallsInRegistrationOrder<P>(handlers: seq<Handler>, event: Event<P>)
    ensures |Calls(handlers, event)| == |handlers|
    ensures forall i :: 0 <= i < |handlers| ==>
      Calls(handlers, event)[i].handler == handlers[i] && Calls(handlers, event)[i].event == event
  {
    if handlers != [] {
      NotifyCallsInRegistrationOrder(handlers[1..], event);
    }
  }

  /** Handling one more handler extends the calls made so far by one call:
      the step of the loop in `notify`. */
  lemma {:induction false} CallsExtend<P>(handlers: seq<Handler>, i: nat, event: Event<P>)
    requires i < |handlers|
    ensures Calls(handlers[..i + 1], event) == Calls(handlers[..i], event) + [Invocation(handlers[i], event)]
  {
    if i > 0 {
      CallsExtend(handlers[1..], i - 1, event);
      assert handlers[1..][..i] == handlers[..i + 1][1..];
      assert handlers[1..][..i - 1] == handlers[..i][1..];
    }
  }

  /** Every handler is called as many times as it is registered: once for a
      handler registered once, twice for one registered twice, never for a
      handler not in the list. */
  lemma {:induction false} CallsToCountsRegistrations<P>(handlers: seq<Handler>, event: Event<P>, h: Handler)
    ensures CallsTo(Calls(handlers, event), h) == multiset(handlers)[h]
  {
    if handlers != [] {
      CallsToCountsRegistrations(handlers[1..], event, h);
      assert Calls(handlers, event)[1..] == Calls(handlers[1..], event);
      assert handlers == [handlers[0]] + handlers[1..];
    }
  }

  /** `notify(e)` calls no handler that is not registered under e's class name,
      whatever it is registered under otherwise. */
  lemma NotifySkipsOtherTypes<P>(r: HandlerMap, event: Event<P>, h: Handler)
    requires h !in Lookup(r, event.className)
    ensures CallsTo(Calls(Lookup(r, event.className), event), h) == 0
  {
    CallsToCountsRegistrations(Lookup(r, event.className), event, h);
  }

  /** `notify(e)` calls each handler registered under e's class name at least once. */
  lemma NotifyReachesRegistered<P>(r: HandlerMap, event: Event<P>, h: Handler)
    requires h in Lookup(r, event.className)
    ensures CallsTo(Calls(Lookup(r, event.className), event), h) >= 1
  {
    CallsToCountsRegistrations(Lookup(r, event.className), event, h);
  }
}
