/** The `EventEmitter` class of src/event-emitter/event-emitter.model.ts and of its
    line-for-line twin src/Core/event-emitter.model.ts: a registry from event name
    to an ordered list of listener records, and a synchronous `emitEvent`.

    The registry is specified as a value (`Registry`) with one function per
    operation (AfterAdd, AfterEmit); the class `EventEmitter` holds the registry
    in a field and its methods are proved against those functions. Handlers are
    opaque identifiers; the only effect of calling one that the model keeps is
    whether it leaves the emitted event canceled. */
module EventEmitterModel {
  import opened Wrappers

  type EventName = string

  /** An opaque handler function. */
  datatype HandlerId = HandlerId(id: nat)

  /** `Partial<ListenerOptions>`: only `once` is ever read. */
  datatype ListenerOptions = ListenerOptions(once: Option<bool>)

  /** One registered listener (`ListenerObject`). */
  datatype ListenerObject = ListenerObject(
    handler: HandlerId,
    options: Option<ListenerOptions>,
    markedForRemoval: bool)

  /** The `listeners` field: event name to listener list, in registration order. */
  type Registry = map<EventName, seq<ListenerObject>>

  /** What `emitEvent` does, observed from outside, in order. */
  datatype Call = Invoke(handler: HandlerId) | RunDefaultBehavior

  /** `listener.options?.once === true`. */
  predicate IsOnce(options: Option<ListenerOptions>) {
    options.Some? && options.value.once == Some(true)
  }

  /** The list the optional chain `this.listeners[name]?.…` walks: none when the name is absent. */
  function ListFor(reg: Registry, name: EventName): seq<ListenerObject> {
    if name in reg then reg[name] else []
  }

  /** The registry invariant: every stored listener is unmarked. */
  predicate AllUnmarked(reg: Registry) {
    forall name, l :: name in reg && l in reg[name] ==> !l.markedForRemoval
  }

  /** One handler call per listener, in list order. */
  function Invocations(ls: seq<ListenerObject>): seq<Call> {
    seq(|ls|, i requires 0 <= i < |ls| => Invoke(ls[i].handler))
  }

  /** Some listener of `ls` has a handler that cancels the event. */
  predicate CanceledBy(ls: seq<ListenerObject>, cancelling: set<HandlerId>) {
    exists k :: 0 <= k < |ls| && ls[k].handler in cancelling
  }

  /** The list after the `forEach` of `emitEvent` has set every `markedForRemoval`. */
  function Mark(ls: seq<ListenerObject>): seq<ListenerObject> {
    seq(|ls|, i requires 0 <= i < |ls| => ls[i].(markedForRemoval := IsOnce(ls[i].options)))
  }

  /** `filter(({markedForRemoval}) => !markedForRemoval)`. */
  function Survivors(ls: seq<ListenerObject>): seq<ListenerObject> {
    if ls == [] then []
    else (if ls[0].markedForRemoval then [] else [ls[0]]) + Survivors(ls[1..])
  }

  /** The specification of the list after an emit: the listeners that are not
      `once`, in their original order, each unmarked. */
  function Kept(ls: seq<ListenerObject>): (kept: seq<ListenerObject>)
    ensures |kept| <= |ls|
    ensures forall l :: l in kept ==> !l.markedForRemoval && !IsOnce(l.options)
  {
    if ls == [] then []
    else (if IsOnce(ls[0].options) then [] else [ls[0].(markedForRemoval := false)]) + Kept(ls[1..])
  }

  /** Marking then filtering, as `emitEvent` does, yields exactly `Kept`. */
  lemma {:induction false} SurvivorsOfMarked(ls: seq<ListenerObject>)
    ensures Survivors(Mark(ls)) == Kept(ls)
  {
    if ls != [] {
      assert Mark(ls)[1..] == Mark(ls[1..]);
      SurvivorsOfMarked(ls[1..]);
    }
  }

  /** `Kept` works listener by listener, so it keeps relative order. */
  lemma {:induction false} KeptConcat(a: seq<ListenerObject>, b: seq<ListenerObject>)
    ensures Kept(a + b) == Kept(a) + Kept(b)
  {
    if a == [] {
      assert a + b == b;
    } else {
      assert (a + b)[1..] == a[1..] + b;
      KeptConcat(a[1..], b);
    }
  }

  /** An entry survives an emit exactly when some listener that is not `once` had it, unmarked. */
  lemma {:induction false} KeptMembers(ls: seq<ListenerObject>, x: ListenerObject)
    ensures x in Kept(ls) <==> exists l :: l in ls && !IsOnce(l.options) && x == l.(markedForRemoval := false)
  {
    if ls != [] {
      KeptMembers(ls[1..], x);
      if x in Kept(ls) && !(x in Kept(ls[1..])) {
        assert !IsOnce(ls[0].options) && x == ls[0].(markedForRemoval := false);
      }
      if exists l :: l in ls && !IsOnce(l.options) && x == l.(markedForRemoval := false) {
        var l :| l in ls && !IsOnce(l.options) && x == l.(markedForRemoval := false);
        if l != ls[0] {
          assert l in ls[1..];
        }
      }
    }
  }

  /** A second emit removes nothing more: `Kept` is idempotent. */
  lemma {:induction false} KeptIdempotent(ls: seq<ListenerObject>)
    ensures Kept(Kept(ls)) == Kept(ls)
  {
    if ls != [] {
      var head := if IsOnce(ls[0].options) then [] else [ls[0].(markedForRemoval := false)];
      KeptConcat(head, Kept(ls[1..]));
      KeptIdempotent(ls[1..]);
      assert Kept(head) == head;
    }
  }

  /** On an unmarked list, `Kept` only drops the `once` listeners. */
  lemma {:induction false} KeptOfUnmarked(ls: seq<ListenerObject>)
    requires forall l :: l in ls ==> !l.markedForRemoval
    ensures forall l :: l in ls && !IsOnce(l.options) ==> l in Kept(ls)
    ensures forall l :: l in Kept(ls) ==> l in ls
  {
    forall x
      ensures x in Kept(ls) <==> exists l :: l in ls && !IsOnce(l.options) && x == l.(markedForRemoval := false)
    {
      KeptMembers(ls, x);
    }
    forall l | l in ls && !IsOnce(l.options)
      ensures l in Kept(ls)
    {
      assert l == l.(markedForRemoval := false);
    }
  }

  /** The registry after `addEventListener(event, handler, options)` as written:
      the entry is pushed onto the stored list when there is one, and onto a fresh
      array that is never stored otherwise. */
  function AfterAdd(reg: Registry, event: EventName, handler: HandlerId, options: Option<ListenerOptions>): (r: Registry)
    ensures r.Keys == reg.Keys
    ensures event in reg ==> r[event] == reg[event] + [ListenerObject(handler, options, false)]
    ensures forall name :: name in reg && name != event ==> r[name] == reg[name]
  {
    if event in reg then reg[event := reg[event] + [ListenerObject(handler, options, false)]] else reg
  }

  /** The registry after `emitEvent(eventName, …)`: the list for that name is replaced by
      its `Kept` part. An absent name gets `undefined`, which every operation reads as absent. */
  function AfterEmit(reg: Registry, eventName: EventName): (r: Registry)
    ensures r.Keys == reg.Keys
    ensures eventName in reg ==> r[eventName] == Kept(reg[eventName])
    ensures forall name :: name in reg && name != eventName ==> r[name] == reg[name]
  {
    if eventName in reg then reg[eventName := Kept(reg[eventName])] else reg
  }

  /** The operations of the emitter's public interface. */
  datatype EmitterOp =
    | Add(event: EventName, handler: HandlerId, options: Option<ListenerOptions>)
    | Remove(event: EventName, handler: HandlerId, options: Option<ListenerOptions>)
    | Emit(eventName: EventName)
  {
    /** The event name the operation looks up in `listeners`. */
    function Name(): EventName {
      match this
      case Add(e, _, _) => e
      case Remove(e, _, _) => e
      case Emit(n) => n
    }
  }

  /** The registry after one operation; `removeEventListener` changes nothing. */
  function Perform(reg: Registry, op: EmitterOp): Registry {
    match op
    case Add(e, h, o) => AfterAdd(reg, e, h, o)
    case Remove(_, _, _) => reg
    case Emit(n) => AfterEmit(reg, n)
  }

  /** The registry after a sequence of operations. */
  function Replay(reg: Registry, ops: seq<EmitterOp>): Registry
    decreases |ops|
  {
    if ops == [] then reg else Replay(Perform(reg, ops[0]), ops[1..])
  }

  /** No operation ever creates or deletes an event name. */
  lemma {:induction false} ReplayKeepsNames(reg: Registry, ops: seq<EmitterOp>)
    ensures Replay(reg, ops).Keys == reg.Keys
    decreases |ops|
  {
    if ops != [] {
      ReplayKeepsNames(Perform(reg, ops[0]), ops[1..]);
    }
  }

  /** Every operation keeps the registry invariant. */
  lemma {:induction false} ReplayKeepsUnmarked(reg: Registry, ops: seq<EmitterOp>)
    requires AllUnmarked(reg)
    ensures AllUnmarked(Replay(reg, ops))
    decreases |ops|
  {
    if ops != [] {
      var next := Perform(reg, ops[0]);
      assert AllUnmarked(next);
      ReplayKeepsUnmarked(next, ops[1..]);
    }
  }

  /** As written, an emitter built by the constructor never invokes a handler:
      its registry stays empty whatever is added, removed or emitted. */
  lemma {:induction false} FreshEmitterNeverInvokes(ops: seq<EmitterOp>, eventName: EventName)
    ensures Replay(map[], ops) == map[]
    ensures Invocations(ListFor(Replay(map[], ops), eventName)) == []
  {
    ReplayKeepsNames(map[], ops);
  }

  /** The evident intent of `addEventListener`: store the list it pushed onto. */
  function AfterAddStored(reg: Registry, event: EventName, handler: HandlerId, options: Option<ListenerOptions>): (r: Registry)
    ensures r.Keys == reg.Keys + {event}
    ensures r[event] == ListFor(reg, event) + [ListenerObject(handler, options, false)]
    ensures forall name :: name in reg && name != event ==> r[name] == reg[name]
  {
    reg[event := ListFor(reg, event) + [ListenerObject(handler, options, false)]]
  }

  /** With the corrected add, the next emit of that name invokes the new handler, after
      the ones already registered; agrees with the code whenever a list already exists. */
  lemma StoredAddIsInvoked(reg: Registry, event: EventName, handler: HandlerId, options: Option<ListenerOptions>)
    ensures Invocations(ListFor(AfterAddStored(reg, event, handler, options), event))
            == Invocations(ListFor(reg, event)) + [Invoke(handler)]
    ensures event in reg ==> AfterAddStored(reg, event, handler, options) == AfterAdd(reg, event, handler, options)
  {
  }

  /** With the corrected add, a `once` listener fires on the next emit and is gone after it:
      the list left behind is what that emit would have left without it. */
  lemma StoredOnceListenerFiresOnce(reg: Registry, event: EventName, handler: HandlerId, options: Option<ListenerOptions>)
    requires IsOnce(options)
    ensures Invoke(handler) in Invocations(ListFor(AfterAddStored(reg, event, handler, options), event))
    ensures ListFor(AfterEmit(AfterAddStored(reg, event, handler, options), event), event)
            == Kept(ListFor(reg, event))
  {
    var entry := ListenerObject(handler, options, false);
    var stored := ListFor(reg, event) + [entry];
    assert Invocations(stored)[|stored| - 1] == Invoke(handler);
    KeptConcat(ListFor(reg, event), [entry]);
    assert Kept([entry]) == [];
  }

  /** `listeners.filter(l => l.handler !== handler && l.options !== listenerOptions)`. */
  function Retained(ls: seq<ListenerObject>, handler: HandlerId, options: Option<ListenerOptions>): seq<ListenerObject> {
    if ls == [] then []
    else (if ls[0].handler != handler && ls[0].options != options then [ls[0]] else []) + Retained(ls[1..], handler, options)
  }

  /** The names an object literal such as `listeners` inherits from `Object.prototype`.
      Looking one of them up yields a function (for `__proto__`, the prototype object),
      not `undefined`, so neither `??` nor `?.` falls back, and the `push`, `filter` or
      `forEach` that follows is not a function: the call throws a TypeError. */
  const InheritedNames: set<EventName> := {
    "constructor", "__proto__", "__defineGetter__", "__defineSetter__",
    "__lookupGetter__", "__lookupSetter__", "hasOwnProperty", "isPrototypeOf",
    "propertyIsEnumerable", "toLocaleString", "toString", "valueOf"
  }

  /** Looking up `name` in `listeners` finds an inherited member rather than a list or `undefined`. */
  predicate LookupThrows(reg: Registry, name: EventName) {
    name !in reg && name in InheritedNames
  }

  /** The exception the emitter's methods can raise. */
  datatype EmitterError = TypeError

  /** A name the registry lacks is either inherited, and the lookup throws, or plain, and the
      lookup falls back; a throwing call leaves the registry as every operation function says. */
  lemma ThrowingCallsChangeNothing(reg: Registry, op: EmitterOp)
    requires LookupThrows(reg, op.Name())
    ensures Perform(reg, op) == reg
    ensures ListFor(reg, op.Name()) == []
  {
  }

  /** The event argument of `emitEvent`, reduced to its `isCanceled` flag. */
  datatype EmittedEvent = EmittedEvent(isCanceled: bool)

  /** The emitter object. `listeners` stands for the source's private field: only the
      constructor and the three methods write it, and `Valid()` and the result of
      `FreshEmitterNeverInvokes` hold under that discipline, not for a client that
      assigns the field directly. */
  class EventEmitter {
    var listeners: Registry

    /** The object invariant. */
    predicate Valid()
      reads this
    {
      AllUnmarked(listeners)
    }

    constructor ()
      ensures Valid()
      ensures listeners == map[]
    {
      listeners := map[];
    }

    /** Pushes `{handler, options, markedForRemoval: false}` onto the list for `event`,
        which reaches the registry only when that list already existed. Throws, changing
        nothing, when `event` is an inherited name; otherwise returns the emitter itself. */
    method AddEventListener(event: EventName, handler: HandlerId, options: Option<ListenerOptions>)
      returns (result: Result<EventEmitter, EmitterError>)
      requires Valid()
      modifies this
      ensures Valid()
      ensures LookupThrows(old(listeners), event) ==> result == Failure(TypeError)
      ensures !LookupThrows(old(listeners), event) ==> result == Success(this)
      ensures listeners == AfterAdd(old(listeners), event, handler, options)
    {
      if LookupThrows(listeners, event) {
        return Failure(TypeError);
      }
      var stored := event in listeners;
      var list := if stored then listeners[event] else [];
      list := list + [ListenerObject(handler, options, false)];
      if stored {
        listeners := listeners[event := list];
      }
      result := Success(this);
    }

    /** Computes the filtered list and discards it: the registry does not change. Throws
        when `event` is an inherited name; otherwise returns the emitter itself. */
    method RemoveEventListener(event: EventName, handler: HandlerId, options: Option<ListenerOptions>)
      returns (result: Result<EventEmitter, EmitterError>)
      ensures LookupThrows(listeners, event) ==> result == Failure(TypeError)
      ensures !LookupThrows(listeners, event) ==> result == Success(this)
      ensures listeners == old(listeners)
    {
      if LookupThrows(listeners, event) {
        return Failure(TypeError);
      }
      var discarded := if event in listeners then Some(Retained(listeners[event], handler, options)) else None;
      result := Success(this);
    }

    /** Calls every listener registered for `eventName` once, in order, with the event;
        drops the `once` listeners; then runs `defaultBehavior`, when one is given, if and
        only if the event is not canceled at that point. `event` is the event argument,
        `None` for `null` or `undefined`, and `cancelling` the handlers whose call cancels
        it; `after` is the event as the call leaves it. When `eventName` is an inherited
        name the call throws before calling anything, the default behaviour included, and
        nothing changes. When the event is `null` or `undefined` every handler is still
        called and the list still filtered, and the call then throws when it reads
        `isCanceled`, so the default behaviour never runs. */
    method EmitEvent(eventName: EventName, event: Option<EmittedEvent>, cancelling: set<HandlerId>, defaultBehavior: bool)
      returns (result: Result<EventEmitter, EmitterError>, calls: seq<Call>, after: Option<EmittedEvent>)
      requires Valid()
      modifies this
      ensures Valid()
      ensures listeners == AfterEmit(old(listeners), eventName)
      ensures LookupThrows(old(listeners), eventName) ==>
                result == Failure(TypeError) && calls == [] && after == event
      ensures !LookupThrows(old(listeners), eventName) && event.None? ==>
                result == Failure(TypeError) && after == None
                && calls == Invocations(ListFor(old(listeners), eventName))
      ensures !LookupThrows(old(listeners), eventName) && event.Some? ==>
                result == Success(this)
                && after == Some(EmittedEvent(event.value.isCanceled
                                              || CanceledBy(ListFor(old(listeners), eventName), cancelling)))
      ensures !LookupThrows(old(listeners), eventName) && event.Some? ==>
                calls == Invocations(ListFor(old(listeners), eventName))
                         + (if defaultBehavior && !after.value.isCanceled then [RunDefaultBehavior] else [])
    {
      calls := [];
      after := event;
      if LookupThrows(listeners, eventName) {
        return Failure(TypeError), calls, after;
      }
      var isCanceled := event.Some? && event.value.isCanceled;
      ghost var all := ListFor(listeners, eventName);
      if eventName in listeners {
        var i := 0;
        while i < |listeners[eventName]|
          invariant eventName in listeners
          invariant listeners == old(listeners)[eventName := listeners[eventName]]
          invariant |listeners[eventName]| == |all|
          invariant 0 <= i <= |all|
          invariant forall k :: 0 <= k < i ==> listeners[eventName][k] == Mark(all)[k]
          invariant forall k :: i <= k < |all| ==> listeners[eventName][k] == all[k]
          invariant calls == Invocations(all[..i])
          invariant isCanceled == ((event.Some? && event.value.isCanceled) || CanceledBy(all[..i], cancelling))
        {
          var listener := listeners[eventName][i];
          // call the handler with the event
          calls := calls + [Invoke(listener.handler)];
          isCanceled := isCanceled || listener.handler in cancelling;
          assert all[..i + 1] == all[..i] + [all[i]];
          listeners := listeners[eventName := listeners[eventName][i := listener.(markedForRemoval := IsOnce(listener.options))]];
          i := i + 1;
        }
        assert all[..i] == all;
        assert listeners[eventName] == Mark(all);
        SurvivorsOfMarked(all);
        listeners := listeners[eventName := Survivors(listeners[eventName])];
      }
      if event.None? {
        // reading `isCanceled` of a missing event throws
        return Failure(TypeError), calls, None;
      }
      after := Some(EmittedEvent(isCanceled));
      if !isCanceled && defaultBehavior {
        calls := calls + [RunDefaultBehavior];
      }
      result := Success(this);
    }
  }
}
