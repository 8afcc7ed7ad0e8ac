# Event, EventEmitter and EventTarget: a Dafny model

This project models the executable core of a small TypeScript publish/subscribe library:

- the `Event` object and its flags (`src/Core/event/event.model.ts`);
- the `EventEmitter` registry and its synchronous `emitEvent`. The same class appears twice, in
  `src/event-emitter/event-emitter.model.ts` and `src/Core/event-emitter.model.ts`, with the same
  behaviour line for line, so one Dafny class models both. The table cites both files;
- the option normalisation and stub methods of `EventTarget` (`src/Core/event-target/event-target.model.ts`).

Modules:

- `Wrappers` (`wrappers.dfy`) holds `Option`, `Outcome` and `Result`.
- `EventModel` (`event.dfy`) holds the event's state as a value (`EventState`), the effect of
  each call (`Step`) and of a history of calls (`Run`). The class `Event` updates its fields in
  place and is proved against `Step`.
- `EventEmitterModel` (`event_emitter.dfy`) holds the registry as a value (`Registry`, a map from
  event name to an ordered list of `ListenerObject`) and one function per operation
  (`AfterAdd`, `AfterEmit`), plus the specification of what survives an emit (`Kept`). The class
  `EventEmitter` keeps the registry in its `listeners` field. Its methods are proved against these
  functions.
- `EventTargetModel` (`event_target.dfy`) holds `FlattenOptions` and `FlattenMoreOptions` as
  pure functions, and the class `EventTarget` with its constant default passive value, its parent
  and its stub methods.

Modelling choices:

- Handlers are opaque identifiers.
- Calling a handler is recorded as an `Invoke` entry in the trace `emitEvent` returns, and running
  the default behaviour as `RunDefaultBehavior`.
- The only effect of a handler that the model keeps is whether it cancels the emitted event. This
  is given as the set `cancelling`.
- The emitted event is reduced to its `isCanceled` flag (`EmittedEvent`). It is optional:
  `None` stands for a `null` or `undefined` event, which the `Core` copy's types admit.
- `AbortSignal` values and listener objects are opaque tokens.

Where the code differs from what its documentation says, the model follows the code:

- `cancelable` defaults to `false` (`event.model.ts:8-10`). The interface documents `true`
  (`src/API/event.interface.ts:66`).
- `addEventListener` pushes onto `this.listeners[event] ?? []` and never stores a new array. So
  adding to a name with no list has no effect, and a new emitter never gets a listener (see Findings).
- `removeEventListener` computes a filtered list and discards it, so it changes nothing.
  Behind the discarded result is a second defect: the filter keeps a listener only when both
  its handler and its options differ (`&&`), so if the result were stored it would drop every
  listener whose options match, whatever its handler (`Retained` models this filter).
- `listeners` is an object literal, so it inherits the members of `Object.prototype`.
  For a name such as `toString`, `constructor`, `__proto__` or `valueOf` that is not an own key,
  the lookup finds that inherited member rather than `undefined`. The following `push`, `filter`
  or `forEach` then throws a TypeError. The model lists these names (`InheritedNames`), and the
  three emitter methods fail on them.
- `emitEvent` decides on the default behaviour from the event's `isCanceled`, not from
  `defaultPrevented`. With a `null` or `undefined` event it calls every handler and filters
  the list, then throws a TypeError when it reads `isCanceled`
  (`src/Core/event-emitter.model.ts:49`): the default behaviour never runs and the emitter is
  not returned.
- The code has no deduplication of listeners, no abort handling, no capture/target/bubble
  tree walk and no passive/active tiers. None of these is modelled.

## Model

| member | source | states |
|---|---|---|
| `EventModel.ResolveCancelable` | src/Core/event/event.model.ts:8-24 | `cancelable` is the constructor's `initValues.cancelable` when given, otherwise `false` |
| `EventModel.Event.constructor` | src/Core/event/event.model.ts:12-25 | type and payload are the arguments; `cancelable` is resolved as above; a new event is not prevented, not stopped, and in phase NONE |
| `EventModel.Step` | src/Core/event/event.model.ts:42-53 | `preventDefault` sets `defaultPrevented` exactly when the event is cancelable; `stopImmediatePropagation` sets its flag; type, payload, `cancelable` and phase never change |
| `EventModel.Event.PreventDefault` | src/Core/event/event.model.ts:42-49 | a non-cancelable event keeps `defaultPrevented` unchanged; a cancelable one ends up prevented; the other flag and the phase are unchanged |
| `EventModel.Event.StopImmediatePropagation` | src/Core/event/event.model.ts:51-53 | sets `immediatePropagationStoped`; `defaultPrevented` and the phase are unchanged |
| `EventModel.RunKeepsIdentity` | src/Core/event/event.model.ts:12-33 | no sequence of calls changes the type, the payload, `cancelable` or the phase |
| `EventModel.RunFlags` | src/Core/event/event.model.ts:43-53 | after any history: prevented iff it was already prevented or (cancelable and `preventDefault` was called); stopped iff it was already stopped or `stopImmediatePropagation` was called |
| `EventModel.FlagsAreMonotone` | src/Core/event/event.model.ts:17-53 | no call ever resets either flag to false |
| `EventModel.RunKeepsConsistent` | src/Core/event/event.model.ts:43-49 | a non-cancelable event is never prevented, and the phase stays NONE, whatever is called |
| `EventModel.PreventDefaultIdempotent` | src/Core/event/event.model.ts:43-49 | calling `preventDefault` twice is the same as calling it once |
| `EventModel.CreatedEventHistory` | src/Core/event/event.model.ts:17-25 | for a newly built event: prevented iff it is cancelable and `preventDefault` was called; stopped iff `stopImmediatePropagation` was called; type, payload and phase NONE kept |
| `EventEmitterModel.EventEmitter.constructor` | src/Core/event-emitter.model.ts:13-17 | the registry starts empty |
| `EventEmitterModel.EventEmitter.AddEventListener` | src/event-emitter/event-emitter.model.ts:19-28 | throws a TypeError when `event` is a name inherited from `Object.prototype` (such as `toString`) and not an own key; otherwise returns the emitter itself; in both cases the new registry is `AfterAdd` of the old one, and every stored listener stays unmarked |
| `EventEmitterModel.AfterAdd` | src/Core/event-emitter.model.ts:19-27 | with a list for `event`, exactly one `{handler, options, markedForRemoval: false}` is appended at its end; other names unchanged; no name is ever created |
| `EventEmitterModel.EventEmitter.RemoveEventListener` | src/event-emitter/event-emitter.model.ts:30-37 | the registry is unchanged; throws a TypeError for an inherited name, otherwise returns the emitter itself |
| `EventEmitterModel.EventEmitter.EmitEvent` | src/Core/event-emitter.model.ts:39-54 | for an inherited name, throws a TypeError before calling anything (the default behaviour included) and changes nothing; otherwise calls each listener for `eventName` once, in list order, and the list becomes `Kept` of the old one (other names untouched; an absent name calls nothing and stays absent); then, with a `null`/`undefined` event, throws a TypeError without running the default behaviour; with an event, it ends canceled iff it was on entry or a called handler cancels it, the default behaviour, if given, runs exactly once, last, and only when the event is not canceled, and the emitter itself is returned |
| `EventEmitterModel.ThrowingCallsChangeNothing` | src/Core/event-emitter.model.ts:20-41 | an add, remove or emit whose name is inherited and not an own key leaves the registry as it was, and no list is walked |
| `EventEmitterModel.AfterEmit` | src/Core/event-emitter.model.ts:46-47 | the list for the emitted name becomes `Kept` of it; other names unchanged; no name created or deleted |
| `EventEmitterModel.Kept` | src/Core/event-emitter.model.ts:43-47 | what survives an emit is never longer than the list, and holds no `once: true` listener and no marked entry |
| `EventEmitterModel.SurvivorsOfMarked` | src/event-emitter/event-emitter.model.ts:40-47 | setting `markedForRemoval := options?.once === true` on every entry and then filtering out marked entries yields exactly `Kept` |
| `EventEmitterModel.KeptConcat` | src/Core/event-emitter.model.ts:46-47 | `Kept` goes entry by entry, so the survivors keep their original relative order |
| `EventEmitterModel.KeptMembers` | src/Core/event-emitter.model.ts:43-47 | an entry survives iff it is an unmarked copy of a listener whose `once` is not `true` |
| `EventEmitterModel.KeptIdempotent` | src/Core/event-emitter.model.ts:40-47 | a second emit removes nothing more than the first |
| `EventEmitterModel.KeptOfUnmarked` | src/Core/event-emitter.model.ts:22-47 | on a registered (unmarked) list, every non-`once` listener survives unchanged and nothing new appears |
| `EventEmitterModel.ReplayKeepsNames` | src/Core/event-emitter.model.ts:13-47 | no sequence of add, remove and emit ever creates or deletes an event name |
| `EventEmitterModel.ReplayKeepsUnmarked` | src/Core/event-emitter.model.ts:22-47 | every operation keeps all stored listeners unmarked |
| `EventEmitterModel.FreshEmitterNeverInvokes` | src/event-emitter/event-emitter.model.ts:13-26 | from a new emitter, every sequence of operations leaves the registry empty, and no emit invokes a handler |
| `EventEmitterModel.AfterAddStored` | src/event-emitter/event-emitter.model.ts:20-26 | corrected add: the name is always present afterwards and its list ends with the new entry; other names unchanged |
| `EventEmitterModel.StoredAddIsInvoked` | src/event-emitter/event-emitter.model.ts:20-27 | with the corrected add, the next emit invokes the new handler last; it coincides with the code whenever a list already exists |
| `EventEmitterModel.StoredOnceListenerFiresOnce` | src/event-emitter/event-emitter.model.ts:40-47 | with the corrected add, a `once` listener is invoked by the next emit, and after it the list is what it would have been without it |
| `EventTargetModel.FlattenOptions` | src/Core/event-target/event-target.model.ts:44-50 | a boolean is returned as is; a record gives its `capture`, or `false` when absent |
| `EventTargetModel.FlattenMoreOptions` | src/Core/event-target/event-target.model.ts:52-71 | `capture` always equals `FlattenOptions`; a boolean gives `once: false`, `passive: null`, `signal: null`; a record passes `passive` and `signal` through, and `once` is true iff the record says `once: true` |
| `EventTargetModel.FlattenIsNormalForm` | src/Core/event-target/event-target.model.ts:52-69 | flattening the fully explicit record of a flattened record gives that record back |
| `EventTargetModel.ShorthandIsCaptureOnly` | src/Core/event-target/event-target.model.ts:44-69 | `b` flattens like `{capture: b}`, to `{capture: b, once: false, passive: null, signal: null}` |
| `EventTargetModel.ExplicitDefaultsChangeNothing` | src/Core/event-target/event-target.model.ts:54-62 | writing the defaults `capture: false` / `once: false` explicitly gives the same flattened record |
| `EventTargetModel.EventTarget.constructor` | src/Core/event-target/event-target.model.ts:19-23 | the default passive value is `false` and the listener list starts empty |
| `EventTargetModel.EventTarget.AddEventListener` | src/Core/event-target/event-target.model.ts:25-27 | always fails with "not implemented" and changes nothing |
| `EventTargetModel.EventTarget.RemoveEventListener` | src/Core/event-target/event-target.model.ts:28-30 | always fails with "not implemented" and changes nothing |
| `EventTargetModel.EventTarget.DispatchEvent` | src/Core/event-target/event-target.model.ts:31-33 | always fails with "not implemented" and changes nothing |
| `EventTargetModel.EventTarget.GetParent` | src/Core/event-target/event-target.model.ts:35-37 | a target has no parent |
| `EventTargetModel.EventTarget.ActivationBehavior` | src/Core/event-target/event-target.model.ts:39-42 | no effect on the event |

## Left out

- `timeStamp` (`performance.now()`, `event.model.ts:15`): a floating-point clock read.
- The capture/target/bubble tree-walk dispatch and the passive/active deferred dispatch: no
  implementation exists. `EventTarget.dispatchEvent` only throws, and the Promise-returning
  `dispatchEvent` exists only as an interface (`src/API/event-emitter.interface.ts:59-66`).
- The interface files under `src/API/`, plus `src/event-emitter/event-emitter.interface.ts` and
  `src/event-emitter/event.interface.ts`: they are types only.
- `src/Core/custom-event/custom-event.model.ts` is not part of this model. It calls
  `Event.initialize` and reads `dispatchFlag`, and the `Event` class defines neither.
- `src/Core/subscriber.model.ts` (a pass-through to an emitter) and `src/Core/helper/log.helper.ts`
  (a global log level and console output) are not part of this model.
- `AbortSignal` semantics: a signal is an opaque token that nothing reads.
- Handler effects other than cancelling the event:
  - a handler that adds or removes listeners during `forEach`;
  - a handler that throws;
  - the `this` binding of handlers and of `defaultBehavior`.
- Null handlers are not modelled. The `Core` copy's handler type admits `null`, which would throw at
  `listener.handler.call` (`src/Core/event-emitter.model.ts:42`); a `HandlerId` is never null.
- `EventEmitterModel.EventEmitter.EmitEvent` leaves out one detail of emitting a name with no
  list. The source then assigns `undefined` to that key. Every operation reads `undefined` the
  same as an absent key, so the model leaves the key absent.
- The emitter's event is reduced to its `isCanceled` flag. The `Event` class of
  `src/Core/event/event.model.ts` has no `isCanceled` property, so passing one of those to
  `emitEvent` would always run the default behaviour. The model does not link the two classes.
- Object identity is not modelled:
  - Listener entries and lists are values. The in-place `push` onto a stored list is modelled as
    replacing that map entry. The in-place `markedForRemoval` writes are modelled as replacing
    entries in the stored sequence.
  - The discarded filter of `removeEventListener` compares options by value, where the source
    uses reference identity (`!==`). Since its result is thrown away, this is invisible.
- Options keys other than `once` in the emitter's listener options (`passive` and `signal` in the
  `Core` copy): the emitter stores them but never reads them. The model keeps only `once`.
- A `null` argument to `flattenOptions`/`flattenMoreOptions`: the parameter types exclude it.

## Findings

| source | as written | input that shows it | evidently intended | confidence | as-written member | corrected member |
|---|---|---|---|---|---|---|
| src/event-emitter/event-emitter.model.ts:20 (same in src/Core/event-emitter.model.ts:20) | pushes onto `this.listeners[event] ?? []` and never stores the new array, and no other code creates a list, so the registry of a new emitter never holds a list | `new EventEmitter().addEventListener("ping", h).emitEvent("ping", e)` never calls `h` | store the list it pushed onto, so the next emit of that name calls the handler | high; not executed | `EventEmitterModel.FreshEmitterNeverInvokes` | `EventEmitterModel.StoredAddIsInvoked` |
