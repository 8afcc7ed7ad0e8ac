/** The `Event` class of src/Core/event/event.model.ts: an event with a fixed
    type, payload and `cancelable` setting, and two flags that only ever go from
    false to true. The pure part (EventState, Step, Run) is the specification;
    the class `Event` updates its fields in place and is proved against it. */
module EventModel {
  import opened Wrappers

  /** The source's `EVENT_PHASE` enumeration: NONE (0) and AT_TARGET (2). */
  datatype EventPhase = PhaseNone | PhaseAtTarget

  /** The optional record given to the constructor (`Partial<EventInitialValues>`). */
  datatype EventInit = EventInit(cancelable: Option<bool>)

  /** `Event.initialvalues.cancelable`. */
  const DefaultCancelable: bool := false

  /** `initValues?.cancelable ?? Event.initialvalues.cancelable`. */
  function ResolveCancelable(init: Option<EventInit>): (cancelable: bool)
    ensures init.Some? && init.value.cancelable.Some? ==> cancelable == init.value.cancelable.value
    ensures init.None? || init.value.cancelable.None? ==> cancelable == DefaultCancelable
  {
    match init
    case Some(EventInit(Some(c))) => c
    case _ => DefaultCancelable
  }

  /** Everything observable about an event, except its creation time stamp. */
  datatype EventState<P> = EventState(
    eventType: string,
    payload: P,
    cancelable: bool,
    defaultPrevented: bool,
    eventPhase: EventPhase,
    immediatePropagationStopped: bool)

  /** The state a constructor call produces. */
  function Created<P>(eventType: string, payload: P, init: Option<EventInit>): EventState<P> {
    EventState(eventType, payload, ResolveCancelable(init), false, PhaseNone, false)
  }

  /** A state every event keeps: a non-cancelable event is never prevented, and the phase stays NONE. */
  predicate Consistent<P>(s: EventState<P>) {
    (!s.cancelable ==> !s.defaultPrevented) && s.eventPhase == PhaseNone
  }

  /** The two state-changing calls an event accepts. */
  datatype EventCall = PreventDefault | StopImmediatePropagation

  /** The effect of one call on the event's state. */
  function Step<P>(s: EventState<P>, call: EventCall): (t: EventState<P>)
    ensures t.eventType == s.eventType && t.payload == s.payload
    ensures t.cancelable == s.cancelable && t.eventPhase == s.eventPhase
    ensures t.defaultPrevented <==> s.defaultPrevented || (call == PreventDefault && s.cancelable)
    ensures t.immediatePropagationStopped <==> s.immediatePropagationStopped || call == StopImmediatePropagation
  {
    match call
    case PreventDefault =>
      if !s.cancelable then s else s.(defaultPrevented := true)
    case StopImmediatePropagation =>
      s.(immediatePropagationStopped := true)
  }

  /** The state after a sequence of calls, in order. */
  function Run<P>(s: EventState<P>, calls: seq<EventCall>): EventState<P>
    decreases |calls|
  {
    if calls == [] then s else Run(Step(s, calls[0]), calls[1..])
  }

  /** No sequence of calls changes the type, the payload, `cancelable` or the phase. */
  lemma {:induction false} RunKeepsIdentity<P>(s: EventState<P>, calls: seq<EventCall>)
    ensures Run(s, calls).eventType == s.eventType
    ensures Run(s, calls).payload == s.payload
    ensures Run(s, calls).cancelable == s.cancelable
    ensures Run(s, calls).eventPhase == s.eventPhase
    decreases |calls|
  {
    if calls != [] {
      RunKeepsIdentity(Step(s, calls[0]), calls[1..]);
    }
  }

  /** The flags after a history of calls: `defaultPrevented` is set exactly when it was
      already set or the event is cancelable and `preventDefault` was called;
      `immediatePropagationStoped` exactly when it was set or `stopImmediatePropagation`
      was called. */
  lemma {:induction false} RunFlags<P>(s: EventState<P>, calls: seq<EventCall>)
    ensures Run(s, calls).defaultPrevented <==> s.defaultPrevented || (s.cancelable && PreventDefault in calls)
    ensures Run(s, calls).immediatePropagationStopped <==> s.immediatePropagationStopped || StopImmediatePropagation in calls
    decreases |calls|
  {
    if calls != [] {
      assert calls == [calls[0]] + calls[1..];
      RunFlags(Step(s, calls[0]), calls[1..]);
    }
  }

  /** Flags are monotone: a flag once set stays set whatever is called afterwards. */
  lemma FlagsAreMonotone<P>(s: EventState<P>, calls: seq<EventCall>)
    ensures s.defaultPrevented ==> Run(s, calls).defaultPrevented
    ensures s.immediatePropagationStopped ==> Run(s, calls).immediatePropagationStopped
  {
    RunFlags(s, calls);
  }

  /** Every history keeps an event consistent. */
  lemma RunKeepsConsistent<P>(s: EventState<P>, calls: seq<EventCall>)
    requires Consistent(s)
    ensures Consistent(Run(s, calls))
  {
    RunKeepsIdentity(s, calls);
    RunFlags(s, calls);
  }

  /** `preventDefault` is idempotent. */
  lemma PreventDefaultIdempotent<P>(s: EventState<P>)
    ensures Step(Step(s, PreventDefault), PreventDefault) == Step(s, PreventDefault)
  {
  }

  /** What any history of calls does to a freshly constructed event. */
  lemma CreatedEventHistory<P>(eventType: string, payload: P, init: Option<EventInit>, calls: seq<EventCall>)
    ensures Run(Created(eventType, payload, init), calls).eventType == eventType
    ensures Run(Created(eventType, payload, init), calls).payload == payload
    ensures Run(Created(eventType, payload, init), calls).eventPhase == PhaseNone
    ensures Run(Created(eventType, payload, init), calls).defaultPrevented
            <==> ResolveCancelable(init) && PreventDefault in calls
    ensures Run(Created(eventType, payload, init), calls).immediatePropagationStopped
            <==> StopImmediatePropagation in calls
  {
    RunKeepsIdentity(Created(eventType, payload, init), calls);
    RunFlags(Created(eventType, payload, init), calls);
  }

  /** The event object. The getters `defaultPrevented`, `eventPhase` and
      `immediatePropagationStoped` of the source read the fields of the same name.
      These three fields stand for private state: only `PreventDefault` and
      `StopImmediatePropagation` write them, and the results about monotone flags
      hold under that discipline, not for a client that assigns them directly. */
  class Event<P> {
    const eventType: string
    const payload: P
    const cancelable: bool
    var defaultPrevented: bool
    var eventPhase: EventPhase
    var immediatePropagationStopped: bool

    /** The abstract value of the object. */
    function State(): EventState<P>
      reads this
    {
      EventState(eventType, payload, cancelable, defaultPrevented, eventPhase, immediatePropagationStopped)
    }

    constructor (eventType: string, payload: P, init: Option<EventInit>)
      ensures State() == Created(eventType, payload, init)
      ensures Consistent(State())
      ensures this.eventType == eventType && this.payload == payload
      ensures cancelable == ResolveCancelable(init)
      ensures !defaultPrevented && !immediatePropagationStopped && eventPhase == PhaseNone
    {
      this.eventType := eventType;
      this.payload := payload;
      cancelable := ResolveCancelable(init);
      defaultPrevented := false;
      eventPhase := PhaseNone;
      immediatePropagationStopped := false;
    }

    /** Sets `defaultPrevented`, but only on a cancelable event. */
    method PreventDefault()
      modifies this
      ensures State() == Step(old(State()), EventCall.PreventDefault)
      ensures !cancelable ==> defaultPrevented == old(defaultPrevented)
      ensures cancelable ==> defaultPrevented
      ensures immediatePropagationStopped == old(immediatePropagationStopped)
      ensures eventPhase == old(eventPhase)
    {
      if !cancelable {
        return;
      }
      defaultPrevented := true;
    }

    /** Sets `immediatePropagationStoped`; nothing else changes. */
    method StopImmediatePropagation()
      modifies this
      ensures State() == Step(old(State()), EventCall.StopImmediatePropagation)
      ensures immediatePropagationStopped
      ensures defaultPrevented == old(defaultPrevented)
      ensures eventPhase == old(eventPhase)
    {
      immediatePropagationStopped := true;
    }
  }
}
