/** The `EventTarget` class of src/Core/event-target/event-target.model.ts: the
    normalisation of listener options into a full record with defaults, the
    default passive value and parent, and the registration and dispatch entry
    points, which all fail with "Method not implemented.". */
module EventTargetModel {
  import opened Wrappers
  import EventModel

  /** An opaque `AbortSignal`. */
  datatype SignalToken = SignalToken(id: nat)

  /** An opaque listener object (`EventListenerInterface`). */
  datatype CallbackId = CallbackId(id: nat)

  /** `AddListenerOptions`, which includes `EventListenerOptions`; every key is optional. */
  datatype AddListenerOptions = AddListenerOptions(
    capture: Option<bool>,
    once: Option<bool>,
    passive: Option<bool>,
    signal: Option<SignalToken>)

  /** The `options` argument: the boolean shorthand or an options record. */
  datatype OptionsArg = Flag(value: bool) | Record(record: AddListenerOptions)

  /** `FlattenedMoreOptions`. */
  datatype FlattenedMoreOptions = FlattenedMoreOptions(
    capture: bool,
    passive: Option<bool>,
    once: bool,
    signal: Option<SignalToken>)

  /** `ListernerInterface`: the element type of `eventListenerList`. */
  datatype Listener = Listener(
    eventType: string,
    callback: Option<CallbackId>,
    capture: Option<bool>,
    passive: Option<bool>,
    once: bool,
    signal: Option<SignalToken>,
    removed: bool)

  /** The error every unimplemented method throws. */
  datatype TargetError = NotImplemented

  /** The capture flag of an options argument: the boolean itself, or the record's
      `capture`, `false` when absent. */
  function FlattenOptions(options: OptionsArg): (capture: bool)
    ensures options.Flag? ==> capture == options.value
    ensures options.Record? && options.record.capture.Some? ==> capture == options.record.capture.value
    ensures options.Record? && options.record.capture.None? ==> !capture
  {
    match options
    case Flag(b) => b
    case Record(r) => r.capture.GetOr(false)
  }

  /** The full record: `once`, `passive` and `signal` come from a record argument when
      present, and are `false`, null and null otherwise. */
  function FlattenMoreOptions(options: OptionsArg): (flat: FlattenedMoreOptions)
    ensures flat.capture == FlattenOptions(options)
    ensures options.Flag? ==> !flat.once && flat.passive == None && flat.signal == None
    ensures options.Record? ==> flat.passive == options.record.passive && flat.signal == options.record.signal
    ensures options.Record? ==> (flat.once <==> options.record.once == Some(true))
  {
    var capture := FlattenOptions(options);
    var once, passive, signal := false, None, None;
    match options
    case Flag(_) => FlattenedMoreOptions(capture, passive, once, signal)
    case Record(r) => FlattenedMoreOptions(capture, r.passive, r.once.GetOr(once), r.signal)
  }

  /** The record that states every field of a flattened record explicitly. */
  function Explicit(flat: FlattenedMoreOptions): AddListenerOptions {
    AddListenerOptions(Some(flat.capture), Some(flat.once), flat.passive, flat.signal)
  }

  /** Flattening is a normal form: flattening the explicit record of a flattened one gives it back. */
  lemma FlattenIsNormalForm(flat: FlattenedMoreOptions)
    ensures FlattenMoreOptions(Record(Explicit(flat))) == flat
  {
  }

  /** The boolean shorthand means "capture only": it flattens like the record that sets
      just `capture`. */
  lemma ShorthandIsCaptureOnly(b: bool)
    ensures FlattenMoreOptions(Flag(b)) == FlattenMoreOptions(Record(AddListenerOptions(Some(b), None, None, None)))
    ensures FlattenMoreOptions(Flag(b)) == FlattenedMoreOptions(b, None, false, None)
  {
  }

  /** Stating a default explicitly changes nothing. */
  lemma ExplicitDefaultsChangeNothing(r: AddListenerOptions)
    ensures FlattenMoreOptions(Record(r))
            == FlattenMoreOptions(Record(r.(capture := Some(r.capture.GetOr(false)), once := Some(r.once.GetOr(false)))))
  {
  }

  /** The event target. */
  class EventTarget {
    /** The simplified default passive value. */
    const defaultPassiveValue: bool := false
    var eventListenerList: seq<Listener>

    constructor ()
      ensures !defaultPassiveValue
      ensures eventListenerList == []
    {
      eventListenerList := [];
    }

    /** Always throws; with no frame, nothing changes. */
    method AddEventListener(event: string, listener: Option<CallbackId>, options: Option<OptionsArg>)
      returns (outcome: Outcome<TargetError>)
      ensures outcome == Fail(NotImplemented)
    {
      outcome := Fail(NotImplemented);
    }

    /** Always throws; with no frame, nothing changes. */
    method RemoveEventListener(event: string, handler: Option<CallbackId>, options: Option<OptionsArg>)
      returns (outcome: Outcome<TargetError>)
      ensures outcome == Fail(NotImplemented)
    {
      outcome := Fail(NotImplemented);
    }

    /** Always throws before touching the event. */
    method DispatchEvent<P>(event: EventModel.Event<P>) returns (result: Result<bool, TargetError>)
      ensures result == Failure(NotImplemented)
    {
      result := Failure(NotImplemented);
    }

    /** A target has no parent. */
    function GetParent(): (parent: Option<EventTarget>)
      ensures parent == None
    {
      None
    }

    /** A no-op: the event is left exactly as it was. */
    method ActivationBehavior<P>(event: EventModel.Event<P>)
      ensures event.State() == old(event.State())
    {
    }
  }
}
