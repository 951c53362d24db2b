/**
 * The cold-start push buffering state of the Pushwoosh React Native module,
 * as a value, and one atomic step per operation.
 *
 * Publishing, subscribing and pumping run under one lock; init, the module
 * constructor and host teardown write their fields without it. Each operation
 * is modelled as a single atomic function from the state before to the state
 * after, together with the observable effects it produces in order.
 */
module PushState {
  import opened Wrappers

  /** A push payload, kept as the raw JSON string; decoding is the identity here. */
  type Payload = string

  /** A JavaScript callback handed across the bridge. */
  type CallbackId = nat

  /** The two kinds of push event the module buffers. */
  datatype Kind = Opened | Received

  function Other(k: Kind): Kind
  {
    match k
    case Opened => Received
    case Received => Opened
  }

  /** Event names: the internal bus keys and the public JavaScript event names. */
  const PUSH_OPEN_EVENT: string := "PwPushOpened"
  const PUSH_OPEN_JS_EVENT: string := "pushOpened"
  /** Stands for the vendor SDK constant Pushwoosh.PUSH_RECEIVE_EVENT. */
  const PUSH_RECEIVED_EVENT: string := "PUSH_RECEIVE_EVENT"
  const PUSH_RECEIVED_JS_EVENT: string := "pushReceived"

  /** The keys of the map that pump hands to its success callback. */
  const OPENED_KEY: string := "opened"
  const RECEIVED_KEY: string := "received"

  /** Config keys read by init, and the message its error callback receives. */
  const APP_ID_KEY: string := "pw_appid"
  const PROJECT_NUMBER_KEY: string := "project_number"
  const INIT_ERROR_MESSAGE: string := "Pushwoosh Application id and GCM project number not specified"

  function BusEvent(k: Kind): string
  {
    match k
    case Opened => PUSH_OPEN_EVENT
    case Received => PUSH_RECEIVED_EVENT
  }

  function JsEvent(k: Kind): string
  {
    match k
    case Opened => PUSH_OPEN_JS_EVENT
    case Received => PUSH_RECEIVED_JS_EVENT
  }

  function PumpKey(k: Kind): string
  {
    match k
    case Opened => OPENED_KEY
    case Received => RECEIVED_KEY
  }

  /**
   * The two kinds never share a bus key, a JavaScript event name or a key in
   * pump's map, and the opened kind's bus key differs from its JavaScript
   * event name. This is what justifies one subscriber list per kind and
   * recording Dispatch, Emit and pump's map by Kind rather than by the
   * strings BusEvent, JsEvent and PumpKey give. The received bus key is the
   * stand-in PUSH_RECEIVED_EVENT, so the first clause holds for the real
   * vendor constant only if it is not "PwPushOpened".
   */
  lemma EventNamesDistinct()
    ensures BusEvent(Opened) != BusEvent(Received)
    ensures BusEvent(Opened) != JsEvent(Opened)
    ensures JsEvent(Opened) != JsEvent(Received)
    ensures PumpKey(Opened) != PumpKey(Received)
  {
  }

  /**
   * One buffered kind: the single-slot buffer, the "consumer registered" flag,
   * and the bus subscribers registered under the kind's bus key.
   */
  datatype Slot = Slot(data: Option<Payload>, registered: bool, subs: seq<CallbackId>)

  datatype State = State(openSlot: Slot, receivedSlot: Slot, initialized: bool, hasInstance: bool)
  {
    function Get(k: Kind): Slot
    {
      match k
      case Opened => openSlot
      case Received => receivedSlot
    }

    function With(k: Kind, slot: Slot): State
    {
      match k
      case Opened => this.(openSlot := slot)
      case Received => this.(receivedSlot := slot)
    }
  }

  const EmptySlot: Slot := Slot(None, false, [])

  /** The state at process start: nothing buffered, nobody registered, not initialized, no module instance. */
  const Initial: State := State(EmptySlot, EmptySlot, false, false)

  /** What an operation does that the outside world can observe, in order. */
  datatype Effect =
    | Deliver(kind: Kind, cb: CallbackId, payload: Payload)   // callback.invoke(payload) by onPushOpen / onPushReceived
    | DeliverPump(cb: CallbackId, data: map<Kind, Payload>)    // success.invoke(map) by pump, keyed by PumpKey
    | Dispatch(kind: Kind, payload: Payload)                   // mEventDispatcher.dispatchEvent under BusEvent(kind)
    | Emit(kind: Kind, payload: Payload)                       // sendEvent to JavaScript under JsEvent(kind)
    | Configure(appId: string, senderId: string)               // setAppId / setSenderId on the vendor SDK
    | InitSucceeded(cb: CallbackId)                            // success.invoke() by init
    | InitFailed(cb: CallbackId, message: string)              // error.invoke(message) by init

  datatype Step = Step(state: State, effects: seq<Effect>)

  /**
   * openPush / messageReceived: store the payload (overwriting), dispatch it on
   * the bus when a consumer is registered, emit it to JavaScript when the module
   * is initialized and an instance exists.
   */
  function Publish(s: State, k: Kind, p: Payload): (r: Step)
    ensures r.state.Get(k).data == Some(p)
    ensures r.state.Get(k).registered == s.Get(k).registered
    ensures r.state.Get(k).subs == s.Get(k).subs
    ensures r.state.Get(Other(k)) == s.Get(Other(k))
    ensures r.state.initialized == s.initialized && r.state.hasInstance == s.hasInstance
    ensures Dispatch(k, p) in r.effects <==> s.Get(k).registered
    ensures |r.effects| == (if s.Get(k).registered then 1 else 0) + (if s.initialized && s.hasInstance then 1 else 0)
    ensures Emit(k, p) in r.effects <==> s.initialized && s.hasInstance
    ensures forall e :: e in r.effects ==> e == Dispatch(k, p) || e == Emit(k, p)
    ensures |r.effects| == 2 ==> r.effects[0].Dispatch? && r.effects[1].Emit?
  {
    var slot := s.Get(k);
    var dispatched := if slot.registered then [Dispatch(k, p)] else [];
    var emitted := if s.initialized && s.hasInstance then [Emit(k, p)] else [];
    Step(s.With(k, slot.(data := Some(p))), dispatched + emitted)
  }

  /**
   * onPushOpen / onPushReceived: the first consumer of a kind takes the buffered
   * payload at once; any other call subscribes the callback on the bus.
   * Either way the kind becomes registered and the slot is left as it was.
   */
  function Subscribe(s: State, k: Kind, cb: CallbackId): (r: Step)
    ensures r.state.Get(k).registered
    ensures r.state.Get(k).data == s.Get(k).data
    ensures r.state.Get(Other(k)) == s.Get(Other(k))
    ensures r.state.initialized == s.initialized && r.state.hasInstance == s.hasInstance
    ensures !s.Get(k).registered && s.Get(k).data.Some? ==>
              r.effects == [Deliver(k, cb, s.Get(k).data.value)] && r.state.Get(k).subs == s.Get(k).subs
    ensures s.Get(k).registered || s.Get(k).data.None? ==>
              r.effects == [] && r.state.Get(k).subs == s.Get(k).subs + [cb]
  {
    var slot := s.Get(k);
    if !slot.registered && slot.data.Some? then
      Step(s.With(k, slot.(registered := true)), [Deliver(k, cb, slot.data.value)])
    else
      Step(s.With(k, slot.(registered := true, subs := slot.subs + [cb])), [])
  }

  /** True when at least one slot holds a payload. */
  predicate HasPending(s: State)
  {
    s.openSlot.data.Some? || s.receivedSlot.data.Some?
  }

  /**
   * The map handed to pump's success callback describes the buffered payloads:
   * it has an entry (under the key PumpKey(k)) for exactly the non-empty slots,
   * each holding that slot's payload.
   */
  predicate DescribesPending(m: map<Kind, Payload>, s: State)
  {
    && (forall k: Kind :: k in m <==> s.Get(k).data.Some?)
    && (forall k: Kind :: k in m ==> m[k] == s.Get(k).data.value)
  }

  /** The map pump collects for its success callback: one entry per non-empty slot, opened first. */
  function PendingMap(s: State): (m: map<Kind, Payload>)
    ensures DescribesPending(m, s)
  {
    var withOpened := if s.openSlot.data.Some? then map[Opened := s.openSlot.data.value] else map[];
    if s.receivedSlot.data.Some? then withOpened[Received := s.receivedSlot.data.value] else withOpened
  }

  /** The JavaScript event pump emits for one slot when it has no success callback. */
  function EmitPending(k: Kind, data: Option<Payload>): seq<Effect>
  {
    if data.Some? then [Emit(k, data.value)] else []
  }

  /**
   * pump: drain both slots. With a success callback the payloads are collected
   * into one map passed in a single invocation (none when both slots are empty);
   * without one, each payload is emitted as its JavaScript event, opened first.
   */
  function Pump(s: State, success: Option<CallbackId>): (r: Step)
    ensures r.state.openSlot.data.None? && r.state.receivedSlot.data.None?
    ensures r.state == s.(openSlot := s.openSlot.(data := None), receivedSlot := s.receivedSlot.(data := None))
    ensures success.Some? ==> |r.effects| <= 1
    ensures success.Some? ==> (r.effects != [] <==> HasPending(s))
    ensures success.Some? ==> forall e :: e in r.effects ==>
              e.DeliverPump? && e.cb == success.value && DescribesPending(e.data, s)
    ensures success.None? ==> forall e :: e in r.effects ==> e.Emit?
    ensures success.None? ==> forall k: Kind ::
              (exists p :: Emit(k, p) in r.effects) <==> s.Get(k).data.Some?
    ensures success.None? ==> |r.effects| == (if s.openSlot.data.Some? then 1 else 0) + (if s.receivedSlot.data.Some? then 1 else 0)
    ensures success.None? ==> forall k: Kind :: s.Get(k).data.Some? ==> Emit(k, s.Get(k).data.value) in r.effects
    ensures success.None? && s.openSlot.data.Some? ==> r.effects[0] == Emit(Opened, s.openSlot.data.value)
  {
    var drained := s.(openSlot := s.openSlot.(data := None), receivedSlot := s.receivedSlot.(data := None));
    if success.None? then
      Step(drained, EmitPending(Opened, s.openSlot.data) + EmitPending(Received, s.receivedSlot.data))
    else if HasPending(s) then
      Step(drained, [DeliverPump(success.value, PendingMap(s))])
    else
      Step(drained, [])
  }

  /** onHostDestroy: forget both registrations and both buffered payloads. */
  function Destroy(s: State): (r: Step)
    ensures forall k: Kind :: !r.state.Get(k).registered && r.state.Get(k).data.None?
    ensures forall k: Kind :: r.state.Get(k).subs == s.Get(k).subs
    ensures r.state.initialized == s.initialized && r.state.hasInstance == s.hasInstance
    ensures r.effects == []
  {
    Step(s.(openSlot := s.openSlot.(registered := false, data := None),
            receivedSlot := s.receivedSlot.(registered := false, data := None)), [])
  }

  /** ReadableMap.getString: a missing key and a null value both read as null. */
  function GetString(config: map<string, Option<string>>, key: string): (r: Option<string>)
    ensures r.Some? <==> key in config && config[key].Some?
    ensures key in config ==> r == config[key]
  {
    if key in config then config[key] else None
  }

  /**
   * init: without both the application id and the project number only the error
   * callback runs; otherwise the vendor SDK is configured, the module becomes
   * initialized and the success callback runs.
   */
  function Init(s: State, config: map<string, Option<string>>,
                success: Option<CallbackId>, error: Option<CallbackId>): (r: Step)
    ensures var appId := GetString(config, APP_ID_KEY);
            var projectId := GetString(config, PROJECT_NUMBER_KEY);
            if appId.None? || projectId.None? then
              r.state == s && (r.effects == [] <==> error.None?) && |r.effects| <= 1 &&
              forall e :: e in r.effects ==> e == InitFailed(error.value, INIT_ERROR_MESSAGE)
            else
              r.state == s.(initialized := true) &&
              |r.effects| >= 1 && r.effects[0] == Configure(appId.value, projectId.value) &&
              (|r.effects| == 1 <==> success.None?) &&
              (success.Some? ==> r.effects[1..] == [InitSucceeded(success.value)])
  {
    var appId := GetString(config, APP_ID_KEY);
    var projectId := GetString(config, PROJECT_NUMBER_KEY);
    if appId.None? || projectId.None? then
      Step(s, if error.Some? then [InitFailed(error.value, INIT_ERROR_MESSAGE)] else [])
    else
      Step(s.(initialized := true), [Configure(appId.value, projectId.value)] +
                                   if success.Some? then [InitSucceeded(success.value)] else [])
  }

  /** The module constructor records itself as the instance that receives emitted events. */
  function Attach(s: State): (r: Step)
    ensures r.state.hasInstance
    ensures r.state.openSlot == s.openSlot && r.state.receivedSlot == s.receivedSlot && r.state.initialized == s.initialized
    ensures r.effects == []
  {
    Step(s.(hasInstance := true), [])
  }
}
