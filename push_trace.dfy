/**
 * Sequences of operations on the push buffering state, and what the module
 * guarantees across them: last write wins, a drain or a teardown empties the
 * slot, the first consumer gets the buffered payload exactly once, later
 * publishes reach bus subscribers, and a teardown brings back a cold start.
 */
module PushTrace {
  import opened Wrappers
  import opened PushState

  /** One call into the module: a native publish, a JavaScript method, or a lifecycle hook. */
  datatype Op =
    | PublishOp(kind: Kind, payload: Payload)
    | SubscribeOp(kind: Kind, cb: CallbackId)
    | PumpOp(success: Option<CallbackId>)
    | DestroyOp
    | InitOp(config: map<string, Option<string>>, onSuccess: Option<CallbackId>, onError: Option<CallbackId>)
    | AttachOp

  function Apply(s: State, op: Op): Step
  {
    match op
    case PublishOp(k, p) => Publish(s, k, p)
    case SubscribeOp(k, cb) => Subscribe(s, k, cb)
    case PumpOp(success) => Pump(s, success)
    case DestroyOp => Destroy(s)
    case InitOp(config, success, error) => Init(s, config, success, error)
    case AttachOp => Attach(s)
  }

  /**
   * Run the operations one atomic step after another with the given step
   * function; the effects are concatenated in order.
   */
  function RunWith(step: (State, Op) -> Step, s: State, ops: seq<Op>): Step
    decreases |ops|
  {
    if ops == [] then Step(s, [])
    else
      var prev := RunWith(step, s, ops[..|ops| - 1]);
      var last := step(prev.state, ops[|ops| - 1]);
      Step(last.state, prev.effects + last.effects)
  }

  lemma RunWithSnoc(step: (State, Op) -> Step, s: State, ops: seq<Op>, op: Op)
    ensures RunWith(step, s, ops + [op]).state == step(RunWith(step, s, ops).state, op).state
    ensures RunWith(step, s, ops + [op]).effects == RunWith(step, s, ops).effects + step(RunWith(step, s, ops).state, op).effects
  {
    assert (ops + [op])[..|ops|] == ops;
  }

  /** Running a prefix and then the rest is running the whole. */
  lemma {:induction false} RunWithPrefix(step: (State, Op) -> Step, s: State, a: seq<Op>, b: seq<Op>)
    ensures RunWith(step, s, a + b).state == RunWith(step, RunWith(step, s, a).state, b).state
    ensures RunWith(step, s, a + b).effects == RunWith(step, s, a).effects + RunWith(step, RunWith(step, s, a).state, b).effects
    decreases |b|
  {
    if b == [] {
      assert a + b == a;
    } else {
      var n := |b| - 1;
      assert a + b == (a + b[..n]) + [b[n]];
      RunWithSnoc(step, s, a + b[..n], b[n]);
      RunWithPrefix(step, s, a, b[..n]);
      assert b == b[..n] + [b[n]];
      RunWithSnoc(step, RunWith(step, s, a).state, b[..n], b[n]);
    }
  }

  /** The module's behaviour over a sequence of calls. */
  function Run(s: State, ops: seq<Op>): Step
  {
    RunWith(Apply, s, ops)
  }

  lemma RunSnoc(s: State, ops: seq<Op>, op: Op)
    ensures Run(s, ops + [op]).state == Apply(Run(s, ops).state, op).state
    ensures Run(s, ops + [op]).effects == Run(s, ops).effects + Apply(Run(s, ops).state, op).effects
  {
    RunWithSnoc(Apply, s, ops, op);
  }

  lemma RunPrefix(s: State, a: seq<Op>, b: seq<Op>)
    ensures Run(s, a + b).state == Run(Run(s, a).state, b).state
    ensures Run(s, a + b).effects == Run(s, a).effects + Run(Run(s, a).state, b).effects
  {
    RunWithPrefix(Apply, s, a, b);
  }

  /** An operation that overwrites or clears the slot of kind k. */
  predicate Touches(op: Op, k: Kind)
  {
    (op.PublishOp? && op.kind == k) || op.PumpOp? || op.DestroyOp?
  }

  /**
   * Last write wins: the slot of kind k holds the payload of the last publish of
   * that kind, unless a pump or a teardown came after it, in which case it is empty.
   */
  lemma {:induction false} LastWriteWins(s: State, ops: seq<Op>, k: Kind, i: nat)
    requires i < |ops| && Touches(ops[i], k)
    requires forall j :: i < j < |ops| ==> !Touches(ops[j], k)
    ensures Run(s, ops).state.Get(k).data == (if ops[i].PublishOp? then Some(ops[i].payload) else None)
    decreases |ops|
  {
    var n := |ops| - 1;
    var init := ops[..n];
    assert ops == init + [ops[n]];
    RunSnoc(s, init, ops[n]);
    StepSlot(Run(s, init).state, ops[n], k);
    if i < n {
      LastWriteWins(s, init, k, i);
    }
  }

  /** What one step does to the slot of kind k. */
  lemma StepSlot(st: State, op: Op, k: Kind)
    ensures op.PublishOp? && op.kind == k ==> Apply(st, op).state.Get(k).data == Some(op.payload)
    ensures op.PumpOp? || op.DestroyOp? ==> Apply(st, op).state.Get(k).data.None?
    ensures !Touches(op, k) ==> Apply(st, op).state.Get(k).data == st.Get(k).data
    ensures st.Get(k).subs <= Apply(st, op).state.Get(k).subs
  {
  }

  /** With no publish of kind k, no pump and no teardown, the slot of kind k keeps its payload. */
  lemma {:induction false} UntouchedSlotKept(s: State, ops: seq<Op>, k: Kind)
    requires forall j :: 0 <= j < |ops| ==> !Touches(ops[j], k)
    ensures Run(s, ops).state.Get(k).data == s.Get(k).data
    decreases |ops|
  {
    if ops != [] {
      var n := |ops| - 1;
      assert ops == ops[..n] + [ops[n]];
      RunSnoc(s, ops[..n], ops[n]);
      StepSlot(Run(s, ops[..n]).state, ops[n], k);
      UntouchedSlotKept(s, ops[..n], k);
    }
  }

  /** The number of synchronous deliveries of kind k among the effects. */
  function Deliveries(effects: seq<Effect>, k: Kind): nat
    decreases |effects|
  {
    if effects == [] then 0
    else
      var e := effects[|effects| - 1];
      Deliveries(effects[..|effects| - 1], k) + (if e.Deliver? && e.kind == k then 1 else 0)
  }

  lemma {:induction false} DeliveriesAppend(a: seq<Effect>, b: seq<Effect>, k: Kind)
    ensures Deliveries(a + b, k) == Deliveries(a, k) + Deliveries(b, k)
    decreases |b|
  {
    if b != [] {
      var n := |b| - 1;
      assert (a + b)[..|a + b| - 1] == a + b[..n];
      assert (a + b)[|a + b| - 1] == b[n];
      DeliveriesAppend(a, b[..n], k);
    } else {
      assert a + b == a;
    }
  }

  /** No effect in the list is a synchronous delivery of kind k. */
  lemma {:induction false} NoDeliveries(effects: seq<Effect>, k: Kind)
    requires forall e :: e in effects ==> !(e.Deliver? && e.kind == k)
    ensures Deliveries(effects, k) == 0
    decreases |effects|
  {
    if effects != [] {
      var n := |effects| - 1;
      assert effects[n] in effects;
      NoDeliveries(effects[..n], k);
    }
  }

  predicate NoTeardown(ops: seq<Op>)
  {
    forall j :: 0 <= j < |ops| ==> !ops[j].DestroyOp?
  }

  /**
   * Between teardowns a kind's buffered payload is handed synchronously to at most
   * one consumer, and to none once a consumer is registered; the registration
   * persists and no delivery happens while nobody is registered.
   */
  lemma {:induction false} AtMostOneSyncDelivery(s: State, ops: seq<Op>, k: Kind)
    requires NoTeardown(ops)
    ensures Deliveries(Run(s, ops).effects, k) <= (if s.Get(k).registered then 0 else 1)
    ensures s.Get(k).registered ==> Run(s, ops).state.Get(k).registered
    ensures !Run(s, ops).state.Get(k).registered ==> Deliveries(Run(s, ops).effects, k) == 0
    decreases |ops|
  {
    if ops != [] {
      var n := |ops| - 1;
      assert ops == ops[..n] + [ops[n]];
      RunSnoc(s, ops[..n], ops[n]);
      AtMostOneSyncDelivery(s, ops[..n], k);
      var prev := Run(s, ops[..n]);
      var last := Apply(prev.state, ops[n]);
      DeliveriesAppend(prev.effects, last.effects, k);
      StepDeliveries(prev.state, ops[n], k);
    }
  }

  /** One step other than a teardown: the case analysis behind AtMostOneSyncDelivery. */
  lemma StepDeliveries(st: State, op: Op, k: Kind)
    requires !op.DestroyOp?
    ensures Deliveries(Apply(st, op).effects, k) <= (if st.Get(k).registered then 0 else 1)
    ensures st.Get(k).registered ==> Apply(st, op).state.Get(k).registered
    ensures !Apply(st, op).state.Get(k).registered ==> Deliveries(Apply(st, op).effects, k) == 0
  {
    var r := Apply(st, op);
    if op.SubscribeOp? && op.kind == k && !st.Get(k).registered && st.Get(k).data.Some? {
      assert r.effects == [Deliver(k, op.cb, st.Get(k).data.value)];
      assert r.effects[..0] == [];
    } else {
      NoDeliveries(r.effects, k);
    }
  }

  /**
   * Cold start: a payload published before any consumer of its kind registers is
   * handed to the first subscriber, and whatever happens afterwards short of a
   * teardown, it is the only synchronous delivery of that kind.
   */
  lemma ColdStartDeliversOnce(s: State, k: Kind, p: Payload, cb: CallbackId, ops: seq<Op>)
    requires !s.Get(k).registered
    requires NoTeardown(ops)
    ensures Deliver(k, cb, p) in Run(s, [PublishOp(k, p), SubscribeOp(k, cb)] + ops).effects
    ensures Deliveries(Run(s, [PublishOp(k, p), SubscribeOp(k, cb)] + ops).effects, k) == 1
  {
    var start := [PublishOp(k, p), SubscribeOp(k, cb)];
    NoTeardownAppend(start, ops);
    PublishThenSubscribe(s, k, p, cb);
    RunPrefix(s, start, ops);
    var head := Run(s, start);
    var rest := Run(head.state, ops);
    AtMostOneSyncDelivery(s, start + ops, k);
    DeliveriesAppend(head.effects, rest.effects, k);
  }

  /** A publish followed by the first subscription hands the payload over synchronously, once. */
  lemma PublishThenSubscribe(s: State, k: Kind, p: Payload, cb: CallbackId)
    requires !s.Get(k).registered
    ensures Run(s, [PublishOp(k, p), SubscribeOp(k, cb)]).effects == Publish(s, k, p).effects + [Deliver(k, cb, p)]
    ensures Deliveries(Run(s, [PublishOp(k, p), SubscribeOp(k, cb)]).effects, k) == 1
  {
    var published := Publish(s, k, p);
    RunSnoc(s, [], PublishOp(k, p));
    assert [] + [PublishOp(k, p)] == [PublishOp(k, p)];
    RunSnoc(s, [PublishOp(k, p)], SubscribeOp(k, cb));
    assert [PublishOp(k, p)] + [SubscribeOp(k, cb)] == [PublishOp(k, p), SubscribeOp(k, cb)];
    NoDeliveries(published.effects, k);
    DeliveriesAppend(published.effects, [Deliver(k, cb, p)], k);
    assert [Deliver(k, cb, p)][..0] == [];
  }

  /**
   * The first consumer that takes the buffered payload synchronously is not put
   * on the bus: a later publish of the same kind is dispatched on the bus, but
   * the consumer is not among its subscribers and nothing is delivered to it.
   */
  lemma SyncConsumerMissesLaterPushes(s: State, k: Kind, p: Payload, cb: CallbackId, q: Payload)
    requires !s.Get(k).registered && cb !in s.Get(k).subs
    ensures var published := Publish(s, k, p);
            var subscribed := Subscribe(published.state, k, cb);
            var later := Publish(subscribed.state, k, q);
            && subscribed.effects == [Deliver(k, cb, p)]
            && Dispatch(k, q) in later.effects
            && cb !in later.state.Get(k).subs
            && Deliveries(later.effects, k) == 0
  {
    var published := Publish(s, k, p);
    var subscribed := Subscribe(published.state, k, cb);
    NoDeliveries(Publish(subscribed.state, k, q).effects, k);
  }

  /**
   * Handing the buffered payload to the first consumer does not consume it:
   * a pump right after still reports it under its kind.
   */
  lemma SubscribeLeavesPayloadForPump(s: State, k: Kind, p: Payload, cb: CallbackId, success: CallbackId)
    ensures var subscribed := Subscribe(Publish(s, k, p).state, k, cb);
            var pumped := Pump(subscribed.state, Some(success));
            |pumped.effects| == 1 && pumped.effects[0].DeliverPump? &&
            k in pumped.effects[0].data && pumped.effects[0].data[k] == p
  {
  }

  lemma NoTeardownAppend(a: seq<Op>, b: seq<Op>)
    requires NoTeardown(a) && NoTeardown(b)
    ensures NoTeardown(a + b)
  {
  }

  /** Bus subscribers are never removed: the old list stays a prefix of the new one. */
  lemma {:induction false} SubscribersPersist(s: State, ops: seq<Op>, k: Kind)
    ensures s.Get(k).subs <= Run(s, ops).state.Get(k).subs
    decreases |ops|
  {
    if ops != [] {
      var n := |ops| - 1;
      assert ops == ops[..n] + [ops[n]];
      RunSnoc(s, ops[..n], ops[n]);
      StepSlot(Run(s, ops[..n]).state, ops[n], k);
      SubscribersPersist(s, ops[..n], k);
    }
  }

  /**
   * A callback subscribed on the bus (because its kind was already registered or
   * nothing was buffered) is not called at subscribe time, stays subscribed, the
   * kind stays registered, and so a publish of its kind after any calls short of
   * a teardown is dispatched on the bus by that publish itself.
   */
  lemma LaterPublishReachesSubscriber(s: State, k: Kind, cb: CallbackId, ops: seq<Op>, p: Payload)
    requires s.Get(k).registered || s.Get(k).data.None?
    requires NoTeardown(ops)
    ensures Subscribe(s, k, cb).effects == []
    ensures cb in Run(s, [SubscribeOp(k, cb)] + ops + [PublishOp(k, p)]).state.Get(k).subs
    ensures Run(s, [SubscribeOp(k, cb)] + ops).state.Get(k).registered
    ensures Dispatch(k, p) in Publish(Run(s, [SubscribeOp(k, cb)] + ops).state, k, p).effects
    ensures Dispatch(k, p) in Run(s, [SubscribeOp(k, cb)] + ops + [PublishOp(k, p)]).effects
  {
    var first := [SubscribeOp(k, cb)];
    var subscribed := Subscribe(s, k, cb);
    RunSnoc(s, [], SubscribeOp(k, cb));
    assert [] + first == first;
    RunPrefix(s, first, ops);
    var before := Run(s, first + ops);
    AtMostOneSyncDelivery(subscribed.state, ops, k);
    SubscribersPersist(subscribed.state, ops, k);
    RunSnoc(s, first + ops, PublishOp(k, p));
    assert cb in subscribed.state.Get(k).subs;
  }

  /** The two states agree on everything but the bus subscriber lists. */
  predicate SameButSubs(a: State, b: State)
  {
    && a.openSlot.data == b.openSlot.data && a.openSlot.registered == b.openSlot.registered
    && a.receivedSlot.data == b.receivedSlot.data && a.receivedSlot.registered == b.receivedSlot.registered
    && a.initialized == b.initialized && a.hasInstance == b.hasInstance
  }

  /** The subscriber lists never influence what the module does, only who the bus reaches. */
  lemma ApplyIgnoresSubs(a: State, b: State, op: Op)
    requires SameButSubs(a, b)
    ensures SameButSubs(Apply(a, op).state, Apply(b, op).state)
    ensures Apply(a, op).effects == Apply(b, op).effects
  {
  }

  lemma {:induction false} RunIgnoresSubs(a: State, b: State, ops: seq<Op>)
    requires SameButSubs(a, b)
    ensures SameButSubs(Run(a, ops).state, Run(b, ops).state)
    ensures Run(a, ops).effects == Run(b, ops).effects
    decreases |ops|
  {
    if ops != [] {
      var n := |ops| - 1;
      RunIgnoresSubs(a, b, ops[..n]);
      ApplyIgnoresSubs(Run(a, ops[..n]).state, Run(b, ops[..n]).state, ops[n]);
    }
  }

  /** A coordinator that has never seen a publish or a subscription, with the given flags. */
  function Fresh(initialized: bool, hasInstance: bool): State
  {
    Initial.(initialized := initialized, hasInstance := hasInstance)
  }

  /**
   * After a teardown the module behaves exactly like a fresh one with the same
   * initialized flag and instance: the same effects for every later sequence of
   * operations, and the same slots and registrations. The bus subscribers are
   * not the same: teardown keeps the ones registered before it (SubscribersPersist),
   * and later dispatches still reach them; a Dispatch effect does not record
   * its recipients, which is why the effects coincide.
   */
  lemma TeardownIsColdStart(s: State, ops: seq<Op>)
    ensures Run(Destroy(s).state, ops).effects == Run(Fresh(s.initialized, s.hasInstance), ops).effects
    ensures SameButSubs(Run(Destroy(s).state, ops).state, Run(Fresh(s.initialized, s.hasInstance), ops).state)
  {
    RunIgnoresSubs(Destroy(s).state, Fresh(s.initialized, s.hasInstance), ops);
  }

  /** Effects that only init produces: no push payload reaches anyone. */
  predicate CarriesNoPush(e: Effect)
  {
    e.Configure? || e.InitSucceeded? || e.InitFailed?
  }

  /**
   * Once both slots are empty, nothing is delivered, dispatched, emitted or
   * pumped until the next publish: a drained payload is never handed out again.
   */
  lemma {:induction false} NothingWithoutPublish(s: State, ops: seq<Op>)
    requires s.openSlot.data.None? && s.receivedSlot.data.None?
    requires forall j :: 0 <= j < |ops| ==> !ops[j].PublishOp?
    ensures Run(s, ops).state.openSlot.data.None? && Run(s, ops).state.receivedSlot.data.None?
    ensures forall e :: e in Run(s, ops).effects ==> CarriesNoPush(e)
    decreases |ops|
  {
    if ops != [] {
      var n := |ops| - 1;
      NothingWithoutPublish(s, ops[..n]);
      var prev := Run(s, ops[..n]);
      assert prev.state.Get(Opened).data.None? && prev.state.Get(Received).data.None?;
    }
  }

  /** A second pump with no publish in between invokes nothing and emits nothing. */
  lemma SecondPumpIsSilent(s: State, first: Option<CallbackId>, second: Option<CallbackId>)
    ensures Pump(Pump(s, first).state, second).effects == []
    ensures Pump(Pump(s, first).state, second).state == Pump(s, first).state
  {
  }
}
