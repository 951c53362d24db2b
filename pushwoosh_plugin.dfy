/**
 * The Pushwoosh React Native module's static buffering state as an object whose
 * methods update it in place, one method per operation. Each method does what
 * the corresponding Java method does, step by step, states the facts callers
 * rely on directly, and is tied to the one-step specification in PushState,
 * about which PushTrace proves the properties that span several calls.
 */
module PushwooshPlugin {
  import opened Wrappers
  import opened PushState

  class Coordinator {
    /** sStartPushData and sReceivedPushData: the single-slot buffers. */
    var startData: Option<Payload>
    var receivedData: Option<Payload>
    /** sPushCallbackRegistered and sReceivedPushCallbackRegistered. */
    var openRegistered: bool
    var receivedRegistered: bool
    /** sInitialized, and whether INSTANCE is set. */
    var initialized: bool
    var hasInstance: bool
    /** The event dispatcher's subscribers under the opened and received bus keys. */
    var openSubs: seq<CallbackId>
    var receivedSubs: seq<CallbackId>
    /** A ghost record of everything observable the module has done, in order; the Java class keeps no such record. */
    ghost var log: seq<Effect>

    /** The abstract state these fields represent. */
    function Snapshot(): State
      reads this
    {
      State(Slot(startData, openRegistered, openSubs),
            Slot(receivedData, receivedRegistered, receivedSubs),
            initialized, hasInstance)
    }

    /** The static initialisers: nothing buffered, nobody registered, no instance yet. */
    constructor ()
      ensures Snapshot() == Initial && log == []
    {
      startData, receivedData := None, None;
      openRegistered, receivedRegistered := false, false;
      initialized, hasInstance := false, false;
      openSubs, receivedSubs := [], [];
      log := [];
    }

    /** The module constructor: INSTANCE = this. */
    method Attach()
      modifies this
      ensures hasInstance
      ensures startData == old(startData) && receivedData == old(receivedData)
      ensures openRegistered == old(openRegistered) && receivedRegistered == old(receivedRegistered)
      ensures initialized == old(initialized)
      ensures openSubs == old(openSubs) && receivedSubs == old(receivedSubs) && log == old(log)
      ensures Snapshot() == PushState.Attach(old(Snapshot())).state
    {
      hasInstance := true;
    }

    /**
     * init: both config entries must be present, otherwise only the error
     * callback runs and nothing changes; then the vendor SDK is configured,
     * the module is initialized and the success callback runs.
     */
    method Init(config: map<string, Option<string>>, success: Option<CallbackId>, error: Option<CallbackId>)
      modifies this
      ensures var complete := GetString(config, APP_ID_KEY).Some? && GetString(config, PROJECT_NUMBER_KEY).Some?;
              initialized == (old(initialized) || complete)
      ensures startData == old(startData) && receivedData == old(receivedData)
      ensures openRegistered == old(openRegistered) && receivedRegistered == old(receivedRegistered)
      ensures hasInstance == old(hasInstance) && openSubs == old(openSubs) && receivedSubs == old(receivedSubs)
      ensures Snapshot() == PushState.Init(old(Snapshot()), config, success, error).state
      ensures log == old(log) + PushState.Init(old(Snapshot()), config, success, error).effects
    {
      var appId := GetString(config, APP_ID_KEY);
      var projectId := GetString(config, PROJECT_NUMBER_KEY);
      if appId.None? || projectId.None? {
        if error.Some? {
          log := log + [InitFailed(error.value, INIT_ERROR_MESSAGE)];
        }
        return;
      }
      log := log + [Configure(appId.value, projectId.value)];
      initialized := true;
      if success.Some? {
        log := log + [InitSucceeded(success.value)];
      }
    }

    /**
     * onPushOpen: a first consumer finding a buffered payload gets it at once and
     * is not subscribed; otherwise the callback joins the bus. The opened kind is
     * registered afterwards and its slot is never cleared here.
     */
    method OnPushOpen(cb: CallbackId)
      modifies this
      ensures openRegistered
      ensures startData == old(startData)
      ensures !old(openRegistered) && old(startData).Some? ==>
                log == old(log) + [Deliver(Opened, cb, old(startData).value)] && openSubs == old(openSubs)
      ensures old(openRegistered) || old(startData).None? ==>
                log == old(log) && openSubs == old(openSubs) + [cb]
      ensures receivedData == old(receivedData) && receivedRegistered == old(receivedRegistered)
      ensures receivedSubs == old(receivedSubs)
      ensures initialized == old(initialized) && hasInstance == old(hasInstance)
      ensures Snapshot() == Subscribe(old(Snapshot()), Opened, cb).state
      ensures log == old(log) + Subscribe(old(Snapshot()), Opened, cb).effects
    {
      if !openRegistered && startData.Some? {
        log := log + [Deliver(Opened, cb, startData.value)];
        openRegistered := true;
        return;
      }
      openRegistered := true;
      openSubs := openSubs + [cb];
    }

    /** onPushReceived: the same protocol on the received slot and flag. */
    method OnPushReceived(cb: CallbackId)
      modifies this
      ensures receivedRegistered
      ensures receivedData == old(receivedData)
      ensures !old(receivedRegistered) && old(receivedData).Some? ==>
                log == old(log) + [Deliver(Received, cb, old(receivedData).value)] && receivedSubs == old(receivedSubs)
      ensures old(receivedRegistered) || old(receivedData).None? ==>
                log == old(log) && receivedSubs == old(receivedSubs) + [cb]
      ensures startData == old(startData) && openRegistered == old(openRegistered)
      ensures openSubs == old(openSubs)
      ensures initialized == old(initialized) && hasInstance == old(hasInstance)
      ensures Snapshot() == Subscribe(old(Snapshot()), Received, cb).state
      ensures log == old(log) + Subscribe(old(Snapshot()), Received, cb).effects
    {
      if !receivedRegistered && receivedData.Some? {
        log := log + [Deliver(Received, cb, receivedData.value)];
        receivedRegistered := true;
        return;
      }
      receivedRegistered := true;
      receivedSubs := receivedSubs + [cb];
    }

    /**
     * pump: both slots end empty. With a success callback, one invocation
     * carrying a map of the buffered payloads, and only if there was one;
     * without, each buffered payload is emitted, opened before received.
     */
    method Pump(success: Option<CallbackId>)
      modifies this
      ensures startData.None? && receivedData.None?
      ensures success.None? ==>
                log == old(log) + (if old(startData).Some? then [Emit(Opened, old(startData).value)] else [])
                                + (if old(receivedData).Some? then [Emit(Received, old(receivedData).value)] else [])
      ensures openRegistered == old(openRegistered) && receivedRegistered == old(receivedRegistered)
      ensures initialized == old(initialized) && hasInstance == old(hasInstance)
      ensures openSubs == old(openSubs) && receivedSubs == old(receivedSubs)
      ensures Snapshot() == PushState.Pump(old(Snapshot()), success).state
      ensures log == old(log) + PushState.Pump(old(Snapshot()), success).effects
    {
      var m: map<Kind, Payload> := map[];
      var hasData := false;
      if startData.Some? {
        if success.Some? {
          m := m[Opened := startData.value];
          hasData := true;
        } else {
          log := log + [Emit(Opened, startData.value)];
        }
        startData := None;
      }
      if receivedData.Some? {
        if success.Some? {
          m := m[Received := receivedData.value];
          hasData := true;
        } else {
          log := log + [Emit(Received, receivedData.value)];
        }
        receivedData := None;
      }
      if hasData {
        log := log + [DeliverPump(success.value, m)];
      }
    }

    /**
     * onHostDestroy: forget both registrations and both buffered payloads;
     * the bus subscribers and the initialized flag stay.
     */
    method OnHostDestroy()
      modifies this
      ensures !openRegistered && !receivedRegistered
      ensures startData.None? && receivedData.None?
      ensures initialized == old(initialized) && hasInstance == old(hasInstance)
      ensures openSubs == old(openSubs) && receivedSubs == old(receivedSubs) && log == old(log)
      ensures Snapshot() == Destroy(old(Snapshot())).state
    {
      openRegistered := false;
      startData := None;
      receivedRegistered := false;
      receivedData := None;
    }

    /**
     * openPush: the payload overwrites the opened slot; it is dispatched on the
     * bus when a consumer is registered and emitted when the module is
     * initialized and has an instance. Nothing else changes.
     */
    method OpenPush(p: Payload)
      modifies this
      ensures startData == Some(p)
      ensures openRegistered == old(openRegistered) && receivedRegistered == old(receivedRegistered)
      ensures receivedData == old(receivedData)
      ensures initialized == old(initialized) && hasInstance == old(hasInstance)
      ensures openSubs == old(openSubs) && receivedSubs == old(receivedSubs)
      ensures log == old(log) + (if old(openRegistered) then [Dispatch(Opened, p)] else [])
                              + (if old(initialized) && old(hasInstance) then [Emit(Opened, p)] else [])
      ensures Snapshot() == Publish(old(Snapshot()), Opened, p).state
      ensures log == old(log) + Publish(old(Snapshot()), Opened, p).effects
    {
      startData := Some(p);
      if openRegistered {
        log := log + [Dispatch(Opened, p)];
      }
      if initialized && hasInstance {
        log := log + [Emit(Opened, p)];
      }
    }

    /** messageReceived: the same on the received slot and flag. */
    method MessageReceived(p: Payload)
      modifies this
      ensures receivedData == Some(p)
      ensures openRegistered == old(openRegistered) && receivedRegistered == old(receivedRegistered)
      ensures startData == old(startData)
      ensures initialized == old(initialized) && hasInstance == old(hasInstance)
      ensures openSubs == old(openSubs) && receivedSubs == old(receivedSubs)
      ensures log == old(log) + (if old(receivedRegistered) then [Dispatch(Received, p)] else [])
                              + (if old(initialized) && old(hasInstance) then [Emit(Received, p)] else [])
      ensures Snapshot() == Publish(old(Snapshot()), Received, p).state
      ensures log == old(log) + Publish(old(Snapshot()), Received, p).effects
    {
      receivedData := Some(p);
      if receivedRegistered {
        log := log + [Dispatch(Received, p)];
      }
      if initialized && hasInstance {
        log := log + [Emit(Received, p)];
      }
    }
  }

  /**
   * A cold start on the received path, driven through the object: a push
   * arrives before anyone listens, the first consumer gets it at once, and a
   * later push goes out on the bus only, which that consumer did not join.
   */
  method ColdStartReceived(first: Payload, second: Payload, cb: CallbackId)
    returns (ghost effects: seq<Effect>, subscribers: seq<CallbackId>)
    ensures effects == [Deliver(Received, cb, first), Dispatch(Received, second)]
    ensures subscribers == []
  {
    var c := new Coordinator();
    c.MessageReceived(first);
    c.OnPushReceived(cb);
    c.MessageReceived(second);
    effects := c.log;
    subscribers := c.receivedSubs;
  }
}
