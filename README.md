# Pushwoosh React Native module: cold-start push buffering

This project models, in Dafny, the part of the Pushwoosh React Native module
(Android side, `PushwooshPlugin.java`) that has real logic: the buffering of
push notifications that are opened or received before the JavaScript side has
attached a listener.

The module keeps static state: one single-slot buffer per event kind
(`sStartPushData` for "opened", `sReceivedPushData` for "received"), one
"consumer registered" flag per kind, the `sInitialized` flag, the `INSTANCE`
back-reference, and an event dispatcher holding bus subscribers per event name.
Seven operations touch it: `openPush` and `messageReceived` (native publish),
`onPushOpen` and `onPushReceived` (subscribe, or take the buffered payload now),
`pump` (drain both slots), `onHostDestroy` (teardown) and `init` (sets the flag
that gates emission to JavaScript). Publishing, subscribing and pumping run
under one lock; `init`, the module constructor (which sets `INSTANCE`) and
`onHostDestroy` write their fields without it. The model treats every
operation as one atomic step.

Files:

- `wrappers.dfy` — `Option`, the stand-in for a nullable reference.
- `push_state.dfy` — module `PushState`: the state as a value (`State`, one
  `Slot` per `Kind`), the observable `Effect`s in order, and one function per
  operation giving the next state and the effects (`Publish`, `Subscribe`,
  `Pump`, `Destroy`, `Init`, `Attach`).
- `push_trace.dfy` — module `PushTrace`: sequences of calls (`Op`, `Run`) and the
  guarantees that span several calls: last write wins, drain and teardown empty
  the slot, the first consumer gets the buffered payload once, subscribers
  persist, teardown restores a cold start, nothing is handed out twice.
- `pushwoosh_plugin.dfy` — module `PushwooshPlugin`: class `Coordinator`, whose
  fields are the static fields and whose methods update them as the Java
  methods do; each method states its effect directly and is tied to the step
  function in `PushState`.

Payloads are kept as opaque strings (decoding to a JSON object and converting
to a React map are the identity here). Callbacks are opaque handles
(`CallbackId`). What the module does to the outside world is a ghost log of
`Effect`s: `Deliver` (a subscribe-time `callback.invoke`), `DeliverPump` (pump's
`success.invoke(map)`), `Dispatch` (the event dispatcher's `dispatchEvent`
under the kind's bus key), `Emit` (`sendEvent` to JavaScript under the kind's
event name), `Configure` (`setAppId`/`setSenderId` on the vendor SDK),
`InitSucceeded` and `InitFailed`. Event names are kept as the kind, with
`BusEvent`, `JsEvent` and `PumpKey` giving the strings the source uses.

Behaviours of the code a caller may not expect:

- A first consumer that takes the buffered payload at subscribe time is not put
  on the event bus, so it does not receive later pushes of that kind
  (`SyncConsumerMissesLaterPushes`, `ColdStartReceived`).
- Subscribing does not clear the slot; only `pump` and teardown do.
- `pump` without a success callback emits every buffered payload through the
  module's own `sendEvent`, without checking `sInitialized` or `INSTANCE`.
- The comment on `init` in `index.js` (line 37) says it triggers all pending
  push notifications, but the Java `init` emits nothing that is buffered: its
  effects are the vendor configuration and the callbacks only (`PushState.Init`).
  What the vendor SDK itself does on `setAppId` is not visible.
- The `init` example in `index.js` (line 38) passes the project number under
  the key `projectid`, but the Java `init` reads `project_number`, so a call
  written exactly as in the example takes the error path (`PushState.Init`).
- Teardown keeps the bus subscribers registered before it, so later dispatches
  still reach them (`SubscribersPersist`).

## Model

| member | source | states |
|---|---|---|
| PushState.Publish | src/android/src/main/java/com/pushwoosh/reactnativeplugin/PushwooshPlugin.java:327-373 | The slot of the published kind holds the new payload whatever it held before (last write wins); registration flags, subscribers, the other kind's slot and the flags are unchanged; the payload is dispatched on the bus once iff a consumer of that kind is registered and emitted to JavaScript once iff the module is initialized and has an instance, dispatch first; nothing else happens |
| PushState.Subscribe | src/android/src/main/java/com/pushwoosh/reactnativeplugin/PushwooshPlugin.java:125-151 | The kind is registered afterwards and its slot is not cleared; an unregistered kind with a buffered payload delivers it once to the callback without subscribing it; otherwise the callback is appended to the bus subscribers and nothing is delivered; the other kind is untouched |
| PushState.Pump | src/android/src/main/java/com/pushwoosh/reactnativeplugin/PushwooshPlugin.java:264-296 | Both slots end empty and nothing else changes; with a success callback there is at most one invocation, present exactly when some slot was non-empty, carrying a map that describes exactly the non-empty slots; without one, one JavaScript event per non-empty slot, opened first |
| PushState.PendingMap | src/android/src/main/java/com/pushwoosh/reactnativeplugin/PushwooshPlugin.java:266-290 | The map pump builds has an entry for exactly the non-empty slots, each holding that slot's payload |
| PushState.Destroy | src/android/src/main/java/com/pushwoosh/reactnativeplugin/PushwooshPlugin.java:313-321 | Both registration flags become false and both slots empty; subscribers, the initialized flag and the instance are kept; no effects |
| PushState.GetString | src/android/src/main/java/com/pushwoosh/reactnativeplugin/PushwooshPlugin.java:73-74 | A config value reads as present exactly when the key is there with a non-null value, and a present key reads as the value stored under it |
| PushState.Init | src/android/src/main/java/com/pushwoosh/reactnativeplugin/PushwooshPlugin.java:72-91 | With the application id or the project number missing, the state is unchanged and only the error callback (if any) runs, once, with the fixed message; otherwise the vendor SDK is configured with both values first, the module becomes initialized, and the success callback (if any) runs |
| PushState.Attach | src/android/src/main/java/com/pushwoosh/reactnativeplugin/PushwooshPlugin.java:54-60 | Creating the module sets the instance reference and changes nothing else |
| PushState.EventNamesDistinct | src/android/src/main/java/com/pushwoosh/reactnativeplugin/PushwooshPlugin.java:35-39 | The two kinds have different bus keys (given that the vendor's received-event constant differs from the opened one), different JavaScript event names and different pump keys, and the opened bus key differs from the opened JavaScript event name |
| PushTrace.LastWriteWins | src/android/src/main/java/com/pushwoosh/reactnativeplugin/PushwooshPlugin.java:264-333 | After any sequence of calls, a slot holds the payload of the last publish of its kind unless a pump or teardown came after it, in which case it is empty |
| PushTrace.UntouchedSlotKept | src/android/src/main/java/com/pushwoosh/reactnativeplugin/PushwooshPlugin.java:125-151 | Subscribing, init and the other kind's publishes never change a slot: without a publish of its kind, a pump or a teardown, it keeps its payload |
| PushTrace.AtMostOneSyncDelivery | src/android/src/main/java/com/pushwoosh/reactnativeplugin/PushwooshPlugin.java:125-151 | Between teardowns a kind's buffered payload is handed synchronously to at most one consumer, to none if a consumer was already registered; registration persists, and no delivery happens while nobody is registered |
| PushTrace.StepDeliveries | src/android/src/main/java/com/pushwoosh/reactnativeplugin/PushwooshPlugin.java:125-151 | The single-call form of the above for every call except teardown |
| PushTrace.PublishThenSubscribe | src/android/src/main/java/com/pushwoosh/reactnativeplugin/PushwooshPlugin.java:126-137 | A publish before the first subscription is delivered to that subscriber synchronously, exactly once |
| PushTrace.ColdStartDeliversOnce | src/android/src/main/java/com/pushwoosh/reactnativeplugin/PushwooshPlugin.java:125-151 | A payload published before any consumer registers reaches the first subscriber, and whatever follows short of a teardown, that is the only synchronous delivery of the kind |
| PushTrace.SyncConsumerMissesLaterPushes | src/android/src/main/java/com/pushwoosh/reactnativeplugin/PushwooshPlugin.java:126-137 | A consumer served synchronously is not subscribed: a later publish is dispatched on the bus, the consumer is not a subscriber, and no second synchronous delivery happens |
| PushTrace.SubscribeLeavesPayloadForPump | src/android/src/main/java/com/pushwoosh/reactnativeplugin/PushwooshPlugin.java:128-135 | A payload handed to the first consumer is still in its slot: a pump right after reports it under its kind |
| PushTrace.SubscribersPersist | src/android/src/main/java/com/pushwoosh/reactnativeplugin/PushwooshPlugin.java:134-149 | Bus subscribers are never removed, teardown included: the old list stays a prefix of the new one |
| PushTrace.LaterPublishReachesSubscriber | src/android/src/main/java/com/pushwoosh/reactnativeplugin/PushwooshPlugin.java:327-335 | A callback subscribed on the bus is not called at subscribe time, stays subscribed, its kind stays registered through any calls short of a teardown, and so the final publish of its kind is itself dispatched on the bus |
| PushTrace.TeardownIsColdStart | src/android/src/main/java/com/pushwoosh/reactnativeplugin/PushwooshPlugin.java:313-321 | After a teardown every later sequence of calls has the same effects, slots and flags as on a fresh module with the same initialized flag and instance; only the bus subscribers differ, since teardown keeps the earlier ones and later dispatches still reach them (a Dispatch effect does not record its recipients) |
| PushTrace.NothingWithoutPublish | src/android/src/main/java/com/pushwoosh/reactnativeplugin/PushwooshPlugin.java:264-296 | Once both slots are empty, no payload is delivered, dispatched, emitted or pumped until the next publish: a drained payload is never handed out twice |
| PushTrace.SecondPumpIsSilent | src/android/src/main/java/com/pushwoosh/reactnativeplugin/PushwooshPlugin.java:264-296 | A second pump with no publish in between invokes nothing, emits nothing and changes nothing |
| PushwooshPlugin.Coordinator.constructor | src/android/src/main/java/com/pushwoosh/reactnativeplugin/PushwooshPlugin.java:41-52 | The static fields start empty, unregistered, uninitialized, without an instance |
| PushwooshPlugin.Coordinator.Attach | src/android/src/main/java/com/pushwoosh/reactnativeplugin/PushwooshPlugin.java:54-60 | Sets the instance reference; every other field unchanged |
| PushwooshPlugin.Coordinator.Init | src/android/src/main/java/com/pushwoosh/reactnativeplugin/PushwooshPlugin.java:72-91 | Becomes initialized exactly when both config entries are present (or already was); slots, flags and subscribers unchanged; new state and effects as PushState.Init |
| PushwooshPlugin.Coordinator.OnPushOpen | src/android/src/main/java/com/pushwoosh/reactnativeplugin/PushwooshPlugin.java:125-137 | Opened is registered afterwards and its slot kept; a first consumer finding a payload gets exactly one delivery of it and is not subscribed; otherwise it is appended to the opened subscribers with no delivery; the received kind untouched |
| PushwooshPlugin.Coordinator.OnPushReceived | src/android/src/main/java/com/pushwoosh/reactnativeplugin/PushwooshPlugin.java:139-151 | The same protocol on the received slot, flag and subscribers; the opened kind untouched |
| PushwooshPlugin.Coordinator.Pump | src/android/src/main/java/com/pushwoosh/reactnativeplugin/PushwooshPlugin.java:264-296 | Both slots empty afterwards, flags and subscribers unchanged; without a callback it emits the opened then the received payload, each only if present; new state and effects as PushState.Pump |
| PushwooshPlugin.Coordinator.OnHostDestroy | src/android/src/main/java/com/pushwoosh/reactnativeplugin/PushwooshPlugin.java:312-321 | Both flags false, both slots empty; initialized flag, instance, subscribers and log unchanged |
| PushwooshPlugin.Coordinator.OpenPush | src/android/src/main/java/com/pushwoosh/reactnativeplugin/PushwooshPlugin.java:327-349 | The opened slot holds the payload; flags, subscribers and the received slot unchanged; a dispatch iff registered, then an emission iff initialized with an instance |
| PushwooshPlugin.Coordinator.MessageReceived | src/android/src/main/java/com/pushwoosh/reactnativeplugin/PushwooshPlugin.java:356-373 | The same on the received slot and flag |
| PushwooshPlugin.ColdStartReceived | src/android/src/main/java/com/pushwoosh/reactnativeplugin/PushwooshPlugin.java:139-151 | On a fresh module, a received push, then onPushReceived, then a second push: the consumer gets the first push once, the second is only dispatched on the bus, and the bus has no subscriber |

## Left out

- The vendor SDK wrappers (`register`, `unregister`, `setTags`, `getTags`, `getPushToken`, `getHwid`, `setUserId`, `postEvent`, location tracking, badge and notification-setting setters, lines 93-262): each is one call into the Pushwoosh SDK, whose behaviour is not visible.
- `index.js`: every method passes its arguments through to the native module, at most replacing a missing callback with a no-op, or a missing `postEvent` attributes object with `{}`.
- JSON decoding (`ConversionUtil.stringToJSONObject`) and map conversion (`toWritableMap`) are not part of this model: payloads are opaque strings and decoding is the identity, so a malformed payload and the exception it would raise are not modelled.
- The `try/catch` in `openPush` and `messageReceived` only logs; the model takes the path on which nothing throws.
- The event dispatcher's internals are not part of this model: a dispatch is one log entry, and which subscribers it reaches, in what order and with what failure isolation is not modelled.
- The React bridge (`sendEvent`, `RCTDeviceEventEmitter`) is reduced to an `Emit` entry in the log.
- The value of the vendor constant `Pushwoosh.PUSH_RECEIVE_EVENT` is not visible; `PUSH_RECEIVED_EVENT` stands for it.
- Logging, `onHostResume` and `onHostPause` (they only log), and `getName` (it returns the constant module name).
- Locking and threads: each method is one atomic step; the fact that `init`, the module constructor and `onHostDestroy` run outside the lock, and interleavings with them, are not modelled.
- A null payload passed to `openPush` or `messageReceived`, and a null callback passed to `onPushOpen` or `onPushReceived`: the model assumes payloads and subscribe callbacks are non-null (a null callback would make `callback.invoke` throw, which is not modelled).
- `ReadableMap.getString` on a missing key is taken to read as null, as the null check in `init` expects.
