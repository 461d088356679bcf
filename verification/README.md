# BluetoothOppHandover, modelled in Dafny

A model of the NFC Bluetooth handover sequencer `BluetoothOppHandover`
(`src/com/android/nfc/handover/BluetoothOppHandover.java`). Once an NFC
negotiation has chosen Bluetooth, the sequencer does three things. It makes
sure local Bluetooth is on. If the remote side is still switching its radio
on, it waits out a fixed 3000 ms budget counted from `start()`. Then it
hands exactly one OBEX push request (`ACTION_SEND` or `ACTION_SEND_MULTIPLE`)
to the Bluetooth application, or it gives up.

The model is functional. The object's fields become an immutable `Handover`
record: configuration, state, start time, pending `MSG_START_SEND` messages,
and a log of the platform calls made so far. The calls logged are receiver
registration and unregistration, the failure toast, delayed messages and
`startActivity`. Each entry point of the class is a pure function from record
to record:

- `start()` is `Start`;
- the broadcast receiver is `HandleIntent`;
- the Handler callback is `HandleMessage`.

Modules:

- `Wrappers` (wrappers.dfy): `Option`, the stand-in for a nullable reference.
- `MimeTypes` (mime_types.dfy): the static `getMimeTypeForUri`, with its
  platform lookups as uninterpreted parameters, and an ASCII `toLowerCase`.
- `BluetoothOppHandover` (handover.dfy): the state machine as written:
  `start`, `complete`, `sendIntent`, `handleIntent` and `handleMessage`.
- `HandoverTraces` (traces.dfy): runs of events.
  - `Enabled` says when the platform can deliver an event. `start()` comes
    first and only once. A broadcast carries a time no earlier than the
    start time. A pending message is delivered no earlier than it is due.
    Successive events are not otherwise ordered in time, which admits more
    runs than a monotonic clock would.
  - Some invariants hold for every run. The budget is respected and
    `STATE_WAITING` is never entered.
  - The single-shot guarantee holds only under a trace assumption. Once a
    delayed send has been posted from `TURNING_ON`, no ON or OFF broadcast
    may arrive before it fires.
  - Two concrete runs show what happens when the assumption is broken.
- `GuardedHandover` (guarded.dfy): the evidently intended sequencer. Posting
  the delayed send enters `STATE_WAITING`, and `handleMessage` acts only in
  `STATE_WAITING`. For this version the single-shot guarantee is proved with
  no assumption. It is also proved to make exactly the same platform calls
  as the code as written on every run that obeys the assumption.

The clock (`SystemClock.elapsedRealtime`) is a `now` parameter. The power
manager's `isBluetoothEnabled()` and `enableBluetooth()` are a `Power` input
to `Start`. `ContentResolver.getType`, `MimeTypeMap.getFileExtensionFromUrl`
and `getMimeTypeFromExtension` are the fields of a `Resolver`, which may be
any total functions.

Three features of the code shape the model:

- `handleMessage` does not check the state before sending (lines 169-173).
- `STATE_WAITING` is declared (line 30) and never assigned.
- The receiver is registered in `start()` before the branch (line 90), so
  every path registers it, including the ones that send or fail at once.

## Model

| member | source | states |
|---|---|---|
| `MimeTypes.ToLower` | src/com/android/nfc/handover/BluetoothOppHandover.java:70 | the extension is lower-cased character by character; the length is kept and only ASCII capitals change |
| `MimeTypes.ToLowerIdempotent` | src/com/android/nfc/handover/BluetoothOppHandover.java:70 | lower-casing an already lower-cased extension changes nothing |
| `MimeTypes.MimeTypeForUri` | src/com/android/nfc/handover/BluetoothOppHandover.java:63-80 | no scheme gives none; `content` delegates to the content resolver; `file` looks up the lower-cased extension of the path |
| `MimeTypes.MimeTypeOnlyForKnownSchemes` | src/com/android/nfc/handover/BluetoothOppHandover.java:76-79 | a type is found only for the `content` and `file` schemes; every other scheme gives none |
| `MimeTypes.FileMimeTypeIgnoresExtensionCase` | src/com/android/nfc/handover/BluetoothOppHandover.java:69-72 | two file URIs whose extensions differ only in the case of ASCII letters get the same type, in a default locale that lower-cases ASCII letters to ASCII letters |
| `BluetoothOppHandover.Initial` | src/com/android/nfc/handover/BluetoothOppHandover.java:51-61 | a new sequencer is INIT with no start time (`mStartTime` null), nothing posted and nothing done; it is well formed exactly when it has at least one URI |
| `BluetoothOppHandover.ReportedState` | src/com/android/nfc/handover/BluetoothOppHandover.java:144 | a broadcast without the EXTRA_STATE extra reads as ERROR; otherwise the extra's state is read |
| `BluetoothOppHandover.Complete` | src/com/android/nfc/handover/BluetoothOppHandover.java:111-114 | enters COMPLETE and appends exactly one unregister; configuration, start time and pending messages are unchanged |
| `BluetoothOppHandover.MustDelay` | src/com/android/nfc/handover/BluetoothOppHandover.java:148 | an ON broadcast waits exactly when the remote side is activating and `now` is before start plus the 3000 ms budget |
| `BluetoothOppHandover.BuildRequest` | src/com/android/nfc/handover/BluetoothOppHandover.java:120-134 | the action is SEND exactly when there is one URI, and then the stream is that single URI; otherwise the action is SEND_MULTIPLE; the streamed URIs are the input URIs in order; the type is the MIME type of the first URI; the handover extra is true |
| `BluetoothOppHandover.SendIntent` | src/com/android/nfc/handover/BluetoothOppHandover.java:116-139 | startActivity with the built request, then unregister; the state ends COMPLETE; pending messages and start time are untouched |
| `BluetoothOppHandover.Start` | src/com/android/nfc/handover/BluetoothOppHandover.java:86-109 | the start time is recorded and the receiver registered first; radio off with enable accepted leaves TURNING_ON with nothing else done; enable refused gives toast then unregister and COMPLETE with no dispatch; radio on with remote activating posts exactly one send of 3000 ms and leaves the state unchanged; radio on otherwise dispatches synchronously and completes with no message posted |
| `BluetoothOppHandover.RemainingDelay` | src/com/android/nfc/handover/BluetoothOppHandover.java:147-150 | when less than the budget has elapsed, the added delay is in (0, 3000] and elapsed time plus delay is exactly 3000 |
| `BluetoothOppHandover.HandleIntent` | src/com/android/nfc/handover/BluetoothOppHandover.java:141-159 | without ACTION_STATE_CHANGED in TURNING_ON nothing changes; ON with remote activating and under 3000 ms elapsed posts one send due exactly 3000 ms after start on the model's single clock and stays TURNING_ON; ON otherwise dispatches and completes; OFF completes silently with one unregister; any other adapter state changes nothing |
| `BluetoothOppHandover.HandleMessage` | src/com/android/nfc/handover/BluetoothOppHandover.java:168-175 | the delivered message leaves the queue, and the request is dispatched and the sequencer completed whatever state it was in |
| `HandoverTraces.WaitingNeverReached` | src/com/android/nfc/handover/BluetoothOppHandover.java:28-31 | no run ever reaches STATE_WAITING |
| `HandoverTraces.RemoteBudgetRespected` | src/com/android/nfc/handover/BluetoothOppHandover.java:145-153 | with the remote side activating, on every run no request is dispatched earlier than 3000 ms after start, and every pending send is due exactly then on the model's single clock (in the source, no earlier than then) |
| `HandoverTraces.NoDelayUnlessRemoteActivating` | src/com/android/nfc/handover/BluetoothOppHandover.java:100-107 | without the remote side activating, no run ever posts a delayed send |
| `HandoverTraces.SingleShot` | src/com/android/nfc/handover/BluetoothOppHandover.java:111-114 | under the trace assumption: exactly one registration once start() has run, at most one unregistration, made exactly when COMPLETE is reached; at most one of dispatch or failure toast; an unfinished started run is waiting for the power broadcast or holds exactly one pending send |
| `HandoverTraces.CompleteIsInert` | src/com/android/nfc/handover/BluetoothOppHandover.java:141-143 | in a COMPLETE state reached under the trace assumption, every event that can still arrive leaves the sequencer unchanged |
| `HandoverTraces.AbortThenTimerCompletesTwice` | src/com/android/nfc/handover/BluetoothOppHandover.java:168-173 | a concrete run (ON posts a send, OFF aborts, the send is then delivered) dispatches after the abort and unregisters twice |
| `HandoverTraces.RepeatedOnDispatchesTwice` | src/com/android/nfc/handover/BluetoothOppHandover.java:145-150 | a concrete run with two ON broadcasts while TURNING_ON posts two sends and dispatches twice |
| `GuardedHandover.GuardedStart` | src/com/android/nfc/handover/BluetoothOppHandover.java:100-104 | same platform calls as start(), but posting the delayed send enters WAITING |
| `GuardedHandover.GuardedHandleIntent` | src/com/android/nfc/handover/BluetoothOppHandover.java:145-150 | same platform calls as handleIntent(), but posting the delayed send enters WAITING |
| `GuardedHandover.GuardedHandleMessage` | src/com/android/nfc/handover/BluetoothOppHandover.java:168-173 | the delivered message leaves the queue; it sends, exactly as handleMessage() does, only from WAITING; otherwise state and effects are unchanged |
| `GuardedHandover.GuardedSingleShot` | src/com/android/nfc/handover/BluetoothOppHandover.java:111-114 | with no assumption on event order: exactly one registration once start() has run, at most one unregistration, made exactly on completion; at most one dispatch or toast |
| `GuardedHandover.GuardedCompleteIsInert` | src/com/android/nfc/handover/BluetoothOppHandover.java:168-173 | once the guarded sequencer is COMPLETE, no event has an observable effect |
| `GuardedHandover.GuardedAbortThenTimerSendsOnce` | src/com/android/nfc/handover/BluetoothOppHandover.java:154-156 | on the abort-then-deliver input, the corrected sequencer ignores the OFF during WAITING and sends once, unregistering once |
| `GuardedHandover.GuardedDeliveryOnlyWhileWaiting` | src/com/android/nfc/handover/BluetoothOppHandover.java:168-173 | in every state the corrected sequencer reaches, a pending delivery finds it WAITING |
| `GuardedHandover.GuardedAgreesOnQuietRuns` | src/com/android/nfc/handover/BluetoothOppHandover.java:30 | on every run obeying the trace assumption, the guarded sequencer makes exactly the platform calls of the code as written |

## Left out

- Android plumbing is not modelled. This covers `Context`, receiver registration mechanics, `Handler`/`Looper` delivery, `Toast`, and `startActivity` itself. Each appears only as an entry in the effect log.
- The intent's target package (`com.android.bluetooth`) and `FLAG_ACTIVITY_NEW_TASK` are not in the modelled request: they are fixed packaging.
- Logging (lines 77, 119 and 123) has no observable effect on the sequencer, so it is not modelled.
- The clock is a parameter. The broadcast path relies on `now` being no earlier than the start time, as a monotonic clock guarantees.
- `HandoverTraces.RemoteBudgetRespected`: treats the Handler's clock as the same clock as the start time. In the source, `mStartTime` and the elapsed time come from `SystemClock.elapsedRealtime()` (lines 87 and 147), but `sendEmptyMessageDelayed` (lines 103 and 149) measures its delay on `SystemClock.uptimeMillis()`, which stops during deep sleep. If the device sleeps while a send is pending, the send arrives later than start plus 3000 ms in elapsed-realtime terms. "No dispatch before start plus 3000 ms" still holds, because elapsed realtime never advances more slowly than uptime. "Due exactly at start plus 3000 ms" holds only on the model's single clock; the same goes for the due time stated by `BluetoothOppHandover.HandleIntent`.
- Delivery order of pending messages: `MessageDelivered` may pick any pending message that is due, not only the earliest. This over-approximates the Handler. Every posted message is `MSG_START_SEND`, so all have the same effect.
- `handleMessage` returns false for a `what` other than `MSG_START_SEND`. This case is not modelled because nothing ever posts another message.
- An empty URI array is excluded by `requires |uris| > 0`. The source reads `mUris[0]` unguarded, and would throw on an empty array.
- Threading is not modelled: all entry points run on the main looper, so there is no concurrency.
- The power manager is reduced to two booleans passed to `Start`. Its implementation is not part of this model.
- The content resolver and `MimeTypeMap` lookups are not interpreted.
- `MimeTypes.ToLower`: models `String.toLowerCase()` for ASCII letters only, assuming a default locale whose mapping of ASCII letters is the ASCII one. `toLowerCase()` with no argument uses the default locale. Under a Turkish or Azerbaijani locale, 'I' lower-cases to dotless U+0131, so `x.GIF` and `x.gif` would look up different extensions there. Non-ASCII case mappings are not modelled either.
- `MimeTypes.Uri`: keeps only the scheme and the path. The authority, query and fragment are dropped, although `ContentResolver.getType` depends on the authority. The content-type lookup is uninterpreted, so it is given this reduced URI.
- `BluetoothOppHandover.SendIntent`: assumes `startActivity` returns normally. The intent is addressed to the package `com.android.bluetooth` (line 121), and the TODO at lines 117-118 expects MIME types that package cannot take. For such a type `startActivity` throws `ActivityNotFoundException`, so `complete()` (line 138) never runs: the receiver stays registered and the state stays INIT or TURNING_ON. The guarantees of `HandoverTraces.SingleShot` and `HandoverTraces.RemoteBudgetRespected` are about runs in which every dispatch returns.
- `MimeTypes.MimeTypeForUri`: a URI without a path (`getPath()` returning null) is not modelled; paths are plain strings. The `extension != null` test after `toLowerCase()` can never fail, so that branch is dead and omitted.
- Nothing bounds how long `TURNING_ON` lasts: if neither ON nor OFF is ever broadcast, the sequencer waits forever. `HandoverTraces.SingleShot` states this as "waiting for the power broadcast" and does not claim completion.

## Findings

| source | as written | input that shows it | evidently intended | confidence | as-written member | corrected member |
|---|---|---|---|---|---|---|
| src/com/android/nfc/handover/BluetoothOppHandover.java:168-173 | `handleMessage` sends without checking the state. `STATE_WAITING` (line 30) is never assigned, so a posted send leaves the state `TURNING_ON`. | Remote activating, radio off at `start()` (t=0), enable accepted. ON at t=1000 posts a send due at t=3000. OFF at t=1500 completes silently. The delivery at t=3000 then dispatches anyway and calls `complete()` a second time, so `unregisterReceiver` runs twice. | Posting the send enters `STATE_WAITING`, and `handleMessage` sends only in `STATE_WAITING`. Broadcasts are ignored outside `TURNING_ON`, so an OFF during WAITING is ignored. The delivery then sends the request once, and completion happens once. | medium; not executed | `HandoverTraces.AbortThenTimerCompletesTwice` | `GuardedHandover.GuardedHandleMessage` |
| src/com/android/nfc/handover/BluetoothOppHandover.java:145-150 | An ON broadcast in `TURNING_ON` posts a send and leaves the state `TURNING_ON`. A second ON broadcast therefore posts a second send. | Remote activating, radio off at `start()` (t=0), enable accepted. ON arrives at t=1000 and again at t=2000, and both sends are delivered at t=3000. The request is dispatched twice and the receiver unregistered twice. | The first posted send moves the state to `STATE_WAITING`, where broadcasts are ignored. | medium; not executed | `HandoverTraces.RepeatedOnDispatchesTwice` | `GuardedHandover.GuardedHandleIntent` |

On the first row's input, `GuardedHandover.GuardedAbortThenTimerSendsOnce`
shows the corrected sequencer ignoring the OFF. It then dispatches once at
t=3000 and unregisters once. The corrected sequencer does not abort on an OFF
during WAITING. `GuardedHandover.GuardedDeliveryOnlyWhileWaiting` shows that
on the corrected sequencer a delivery always finds it WAITING. The guard in
`handleMessage` is therefore a defence that no run triggers.

For both rows, `GuardedHandover.GuardedSingleShot` proves the intended
property of the corrected sequencer for every order of events. It gives at
most one dispatch, and one unregistration made exactly on completion.
`GuardedHandover.GuardedAgreesOnQuietRuns` proves that the correction makes
the same platform calls as the code as written on every run that obeys the
trace assumption. The rest of the model keeps the code as written. Its
guarantees are stated under that assumption, in `HandoverTraces.SingleShot`.
