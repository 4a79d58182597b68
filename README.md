# NFC plugin: admission gate, message buffer and readiness latch

A Dafny model of the Android side of the `flutter-nfc` plugin (`NfcPlugin`).
The plugin holds back NFC tag payloads from the Dart side until Dart calls
`configure`. These fields carry its state:

- `shouldHandleIntent`: the activity's intent still has to be handled on the next resume.
- `isConfigured`: Dart is ready.
- `unhandledMessage`: a buffer holding at most one NDEF message.
- `nfcEnabled` and `nfcAvailable`: the adapter's state as the plugin knows it.

Every callback runs on the UI thread, one after another.

The project has four modules:

- `NfcTypes` (`nfc_types.dfy`): intents, NDEF messages and records, the calls made to Dart (`Outgoing`) and the replies to calls from Dart (`Reply`).
- `NfcState` (`nfc_state.dfy`): the plugin's state as a value (`PluginState`) and its invariant `Inv`. Each entry point is a function from the state before the call to the state after it. The outbox is the list of every `invokeMethod` call made so far.
- `NfcTrace` (`nfc_trace.dfy`): runs, meaning any sequence of callbacks applied one after another. It proves the properties that span several calls: at-most-once processing, at most one delivery per processed intent, invariant preservation, overwrite buffering and flush on configure.
- `Plugin` (`nfc_plugin.dfy`): class `NfcPlugin` with the Java fields. Its methods change them step by step. Each method is proved to move `State()` exactly as the matching `NfcState` function says. The entry points and `HandleIntent`, `OnConfigure`, `CheckStateChange` and `NotifyNfcState` also keep `Valid()`. `HandleMessage` only states its effect, because `onConfigure` calls `handleMessage` while the latch is already set and the buffer not yet cleared. `OnNewIntent` follows the intended behaviour for an intent with no action, not the code as written (see Findings). `GetMessages` and `GetPayloads` fill new arrays with index loops.

The model's inputs stand in for the Android framework:

- The activity's current intent is passed to `OnActivityResumed`, together with whether the resumed activity is the plugin's.
- The adapter's current enabled state is passed to `OnActivityResumed` and `CheckStateChange`.
- Whether the device has the NFC feature and a default adapter is passed to the constructor.

Four points of the code worth knowing, which the model follows:

- The code persists and restores nothing across activity recreation. `onActivitySaveInstanceState` and `onActivityCreated` are empty (NfcPlugin.java:129, 214). So there is no snapshot or restore operation, and the pending flag simply starts `true`.
- `TAG_DISCOVERED` intents are claimed by `onNewIntent` and set the flag, but `handleIntent` only processes `NDEF_DISCOVERED`. A tag intent therefore consumes the flag and delivers nothing (`TagDiscoveredIsConsumedUnprocessed`).
- `onConfigure` flushes the buffer on every `configure` call, not only on the first one. The first call always leaves the buffer empty, so a second call has no effect, from any state (`ConfigureTwiceSendsNothing`).
- A message with zero records is still buffered. `handleIntent` checks only that the intent carries at least one message (NfcPlugin.java:402). Records are checked only when `handleMessage` delivers (line 436). So a record-less message displaces a deliverable buffered one, and `configure` then sends nothing (`EmptyRecordsDisplaceBuffer`).

## Model

| member | source | states |
|---|---|---|
| NfcState.Initialize | android/src/main/java/com/passless/nfc/NfcPlugin.java:298-344 | after registration the flag is set, nothing is configured, buffered or sent; NFC is available iff the feature and an adapter exist, enabled iff also the adapter is on; the invariant holds |
| NfcState.NewIntent | android/src/main/java/com/passless/nfc/NfcPlugin.java:229-257 | handled iff the intent is non-null with action NDEF_DISCOVERED or TAG_DISCOVERED; then only the flag is set, otherwise nothing changes (also for a null action) |
| NfcState.NewIntentAsWritten | android/src/main/java/com/passless/nfc/NfcPlugin.java:235-257 | the call as written throws exactly for a non-null intent with a null action, and otherwise agrees with NewIntent |
| NfcState.FirstPayload | android/src/main/java/com/passless/nfc/NfcPlugin.java:433-449 | a payload exists iff the record array is non-null and non-empty, and it is the first record's payload |
| NfcState.HandleMessage | android/src/main/java/com/passless/nfc/NfcPlugin.java:433-456 | appends at most one call, exactly when the message has records, and that call is onMessage with the first record's payload; nothing else changes |
| NfcState.FirstMessage | android/src/main/java/com/passless/nfc/NfcPlugin.java:387-416 | a message is chosen iff the intent is non-null, its action is NDEF_DISCOVERED and it carries at least one message; the chosen one is the first |
| NfcState.HandleIntent | android/src/main/java/com/passless/nfc/NfcPlugin.java:382-427 | the flag is false afterwards whatever the outcome; with nothing to process only the flag changes; unconfigured: the message replaces the buffer and nothing is sent; configured: the buffer is untouched and the first payload is sent |
| NfcState.Configure | android/src/main/java/com/passless/nfc/NfcPlugin.java:356-366 | afterwards configured with an empty buffer; the buffered message, if any, is delivered once; flag and adapter fields unchanged; invariant kept |
| NfcState.CheckStateChange | android/src/main/java/com/passless/nfc/NfcPlugin.java:345-351 | afterwards nfcEnabled equals the adapter's state; setNfcEnabled is sent iff the value changed; nothing else changes |
| NfcState.ActivityResumed | android/src/main/java/com/passless/nfc/NfcPlugin.java:143-177 | other activities change nothing; availability and adapter presence never change; after the plugin's activity resumes nothing is pending and nfcEnabled follows the adapter when there is one; the outbox gains the setNfcEnabled notice exactly when there is an adapter and its state changed; a pending intent with a message is then buffered (unconfigured) or its first payload sent after the notice (configured); with nothing pending or nothing to process the buffer is untouched and only the notice is sent |
| NfcState.MethodCall | android/src/main/java/com/passless/nfc/NfcPlugin.java:267-296 | configure runs onConfigure and answers the availability and enabled flags; gotoNfcSettings answers error "1", "NFC settings not available." when NFC is unavailable and success with no value otherwise; other names answer not-implemented; only configure changes state |
| NfcState.NullActionThrowsAsWritten | android/src/main/java/com/passless/nfc/NfcPlugin.java:235-237 | an intent with no action makes the written switch throw, while the intended behaviour declines it unchanged |
| NfcTrace.RunKeepsInv | android/src/main/java/com/passless/nfc/NfcPlugin.java:416-426 | every run from a valid state keeps isConfigured ==> no buffered message, availability == adapter present, no adapter ==> not enabled |
| NfcTrace.RunIsMonotone | android/src/main/java/com/passless/nfc/NfcPlugin.java:356-358 | along any run isConfigured never resets, the outbox only grows by appending and availability never changes |
| NfcTrace.AtMostOncePerAnnouncement | android/src/main/java/com/passless/nfc/NfcPlugin.java:172-176 | in any run, processing passes plus the final flag never exceed the announcements plus the initial flag |
| NfcTrace.ColdStartPasses | android/src/main/java/com/passless/nfc/NfcPlugin.java:78 | from registration a run makes at most one more processing pass than NFC announcements |
| NfcTrace.DeliveriesPerPass | android/src/main/java/com/passless/nfc/NfcPlugin.java:416-426 | onMessage calls sent plus the final buffer never exceed processing passes plus the initial buffer |
| NfcTrace.ColdStartDeliveries | android/src/main/java/com/passless/nfc/NfcPlugin.java:433-456 | from registration Dart receives at most one onMessage more than NFC announcements |
| NfcTrace.NewIntentIdempotent | android/src/main/java/com/passless/nfc/NfcPlugin.java:244-249 | after an NFC announcement another onNewIntent without a resume changes nothing |
| NfcTrace.SecondResumeProcessesNothing | android/src/main/java/com/passless/nfc/NfcPlugin.java:172-176 | a second resume with no onNewIntent in between only refreshes the adapter state, whatever the adapter reported in between; it buffers and delivers nothing |
| NfcTrace.TagDiscoveredIsConsumedUnprocessed | android/src/main/java/com/passless/nfc/NfcPlugin.java:392-398 | a TAG_DISCOVERED intent is claimed by onNewIntent, yet handleIntent only clears the flag |
| NfcTrace.ConfigureTwiceSendsNothing | android/src/main/java/com/passless/nfc/NfcPlugin.java:356-366 | configuring again changes nothing and sends nothing |
| NfcTrace.EmptyRecordsDisplaceBuffer | android/src/main/java/com/passless/nfc/NfcPlugin.java:402-426 | an NDEF intent whose first message has no records replaces a deliverable buffered message, and configure then sends nothing |
| NfcTrace.OverwriteBuffering | android/src/main/java/com/passless/nfc/NfcPlugin.java:423-426 | two NFC intents processed before configure: configure sends only the second one's first payload and leaves the buffer empty |
| NfcTrace.BufferedUntilConfigure | android/src/main/java/com/passless/nfc/NfcPlugin.java:356-426 | an NDEF intent handled on the first resume is buffered with nothing sent; configure then sends its payload exactly once and empties the buffer |
| Plugin.NfcPlugin.constructor | android/src/main/java/com/passless/nfc/NfcPlugin.java:298-344 | the fields after construction and initialize equal Initialize's state, which satisfies the invariant |
| Plugin.NfcPlugin.OnNewIntent | android/src/main/java/com/passless/nfc/NfcPlugin.java:229-257 | the return value and new fields are those of NewIntent; the invariant is kept |
| Plugin.NfcPlugin.OnActivityResumed | android/src/main/java/com/passless/nfc/NfcPlugin.java:143-177 | the new fields are those of ActivityResumed; the invariant is kept |
| Plugin.NfcPlugin.OnMethodCall | android/src/main/java/com/passless/nfc/NfcPlugin.java:267-296 | the reply and new fields are those of MethodCall; the invariant is kept |
| Plugin.NfcPlugin.CheckStateChange | android/src/main/java/com/passless/nfc/NfcPlugin.java:345-351 | the new fields are those of CheckStateChange; the invariant is kept |
| Plugin.NfcPlugin.OnConfigure | android/src/main/java/com/passless/nfc/NfcPlugin.java:356-366 | the new fields are those of Configure; the invariant is kept |
| Plugin.NfcPlugin.NotifyNfcState | android/src/main/java/com/passless/nfc/NfcPlugin.java:368-374 | appends setNfcEnabled with the recorded value, changes nothing else and keeps the invariant |
| Plugin.NfcPlugin.HandleIntent | android/src/main/java/com/passless/nfc/NfcPlugin.java:382-427 | the new fields are those of HandleIntent; the invariant is kept |
| Plugin.NfcPlugin.HandleMessage | android/src/main/java/com/passless/nfc/NfcPlugin.java:433-456 | the new fields are those of HandleMessage |
| Plugin.NfcPlugin.GetMessages | android/src/main/java/com/passless/nfc/NfcPlugin.java:463-481 | the array is newly allocated and holds the intent's messages in order, and is empty when the extra is absent |
| Plugin.NfcPlugin.GetPayloads | android/src/main/java/com/passless/nfc/NfcPlugin.java:491-509 | the array is newly allocated and holds each record's payload in order, and is empty when the record array is null |

## Findings

| source | as written | input that shows it | evidently intended | confidence | as-written member | corrected member |
|---|---|---|---|---|---|---|
| android/src/main/java/com/passless/nfc/NfcPlugin.java:235-257 | `switch (action)` on the intent's action; Java throws NullPointerException when the switched string is null | `onNewIntent` with a non-null intent whose `getAction()` is null | the default branch: report the intent as not handled and change nothing, as `handleIntent` does with its null-safe `equals` | high, not executed | NfcState.NewIntentAsWritten | NfcState.NewIntent |

## Left out

- Registration plumbing is not modelled: `registerWith`, the method channel's construction and the lifecycle listener registration. The constructor stands for `new NfcPlugin` followed by `initialize`.
- Foreground dispatch is not modelled: `enableForegroundDispatch`/`disableForegroundDispatch`, the `PendingIntent` and the intent filters. They are framework calls with no state of the plugin's own. Only the `nfcAdapter == null` test that skips them is kept.
- `onActivityPaused` is left out. All it does is disable dispatch and unregister the receiver.
- The receiver's registration is not modelled. Because of this, an adapter-state broadcast (`AdapterStateEvent`) may occur at any point of a run while an adapter exists. The real receiver only runs between resume and pause.
- `startActivity(Settings.ACTION_NFC_SETTINGS)` is a foreign call. Only the reply to `gotoNfcSettings` is modelled.
- Save and restore of the pending flag are left out. The code's callbacks for them are empty.
- Decoding payload bytes to a string with the default charset is a library call. Payloads are modelled as their raw bytes, and onMessage carries those bytes.
- `invokeMethod` is asynchronous. Its acknowledgement callbacks in `MethodChannelResult` only log, so each call is modelled as an append to the outbox.
- The iOS plugin (`SwiftNfcPlugin`) is a stub with constant flags and no state machine.
- Log calls are not modelled.
- Plugin.NfcPlugin.OnNewIntent: follows the intended NewIntent, declining an intent with no action, where the code as written throws. NfcTrace.Step uses the same function, so the run lemmas are about the corrected program. By NewIntentAsWritten's second ensures, the runs of the code as written are these runs cut off at the first intent with no action.
- Plugin.NfcPlugin.GetMessages: does not model the `(NdefMessage)` cast failing on a parcelable of another type. The extra is taken to hold NDEF messages.
- The registrar's activity identity is reduced to the boolean `isPluginActivity`.
