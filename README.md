# Voice-device runtime core, modelled in Dafny

This project models the bookkeeping core of a voice-interaction device runtime (rokidos-node). Each of these parts is a Dafny module in its own file:

- **`turen.dfy`, module `TurenComponent`**: the voice state machine. It tracks mute, awaken, the asr state, pickup and the discarding of the next nlp. It remembers which app's speech and media were paused on wake-up. It also holds the one-slot solitary-voice timer.
- **`custodian.dfy`, module `CustodianComponent`**: the network and session gate. The connection is tri-state (unknown, connected, disconnected), and the gate also tracks a probe in flight and the login.
- **`keyboard.dfy`, module `KeyboardComponent`**: the key-event state machine. It covers keydown, keyup, longpress and gestures, per-descriptor debounce guards, long-press rounding, and the per-event listener tables through which apps claim keys.
- **`app_runtime.dfy`, module `AppRuntimeFacade`**: the runtime façade's bookkeeping. It covers the monologue, the cloud skill slots and the published `scene:cut` stack, the guards around pickup and microphone mute, exiting an app, and starting daemon apps.
- **`ttsd_flora.dfy`, module `TtsdFlora`**: the TTS daemon's bus handlers. They are the awaken pause and its reset, plus argument checks on speak, stop, pause and resume.
- **`vui_app.dfy`, module `VuiApp`**: the skill registry. It covers executor type selection, skill conflict detection, `@`-id resolution with the extapp and `miss` fallbacks, handler caching, and the extapp signal names.
- **`tts_dispatcher.dfy`, module `TtsDispatch`**: the TTS task table.
- **`bluetooth.dfy`, module `Bluetooth`**: the Bluetooth profile flags and command gating, the `size:N` response header, and the cutting of each BLE chunk before the UTF-8 encoding of U+FFFD (bytes EF BF BD, RFC 3629 section 3).
- **`logger.dfy`, module `Logger`**: log levels, line truncation and the upload-level bounds.
- **`date_sync.dfy`, module `DateSync`**: the UTC+8 shift and the `date -s` argument.
- **`common.dfy`, module `Common`**: shared pieces. These are `Option`, JavaScript truthiness of ids, and decimal printing and reading of integers.

### How state and effects are modelled

Components whose source updates fields step by step are classes. Their methods state the whole new state.

Calls on other services are appended to a log field: `commands`, `calls`, `outcomes` or `stacks`. Examples are the light, TTS, media, wifi and property services, `openUrl` and the message bus.

What a handler reads from other components is an argument, often an `Env` value. Examples are the foreground app, `isPrepared`, the media service's pause reply, the wifi state and history, the network property, and which files exist.

Promise callbacks and timers are separate methods that the caller invokes: `OnCheckNetworkResult`, `FireSolitaryTimer` and `ReleaseGuard`.

### The solitary-voice timer

Re-arming the solitary-voice timer does not cancel the previous one: `voice coming` overwrites the handle (runtime/lib/component/turen.js:211), so the old timer stays armed. Only `asr pending` clears a timer, and only the one in the slot. `TurenComponent.OverwrittenTimerStaysArmed` shows the consequence.

### The two corrected behaviours

Two places in the code do not do what their callers evidently expect (see "## Findings"). The model keeps both the program as written and the corrected one:

- `Bluetooth.BluetoothModule.Ble` and `BleOpenAsWritten` follow the code as written; `BleOpen` is the corrected opening.
- A `Custodian` is created with `passesResetOptions`: false is the runtime as written, whose `resetNetwork` drops its options; true is the corrected runtime. `OnNetworkDisconnect`, `OnCheckNetworkResult` and `PrepareNetwork` state their calls for both.

## Model

| member | source | states |
|---|---|---|
| `TurenComponent.HandlerOf` | runtime/lib/component/turen.js:56-93 | the event table: a name selects the handler whose event name it is, and a name outside the eight selects none |
| `TurenComponent.HandlerOfEventName` | runtime/lib/component/turen.js:61-92 | every handler is reached by exactly its own event name |
| `TurenComponent.ResetCommands` | runtime/lib/component/turen.js:145-197 | no calls when not awaken; otherwise the light stops and the lifetime resumes with the same recover flag; speech is stopped iff not recovering and a paused app is remembered; speech (and separately media) is resumed iff recovering and the remembered app is truthy and equals the current app; no other call is made |
| `TurenComponent.LocalAwakeCommands` | runtime/lib/component/turen.js:238-254 | network app in front opens the renew page preemptively (no options, so `openUrl` defaults to preemptive); no wifi history opens the setup preemptively; a disconnected wifi scans passively and plays the connecting sound; a connected wifi sets the sound-location degree to `sl`, or 0 without it |
| `TurenComponent.Turen.constructor` | runtime/lib/component/turen.js:11-48 | not muted, not awaken, asr `end`, not picking up, nothing paused, no timer, and every armed handle below the next one (`TimersFresh`) |
| `TurenComponent.Turen.ResetAwaken` | runtime/lib/component/turen.js:145-197 | a no-op when not awaken; otherwise not awaken, the paused speech forgotten, the paused media forgotten only when recovering, calls as `ResetCommands` |
| `TurenComponent.Turen.SetAwaken` | runtime/lib/component/turen.js:99-135 | an awaken device is first reset without recovery; then awaken, the current app remembered as paused speech, and as paused media exactly when the media reply says it paused |
| `TurenComponent.Turen.VoiceComing` | runtime/lib/component/turen.js:203-232 | nothing at all changes unless the custodian is prepared; otherwise `SetAwaken`, a new timer armed in the slot with a handle never armed before (from a state where `TimersFresh` holds, which it keeps) while the old handle stays armed, a force update when one is available, and the next nlp enabled |
| `TurenComponent.Turen.AsrPending` | runtime/lib/component/turen.js:260-263 | asr `pending`, and only the timer whose handle is in the slot is disarmed; `TimersFresh` is kept |
| `TurenComponent.Turen.AsrEnd` | runtime/lib/component/turen.js:269-284 | asr `end`, reset without recovery, and the loading light unless the next nlp is to be discarded |
| `TurenComponent.Turen.AsrFake` | runtime/lib/component/turen.js:290-293 | asr `fake` and reset with recovery |
| `TurenComponent.Turen.StartVoice` | runtime/lib/component/turen.js:299-301 | picking up, nothing else changes |
| `TurenComponent.Turen.EndVoice` | runtime/lib/component/turen.js:307-314 | not picking up; reset with recovery exactly when the asr state is not `end` |
| `TurenComponent.Turen.Nlp` | runtime/lib/component/turen.js:320-330 | a flagged nlp is dropped and the flag cleared; otherwise the voice command is handed to the runtime |
| `TurenComponent.Turen.VoiceLocalAwake` | runtime/lib/component/turen.js:238-254 | issues `LocalAwakeCommands` and changes no state |
| `TurenComponent.Turen.HandleEvent` | runtime/lib/component/turen.js:56-93 | while muted, or for an unknown name, nothing changes; otherwise exactly the selected handler's effect |
| `TurenComponent.Turen.Pickup` | runtime/lib/component/turen.js:336-346 | the next nlp is discarded iff not picking up; the flag is posted to the front end |
| `TurenComponent.Turen.ToggleMute` | runtime/lib/component/turen.js:352-367 | muted becomes the given value or flips, and is returned; it is posted; exactly one reset with recovery when muting while the asr is pending |
| `TurenComponent.Turen.FireSolitaryTimer` | runtime/lib/component/turen.js:211-214 | the fired timer is disarmed and the awaken state reset with recovery; `TimersFresh` is kept |
| `TurenComponent.AwakenThenRecover` | runtime/lib/component/turen.js:175-196 | after a wake-up and a fake asr with the same app in front, its speech is resumed, its media iff it was paused, and the device is no longer awaken |
| `TurenComponent.AwakenThenSwitch` | runtime/lib/component/turen.js:175-196 | when another app is in front, ending the wake-up resumes nothing |
| `TurenComponent.DiscardOneNlp` | runtime/lib/component/turen.js:320-346 | after `pickup(false)` exactly one nlp is dropped |
| `TurenComponent.MuteWhilePending` | runtime/lib/component/turen.js:352-367 | muting during a pending asr ends the wake-up, and the muted device drops the next event |
| `TurenComponent.OverwrittenTimerStaysArmed` | runtime/lib/component/turen.js:203-263 | two wake-ups then `asr pending`: the first timer is still armed, the second is not |
| `CustodianComponent.ResetCalls` | runtime/lib/component/custodian.js:120-133 | the saved networks are removed iff `removeAll`, disabled otherwise; wifi reset first, setup opened last |
| `CustodianComponent.Custodian.constructor` | runtime/lib/component/custodian.js:7-27 | connection unknown, no probe, not logged in, passive scanning enabled; whether the runtime passes reset options on is fixed at creation |
| `CustodianComponent.Custodian.StatesPartition` | runtime/lib/component/custodian.js:138-154 | every state is exactly one of network unavailable, registering, prepared |
| `CustodianComponent.Custodian.OnNetworkConnect` | runtime/lib/component/custodian.js:33-62 | nothing changes when connected or probing; otherwise connected and probing before the probe answers, the property set, and every scheduler app notified in order |
| `CustodianComponent.Custodian.OnCheckNetworkResult` | runtime/lib/component/custodian.js:44-53 | the probe is over; success asks for a reconnect; failure is a disconnect with all of its calls |
| `CustodianComponent.Custodian.OnNetworkDisconnect` | runtime/lib/component/custodian.js:68-95 | ignored only when known disconnected; otherwise disconnected, then nothing more with the network app in front, passive scanning with saved networks, else the runtime reset asked for `removeAll` and the setup; the saved networks are removed only if the runtime passes its options on, and disabled as written |
| `CustodianComponent.Custodian.OnLoggedIn` | runtime/lib/component/custodian.js:97-101 | logged in, the property set |
| `CustodianComponent.Custodian.OnLogout` | runtime/lib/component/custodian.js:103-112 | logged out, offline, property set, property snapshot emptied |
| `CustodianComponent.Custodian.ResetNetwork` | runtime/lib/component/custodian.js:120-133 | disconnected, and the calls of `ResetCalls` for a truthy `removeAll` |
| `CustodianComponent.Custodian.RuntimeResetNetworkAsWritten` | runtime/lib/app-runtime.js:282-288 | the options are dropped: always disables, never removes |
| `CustodianComponent.Custodian.RuntimeResetNetwork` | runtime/lib/app-runtime.js:282-288 | the options are passed on: removes exactly when asked |
| `CustodianComponent.Custodian.PrepareNetwork` | runtime/lib/component/custodian.js:170-179 | a connected wifi is a connect with its probe and calls, saved networks change nothing, otherwise a disconnect with its calls |
| `CustodianComponent.FirstDisconnectIsProcessed` | runtime/lib/component/custodian.js:68-95 | the first disconnect from the unknown state marks the network down and opens the setup |
| `CustodianComponent.ConnectDuringProbe` | runtime/lib/component/custodian.js:33-62 | a connect during a probe is dropped; the probe's failure brings the gate down |
| `CustodianComponent.LoginLogout` | runtime/lib/component/custodian.js:138-154 | connected and logged in is prepared; after logout it is registering |
| `CustodianComponent.ResetNetworkDropsRemoveAll` | runtime/lib/app-runtime.js:282-288 | with the runtime as written, a disconnect with no saved network asks for all networks to be removed, and they are only disabled |
| `CustodianComponent.DisconnectWithoutHistoryRemovesAll` | runtime/lib/component/custodian.js:86-94 | with the options passed on, a disconnect with no saved network removes all networks |
| `KeyboardComponent.Execute` | runtime/lib/component/keyboard.js:37-68 | a truthy url wins and acts only as a string with object options; otherwise a truthy runtime method acts only when it exists and the params are an array |
| `KeyboardComponent.DelegateTarget` | runtime/lib/component/keyboard.js:70-82 | delegates iff the key's listener for the event is the foreground app and that app is active |
| `KeyboardComponent.WindowIndex` | runtime/lib/component/keyboard.js:171-172 | the rounded quotient: `floor(delta/window + 1/2)` characterised by two inequalities |
| `KeyboardComponent.RoundToWindow` | runtime/lib/component/keyboard.js:171-172 | a multiple of the window at most half a window from the delta |
| `KeyboardComponent.RoundToWindowNearest` | runtime/lib/component/keyboard.js:172 | no multiple of the window is nearer to the delta |
| `KeyboardComponent.LongpressFires` | runtime/lib/component/keyboard.js:193-201 | fires iff the delta reaches the expected one and the descriptor repeats or the delta equals it |
| `KeyboardComponent.LongpressRef` | runtime/lib/component/keyboard.js:185-192 | `longpress` of the key wins over `longpress-<delta>` |
| `KeyboardComponent.GestureRef` | runtime/lib/component/keyboard.js:238-267 | the key's own gesture descriptor wins over the fallback one |
| `KeyboardComponent.TargetEvents` | runtime/lib/component/keyboard.js:269-293 | the given event when it is one of the five known ones, otherwise all five |
| `KeyboardComponent.KeyboardHandler.constructor` | runtime/lib/component/keyboard.js:8-26 | window 500 and debounce 0 unless configured, empty listener tables, nothing pressed |
| `KeyboardComponent.KeyboardHandler.RunGuarded` | runtime/lib/component/keyboard.js:111-122 | a debounced descriptor with its guard up is discarded; otherwise the guard goes up when debounced and the descriptor executes |
| `KeyboardComponent.KeyboardHandler.ReleaseGuard` | runtime/lib/component/keyboard.js:118-120 | exactly that guard is lowered |
| `KeyboardComponent.KeyboardHandler.OnKeydown` | runtime/lib/component/keyboard.js:94-123 | the key becomes current; the press start is kept if set; delegated or the keydown descriptor runs guarded |
| `KeyboardComponent.KeyboardHandler.OnKeyup` | runtime/lib/component/keyboard.js:125-164 | another key's keyup changes nothing; otherwise timing ends, a swallowed press runs nothing and clears the flag, else delegated or guarded |
| `KeyboardComponent.KeyboardHandler.OnLongpress` | runtime/lib/component/keyboard.js:166-206 | another key forgets the press start; a swallowed press runs nothing; else delegated, or the descriptor runs when `LongpressFires` and sets the swallow flag if it asks |
| `KeyboardComponent.KeyboardHandler.OnGesture` | runtime/lib/component/keyboard.js:238-267 | delegated when claimed; else `GestureRef`'s descriptor runs guarded |
| `KeyboardComponent.KeyboardHandler.PreventKeyDefaults` | runtime/lib/component/keyboard.js:269-279 | the app claims the key in each of `TargetEvents`, nothing else changes |
| `KeyboardComponent.KeyboardHandler.RestoreKeyDefaults` | runtime/lib/component/keyboard.js:281-293 | in each of `TargetEvents` the key is released only where the app holds it |
| `KeyboardComponent.DebouncedKeydown` | runtime/lib/component/keyboard.js:111-122 | a debounced keydown runs once, is discarded while guarded, runs again after release |
| `KeyboardComponent.LongpressSwallowsKeyup` | runtime/lib/component/keyboard.js:137-204 | a swallowing long press runs, and the keyup after it runs nothing and clears the flag |
| `KeyboardComponent.PreventThenRestore` | runtime/lib/component/keyboard.js:269-293 | a key claimed then restored by the same app is no longer delegated |
| `AppRuntimeFacade.StackEntry` | runtime/lib/app-runtime.js:597-611 | empty iff the id is empty, local (`@`) or the excluded skill; otherwise the id |
| `AppRuntimeFacade.CloudStackSplits` | runtime/lib/app-runtime.js:597-614 | the published stack reads back as the scene's entry and the cut's entry |
| `AppRuntimeFacade.Daemons` | runtime/lib/app-runtime.js:153-159 | exactly the executors flagged daemon with a non-empty id |
| `AppRuntimeFacade.DaemonsOfOne` | runtime/lib/app-runtime.js:153-159 | a single executor contributes its id iff it is a daemon with a non-empty id |
| `AppRuntimeFacade.DaemonsConcat` | runtime/lib/app-runtime.js:153-159 | the daemons of consecutive executors are each part's daemons in order, so key order and multiplicity are kept |
| `AppRuntimeFacade.AppRuntime.StartMonologue` | runtime/lib/app-runtime.js:297-303 | succeeds iff the app is in front; only then it becomes the monopolist |
| `AppRuntimeFacade.AppRuntime.StopMonologue` | runtime/lib/app-runtime.js:310-315 | clears the monopolist only if it is that app |
| `AppRuntimeFacade.AppRuntime.UpdateCloudStack` | runtime/lib/app-runtime.js:586-615 | active set unless `isActive` is false; only the named slot changes; the stack of the new slots is published |
| `AppRuntimeFacade.AppRuntime.ResetCloudStack` | runtime/lib/app-runtime.js:617-622 | all slots empty and `:` published |
| `AppRuntimeFacade.AppRuntime.SetPickup` | runtime/lib/app-runtime.js:638-657 | nothing when already there or picking up while muted; else `pickup` exactly once, every other field of the voice state machine (asr state, awaken, paused apps, timers) kept, and the light set or stopped |
| `AppRuntimeFacade.AppRuntime.SetMicMute` | runtime/lib/app-runtime.js:457-477 | nothing when asked for the current state; else the voice state machine takes exactly the effect of one `toggleMute()` (the post, and the reset during a pending asr) and, unless silent, the matching effect is opened non-preemptively |
| `AppRuntimeFacade.AppRuntime.ExitAppById` | runtime/lib/app-runtime.js:680-691 | with `clearContext`, the app's own slots are emptied, scene first, each publishing the stack of that moment after the earlier stacks; the active skill is kept; the app is deactivated |
| `AppRuntimeFacade.AppRuntime.StartDaemonApps` | runtime/lib/app-runtime.js:151-176 | every daemon is created, one after another in key order |
| `AppRuntimeFacade.AppRuntime.Start` | runtime/lib/app-runtime.js:161-175 | creates the daemons from `idx` on, in order |
| `AppRuntimeFacade.PickupDuration` | runtime/lib/app-runtime.js:654 | the given duration unless it is missing or zero, then 6000 |
| `AppRuntimeFacade.MuteTwice` | runtime/lib/app-runtime.js:457-463 | asking twice for mute toggles once |
| `AppRuntimeFacade.MonologueSession` | runtime/lib/app-runtime.js:297-315 | only the front app starts a monologue and only it ends its own |
| `AppRuntimeFacade.PublishSkipsLocalApps` | runtime/lib/app-runtime.js:597-614 | a cloud scene with a local cut publishes `<skill>:` |
| `TtsdFlora.AwakenPauseTarget` | runtime/services/ttsd/flora.js:35-67 | pauses iff the network property is `'true'` and the playing request has a memo naming an app; remembers the masquerade id if any |
| `TtsdFlora.ResetAwakenDecision` | runtime/services/ttsd/flora.js:131-143 | stop iff the app has no memo; resume iff its latest request is the paused one |
| `TtsdFlora.TtsDaemon.VoiceComing` | runtime/services/ttsd/flora.js:35-68 | remembers and pauses per `AwakenPauseTarget`, otherwise nothing changes |
| `TtsdFlora.TtsDaemon.SpeakMethod` | runtime/services/ttsd/flora.js:79-92 | `'-1'` and no speech without app and text; otherwise speaks and answers the id in decimal |
| `TtsdFlora.TtsDaemon.StopMethod` | runtime/services/ttsd/flora.js:93-102 | stops and answers true iff an app is given |
| `TtsdFlora.TtsDaemon.ResetMethod` | runtime/services/ttsd/flora.js:103-107 | resets, answers true |
| `TtsdFlora.TtsDaemon.PauseMethod` | runtime/services/ttsd/flora.js:108-117 | pauses only a given app, always answers true |
| `TtsdFlora.TtsDaemon.ResumeMethod` | runtime/services/ttsd/flora.js:118-123 | resumes the given id, answers true |
| `TtsdFlora.TtsDaemon.ResetAwakenMethod` | runtime/services/ttsd/flora.js:124-144 | both paused fields cleared; answers true iff resumed; calls per `ResetAwakenDecision` |
| `TtsdFlora.PauseThenResume` | runtime/services/ttsd/flora.js:124-144 | a pause and reset for an app that has not spoken since resumes it |
| `VuiApp.TypeOf` | modules/vui/lib/app.js:234-245 | native iff `native`; extapp iff not native and `extapp`; light otherwise |
| `VuiApp.FirstCloudSkill` | modules/vui/lib/app.js:361-369 | the index of the first non-empty, non-local, 32-character skill |
| `VuiApp.ResolveSkill` | modules/vui/lib/app.js:360-369 | when a cloud skill is declared, the first one; otherwise the id itself |
| `VuiApp.FirstConflict` | modules/vui/lib/app.js:337-345 | the first skill already taken or declared earlier in the list |
| `VuiApp.HandlerRoute` | modules/vui/lib/app.js:359-385 | a local id needs its own entry with skills and is looked up as its cloud skill; a key in the table is direct; otherwise, in order, the accepting extapp, `miss`, `@miss`, else failure |
| `VuiApp.LifecycleSignal` | modules/vui/lib/app.js:175-193 | exactly the six lifecycle events have a signal, and each signal names its own event (`onCreate` for `create`, and so on) |
| `VuiApp.ExtappSignal` | modules/vui/lib/app.js:171-217 | lifecycle events keep their arguments, `voiceCommand` becomes `nlp` with `[asr, json]`, others emit nothing; the signature is one `s` per parameter; the name reads back to the event |
| `VuiApp.AppExecutor.constructor` | modules/vui/lib/app.js:227-251 | type per `TypeOf`; valid iff the exec path exists, else the `not found` message |
| `VuiApp.AppExecutor.CreateHandler` | modules/vui/lib/app.js:269-281 | builds the connector once and returns that same connector afterwards |
| `VuiApp.AppManager.MappedCount` | modules/vui/lib/app.js:337-348 | with the executable present, the skills before the first conflict; without it, none; so all are mapped iff (executable present or no skills) and no skill conflicts |
| `VuiApp.AppManager.MapSkill` | modules/vui/lib/app.js:342-348 | a valid new executor of the package, for the app's directory, is mapped with the app's skills and no connector; an invalid one leaves the table and reports its message |
| `VuiApp.AppManager.GetApp` | modules/vui/lib/app.js:334-354 | maps the skills before the first conflict or missing exec, to fresh executors of the package, each with the exec path of the app's directory and no connector (`Loaded`); succeeds iff all are mapped; the earlier entries are untouched |
| `VuiApp.AppManager.Reload` | modules/vui/lib/app.js:313-328 | the table is emptied first; every mapped skill comes from a listed app; on success every skill each listed app declares is mapped to an executor loaded for that app (its package, its directory's exec path, its skills, no connector) and the list holds each app's entry |
| `VuiApp.AppManager.GetHandlerById` | modules/vui/lib/app.js:359-385 | the handler of the executor `HandlerRoute` picks, built at most once and, when built now, for the looked-up id; the extapp bridge builds its handler for the looked-up id even when it refuses; no other executor's handler is built; a `TypeError` exactly when there is none |
| `VuiApp.AppManager.Register` | modules/vui/lib/app.js:389-393 | the entry for the id is replaced by a new executor of that metadata with no skills and no connector, whose profile has no `main` and whose exec path uses the prefix `undefined`, valid iff that path exists; others kept |
| `VuiApp.AppManager.Destroy` | modules/vui/lib/app.js:397-399 | exactly that key is removed |
| `VuiApp.ConflictingApps` | modules/vui/lib/app.js:340-341 | a skill declared by a second app fails and leaves the first app's mapping |
| `VuiApp.LocalIdResolves` | modules/vui/lib/app.js:359-384 | a local id is served by its cloud skill's executor, with one connector |
| `TtsDispatch.TtsDispatcher.constructor` | modules/tts/index.js:48-53 | empty task table, no last text |
| `TtsDispatch.TtsDispatcher.Say` | modules/tts/index.js:58-65 | the task is stored under the native id, `_last` is the text, the voice is the app when truthy |
| `TtsDispatch.TtsDispatcher.StopAll` | modules/tts/index.js:69-73 | every task is stopped once and none removed |
| `TtsDispatch.TtsDispatcher.OnEvent` | modules/tts/index.js:83-99 | `ready` is forwarded; unknown ids ignored; a non-`start` event removes the task and clears `_last` |
| `TtsDispatch.TaskLifecycle` | modules/tts/index.js:92-98 | a task survives `start` and is gone after any other event |
| `Bluetooth.CommandCode` | modules/bluetooth/index.js:37-73 | every media command has a code below 5 |
| `Bluetooth.CommandOfCode` | modules/bluetooth/index.js:37-73 | the codes 0 to 4 name commands, nothing else does |
| `Bluetooth.CommandCodeRoundTrip` | modules/bluetooth/index.js:37-73 | a command's code reads back as that command |
| `Bluetooth.CommandCodeInjective` | modules/bluetooth/index.js:37-73 | no two commands share a code |
| `Bluetooth.BluetoothModule.constructor` | modules/bluetooth/index.js:9-10 | both profiles closed |
| `Bluetooth.BluetoothModule.BleClose` | modules/bluetooth/index.js:105-108 | BLE closed |
| `Bluetooth.BluetoothModule.Open` | modules/bluetooth/index.js:19-24 | BLE closed first if open, then A2DP open |
| `Bluetooth.BluetoothModule.Close` | modules/bluetooth/index.js:29-32 | A2DP closed |
| `Bluetooth.BluetoothModule.Send` | modules/bluetooth/index.js:37-73 | the command's code is sent iff A2DP is open |
| `Bluetooth.BluetoothModule.A2dp` | modules/bluetooth/index.js:79-86 | sink, link, or the generic profile for anything else |
| `Bluetooth.BluetoothModule.BleOpenAsWritten` | modules/bluetooth/index.js:95-101 | with A2DP open it throws and changes nothing |
| `Bluetooth.BluetoothModule.BleOpen` | modules/bluetooth/index.js:95-101 | A2DP closed first if open, then BLE open |
| `Bluetooth.BluetoothModule.Ble` | modules/bluetooth/index.js:183-187 | BLE closed if open; then, as written, a `ReferenceError` leaving A2DP open while A2DP is open, else BLE open |
| `Bluetooth.BleAfterA2dpAsWritten` | modules/bluetooth/index.js:95-101 | as written, BLE cannot be opened after A2DP |
| `Bluetooth.ExclusiveAfterAnyOperation` | modules/bluetooth/index.js:19-108 | every operation, as written and with the corrected BLE opening, leaves the two profiles never open together |
| `Bluetooth.ParseHeader` | modules/bluetooth/index.js:131-133 | 0 unless the data starts with `size:` and a digit |
| `Bluetooth.ParseHeaderOfHeader` | modules/bluetooth/index.js:126-135 | `size:N` followed by anything that does not start with a digit reads back as N |
| `Bluetooth.CutFrom` | modules/bluetooth/index.js:153-162 | the first EF BF BD at or after a position, or the end |
| `Bluetooth.ChunkEnd` | modules/bluetooth/index.js:151-162 | the scan stops at the first EF BF BD, or keeps the whole chunk |
| `Bluetooth.GetResp` | modules/bluetooth/index.js:141-166 | succeeds iff the first `size` replies are data; then the accumulator plus their cut chunks in order |
| `Bluetooth.OnResp` | modules/bluetooth/index.js:113-121 | the announced number of chunks into an empty accumulator; a failed header yields an empty response |
| `Logger.LevelOf` | packages/logger/index.js:40-44 | always in 1..5; the table's level for a known name, 3 otherwise |
| `Logger.NameOf` | packages/logger/index.js:17-20 | a name exactly for 1..5, whose table level is that level |
| `Logger.NameOfLevelOf` | packages/logger/index.js:24-30 | the printer's level-to-name map inverts the table |
| `Logger.LevelOfNameOf` | packages/logger/index.js:17-20 | and the table inverts the printer's map |
| `Logger.Truncate` | packages/logger/index.js:54-56 | short lines unchanged; longer ones cut to 1024 and marked `...` |
| `Logger.LoggerName` | packages/logger/index.js:36-38 | the name, or `default` when missing or empty |
| `Logger.MethodLevelName` | packages/logger/index.js:64-89 | each logging method's level name; `log` is `info` |
| `Logger.Log` | packages/logger/index.js:40-59 | what reaches the native printer: the table level of the method's level name, the logger's name, the line truncated |
| `Logger.SetGlobalUploadLevel` | packages/logger/index.js:121-128 | throws outside 0..5, forwards the level otherwise |
| `DateSync.ShiftTimezone` | runtime/lib/date-sync.js:13-18 | eight hours later, the day incremented iff the hour reaches 24, no month or year carry, other fields kept |
| `DateSync.ParseDateStringOfDateString` | runtime/lib/date-sync.js:19-22 | the unpadded `Y-M-D H:M:S` string reads back as its fields |
| `DateSync.SyncDateStringReadsBack` | runtime/lib/date-sync.js:12-22 | the `date -s` argument is the shifted date, field by field |

## Left out

- Asynchronous interleavings. Each handler runs to completion, and callbacks and promise continuations are applied at once. This covers the media service's pause reply, the custodian's probe and the runtime's `resetNetwork(...).then(openUrl)`.
- Timers are methods the caller invokes: `FireSolitaryTimer` and `ReleaseGuard`. Their delays (6000 ms, the debounce) are not modelled.
- The Lifetime and app scheduler are collaborators whose code is not part of this model. `AppRuntimeFacade.Lifetime` keeps only the foreground app, the monopolist and the apps it was asked to create or deactivate. Scheduler apps being told of a connect is a logged call.
- Light, TTS, media, wifi, property and message-bus calls are log entries. What they do is not modelled.
- `onSlide` in runtime/lib/component/keyboard.js is not modelled: slide events are outside the modelled key handlers. Its fallback to the `slide-<orientation>` descriptor is taken only when the key's `slide` entry is `null`.
- `AppRuntimeFacade.Lifetime.CreateApp`: whether `createApp` succeeds is not modelled. `start` goes on to the next daemon either way, so the created sequence is the same.
- The exported `resume` of modules/tts/index.js is not modelled: it calls a dispatcher method that does not exist. `reconnect`, `init` and the module-level `say` with its callbacks are left out too. They are wiring to the native engine and the context module.
- `addVtWord` and `deleteVtWord` in runtime/lib/component/turen.js are not modelled. They only post activation words to the bus.
- The flora handlers `yodart.vui.logged-in` and `yodart.ttsd.debug.get-status` are not modelled. They parse JSON and report status.
- `KeyboardComponent.Execute`: a descriptor field holding a number, boolean or object is only told apart by its JavaScript type. Non-object keyboard configuration entries are left out: the configuration is a table of descriptors.
- `KeyboardComponent.KeyboardHandler.constructor` requires a positive long-press window. With a configured window of 0 the source divides by zero.
- Floating-point arithmetic and NaN in key times are not modelled. Times are whole milliseconds.
- The extapp bridge's bus addressing (object path, interface name) is not modelled. The JSON text of a voice command is given as an argument.
- `NativeConnector` (D-Bus lookup, the zygote fork and the native method call) is not part of this model. `ExtappConnector`'s `beforeCreate` answer is the `extappAccepts` argument.
- File existence is the set `existing`. The package description is given as a `Profile`. The app directories `load` reads are the `apps` argument of `Reload`.
- `VuiApp.AppManager.Reload`: after a failed load, the contract states only that every mapped skill belongs to a listed app. It does not state which skills were mapped before the failure.
- The native logger's `print` and `enableCloud`, and `util.format`, are not modelled. `Logger.Log` takes the formatted line.
- The `date -s` command and the date header parser are not modelled.
- `Bluetooth.GetResp` works on bytes. Decoding the concatenated bytes back to a string is left out.
- String lengths are counted in characters, not UTF-16 code units.
- `TtsDispatch.TtsDispatcher.StopAll`: the order in which tasks are stopped is not stated. JavaScript's key order for integer keys is ascending, and the contract only states that every task is stopped once.
- Names that JavaScript would find on `Object.prototype` (for example `constructor` or `toString`) are not modelled as table entries: neither as logger level names nor as skill ids. In the source such a skill id is always found in `_skill2app`, so `getApp` reports `skill conflicts` for it and `getHandlerById` fails with a TypeError; the model treats it as an ordinary id.
- A `TypeError` thrown by reading a missing entry in `getHandlerById` is the `Err("TypeError")` outcome.

## Findings

| source | as written | input that shows it | evidently intended | confidence | as-written member | corrected member |
|---|---|---|---|---|---|---|
| modules/bluetooth/index.js:95-101 | `BluetoothLowEnergy.open` calls `close()`, which is not in scope (only `exports.close` is) | `open()` then `ble(name)`: A2DP is open, so `close()` throws a `ReferenceError` and BLE is never enabled | close A2DP first, as `open` closes BLE first | high (not executed) | `Bluetooth.BleAfterA2dpAsWritten` | `Bluetooth.BluetoothModule.BleOpen` |
| runtime/lib/app-runtime.js:282-288 | the runtime's `resetNetwork()` takes no options and calls `custodian.resetNetwork()` without any | a disconnect with no wifi history: runtime/lib/component/custodian.js:92 asks for `{ removeAll: true }`, yet the saved networks are only disabled | pass the options on, so that the saved networks are removed | high (not executed) | `CustodianComponent.ResetNetworkDropsRemoveAll` | `CustodianComponent.DisconnectWithoutHistoryRemovesAll` |
