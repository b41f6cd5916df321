# obs-midi core, modelled in Dafny

obs-midi bridges a MIDI control surface to OBS (the broadcast application,
driven over obs-websocket). This project models the part of it with real
decision logic:

- **Control dispatch.** Each control decides from a raw MIDI event
  (status code, input id, velocity) whether it fires and, if so, runs its
  bound action. The variants are a closed union (`Controls.Kind`): the
  plain button (fires on the press or the release code, by polarity), the
  advanced button (fires on a zero or non-zero velocity, ignores the code,
  passes 0 or 1), and the knob (fires on the controller code, passes the
  raw value). The application keeps controls in registration order and,
  for each message, consults the controls with the message's id in order
  until one fires (first match wins).
- **LED feedback.** The scene button lights green while its scene is
  current and red otherwise, and shows a pending colour before switching.
  The mute button lights red while its source is muted and green
  otherwise. LED commands are appended to an ordered log of effects.
- **OBS state mirror.** The tracker caches the current scene, the scene
  list, the source list and a source-to-muted map. Remote replies
  (`GetCurrentScene`, `GetSceneList`, `GetSourcesList`, `GetMute`) are
  method parameters; change notifications are method calls.

Modules follow the source files: `MidiControl`, `ButtonControl`,
`ButtonAdvancedControl`, `KnobAdvancedControl`, `Controls` (the variant
union behind the abstract `handleEvent`), `App`, `LedState`,
`ObsStateTracker`, `ObsApp` (the application surface the OBS buttons call:
`led`, `tick`, `send` and the tracker), `ObsSceneButton` and
`ObsSourceToggleMuteButton`; `Wrappers` holds `Option`.

Modelling choices:

- An action is a handle (`Action = nat`); one execution is a `Call` of the
  action with the velocity it was given. `handleEvent` returns whether it
  fired and the calls it caused.
- A MIDI message is a sequence of bytes. A byte read past its end is
  JavaScript's `undefined`, modelled as `MidiValue.Undefined`. A message
  of fewer than two bytes has no id, so no control matches. A two-byte
  message (a program change, say) has an undefined velocity; an advanced
  button with the default polarity fires on it with velocity 1, since
  `undefined !== 0`.
- `handleMidiMessage` reports, as out-parameters, the indices of the
  controls whose `handleEvent` it called and the action executions. It is
  proved equal to the specification function `App.Scan`, and the
  properties of dispatch are lemmas about `Scan`.
- The replies to the per-source `GetMute` requests are a function from
  source name to `Option<bool>`. `None` stands for a rejected request: the
  exception ends the refresh there, so the source list is already
  replaced and the mute map holds the entries written before it.
- `isSourceMuted` returns `None` for a name that was never written
  (`undefined`). The mute button treats that as unmuted, as the source's
  truthiness test does.
- `linearToDef` is modelled over exact reals.
- The OBS buttons are written against `app.led`, `app.tick`,
  `app.getObsStateTracker` and `performAction(app, velocity)`, which
  belong to a later version of the application than the `App.ts` whose
  dispatch is modelled here. Each file's own logic is modelled against the
  `ObsApp` surface. The two versions are not reconciled.

## Model

| member | source | states |
|---|---|---|
| LedState.LedStateStoresArguments | src/LedState.ts:8-20 | an LED record holds exactly the five values it was built from; an omitted duration is 0 |
| MidiControl.PerformAction | src/MidiControl.ts:14-16 | the bound action runs exactly once, with the velocity unchanged |
| MidiControl.EventTypesDistinct | src/MidiControl.ts:19-23 | the press, release and controller codes are three distinct values |
| ButtonControl.HandleEvent | src/ButtonControl.ts:12-20 | fires exactly on the release code when triggered on release and on the press code otherwise; when it fires the action runs once with the raw velocity; otherwise nothing runs |
| ButtonControl.NeverFiresOnAdvancedControl | src/ButtonControl.ts:13-14 | a controller event (176) never fires a button, whatever its polarity |
| ButtonControl.VelocityIgnored | src/ButtonControl.ts:13-14 | the velocity never changes whether a button fires |
| ButtonControl.ExactlyOneEdgeFires | src/ButtonControl.ts:13-14 | of press and release, each polarity fires on exactly one |
| ButtonAdvancedControl.HandleEvent | src/ButtonAdvancedControl.ts:12-20 | fires exactly when the velocity is zero for release polarity and non-zero for press polarity; the action then gets 0 for release polarity and 1 for press polarity; otherwise nothing runs |
| ButtonAdvancedControl.EventTypeIgnored | src/ButtonAdvancedControl.ts:12-14 | the status code plays no part in the outcome |
| ButtonAdvancedControl.ExactlyOnePolarityFires | src/ButtonAdvancedControl.ts:13-14 | for every velocity exactly one of the two polarities fires |
| KnobAdvancedControl.HandleEvent | src/KnobAdvancedControl.ts:9-16 | fires exactly on the controller code, passing the raw velocity; otherwise nothing runs |
| KnobAdvancedControl.ButtonCodesNeverFire | src/KnobAdvancedControl.ts:10-15 | press and release codes never fire a knob; a value of 0 is passed on like any other |
| KnobAdvancedControl.ReverseDef | src/KnobAdvancedControl.ts:51-53 | passes through (a2, -a1) and (a2 + m, d - a1) |
| KnobAdvancedControl.ReverseDefSlope | src/KnobAdvancedControl.ts:51-53 | the piece is linear: two positions differ in decibels by their difference times d / m |
| KnobAdvancedControl.LinearToDef | src/KnobAdvancedControl.ts:30-53 | 0 dB from position 1 up, -15000 dB at 0 and below; each band of positions between the thresholds 0.75, 0.5, 0.3, 0.15, 0.075 and 0.025 maps into its own band of decibels |
| KnobAdvancedControl.LinearToDefOpenRange | src/KnobAdvancedControl.ts:31-53 | strictly between positions 0 and 1 the result is strictly between -150 dB and 0 dB |
| KnobAdvancedControl.LinearToDefMonotone | src/KnobAdvancedControl.ts:30-53 | a higher position never gives a lower level |
| Controls.HandleEvent | src/MidiControl.ts:3-16 | for every variant: at most one action execution, exactly when the control fires, and only of the action bound at construction |
| Controls.DefaultButtonFiresOnPress | src/ButtonControl.ts:7 | a button built without a polarity fires on the press code and on nothing else |
| Controls.DefaultAdvancedButtonFiresOnNonZero | src/ButtonAdvancedControl.ts:7 | an advanced button built without a polarity fires exactly on a non-zero velocity |
| App.Byte | src/App.ts:73-75 | status, id and velocity are bytes 0, 1 and 2 of the message, undefined past its end |
| App.App.constructor | src/App.ts:9 | the registry starts empty |
| App.App.RegisterControl | src/App.ts:16-18 | appends the control, keeping earlier controls and their order |
| App.App.HandleMidiMessage | src/App.ts:72-83 | a message without an id reaches no control; otherwise the controls consulted and the actions run are exactly those of the ordered first-match-wins scan `Scan` |
| App.ScanConsultsInOrder | src/App.ts:78 | controls are consulted in registration order, each at most once |
| App.ScanConsultsReached | src/App.ts:78-82 | a control is consulted exactly when its id equals the message id and no earlier matching control fired; a matching control that does not fire does not stop the scan |
| App.ScanNothingFires | src/App.ts:78-83 | when no matching control fires, no action runs |
| App.ScanFirstMatchWins | src/App.ts:79-80 | the first matching control that fires is the last one consulted and its calls are the only ones run |
| App.ShadowedControlNeverConsulted | src/App.ts:78-81 | of two controls sharing an id, the later one is never consulted for an event the earlier one fires on |
| App.RegisterKeepsFiredDispatch | src/App.ts:16-18 | registering another control never changes a dispatch that already fired |
| App.ScanNoId | src/App.ts:79 | without an id nothing is consulted and nothing runs |
| ObsStateTracker.Answered | src/obs/ObsStateTracker.ts:70-73 | the number of sources whose mute request was answered before the first rejected one |
| ObsStateTracker.MuteStates | src/obs/ObsStateTracker.ts:68-73 | the rebuilt mute map is keyed by exactly the given source names, each holding its reply |
| ObsStateTracker.RefreshedMuteStates | src/obs/ObsStateTracker.ts:64-74 | after a complete refresh a name has an entry exactly when it is a refreshed source name, holding its reply |
| ObsStateTracker.ObsStateTracker.constructor | src/obs/ObsStateTracker.ts:6-13 | empty current scene, empty scene list, source list and mute map |
| ObsStateTracker.ObsStateTracker.SetScene | src/obs/ObsStateTracker.ts:80-85 | the current scene becomes the argument; when it already was, nothing changes (idempotent); nothing else changes |
| ObsStateTracker.ObsStateTracker.UpdateScenes | src/obs/ObsStateTracker.ts:57-62 | scene list and current scene become the reply's; sources and mute map unchanged |
| ObsStateTracker.ObsStateTracker.UpdateSources | src/obs/ObsStateTracker.ts:64-74 | the source list becomes the reply; the mute map is rebuilt from scratch from the answered requests; success exactly when every request was answered |
| ObsStateTracker.ObsStateTracker.OnSourceMuteStateChanged | src/obs/ObsStateTracker.ts:50-52 | writes the notified source's entry; every other entry and field is unchanged |
| ObsStateTracker.ObsStateTracker.Init | src/obs/ObsStateTracker.ts:15-55 | after the initial fetch the state reflects the scene-list reply, the source-list reply and the mute replies |
| ObsStateTracker.ObsStateTracker.GetCurrentScene | src/obs/ObsStateTracker.ts:76-78 | the stored current scene |
| ObsStateTracker.ObsStateTracker.GetSceneList | src/obs/ObsStateTracker.ts:87-89 | the stored scene names, same length, in stored order |
| ObsStateTracker.ObsStateTracker.GetSourcesList | src/obs/ObsStateTracker.ts:91-93 | the stored source names, same length, in stored order |
| ObsStateTracker.ObsStateTracker.IsSourceMuted | src/obs/ObsStateTracker.ts:95-97 | the stored entry, absent for a name never written |
| ObsSceneButton.SceneLed | src/obs/ObsSceneButton.ts:28-31 | channel 0, the given slot, held; green 3 and red 0 exactly when the scene is current, green 0 and red 3 otherwise |
| ObsSceneButton.PendingSwitchLed | src/obs/ObsSceneButton.ts:39 | channel 0, the given slot, held; green 1 and red 3, which differs from both steady colours |
| ObsSceneButton.LitSceneButtons | src/obs/ObsSceneButton.ts:28-35 | among buttons for distinct scenes exactly one is green when the current scene has a button, none otherwise |
| ObsSceneButton.ObsSceneButton.constructor | src/obs/ObsSceneButton.ts:9-15 | stores id, scene name and polarity; the LED slot is the id |
| ObsSceneButton.ObsSceneButton.IsCurrentScene | src/obs/ObsSceneButton.ts:33-35 | exactly string equality of the tracker's current scene and the button's scene |
| ObsSceneButton.ObsSceneButton.UpdateLedState | src/obs/ObsSceneButton.ts:28-35 | queues exactly one LED command, coloured from the tracker's current scene |
| ObsSceneButton.ObsSceneButton.PerformAction | src/obs/ObsSceneButton.ts:37-43 | for a non-current scene: the pending LED (green 1, red 3), then a tick, then the switch request; for the current scene: only the switch request |
| ObsSceneButton.ObsSceneButton.OnSwitchScenes | src/obs/ObsSceneButton.ts:17-26 | on a scene switch: one LED command from the tracker's state, then a tick |
| ObsSourceToggleMuteButton.MuteLed | src/obs/ObsSourceToggleMuteButton.ts:35-38 | channel 0, the given slot, held; red 3 and green 0 exactly when the source is muted; green 3 and red 0 when unmuted or unknown |
| ObsSourceToggleMuteButton.ObsSourceToggleMuteButton.constructor | src/obs/ObsSourceToggleMuteButton.ts:10-16 | stores id, source name and polarity; the LED slot is the id |
| ObsSourceToggleMuteButton.ObsSourceToggleMuteButton.ConcernsThisButton | src/obs/ObsSourceToggleMuteButton.ts:20 | a notification concerns the button exactly when its source name equals the button's |
| ObsSourceToggleMuteButton.ObsSourceToggleMuteButton.UpdateLedState | src/obs/ObsSourceToggleMuteButton.ts:35-38 | queues exactly one LED command, coloured from the tracker's mute entry |
| ObsSourceToggleMuteButton.ObsSourceToggleMuteButton.OnSourceMuteStateChanged | src/obs/ObsSourceToggleMuteButton.ts:18-29 | re-renders and ticks only for a notification about this button's source; any other leaves the effects unchanged |
| ObsSourceToggleMuteButton.ObsSourceToggleMuteButton.PerformAction | src/obs/ObsSourceToggleMuteButton.ts:31-33 | sends a mute toggle for this button's source, whatever the velocity |
| ObsSourceToggleMuteButton.MuteNotificationRendersState | src/obs/ObsSourceToggleMuteButton.ts:19-23 | a mute notification seen by the tracker and then the button writes only that source's entry, leaves the tracker's scene, scene list and source list unchanged, and adds one LED command showing the notified state, then a tick |

## Left out

- Connecting to OBS and to the MIDI ports (`initObs`, `connectObs`, `initMidi`, `start`, `stop` in src/App.ts), the 2 s reconnect retry, and logging: these are I/O and timers.
- Registering listeners with `obs.on(...)`: each listener body is modelled as a method. Interleaving of concurrent asynchronous refreshes is not modelled; each method runs to completion.
- A failed `GetCurrentScene`, `GetSceneList` or `GetSourcesList` request leaves the state as it was. The model takes only successful replies for these three; only `GetMute` rejections are modelled.
- `toVolume` and `dbToLinear` in src/KnobAdvancedControl.ts use floating-point `Math.pow`. src/obs/ObsSourceKnob.ts only sends `SetVolume` with `toVolume`. Neither is modelled.
- KnobAdvancedControl.LinearToDef: computed over exact reals, not IEEE doubles, so rounding at the thresholds is not modelled.
- The LED flush to the hardware (the colour byte and the MIDI writes) and what `tick` does do not appear in src/App.ts; a tick is recorded in the effects log and not interpreted.
- The base-class `update(app)` that calls the LED provider is not part of this model. The model assumes it calls `updateLedState(app, ledId)` with the button's own slot.
- The OBS buttons' binding of themselves as their own action and LED provider is not represented as a reference; their `PerformAction` and `UpdateLedState` are the ones modelled. Their firing rule is that of `ButtonControl`.
- The mute map is a plain map. Property names inherited from JavaScript's `Object.prototype` (a source named `constructor`, say) are not modelled.
- A scene's own source list in the `GetSceneList` reply is not modelled; only scene names are used.
- The metadata relay (src/wms/WMSMusicWidget.ts), the wiring in src/main.ts, the configuration in config/default.ts and the `LedStateUpdater` interface (src/LedStateUpdater.ts) are not part of this model.
- The animation engine and the "owned"-mode event codes do not appear in the modelled code.
