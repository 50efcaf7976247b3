# cordova-plugin-voice: a Dafny model of the player registry and the status reducer

The plugin lets a hybrid app record and play audio through native players.
It has two parts, and the model covers both:

- **The Android dispatcher** (`VoiceHandler`). It keeps `players`, a map from a
  caller-chosen id to a native `VoicePlayer`, and `pausedForPhone`, the players
  it paused when a phone call came in. Each bridge action (`startRecording`,
  `seekTo`, `release`, ...) looks up the player for an id and calls it. Some
  actions create the player first. Teardown destroys all players. Phone events
  pause the running players and later resume them.
- **The JavaScript `Voice` object** (`www/Voice.js`). It keeps a table of live
  `Voice` objects by id. `Voice.onStatus` folds status messages from the
  native side into an object's `_duration`, `_position` and `_power` fields,
  or turns them into the object's callbacks.

Every operation is a pure function. An Android operation takes a `Registry`
and returns a `Step`: the next registry, the reply sent back over the bridge,
and the calls made on player objects, in order. A JavaScript operation takes
the object table and returns the new table plus the callbacks and console
lines it emitted.

Modules:

- `Common` (`common.dfy`): `Option`, `StartsWith`, and listings of a set. A
  listing is one pass over a hash map in an order nobody chooses.
- `VoicePlayer` (`voice_player.dfy`): the native player as the registry sees
  it. It has an identity (`Ref`, one per `new VoicePlayer`), the id and
  source it was built with, a state (`VOICE_NONE` .. `VOICE_STOPPED`, codes
  0..4) and a position in milliseconds. It also defines the calls the
  registry makes on a player.
- `VoiceHandler` (`voice_handler.dfy`): the Android registry, one function per
  handler method, the `execute` dispatcher, `onDestroy`/`onReset` and
  `onMessage`.
- `VoiceHandlerProperties` (`voice_handler_properties.dfy`): lemmas over
  several Android operations. These cover the registry invariant, an
  independent table of how each action changes the id set, the phone-call
  round trip, and two end-to-end sequences.
- `Voice` (`voice.dfy`): the JavaScript table, the constructor, `Voice.get`
  and `Voice.onStatus`. It also has an independent table of which field each
  message type writes.
- `Bridge` (`bridge.dfy`): the `create` request the JavaScript constructor
  sends registers a native player under the same id.

Modelling decisions:

- **Player identity.** Java keeps players by reference. A player replaced by
  `create` or removed by `release` can still sit in `pausedForPhone`. So
  every player gets a `Ref` drawn from a counter `next`, and `pausedForPhone`
  is a sequence of `Ref`s. The registry invariant `Wf` says three things:
  each player is filed under its own id, every reference was allocated
  before `next`, and no object is filed under two ids.
- **The native player stays opaque.** The dispatcher never changes a
  player's state itself. It only calls the player, and those calls are
  logged. A player's state and position change when the player reports
  them. `VoiceHandler.Report` stands for such a report. The end-to-end
  lemmas use it. It is not an operation of the plugin. One consequence:
  without a `Report` in between, a second `ringing` or `offhook` (the
  usual `ringing`, `offhook`, `idle` of an answered call) finds the same
  players still running. So it remembers and pauses them a second time,
  and `idle` then resumes each of them twice.
- **Iteration order.** `onDestroy` and the ringing branch of `onMessage`
  iterate `players.values()`, and Java leaves that order unspecified. These
  functions take the order as a parameter `order`, which must list the
  registry's ids exactly once. `Common.IterationOrder` shows that such an
  order exists for every registry.
- **Platform calls.** These are fields of a `Platform` record. They are
  `resourceApi.remapUri(Uri.parse(..))`, with `None` when it throws
  `IllegalArgumentException`, then `Uri.getPath`, `Float.parseFloat` (with
  `None` for `NumberFormatException`) and the player's `getDuration(file)`.
- **`getDuration`.** It passes the raw second argument to the player, without
  resolving it or stripping `file://`. `startRecording` and `startPlaying`
  resolve and strip it. `create` strips it without resolving. The model
  keeps these differences.

Two assumptions, because `src/android/VoiceHandler.java` does not compile as
written:

- The constructor is named `AudioHandler` (line 50). The model takes it to be
  the `VoiceHandler` constructor (`VoiceHandler.Init`).
- The `stopRecording` action calls `stopRecordingAudio` (line 79), which does
  not exist. The model takes it to call `stopRecording` (lines 226-231).

One assumption about `VoicePlayer`, whose constructor is outside this model:
a player fresh from `new VoicePlayer(handler, id, file)` is in state
`VOICE_NONE` at position 0 (`VoicePlayer.NewSession`).
`VoiceHandlerProperties.CreatedButNotPlayingIsNotResumed` relies on it.

## Model

| member | source | states |
|---|---|---|
| VoiceHandler.Init | src/android/VoiceHandler.java:50-53 | the plugin starts with no players and an empty paused list, and that state satisfies the registry invariant |
| VoiceHandler.StripFileProtocol | src/android/VoiceHandler.java:374-379 | a reference without the `file://` prefix is returned unchanged; one with it is handed to the URI parser's path extraction |
| VoiceHandler.ResolveTarget | src/android/VoiceHandler.java:69-75 | the resource API's remapping of the target is used when it succeeds; when it throws, the raw target is used; a remapping that leaves the target alone gives the target back |
| VoiceHandler.GetOrCreate | src/android/VoiceHandler.java:214-218 | after the lookup a player is filed under the id; an existing one is kept unchanged, a missing one is a new object with the next identity, state NONE and the given source; no other entry changes |
| VoiceHandler.StartRecording | src/android/VoiceHandler.java:213-220 | the id ends up registered (existing player reused, otherwise created with `file` as its source), no other entry changes, and the only call is `startRecording(file)` on that player |
| VoiceHandler.Control | src/android/VoiceHandler.java:226-231 | the shared null-guard of the control commands: the registry is unchanged, a registered player receives exactly the one call, an unknown id causes no call |
| VoiceHandler.StopRecording | src/android/VoiceHandler.java:226-231 | the registry is unchanged; a registered player receives `stopRecording()`, an unknown id causes no call |
| VoiceHandler.StartPlaying | src/android/VoiceHandler.java:238-245 | the id ends up registered (existing player reused, otherwise created with `file` as its source), no other entry changes, and the only call is `startPlaying(file)` on that player |
| VoiceHandler.SeekTo | src/android/VoiceHandler.java:252-257 | the registry is unchanged; a registered player receives `seekToPlaying(ms)`, an unknown id causes no call |
| VoiceHandler.PausePlaying | src/android/VoiceHandler.java:263-268 | the registry is unchanged; a registered player receives `pausePlaying()`, an unknown id causes no call |
| VoiceHandler.StopPlaying | src/android/VoiceHandler.java:274-281 | the registry is unchanged, so a stopped player stays registered; it receives `stopPlaying()`, an unknown id causes no call |
| VoiceHandler.SetVolume | src/android/VoiceHandler.java:358-365 | text that does not parse as a float changes nothing and calls nothing; otherwise the registry is unchanged and only a registered player receives `setVolume(v)` |
| VoiceHandler.GetCurrentPosition | src/android/VoiceHandler.java:288-294 | an unknown id answers -1 and calls nothing; a known one answers a number of seconds that times 1000 gives the player's millisecond position; the registry never changes |
| VoiceHandler.GetDuration | src/android/VoiceHandler.java:302-316 | the id ends up registered (existing player reused, otherwise created with the raw file as its source), no other entry changes, and the answer is what that player's `getDuration(file)` reports |
| VoiceHandler.Create | src/android/VoiceHandler.java:116-121 | the id is bound to a brand-new player (next identity, state NONE, given source) whatever was there; other entries are kept; no call is made, so a replaced player is not destroyed |
| VoiceHandler.Release | src/android/VoiceHandler.java:198-206 | the flag is true exactly when the id was registered; the id is removed and every other entry kept; a present player receives `destroy()`; an unknown id leaves everything unchanged |
| VoiceHandler.Execute | src/android/VoiceHandler.java:62-134 | the reply is "not handled" exactly for action names outside the eleven recognised ones, and then nothing changes and nothing is called |
| VoiceHandler.OnDestroy | src/android/VoiceHandler.java:139-144 | the registry is emptied, the paused list is left as it was, and the calls are one `destroy()` per registered player, each registered player included, nothing else |
| VoiceHandler.OnReset | src/android/VoiceHandler.java:150-152 | the same teardown as `onDestroy` |
| VoiceHandler.RunningRefs | src/android/VoiceHandler.java:170-175 | the references collected in a pass are exactly those of the running players passed over, no more than one per player visited |
| VoiceHandler.RingCalls | src/android/VoiceHandler.java:170-175 | one pass asks `getState()` of every player it visits, in visiting order, and `pausePlaying()` goes to exactly the running ones, in the same order; no other call is made |
| VoiceHandler.PauseForCall | src/android/VoiceHandler.java:167-177 | players are untouched; the paused list keeps its old contents and gains exactly the references of the running players; every player is asked `getState()` once, in visiting order; the `pausePlaying()` calls go to exactly the newly remembered players, in the same order; no other call is made |
| VoiceHandler.ResumeAfterCall | src/android/VoiceHandler.java:180-185 | every remembered reference receives `startPlaying(null)`, in list order, and the list ends empty; players are untouched |
| VoiceHandler.OnMessage | src/android/VoiceHandler.java:161-188 | the player table never changes; any message other than `telephone` with `ringing`, `offhook` or `idle` changes nothing and calls nothing |
| Common.IterationOrder | src/android/VoiceHandler.java:140 | a pass over the map's values visits every entry exactly once |
| VoicePlayer.FromCode | www/Voice.js:62-66 | exactly the codes 0..4 name a state, and decoding then encoding gives the code back |
| VoiceHandlerProperties.ExecuteKeys | src/android/VoiceHandler.java:62-134 | every action changes the id set as an independent table says: creating actions add the id, `release` removes it, all others keep it |
| VoiceHandlerProperties.ExecuteKeepsPlayers | src/android/VoiceHandler.java:62-134 | a player registered before and after an action is the same object in the same state, unless the action is `create` on that very id |
| VoiceHandlerProperties.ExecuteCallsOnlyThatPlayer | src/android/VoiceHandler.java:62-134 | every call an action makes goes to the player filed under the action's id, before or after the action |
| VoiceHandlerProperties.ExecutePreservesWf | src/android/VoiceHandler.java:62-134 | every action keeps the registry invariant: players filed under their own id, all allocated, none filed twice |
| VoiceHandlerProperties.GetOrCreatedPreservesWf | src/android/VoiceHandler.java:214-218 | a get-or-create step keeps the registry invariant, since the only possible newcomer is a fresh object filed under its own id |
| VoiceHandlerProperties.CreateReplacesWithoutDestroy | src/android/VoiceHandler.java:116-121 | `create` binds the id to an object no id was bound to before and makes no call, so the replaced player is not destroyed |
| VoiceHandlerProperties.ControlLeavesRegistry | src/android/VoiceHandler.java:226-281 | the control actions never change the registry, and on an unknown id they call nothing |
| VoiceHandlerProperties.GetOrCreateReuses | src/android/VoiceHandler.java:213-245 | on a registered id the get-or-create actions leave the registry exactly as it was and call only that player |
| VoiceHandlerProperties.ReleaseUndoesCreate | src/android/VoiceHandler.java:198-206 | releasing an id that a creating action just added answers true and gives back the original player table |
| VoiceHandlerProperties.PositionSentinel | src/android/VoiceHandler.java:288-294 | while positions are non-negative, the answer is -1 exactly when the id is unknown |
| VoiceHandlerProperties.NetworkReferencePassesThrough | src/android/VoiceHandler.java:66-121 | an `http://` reference reaches the player unchanged: as the source `create` builds with, as the file `getDuration` asks about, and, when the resource API leaves it alone or throws, as the file `startPlaying` and `startRecording` pass on and build a new player with |
| VoiceHandlerProperties.LocalReferenceIsStripped | src/android/VoiceHandler.java:66-121 | a `file://` reference reaches the player as its parsed path through `create`, and through `startPlaying` and `startRecording` when the resource API leaves it alone or throws; `getDuration` alone passes it on with the scheme |
| VoiceHandlerProperties.OnMessagePreservesWf | src/android/VoiceHandler.java:161-188 | phone events keep the registry invariant; remembered references are all allocated |
| VoiceHandlerProperties.OnDestroyPreservesWf | src/android/VoiceHandler.java:139-144 | teardown keeps the registry invariant |
| VoiceHandlerProperties.TeardownDestroysEachOnce | src/android/VoiceHandler.java:139-144 | no player is destroyed twice by one teardown |
| VoiceHandlerProperties.RunningRefsDistinct | src/android/VoiceHandler.java:170-175 | one pass collects each running player at most once |
| VoiceHandlerProperties.RingRemembersEachRunningOnce | src/android/VoiceHandler.java:167-177 | a ring or off-hook adds each running player to the paused list exactly once |
| VoiceHandlerProperties.RingThenIdle | src/android/VoiceHandler.java:161-188 | after a ring and then idle, every player running at the ring got `pausePlaying()` and then `startPlaying(null)`; the list ends empty; apart from `getState()` queries, no other player was called except ones already remembered |
| VoiceHandlerProperties.NotRunningIsLeftAlone | src/android/VoiceHandler.java:170-175 | a player not running at the ring, and not already remembered, is asked `getState()` and receives no other call from the ring or the idle |
| VoiceHandlerProperties.ReleasedPlayerIsStillResumed | src/android/VoiceHandler.java:198-206 | `release` does not take a player off the paused list, so a player released during a call receives `destroy()` and then, at idle, `startPlaying(null)` |
| VoiceHandlerProperties.CreatedButNotPlayingIsNotResumed | src/android/VoiceHandler.java:161-188 | create("x"), then ringing, then idle: "x" is asked `getState()` only; it is not paused, not remembered and not resumed |
| VoiceHandlerProperties.PlayingPlayerIsPausedAndResumed | src/android/VoiceHandler.java:161-188 | startPlaying("x"), the player reports running, ringing, idle: "x" is asked `getState()`, paused and remembered, then resumed, and the list ends empty |
| Voice.New | www/Voice.js:40-52 | the new object is filed under its id and `Voice.get` returns it; its three numeric fields start at -1; no other entry changes; it sends `create` with its id and source |
| Voice.Get | www/Voice.js:70-72 | a voice is found exactly when its id is in the table, and the one found is the one filed there, carrying that id |
| Voice.StateCallbacks | www/Voice.js:179-184 | a state message fires the status callback exactly when the voice has one and the success callback exactly when the state is STOPPED and the voice has one; nothing else, each at most once, status first |
| Voice.OnStatus | www/Voice.js:173-206 | the id set never changes and other objects are untouched; an unknown id only logs; a status callback fires exactly for a state message to a voice that has one, a success callback exactly when that state is STOPPED (4), an error callback exactly for an error message to a voice that has one; a state or error message to a known voice logs nothing and fires each callback at most once; a status callback always comes before a success callback |
| Voice.OnStatusWritesOnlyItsField | www/Voice.js:185-196 | the message writes its value into exactly the field an independent table names (duration, position, power) on exactly the addressed object; every other field keeps its value |
| Voice.FieldMessagesAreSilent | www/Voice.js:185-196 | duration, position and power messages fire no callback; every other message type leaves the whole table unchanged |
| Voice.UnhandledMessagesOnlyLog | www/Voice.js:197-204 | an unknown id or an unknown message type logs exactly one console line and changes nothing |
| Voice.StoppedFiresStatusThenSuccess | www/Voice.js:179-184 | a STOPPED state message to a voice with both callbacks fires exactly the status callback, then the success callback |
| Voice.NewThenGet | www/Voice.js:70-72 | a new voice is found by `Voice.get`, and a message that writes no field leaves it as constructed |
| Bridge.NewVoiceCreatesNativePlayer | www/Voice.js:51 | the `create` request a new voice sends, run by the Android dispatcher, files a fresh native player under the voice's id, with the source stripped of `file://` |

## Left out

- `setVoiceOutputDevice` and `getVoiceOutputDevice` (src/android/VoiceHandler.java:323-350) are left out. They are direct `AudioManager` calls and keep no plugin state.
- Resolution of `file://` references and `remapUri` are foreign calls. They are parameters of `Platform`, so the model does not know what path `Uri.getPath` returns.
- JSON argument extraction is left out. This includes the `JSONException` for a missing or mistyped argument. So is `PluginResult`/`callbackContext` plumbing: a reply is the value sent, not the message object.
- `VoicePlayer`'s internals (recording, decoding, buffering, how a call changes the player's state) are outside this model. A player is an identity, its construction arguments, a reported state and position, and a log of calls.
- VoiceHandler.GetCurrentPosition: the quotient is exact real division, not the 32-bit float `/ 1000.0f`, and float rounding is not modelled.
- VoiceHandler.SetVolume: the volume is the parsed number as a real, not an IEEE float. Whether it lies in 0..1 is the player's business and is not checked. The line printed to standard output for an unknown id (src/android/VoiceHandler.java:362-364) is not modelled; it changes no state and sends nothing back.
- VoiceHandler.OnMessage: `data` is modelled as a string. A non-string `data` object behaves like an unrecognised string, since `"ringing".equals(data)` is then false.
- Voice.OnStatus: `value` is modelled as a number. JavaScript's loose `==` against `VOICE_STOPPED` and `Number(value)` are then the identity on numbers; string values are not modelled.
- Voice.New: `argscheck.checkArgs` type checking of the constructor arguments is not modelled, and neither is the id generator `utils.createUUID()`. The id is a parameter.
- Property names inherited from `Object.prototype` are left out. A lookup of an id such as `"constructor"` in `voiceObjects` would find them.
- The JavaScript command wrappers (`play`, `stop`, `seekTo`, `pause`, `getCurrentPosition`, `getPower`, `startRecord`, `stopRecord`, `release`, `setVolume`; www/Voice.js:77-163) only forward to the bridge. The fields their asynchronous success callbacks set are not modelled.
- `src/ios/CDVVoice.h` holds declarations only, and `www/VoiceError.js` is a constant table. Neither has logic to model.
