# Audio player plugin: playback controller model

A Dafny model of the Android side of the `audioplayer` Flutter plugin, the class
`AudioplayerPlugin`. The plugin owns one nullable `MediaPlayer` reference. It answers six channel
methods: `play`, `pause`, `stop`, `seek`, `mute` and `changeSpeed`. It reacts to the player's
prepared, seek-complete, completion and error listeners. It reports the playback position from
a `sendData` runnable that posts itself again on the main-thread `Handler`. All of this runs on
one looper, so every command, callback and tick is one sequential step.

Modules:

- `Base`: `Option`, Java's `int` as `int32`, and `Wrap32` for Java's wrap-around.
- `Decimal`: the text `String.format("%d", …)` writes for an integer, and its inverse `ParseInt`.
- `Channel`: the events the plugin sends (channel method name and argument), and the
  `{"what":…,"extra":…}` error payload with its exact inverse `ParseErrorPayload`.
- `Controller`: the state machine on values. A `Snapshot` holds:
  - the player reference: a `Player` record, or `None` for null;
  - the number of pending `sendData` runs (`post` adds one, `removeCallbacks` clears all);
  - the append-only event log;
  - the mute state of the music stream.

  Every command and callback is a function on snapshots. `Step`, `Enabled` and `Run` describe
  every order in which steps can arrive.
- `ControllerFacts`: invariants kept by every step and every run, and the call sequences in
  which the controller's quirks show.
- `Dispatch`: `onMethodCall` as a pure decoding of the method name into a command. It is proved
  to be the inverse of encoding a command.
- `Plugin`: the class `AudioplayerPlugin`. Its fields are updated in place by one method per
  command and listener, and each method's new state is the matching `Controller` transition.

Values that the platform computes are inputs of the step that asks for them:
- whether `setDataSource` succeeds;
- `getDuration`;
- `getCurrentPosition`;
- `Build.VERSION.SDK_INT`, the class constant `sdkInt`.

Behaviour of the code that the model pins down:

- A `play` whose `setDataSource` throws leaves a non-null dead player. It sends only
  `onError("Invalid Datasource")`, with no `onStart` and no tick. A later `stop` finds that
  player and sends `onStop`.
- A `play` on any existing player ignores its url, offset and speed. It sends `onStart` and adds
  a tick without removing earlier ones, so ticks stack.
- With a nonzero offset, `onStart` is sent when preparation ends, before the seek completes and
  before the code calls `start()`. Positions are reported even before preparation ends.
- The seek-complete listener stays registered. Any later seek restarts playback when it
  completes, even after a pause, and sends no `onStart`. Each `seekTo` completes once, so
  without a new seek a paused player stays paused.
- A tick never stops the reporter: `removeCallbacks` is followed by `postDelayed`. While the
  player plays, stacked ticks all keep rescheduling themselves.
- Pausing twice with a player sends `onPause` twice.
- Completion sends `onComplete` and then `onStop`, exactly once each.
- Under the invariant, a tick always finds a player. Every release also cancels all ticks, so
  the null-player path of `sendData` (the catch at line 190) cannot run.

Four consequences of the code are easy to miss:
- the reporter does not cancel itself when playback stops;
- more than one reporter can be pending at once;
- `onStart` does not wait for the seek;
- a second pause sends `onPause` again.

## Model

| member | source | states |
|---|---|---|
| `Base.Wrap32` | android/src/main/java/bz/rxla/audioplayer/AudioplayerPlugin.java:145 | Java int arithmetic: the result is congruent to the exact value modulo 2^32, and equals it when it fits in an int |
| `Decimal.FormatInt` | android/src/main/java/bz/rxla/audioplayer/AudioplayerPlugin.java:169 | `%d` text: non-empty, only digits apart from a leading '-' |
| `Decimal.NatToDecimal` | android/src/main/java/bz/rxla/audioplayer/AudioplayerPlugin.java:169 | digits of a natural number: canonical, and the leading digit is '0' exactly for 0 |
| `Decimal.NatRoundTrip` | android/src/main/java/bz/rxla/audioplayer/AudioplayerPlugin.java:169 | reading the digits of n gives n back |
| `Decimal.ParseIntIffFormat` | android/src/main/java/bz/rxla/audioplayer/AudioplayerPlugin.java:169 | a string parses to i exactly when it is the `%d` text of i |
| `Channel.ErrorPayload` | android/src/main/java/bz/rxla/audioplayer/AudioplayerPlugin.java:169 | the runtime error payload can never be mistaken for the "Invalid Datasource" message of line 134 |
| `Channel.ErrorPayloadRoundTrip` | android/src/main/java/bz/rxla/audioplayer/AudioplayerPlugin.java:169 | parsing the payload `{"what":%d,"extra":%d}` gives back both codes |
| `Channel.ErrorPayloadIff` | android/src/main/java/bz/rxla/audioplayer/AudioplayerPlugin.java:169 | a string parses to (what, extra) exactly when it is the payload of (what, extra) |
| `Channel.ErrorPayloadInjective` | android/src/main/java/bz/rxla/audioplayer/AudioplayerPlugin.java:169 | distinct code pairs give distinct payloads |
| `Channel.MethodName` | android/src/main/java/bz/rxla/audioplayer/AudioplayerPlugin.java:96-187 | the channel method name of each event; every name starts with "audio.on" |
| `Channel.ArgumentOf` | android/src/main/java/bz/rxla/audioplayer/AudioplayerPlugin.java:96-187 | the argument sent with each event: an int for onStart and onCurrentPosition, `true` for onPause, the message string for onError, null for onStop and onComplete |
| `Channel.InvocationDeterminesEvent` | android/src/main/java/bz/rxla/audioplayer/AudioplayerPlugin.java:96-187 | the channel name and argument of an invocation determine the event |
| `Controller.Initial` | android/src/main/java/bz/rxla/audioplayer/AudioplayerPlugin.java:28-29 | a new plugin has no player and no pending tick, and satisfies the invariants |
| `Controller.Play` | android/src/main/java/bz/rxla/audioplayer/AudioplayerPlugin.java:116-178 | existing player: it is started unchanged otherwise, one onStart, one more tick. No player and bind fails: a dead player, only onError "Invalid Datasource", no tick. No player and bind succeeds: a preparing player holding this call's offset and speed, no event, one more tick |
| `Controller.Pause` | android/src/main/java/bz/rxla/audioplayer/AudioplayerPlugin.java:108-114 | ticks cleared. With a player: it stops playing, the reference stays, exactly one onPause is sent. Without one: nothing is sent |
| `Controller.Stop` | android/src/main/java/bz/rxla/audioplayer/AudioplayerPlugin.java:90-98 | ticks cleared and reference null. Exactly one onStop if there was a player, otherwise no event |
| `Controller.Seek` | android/src/main/java/bz/rxla/audioplayer/AudioplayerPlugin.java:86-88 | requires a player. Only its seek target changes, to the given milliseconds, and a seek becomes pending. No event, ticks kept |
| `Controller.Mute` | android/src/main/java/bz/rxla/audioplayer/AudioplayerPlugin.java:78-84 | the stream's mute state becomes the argument, with or without a player. Player, ticks and events unchanged |
| `Controller.ChangeSpeed` | android/src/main/java/bz/rxla/audioplayer/AudioplayerPlugin.java:100-106 | ticks cleared, no event. The player's speed changes only on SDK 23 or later, and nothing else of it changes |
| `Controller.OnPrepared` | android/src/main/java/bz/rxla/audioplayer/AudioplayerPlugin.java:140-156 | exactly one onStart with the duration, and the requested speed applied. Offset 0: playing. Offset nonzero: a pending seek to offset*1000 (Java int), a seek-complete listener, and playing unchanged |
| `Controller.OnSeekComplete` | android/src/main/java/bz/rxla/audioplayer/AudioplayerPlugin.java:146-150 | no event. The pending seek is done. Playing afterwards exactly when it was playing or the start listener is registered; nothing else changes |
| `Controller.Execute` | android/src/main/java/bz/rxla/audioplayer/AudioplayerPlugin.java:46-71 | runs the command a call names. It appends at most one event, and none for seek, mute and changeSpeed. Only mute changes the mute state, and mute touches neither the player nor the ticks. Pause, stop and changeSpeed clear the ticks, and play always leaves a player |
| `Controller.OnCompletion` | android/src/main/java/bz/rxla/audioplayer/AudioplayerPlugin.java:158-164 | events onComplete then onStop, reference null, ticks cleared |
| `Controller.OnPlayerError` | android/src/main/java/bz/rxla/audioplayer/AudioplayerPlugin.java:166-172 | exactly one onError with the JSON payload of the two codes. Player and ticks unchanged |
| `Controller.Tick` | android/src/main/java/bz/rxla/audioplayer/AudioplayerPlugin.java:180-194 | with a player: exactly one onCurrentPosition. Afterwards one tick pending if not playing, all pending ticks kept if playing. Without a player: nothing sent and this run consumed |
| `ControllerFacts.StepPreservesInv` | android/src/main/java/bz/rxla/audioplayer/AudioplayerPlugin.java:90-194 | every command and callback keeps the invariant: a tick is pending only while there is a player, only a prepared player with a nonzero offset has the seek-start listener, and a pending seek has a target |
| `ControllerFacts.StepAppendsEvents` | android/src/main/java/bz/rxla/audioplayer/AudioplayerPlugin.java:90-194 | the event log only grows |
| `ControllerFacts.PairedAppend` | android/src/main/java/bz/rxla/audioplayer/AudioplayerPlugin.java:158-164 | appending a paired log to a paired log keeps every onComplete followed by onStop |
| `ControllerFacts.StepKeepsPairing` | android/src/main/java/bz/rxla/audioplayer/AudioplayerPlugin.java:158-164 | no step breaks "every onComplete is immediately followed by onStop" |
| `ControllerFacts.ReleaseIffOnStop` | android/src/main/java/bz/rxla/audioplayer/AudioplayerPlugin.java:90-98 | a step sends onStop if and only if it drops the player |
| `ControllerFacts.OnlyMuteChangesStream` | android/src/main/java/bz/rxla/audioplayer/AudioplayerPlugin.java:78-84 | only mute changes the stream's mute state, to its argument |
| `ControllerFacts.TickFindsPlayer` | android/src/main/java/bz/rxla/audioplayer/AudioplayerPlugin.java:180-194 | under the invariant a pending tick always finds a player, so the caught exception cannot occur |
| `ControllerFacts.RunInvariants` | android/src/main/java/bz/rxla/audioplayer/AudioplayerPlugin.java:44-194 | along every run of commands and callbacks the invariant and the onComplete/onStop pairing hold, and the log only grows |
| `ControllerFacts.ReachableInv` | android/src/main/java/bz/rxla/audioplayer/AudioplayerPlugin.java:36-194 | every state reachable from a new plugin satisfies both invariants |
| `ControllerFacts.StopLeavesOnlyCommands` | android/src/main/java/bz/rxla/audioplayer/AudioplayerPlugin.java:90-98 | after stop no tick and no listener can fire; only a command can come next |
| `ControllerFacts.DeadPlayerGetsNoCallback` | android/src/main/java/bz/rxla/audioplayer/AudioplayerPlugin.java:128-136 | a player whose data source failed has no listeners: only commands or ticks can follow |
| `ControllerFacts.ReporterNeverStopsItself` | android/src/main/java/bz/rxla/audioplayer/AudioplayerPlugin.java:180-194 | any number of ticks are enabled in turn. Each sends its position and a tick stays pending: one if not playing, all stacked ones if playing |
| `ControllerFacts.StopIdempotent` | android/src/main/java/bz/rxla/audioplayer/AudioplayerPlugin.java:90-98 | a second stop changes nothing and sends nothing |
| `ControllerFacts.PauseTwice` | android/src/main/java/bz/rxla/audioplayer/AudioplayerPlugin.java:108-114 | two pauses with a player send onPause twice; the state is otherwise as after one |
| `ControllerFacts.StopAfterCompletion` | android/src/main/java/bz/rxla/audioplayer/AudioplayerPlugin.java:158-164 | a stop after completion does nothing: one completion gives one onComplete/onStop pair |
| `ControllerFacts.FailedBindThenStop` | android/src/main/java/bz/rxla/audioplayer/AudioplayerPlugin.java:119-136 | a failed bind leaves a dead player, sends only "Invalid Datasource" without onStart or tick, and a later stop sends onStop |
| `ControllerFacts.PlayOnDeadPlayerResumes` | android/src/main/java/bz/rxla/audioplayer/AudioplayerPlugin.java:173-177 | a play on a dead player does not rebind: it sends onStart and posts a tick |
| `ControllerFacts.PlayTwiceStacksTicks` | android/src/main/java/bz/rxla/audioplayer/AudioplayerPlugin.java:173-177 | two plays on a player add two ticks and two onStart events |
| `ControllerFacts.DuplicateReporters` | android/src/main/java/bz/rxla/audioplayer/AudioplayerPlugin.java:177-188 | play, play while preparing, then prepared: two ticks pending while playing, and a tick keeps both |
| `ControllerFacts.StartAnnouncedBeforeSeek` | android/src/main/java/bz/rxla/audioplayer/AudioplayerPlugin.java:140-156 | with a nonzero offset, onStart is sent before the code calls start(), while the seek is pending. Positions are reported before preparation. The seek completing starts playback and sends nothing |
| `ControllerFacts.SeekCompletesOnce` | android/src/main/java/bz/rxla/audioplayer/AudioplayerPlugin.java:146-150 | after a seek completes, another completion can come only after a new seek |
| `ControllerFacts.PauseAfterSeekStays` | android/src/main/java/bz/rxla/audioplayer/AudioplayerPlugin.java:144-150 | play with an offset, then prepared, seek done and pause: the player stays paused, and no seek completion can restart it |
| `ControllerFacts.SeekAfterPauseRestarts` | android/src/main/java/bz/rxla/audioplayer/AudioplayerPlugin.java:146-150 | after a pause, a user seek restarts playback when it completes, with no tick and nothing sent but the onPause |
| `ControllerFacts.PauseThenPlayResumes` | android/src/main/java/bz/rxla/audioplayer/AudioplayerPlugin.java:173-177 | pause then play resumes the same player (no rebind): onPause, onStart, one tick |
| `ControllerFacts.StopThenPlayRebinds` | android/src/main/java/bz/rxla/audioplayer/AudioplayerPlugin.java:119-138 | after stop, play creates a fresh player with the new offset and speed |
| `ControllerFacts.SeekTargetExact` | android/src/main/java/bz/rxla/audioplayer/AudioplayerPlugin.java:145 | the seek of onPrepared lands exactly on offset*1000 ms while that fits in an int |
| `ControllerFacts.SeekTargetWraps` | android/src/main/java/bz/rxla/audioplayer/AudioplayerPlugin.java:145 | an offset of 2147484 s wraps to a seek to -2147483296 ms |
| `Dispatch.NameOf` | android/src/main/java/bz/rxla/audioplayer/AudioplayerPlugin.java:45-72 | every command has one of the six known names |
| `Dispatch.Decode` | android/src/main/java/bz/rxla/audioplayer/AudioplayerPlugin.java:45-75 | the switch on the method name: a command exactly for the six case labels, and the command has that name |
| `Dispatch.ReplyTo` | android/src/main/java/bz/rxla/audioplayer/AudioplayerPlugin.java:44-76 | the reply is success exactly for the six known names, otherwise notImplemented |
| `Dispatch.DecodeKnowsExactlyTheNames` | android/src/main/java/bz/rxla/audioplayer/AudioplayerPlugin.java:45-75 | a call runs a command if and only if its name is one of the six |
| `Dispatch.DecodeEncode` | android/src/main/java/bz/rxla/audioplayer/AudioplayerPlugin.java:45-72 | every command is run by the call with its name and arguments |
| `Dispatch.EncodeDecode` | android/src/main/java/bz/rxla/audioplayer/AudioplayerPlugin.java:45-72 | a call that runs a command is that command's call: the name selects it and the arguments fill it |
| `Plugin.AudioplayerPlugin.constructor` | android/src/main/java/bz/rxla/audioplayer/AudioplayerPlugin.java:36-41 | the new object has no player, no tick and no event |
| `Plugin.AudioplayerPlugin.OnMethodCall` | android/src/main/java/bz/rxla/audioplayer/AudioplayerPlugin.java:44-76 | replies as `Dispatch.ReplyTo`. A known name runs exactly its command's transition; an unknown one changes nothing |
| `Plugin.AudioplayerPlugin.Mute` | android/src/main/java/bz/rxla/audioplayer/AudioplayerPlugin.java:78-84 | new state is `Controller.Mute` of the old |
| `Plugin.AudioplayerPlugin.Seek` | android/src/main/java/bz/rxla/audioplayer/AudioplayerPlugin.java:86-88 | new state is `Controller.Seek` of the old |
| `Plugin.AudioplayerPlugin.Stop` | android/src/main/java/bz/rxla/audioplayer/AudioplayerPlugin.java:90-98 | new state is `Controller.Stop` of the old, also when run from the completion listener |
| `Plugin.AudioplayerPlugin.ChangeSpeed` | android/src/main/java/bz/rxla/audioplayer/AudioplayerPlugin.java:100-106 | new state is `Controller.ChangeSpeed` of the old, for the object's SDK level |
| `Plugin.AudioplayerPlugin.Pause` | android/src/main/java/bz/rxla/audioplayer/AudioplayerPlugin.java:108-114 | new state is `Controller.Pause` of the old |
| `Plugin.AudioplayerPlugin.Play` | android/src/main/java/bz/rxla/audioplayer/AudioplayerPlugin.java:116-178 | new state is `Controller.Play` of the old, including the early return on a failed bind |
| `Plugin.AudioplayerPlugin.OnPrepared` | android/src/main/java/bz/rxla/audioplayer/AudioplayerPlugin.java:140-156 | new state is `Controller.OnPrepared` of the old |
| `Plugin.AudioplayerPlugin.OnSeekComplete` | android/src/main/java/bz/rxla/audioplayer/AudioplayerPlugin.java:146-150 | new state is `Controller.OnSeekComplete` of the old |
| `Plugin.AudioplayerPlugin.OnCompletion` | android/src/main/java/bz/rxla/audioplayer/AudioplayerPlugin.java:158-164 | new state is `Controller.OnCompletion` of the old |
| `Plugin.AudioplayerPlugin.OnError` | android/src/main/java/bz/rxla/audioplayer/AudioplayerPlugin.java:166-172 | new state is `Controller.OnPlayerError` of the old, and the error is reported as handled |
| `Plugin.AudioplayerPlugin.SendData` | android/src/main/java/bz/rxla/audioplayer/AudioplayerPlugin.java:180-194 | new state is `Controller.Tick` of the old |

## Left out

- MediaPlayer internals are left out. The model does not decode audio, advance the position or
  time `prepareAsync` and `seekTo`. `getDuration` and `getCurrentPosition` values, and whether
  `setDataSource` succeeds, are inputs. The url is only the source of that bind outcome.
- The `url != ""` test is a reference comparison in Java, so it does not reliably test for an
  empty string. The model takes the bind outcome as an input. `IllegalArgumentException` and the
  other unchecked exceptions of `setDataSource` are not modelled.
- `Controller.Play`: does not model that `start()` on a dead or still-preparing player makes the
  platform throw `IllegalStateException`. The model lets `start` take effect. The resume branch
  therefore always sends `onStart` and posts a tick.
- `Controller.OnPrepared`: does not model that `setPlaybackParams` is missing below SDK 23. The
  speed is applied unconditionally, as the code calls it.
- `Controller.OnPrepared`: does not model the platform's reaction to `setPlaybackParams`. A
  nonzero speed starts a prepared player, so playback may begin before the seek. The model's
  `playing` flag changes only where the code calls `start()` or `pause()`.
- `Controller.ChangeSpeed`: does not model the platform's own reaction to a speed change, such
  as a zero speed pausing or a nonzero speed starting a prepared player.
- Handler timing is left out: the 200 ms delay and the looper itself. Ticks are a count of pending
  runs, and each run of `sendData` is a separate step.
- Floating point is left out. `seek` takes the already-converted `(int)(position*1000)`
  milliseconds. Speeds are `real`, without the `(float)` conversion.
- `Controller.Mute`: treats mute as a plain flag that the last call sets, on every SDK level.
  Below SDK 23, `setStreamMute` counts mute requests, so one `mute(false)` does not undo two
  `mute(true)`; that counting is not modelled. The `AudioManager` volume services are not modelled.
- Seek completions follow the one-per-`seekTo` rule. The platform may merge the completions of
  seeks issued in quick succession; that merging is not modelled.
- `seek` with no player throws a `NullPointerException`. Command `seek` therefore requires a
  player, which also holds for `OnMethodCall` with the name "seek".
- Casting the call arguments (`call.argument`, `Integer.valueOf`, `call.arguments()`) is left
  out. `Dispatch.Arguments` carries the converted values.
- Channel transport, `registerWith` and the channel name are left out. Events are appends to a
  log. `Log.w` calls are left out.
- The error payload uses ASCII digits. A default locale with other digits is not modelled.
- The Error state of the platform player is left out. The error listener changes nothing, as the
  code does.
