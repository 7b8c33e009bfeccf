/**
 * The playback controller of the Android plugin as a state machine on values.
 *
 * A `Snapshot` is everything the plugin object holds or causes: the nullable
 * `mediaPlayer` reference, the number of `sendData` runnables pending on the
 * handler, the events sent so far on the channel, and the mute state of the
 * music stream. Each command and each platform callback of the plugin is a
 * function from the old snapshot to the new one; the class in module Plugin
 * performs the same transitions in place.
 */
module Controller {
  import opened Base
  import opened Channel

  /** A playback speed; the Java code's double-to-float conversion is not modelled. */
  type Speed = real

  /** The speed of a freshly created MediaPlayer. */
  const DefaultSpeed: Speed := 1.0

  /** `Build.VERSION_CODES.M`, the first SDK with `setPlaybackParams`. */
  const SdkM: int := 23

  /** How far the plugin has taken a MediaPlayer. */
  datatype Stage =
    | Dead       // setDataSource failed: no prepareAsync, no listeners
    | Preparing  // prepareAsync issued and listeners registered; onPrepared not yet delivered
    | Prepared   // onPrepared delivered

  /** The one MediaPlayer the plugin holds, as far as the plugin can observe it. */
  datatype Player = Player(
    stage: Stage,
    from: int32,                // start offset (seconds) captured by the onPrepared listener
    requestedSpeed: Speed,      // speed captured by the onPrepared listener
    playing: bool,              // what isPlaying() reports
    speed: Speed,               // speed last applied with setPlaybackParams
    seekTarget: Option<int32>,  // argument of the last seekTo, in milliseconds
    seekPending: bool,          // a seekTo has been issued whose completion is not yet delivered
    startOnSeekComplete: bool)  // an OnSeekCompleteListener that calls start() is registered

  datatype Snapshot = Snapshot(
    player: Option<Player>,  // the mediaPlayer field; None is null
    ticks: nat,              // sendData runnables pending on the handler
    events: seq<Event>,      // invocations sent on the channel, oldest first
    muted: bool)             // mute state of STREAM_MUSIC

  /** The plugin right after construction: no player, nothing pending, nothing sent. */
  function Initial(muted: bool): (s: Snapshot)
    ensures Inv(s) && CompletionPaired(s.events)
  {
    Snapshot(None, 0, [], muted)
  }

  /** A new MediaPlayer after `new MediaPlayer()` and, if it succeeded, `setDataSource`/`prepareAsync`. */
  function NewPlayer(stage: Stage, from: int32, speed: Speed): Player
  {
    Player(stage, from, speed, false, DefaultSpeed, None, false, false)
  }

  // ---------------------------------------------------------------------------
  // Commands

  /**
   * `play(url, from, speed)`. With no player, a new one is created; `bindSucceeds` is
   * whether `setDataSource(url)` returned normally. With a player, whatever its stage,
   * it is started and its duration (`duration`, from getDuration) is announced.
   */
  function Play(s: Snapshot, from: int32, speed: Speed, bindSucceeds: bool, duration: int32): (t: Snapshot)
    ensures t.player.Some? && t.muted == s.muted
    ensures s.player.Some? ==>
      t.player == Some(s.player.value.(playing := true)) &&
      t.ticks == s.ticks + 1 && t.events == s.events + [OnStart(duration)]
    ensures s.player.None? && !bindSucceeds ==>
      t.player == Some(NewPlayer(Dead, from, speed)) &&
      t.ticks == s.ticks && t.events == s.events + [OnError(InvalidDatasource)]
    ensures s.player.None? && bindSucceeds ==>
      t.player == Some(NewPlayer(Preparing, from, speed)) &&
      t.ticks == s.ticks + 1 && t.events == s.events
  {
    match s.player
    case None =>
      if bindSucceeds then
        s.(player := Some(NewPlayer(Preparing, from, speed)), ticks := s.ticks + 1)
      else
        s.(player := Some(NewPlayer(Dead, from, speed)), events := s.events + [OnError(InvalidDatasource)])
    case Some(p) =>
      s.(player := Some(p.(playing := true)), ticks := s.ticks + 1, events := s.events + [OnStart(duration)])
  }

  /** `pause()`: cancels every pending tick; a player stops playing and onPause(true) is sent. */
  function Pause(s: Snapshot): (t: Snapshot)
    ensures t.ticks == 0 && t.muted == s.muted
    ensures s.player.Some? ==>
      t.player == Some(s.player.value.(playing := false)) && t.events == s.events + [OnPause]
    ensures s.player.None? ==> t.player.None? && t.events == s.events
  {
    match s.player
    case None => s.(ticks := 0)
    case Some(p) => s.(player := Some(p.(playing := false)), ticks := 0, events := s.events + [OnPause])
  }

  /** `stop()`: cancels every pending tick; a player is stopped, released and dropped, and onStop is sent. */
  function Stop(s: Snapshot): (t: Snapshot)
    ensures t.player.None? && t.ticks == 0 && t.muted == s.muted
    ensures t.events == if s.player.Some? then s.events + [OnStop] else s.events
  {
    if s.player.Some? then Snapshot(None, 0, s.events + [OnStop], s.muted)
    else s.(ticks := 0)
  }

  /**
   * `seek(position)` with the position already converted to milliseconds: the player gets
   * a new seek target and a pending seek; nothing else changes.
   */
  function Seek(s: Snapshot, millis: int32): (t: Snapshot)
    requires s.player.Some?
    ensures t.player.Some? && t.player.value.seekTarget == Some(millis) && t.player.value.seekPending
    ensures t.player.value.(seekTarget := s.player.value.seekTarget, seekPending := s.player.value.seekPending)
            == s.player.value
    ensures t.ticks == s.ticks && t.events == s.events && t.muted == s.muted
  {
    s.(player := Some(s.player.value.(seekTarget := Some(millis), seekPending := true)))
  }

  /** `mute(muted)`: both SDK branches set the mute state of the music stream; nothing else changes. */
  function Mute(s: Snapshot, muted: bool): (t: Snapshot)
    ensures t.muted == muted
    ensures t.player == s.player && t.ticks == s.ticks && t.events == s.events
  {
    s.(muted := muted)
  }

  /** `changeSpeed(value)`: cancels every pending tick; the speed is applied only on SDK 23 or later. */
  function ChangeSpeed(s: Snapshot, speed: Speed, sdkInt: int): (t: Snapshot)
    ensures t.ticks == 0 && t.events == s.events && t.muted == s.muted
    ensures t.player.Some? <==> s.player.Some?
    ensures s.player.Some? ==>
      t.player.value == if sdkInt >= SdkM then s.player.value.(speed := speed) else s.player.value
  {
    match s.player
    case Some(p) =>
      if sdkInt >= SdkM then s.(player := Some(p.(speed := speed)), ticks := 0) else s.(ticks := 0)
    case None => s.(ticks := 0)
  }

  // ---------------------------------------------------------------------------
  // Platform callbacks

  /**
   * The OnPreparedListener: applies the speed captured at `play`, then either starts
   * playback (offset 0) or seeks to offset * 1000 ms in Java int arithmetic and leaves
   * the start to the seek-complete listener; in both cases onStart is sent at once.
   */
  function OnPrepared(s: Snapshot, duration: int32): (t: Snapshot)
    requires s.player.Some?
    ensures t.player.Some? && t.ticks == s.ticks && t.muted == s.muted
    ensures t.events == s.events + [OnStart(duration)]
    ensures var p, q := s.player.value, t.player.value;
      q.stage == Prepared && q.speed == p.requestedSpeed &&
      q.from == p.from && q.requestedSpeed == p.requestedSpeed &&
      (p.from == 0 ==>
         q.playing && q.seekTarget == p.seekTarget && q.seekPending == p.seekPending &&
         q.startOnSeekComplete == p.startOnSeekComplete) &&
      (p.from != 0 ==>
         q.playing == p.playing && q.seekTarget == Some(Wrap32(p.from * 1000)) && q.seekPending &&
         q.startOnSeekComplete)
  {
    var p := s.player.value.(stage := Prepared, speed := s.player.value.requestedSpeed);
    var q := if p.from != 0 then p.(seekTarget := Some(Wrap32(p.from * 1000)), seekPending := true,
                                    startOnSeekComplete := true)
             else p.(playing := true);
    s.(player := Some(q), events := s.events + [OnStart(duration)])
  }

  /**
   * The pending seek completed: it is no longer pending, and the listener registered by
   * OnPrepared, if any, starts playback. Sends nothing.
   */
  function OnSeekComplete(s: Snapshot): (t: Snapshot)
    requires s.player.Some?
    ensures t.player.Some? && t.ticks == s.ticks && t.events == s.events && t.muted == s.muted
    ensures t.player.value.playing == (s.player.value.playing || s.player.value.startOnSeekComplete)
    ensures !t.player.value.seekPending
    ensures t.player.value.(playing := s.player.value.playing, seekPending := s.player.value.seekPending)
            == s.player.value
  {
    var p := s.player.value.(seekPending := false);
    if p.startOnSeekComplete then s.(player := Some(p.(playing := true))) else s.(player := Some(p))
  }

  /** The OnCompletionListener: onComplete is sent, then `stop()` runs. */
  function OnCompletion(s: Snapshot): (t: Snapshot)
    requires s.player.Some?
    ensures t.player.None? && t.ticks == 0 && t.muted == s.muted
    ensures t.events == s.events + [OnComplete, OnStop]
  {
    Stop(s.(events := s.events + [OnComplete]))
  }

  /** The OnErrorListener: sends the two codes as a JSON text and keeps the player and the ticks. */
  function OnPlayerError(s: Snapshot, what: int32, extra: int32): (t: Snapshot)
    ensures t.player == s.player && t.ticks == s.ticks && t.muted == s.muted
    ensures t.events == s.events + [OnError(ErrorPayload(what, extra))]
  {
    s.(events := s.events + [OnError(ErrorPayload(what, extra))])
  }

  /**
   * One run of the `sendData` runnable, which the handler has just taken off its queue.
   * With a player it cancels the other pending runs when the player is not playing,
   * sends the position (`position`, from getCurrentPosition) and posts itself again.
   * With no player the first call throws, the exception is caught and nothing is posted.
   */
  function Tick(s: Snapshot, position: int32): (t: Snapshot)
    requires s.ticks > 0
    ensures t.player == s.player && t.muted == s.muted
    ensures s.player.None? ==> t.events == s.events && t.ticks == s.ticks - 1
    ensures s.player.Some? ==>
      t.events == s.events + [OnCurrentPosition(position)] &&
      t.ticks == if s.player.value.playing then s.ticks else 1
  {
    match s.player
    case None => s.(ticks := s.ticks - 1)
    case Some(p) =>
      var remaining := if p.playing then s.ticks - 1 else 0;
      s.(ticks := remaining + 1, events := s.events + [OnCurrentPosition(position)])
  }

  // ---------------------------------------------------------------------------
  // Invariants

  /**
   * What holds of every snapshot the plugin can reach: a tick is pending only while
   * there is a player, and only a prepared player with a nonzero offset has the
   * seek-complete listener, and a pending seek has a target.
   */
  ghost predicate Inv(s: Snapshot)
  {
    (s.player.None? ==> s.ticks == 0) &&
    (s.player.Some? && s.player.value.seekPending ==> s.player.value.seekTarget.Some?) &&
    (s.player.Some? && s.player.value.startOnSeekComplete ==>
       s.player.value.stage == Prepared && s.player.value.from != 0)
  }

  /** Every onComplete in the log is immediately followed by an onStop. */
  ghost predicate CompletionPaired(log: seq<Event>)
  {
    forall i :: 0 <= i < |log| && log[i] == OnComplete ==> i + 1 < |log| && log[i + 1] == OnStop
  }

  // ---------------------------------------------------------------------------
  // Steps and runs: every order in which commands and callbacks can arrive

  /** A command of the method channel, with its arguments already converted. */
  datatype Command =
    | PlayCall(url: string, from: int32, speed: Speed)
    | PauseCall
    | StopCall
    | SeekCall(millis: int32)
    | MuteCall(muted: bool)
    | ChangeSpeedCall(speed: Speed)

  /** What the platform answers while `play` runs: whether setDataSource succeeds, and getDuration. */
  datatype Platform = Platform(bindSucceeds: bool, duration: int32)

  /** One unit of work on the main looper. */
  datatype Step =
    | Invoke(command: Command, platform: Platform)
    | PrepareDone(duration: int32)
    | SeekDone
    | PlaybackDone
    | ErrorReported(what: int32, extra: int32)
    | TickRan(position: int32)

  /** Runs one command. The url only decides `bindSucceeds`, which the platform supplies. */
  function Execute(s: Snapshot, c: Command, platform: Platform, sdkInt: int): (t: Snapshot)
    requires c.SeekCall? ==> s.player.Some?
    ensures s.events <= t.events && |t.events| <= |s.events| + 1
    ensures c.SeekCall? || c.MuteCall? || c.ChangeSpeedCall? ==> t.events == s.events
    ensures t.muted == if c.MuteCall? then c.muted else s.muted
    ensures c.MuteCall? ==> t.player == s.player && t.ticks == s.ticks
    ensures c.PauseCall? || c.StopCall? || c.ChangeSpeedCall? ==> t.ticks == 0
    ensures c.PlayCall? ==> t.player.Some?
  {
    match c
    case PlayCall(_, from, speed) => Play(s, from, speed, platform.bindSucceeds, platform.duration)
    case PauseCall => Pause(s)
    case StopCall => Stop(s)
    case SeekCall(millis) => Seek(s, millis)
    case MuteCall(muted) => Mute(s, muted)
    case ChangeSpeedCall(speed) => ChangeSpeed(s, speed, sdkInt)
  }

  /**
   * When a step can happen: seek needs a player (it throws otherwise); a callback needs
   * a player that has the listener and is in the state the platform calls it from
   * (a seek completion needs a seek still pending); a tick needs a pending runnable.
   */
  predicate Enabled(s: Snapshot, step: Step)
  {
    match step
    case Invoke(c, _) => c.SeekCall? ==> s.player.Some?
    case PrepareDone(_) => s.player.Some? && s.player.value.stage == Preparing
    case SeekDone => s.player.Some? && s.player.value.stage == Prepared && s.player.value.seekPending
    case PlaybackDone => s.player.Some? && s.player.value.stage == Prepared && s.player.value.playing
    case ErrorReported(_, _) => s.player.Some? && s.player.value.stage != Dead
    case TickRan(_) => s.ticks > 0
  }

  function Apply(s: Snapshot, step: Step, sdkInt: int): Snapshot
    requires Enabled(s, step)
  {
    match step
    case Invoke(c, platform) => Execute(s, c, platform, sdkInt)
    case PrepareDone(duration) => OnPrepared(s, duration)
    case SeekDone => OnSeekComplete(s)
    case PlaybackDone => OnCompletion(s)
    case ErrorReported(what, extra) => OnPlayerError(s, what, extra)
    case TickRan(position) => Tick(s, position)
  }

  /** Every step of the sequence is enabled when its turn comes. */
  predicate Runnable(s: Snapshot, steps: seq<Step>, sdkInt: int)
    decreases |steps|
  {
    steps == [] || (Enabled(s, steps[0]) && Runnable(Apply(s, steps[0], sdkInt), steps[1..], sdkInt))
  }

  function Run(s: Snapshot, steps: seq<Step>, sdkInt: int): Snapshot
    requires Runnable(s, steps, sdkInt)
    decreases |steps|
  {
    if steps == [] then s else Run(Apply(s, steps[0], sdkInt), steps[1..], sdkInt)
  }
}
