/**
 * Properties of the playback controller: invariants every step keeps, facts about
 * whole runs, and the sequences of calls in which the controller's quirks show.
 */
module ControllerFacts {
  import opened Base
  import opened Channel
  import opened Controller

  // ---------------------------------------------------------------------------
  // One step

  /** Every command and callback keeps the invariant. */
  lemma StepPreservesInv(s: Snapshot, step: Step, sdkInt: int)
    requires Inv(s) && Enabled(s, step)
    ensures Inv(Apply(s, step, sdkInt))
  {
  }

  /** The event log only grows. */
  lemma StepAppendsEvents(s: Snapshot, step: Step, sdkInt: int)
    requires Enabled(s, step)
    ensures s.events <= Apply(s, step, sdkInt).events
  {
  }

  /** A log in which every onComplete is followed by onStop stays so after appending such a log. */
  lemma PairedAppend(log: seq<Event>, more: seq<Event>)
    requires CompletionPaired(log) && CompletionPaired(more)
    ensures CompletionPaired(log + more)
  {
    var all := log + more;
    forall i | 0 <= i < |all| && all[i] == OnComplete
      ensures i + 1 < |all| && all[i + 1] == OnStop
    {
      if i < |log| {
        assert log[i] == OnComplete;
      } else {
        assert more[i - |log|] == OnComplete;
      }
    }
  }

  /** onComplete is always sent together with the onStop of the release that follows it. */
  lemma StepKeepsPairing(s: Snapshot, step: Step, sdkInt: int)
    requires Enabled(s, step) && CompletionPaired(s.events)
    ensures CompletionPaired(Apply(s, step, sdkInt).events)
  {
    var t := Apply(s, step, sdkInt);
    var more := t.events[|s.events|..];
    assert t.events == s.events + more;
    assert CompletionPaired(more) by {
      if step.PlaybackDone? {
        assert more == [OnComplete, OnStop];
      } else {
        assert OnComplete !in more;
      }
    }
    PairedAppend(s.events, more);
  }

  /** onStop is sent by a step exactly when that step drops the player. */
  lemma ReleaseIffOnStop(s: Snapshot, step: Step, sdkInt: int)
    requires Enabled(s, step)
    ensures var t := Apply(s, step, sdkInt);
      |s.events| <= |t.events| &&
      ((s.player.Some? && t.player.None?) <==> OnStop in t.events[|s.events|..])
  {
    var t := Apply(s, step, sdkInt);
    assert step.PlaybackDone? ==> t.events[|s.events|..] == [OnComplete, OnStop];
    assert step.Invoke? && step.command.StopCall? && s.player.Some? ==> t.events[|s.events|..] == [OnStop];
  }

  /** Only `mute` changes the stream's mute state. */
  lemma OnlyMuteChangesStream(s: Snapshot, step: Step, sdkInt: int)
    requires Enabled(s, step)
    ensures Apply(s, step, sdkInt).muted ==
      if step.Invoke? && step.command.MuteCall? then step.command.muted else s.muted
  {
  }

  /** Under the invariant a tick always finds a player: the caught exception of sendData cannot occur. */
  lemma TickFindsPlayer(s: Snapshot)
    requires Inv(s) && s.ticks > 0
    ensures s.player.Some?
  {
  }

  // ---------------------------------------------------------------------------
  // Whole runs

  /** Along every run the invariant holds, onComplete stays paired and the log only grows. */
  lemma {:induction false} RunInvariants(s: Snapshot, steps: seq<Step>, sdkInt: int)
    requires Inv(s) && CompletionPaired(s.events) && Runnable(s, steps, sdkInt)
    ensures var t := Run(s, steps, sdkInt);
      Inv(t) && CompletionPaired(t.events) && s.events <= t.events
    decreases |steps|
  {
    if steps != [] {
      var next := Apply(s, steps[0], sdkInt);
      StepPreservesInv(s, steps[0], sdkInt);
      StepKeepsPairing(s, steps[0], sdkInt);
      StepAppendsEvents(s, steps[0], sdkInt);
      RunInvariants(next, steps[1..], sdkInt);
    }
  }

  /** Every state reachable from construction satisfies the invariant. */
  lemma ReachableInv(muted: bool, steps: seq<Step>, sdkInt: int)
    requires Runnable(Initial(muted), steps, sdkInt)
    ensures Inv(Run(Initial(muted), steps, sdkInt))
    ensures CompletionPaired(Run(Initial(muted), steps, sdkInt).events)
  {
    RunInvariants(Initial(muted), steps, sdkInt);
  }

  /** After stop nothing but a command can happen: no tick and no callback is left to fire. */
  lemma StopLeavesOnlyCommands(s: Snapshot, step: Step)
    requires Enabled(Stop(s), step)
    ensures step.Invoke?
  {
  }

  /** A player whose data source failed gets no callback; only a command or a pending tick can follow. */
  lemma DeadPlayerGetsNoCallback(s: Snapshot, step: Step)
    requires s.player.Some? && s.player.value.stage == Dead && Enabled(s, step)
    ensures step.Invoke? || step.TickRan?
  {
  }

  /** A run of consecutive ticks with the given positions. */
  function TickSteps(positions: seq<int32>): (steps: seq<Step>)
    ensures |steps| == |positions|
  {
    if positions == [] then [] else [TickRan(positions[0])] + TickSteps(positions[1..])
  }

  function PositionEvents(positions: seq<int32>): (events: seq<Event>)
    ensures |events| == |positions|
  {
    if positions == [] then [] else [OnCurrentPosition(positions[0])] + PositionEvents(positions[1..])
  }

  /**
   * The position reporter never stops by itself: once a tick is pending, every tick sends
   * one position and leaves a tick pending, whether the player plays or not. While it is
   * not playing, one pending tick remains; while it plays, stacked ticks all remain.
   */
  lemma {:induction false} ReporterNeverStopsItself(s: Snapshot, positions: seq<int32>, sdkInt: int)
    requires s.player.Some? && s.ticks > 0
    ensures Runnable(s, TickSteps(positions), sdkInt)
    ensures var t := Run(s, TickSteps(positions), sdkInt);
      t.player == s.player && t.muted == s.muted && t.ticks > 0 &&
      t.events == s.events + PositionEvents(positions) &&
      (s.player.value.playing ==> t.ticks == s.ticks) &&
      (!s.player.value.playing && positions != [] ==> t.ticks == 1)
    decreases |positions|
  {
    if positions != [] {
      var steps := TickSteps(positions);
      assert steps[0] == TickRan(positions[0]) && steps[1..] == TickSteps(positions[1..]);
      var next := Tick(s, positions[0]);
      ReporterNeverStopsItself(next, positions[1..], sdkInt);
      assert PositionEvents(positions) == [OnCurrentPosition(positions[0])] + PositionEvents(positions[1..]);
    }
  }

  // ---------------------------------------------------------------------------
  // Sequences of calls

  /** Stop twice: the second stop changes nothing and sends nothing. */
  lemma StopIdempotent(s: Snapshot)
    ensures Stop(Stop(s)) == Stop(s)
  {
  }

  /** Pause twice with a player sends onPause twice; without one, nothing. */
  lemma PauseTwice(s: Snapshot)
    ensures Pause(Pause(s)).events == if s.player.Some? then s.events + [OnPause, OnPause] else s.events
    ensures Pause(Pause(s)) == Pause(s).(events := Pause(Pause(s)).events)
  {
  }

  /** A stop after completion finds no player and sends nothing more. */
  lemma StopAfterCompletion(s: Snapshot)
    requires s.player.Some?
    ensures Stop(OnCompletion(s)) == OnCompletion(s)
  {
  }

  /**
   * A play whose data source fails leaves a dead player and sends only the invalid-source
   * error, with no onStart and no tick; a later stop still finds that player and sends onStop.
   */
  lemma FailedBindThenStop(s: Snapshot, from: int32, speed: Speed, duration: int32)
    requires s.player.None?
    ensures var t := Play(s, from, speed, false, duration);
      t.player.Some? && t.player.value.stage == Dead && t.ticks == s.ticks &&
      t.events == s.events + [OnError(InvalidDatasource)] &&
      OnStart(duration) !in t.events[|s.events|..] &&
      Stop(t).events == s.events + [OnError(InvalidDatasource), OnStop]
  {
  }

  /** A play on a dead player is a resume: it sends onStart and posts a tick. */
  lemma PlayOnDeadPlayerResumes(s: Snapshot, from: int32, speed: Speed, bindSucceeds: bool, duration: int32)
    requires s.player.Some? && s.player.value.stage == Dead
    ensures var t := Play(s, from, speed, bindSucceeds, duration);
      t.player.value.stage == Dead && t.player.value.playing &&
      t.events == s.events + [OnStart(duration)] && t.ticks == s.ticks + 1
  {
  }

  /** Two plays on an existing player add two ticks and send two onStart events. */
  lemma PlayTwiceStacksTicks(s: Snapshot, from1: int32, from2: int32, speed1: Speed, speed2: Speed,
                             b1: bool, b2: bool, d1: int32, d2: int32)
    requires s.player.Some?
    ensures var t := Play(Play(s, from1, speed1, b1, d1), from2, speed2, b2, d2);
      t.ticks == s.ticks + 2 && t.events == s.events + [OnStart(d1), OnStart(d2)] &&
      t.player == Some(s.player.value.(playing := true))
  {
  }

  /**
   * From an empty controller: play, play again while preparing, prepare with offset 0.
   * Two ticks are pending, and while the player plays each of them keeps rescheduling itself.
   */
  lemma DuplicateReporters(muted: bool, from: int32, speed: Speed, d0: int32, d1: int32, d2: int32,
                           position: int32)
    requires from == 0
    ensures var s := OnPrepared(Play(Play(Initial(muted), from, speed, true, d0), from, speed, true, d1), d2);
      s.ticks == 2 && s.player.value.playing &&
      s.events == [OnStart(d1), OnStart(d2)] &&
      Tick(s, position).ticks == 2
  {
  }

  /**
   * With a nonzero offset onStart is sent when preparation ends, before the seek has
   * completed and before the code calls start(); positions are sent even before preparation.
   */
  lemma StartAnnouncedBeforeSeek(s: Snapshot, from: int32, speed: Speed, d: int32, position: int32)
    requires s.player.None? && from != 0
    ensures var t1 := Play(s, from, speed, true, d);
      Tick(t1, position).events == s.events + [OnCurrentPosition(position)]
    ensures var t2 := OnPrepared(Play(s, from, speed, true, d), d);
      t2.events == s.events + [OnStart(d)] && !t2.player.value.playing &&
      t2.player.value.seekTarget == Some(Wrap32(from * 1000)) &&
      t2.player.value.speed == speed
    ensures var t3 := OnSeekComplete(OnPrepared(Play(s, from, speed, true, d), d));
      t3.player.value.playing && t3.events == s.events + [OnStart(d)]
  {
  }

  /**
   * The platform reports one completion per seekTo: once the seek has completed, no further
   * completion can arrive until the next seek, so a paused player is not restarted by itself.
   */
  lemma SeekCompletesOnce(s: Snapshot, step: Step, sdkInt: int)
    requires Enabled(s, SeekDone)
    requires var t := OnSeekComplete(s); Enabled(t, step) && Enabled(Apply(t, step, sdkInt), SeekDone)
    ensures step.Invoke? && step.command.SeekCall?
  {
  }

  /** Play with an offset, prepared, seek done, paused: no seek completion is left to restart it. */
  lemma PauseAfterSeekStays(s: Snapshot, from: int32, speed: Speed, d: int32)
    requires s.player.None? && from != 0
    ensures var t := Pause(OnSeekComplete(OnPrepared(Play(s, from, speed, true, d), d)));
      !t.player.value.playing && !Enabled(t, SeekDone)
  {
  }

  /**
   * The seek-complete listener stays registered: after a pause, a user seek restarts
   * playback when it completes, with no onStart and no tick pending.
   */
  lemma SeekAfterPauseRestarts(s: Snapshot, millis: int32)
    requires s.player.Some? && s.player.value.startOnSeekComplete
    ensures var t := OnSeekComplete(Seek(Pause(s), millis));
      t.player.value.playing && t.ticks == 0 && t.events == s.events + [OnPause]
  {
  }

  /** Pause then play resumes the same player: same request and speed, no rebinding. */
  lemma PauseThenPlayResumes(s: Snapshot, from: int32, speed: Speed, bindSucceeds: bool, d: int32)
    requires s.player.Some?
    ensures var t := Play(Pause(s), from, speed, bindSucceeds, d);
      t.player == Some(s.player.value.(playing := true)) &&
      t.ticks == 1 && t.events == s.events + [OnPause, OnStart(d)]
  {
  }

  /** After stop a play binds a fresh player with the new offset and speed. */
  lemma StopThenPlayRebinds(s: Snapshot, from: int32, speed: Speed, d: int32)
    ensures var t := Play(Stop(s), from, speed, true, d);
      t.player == Some(NewPlayer(Preparing, from, speed)) && t.ticks == 1
  {
  }

  /** The seek of onPrepared lands exactly on offset * 1000 ms while that fits in an int... */
  lemma SeekTargetExact(from: int32)
    requires -2147483 <= from <= 2147483
    ensures Wrap32(from * 1000) == from * 1000
  {
  }

  /** ...and wraps to a negative position just beyond. */
  lemma SeekTargetWraps()
    ensures Wrap32(2147484 * 1000) == -2147483296
  {
  }
}
