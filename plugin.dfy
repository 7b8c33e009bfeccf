/**
 * The plugin object. Its fields are the `mediaPlayer` reference, the handler's queue of
 * `sendData` runs (as a count), the events sent on the channel, and the mute state of
 * the music stream; every command and listener changes them in place, on the single
 * main looper, and each method's effect is the transition of module Controller.
 */
module Plugin {
  import opened Base
  import opened Channel
  import opened Controller
  import opened Dispatch

  class AudioplayerPlugin {
    /** `Build.VERSION.SDK_INT`. */
    const sdkInt: int
    var mediaPlayer: Option<Player>
    var pendingTicks: nat
    var events: seq<Event>
    var streamMuted: bool

    function Model(): Snapshot
      reads this
    {
      Snapshot(mediaPlayer, pendingTicks, events, streamMuted)
    }

    ghost predicate Valid()
      reads this
    {
      Inv(Model()) && CompletionPaired(events)
    }

    /** `streamMuted` is the mute state the music stream has when the plugin is registered. */
    constructor (sdkInt: int, streamMuted: bool)
      ensures Valid() && Model() == Initial(streamMuted) && this.sdkInt == sdkInt
    {
      this.sdkInt := sdkInt;
      mediaPlayer := None;
      pendingTicks := 0;
      events := [];
      this.streamMuted := streamMuted;
    }

    /** The switch on the method name; `seek` with no player throws, so it needs one. */
    method OnMethodCall(call: MethodCall, platform: Platform) returns (reply: Reply)
      requires Valid()
      requires call.name == "seek" ==> mediaPlayer.Some?
      modifies this
      ensures Valid()
      ensures reply == ReplyTo(call)
      ensures Model() == match Decode(call)
        case Some(c) => Execute(old(Model()), c, platform, sdkInt)
        case None => old(Model())
    {
      var a := call.arguments;
      if call.name == "play" {
        Play(a.url, a.from, a.speed, platform.bindSucceeds, platform.duration);
        reply := Success;
      } else if call.name == "pause" {
        Pause();
        reply := Success;
      } else if call.name == "stop" {
        Stop();
        reply := Success;
      } else if call.name == "seek" {
        Seek(a.seekMillis);
        reply := Success;
      } else if call.name == "mute" {
        Mute(a.muted);
        reply := Success;
      } else if call.name == "changeSpeed" {
        ChangeSpeed(a.value);
        reply := Success;
      } else {
        reply := NotImplemented;
      }
    }

    /** Sets the mute state of the music stream (either SDK branch). */
    method Mute(muted: bool)
      requires Valid()
      modifies this
      ensures Valid() && Model() == Controller.Mute(old(Model()), muted)
    {
      streamMuted := muted;
    }

    method Seek(millis: int32)
      requires Valid() && mediaPlayer.Some?
      modifies this
      ensures Valid() && Model() == Controller.Seek(old(Model()), millis)
    {
      mediaPlayer := Some(mediaPlayer.value.(seekTarget := Some(millis), seekPending := true));
    }

    /** Also run by the completion listener, right after it has sent onComplete. */
    method Stop()
      requires Inv(Model())
      modifies this
      ensures Inv(Model()) && Model() == Controller.Stop(old(Model()))
      ensures old(CompletionPaired(events)) ==> CompletionPaired(events)
    {
      pendingTicks := 0;
      if mediaPlayer.Some? {
        mediaPlayer := None;
        events := events + [OnStop];
      }
    }

    method ChangeSpeed(value: Speed)
      requires Valid()
      modifies this
      ensures Valid() && Model() == Controller.ChangeSpeed(old(Model()), value, sdkInt)
    {
      pendingTicks := 0;
      if mediaPlayer.Some? && sdkInt >= SdkM {
        mediaPlayer := Some(mediaPlayer.value.(speed := value));
      }
    }

    method Pause()
      requires Valid()
      modifies this
      ensures Valid() && Model() == Controller.Pause(old(Model()))
    {
      pendingTicks := 0;
      if mediaPlayer.Some? {
        mediaPlayer := Some(mediaPlayer.value.(playing := false));
        events := events + [OnPause];
      }
    }

    /**
     * `bindSucceeds` is whether setDataSource(url) returns normally; `duration` is what
     * getDuration returns when an existing player is resumed.
     */
    method Play(url: string, from: int32, speed: Speed, bindSucceeds: bool, duration: int32)
      requires Valid()
      modifies this
      ensures Valid() && Model() == Controller.Play(old(Model()), from, speed, bindSucceeds, duration)
    {
      if mediaPlayer.None? {
        if !bindSucceeds {
          mediaPlayer := Some(NewPlayer(Dead, from, speed));
          events := events + [Event.OnError(InvalidDatasource)];
          return;
        }
        // prepareAsync, then the prepared, completion and error listeners
        mediaPlayer := Some(NewPlayer(Preparing, from, speed));
      } else {
        mediaPlayer := Some(mediaPlayer.value.(playing := true));
        events := events + [OnStart(duration)];
      }
      pendingTicks := pendingTicks + 1;
    }

    /** The prepared listener; `duration` is what getDuration returns. */
    method OnPrepared(duration: int32)
      requires Valid() && Enabled(Model(), PrepareDone(duration))
      modifies this
      ensures Valid() && Model() == Controller.OnPrepared(old(Model()), duration)
    {
      var p := mediaPlayer.value.(stage := Prepared, speed := mediaPlayer.value.requestedSpeed);
      if p.from != 0 {
        p := p.(seekTarget := Some(Wrap32(p.from * 1000)), seekPending := true, startOnSeekComplete := true);
      } else {
        p := p.(playing := true);
      }
      mediaPlayer := Some(p);
      events := events + [OnStart(duration)];
    }

    method OnSeekComplete()
      requires Valid() && Enabled(Model(), SeekDone)
      modifies this
      ensures Valid() && Model() == Controller.OnSeekComplete(old(Model()))
    {
      var p := mediaPlayer.value.(seekPending := false);
      if p.startOnSeekComplete {
        p := p.(playing := true);
      }
      mediaPlayer := Some(p);
    }

    method OnCompletion()
      requires Valid() && Enabled(Model(), PlaybackDone)
      modifies this
      ensures Valid() && Model() == Controller.OnCompletion(old(Model()))
    {
      events := events + [OnComplete];
      Stop();
    }

    /** The error listener; it reports the error as handled. */
    method OnError(what: int32, extra: int32) returns (handled: bool)
      requires Valid() && Enabled(Model(), ErrorReported(what, extra))
      modifies this
      ensures Valid() && Model() == OnPlayerError(old(Model()), what, extra)
      ensures handled
    {
      events := events + [Event.OnError(ErrorPayload(what, extra))];
      handled := true;
    }

    /** One run of `sendData`, just taken off the handler's queue; `position` is what getCurrentPosition returns. */
    method SendData(position: int32)
      requires Valid() && pendingTicks > 0
      modifies this
      ensures Valid() && Model() == Tick(old(Model()), position)
    {
      pendingTicks := pendingTicks - 1;
      if mediaPlayer.None? {
        return;  // isPlaying() on null throws; the handler catches it
      }
      if !mediaPlayer.value.playing {
        pendingTicks := 0;
      }
      events := events + [OnCurrentPosition(position)];
      pendingTicks := pendingTicks + 1;
    }
  }
}
