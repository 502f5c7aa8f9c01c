/**
 * The SmartifyTV media player entity: the controller's fields, updated in place
 * by its methods.  Each method that models an operation is proved to leave the
 * object in the state the corresponding function of module Controller describes.
 * The helpers `EnsureCommandPause`, `PressKey`, `PressKeys` and `DialChannel` are
 * specified directly instead.
 */
module MediaPlayer {
  import opened Wrappers
  import opened Commands
  import opened Decimal
  import opened Store
  import opened Controller

  class SmartifyTVMediaPlayer {
    const uniqueId: string
    const powerEntity: string
    /** The abstract clock (the source's `time.time()`). */
    var now: real
    var state: PowerState
    var attrState: MediaPlayerState
    var isUnavailable: bool
    var isMute: bool
    /** Volume in tenths, 0 to 10. */
    var volumeLevel: int
    var currentChannel: int
    var lastCommandTime: real
    var irRemotePlatform: Option<string>
    /** Whether set-up found the Broadlink command file. */
    var irRemoteCmdFile: bool
    var learnedCommands: Option<Json>
    var learningLocked: bool
    /** Some(t) while a learning call waits, to resume at t. */
    var pendingLearn: Option<real>
    /** What the remote's send service has received. */
    var sent: seq<Transmission>
    /** What the remote's learn service has received. */
    var learnRequests: seq<string>

    function Model(): Snapshot
      reads this
    {
      Snapshot(uniqueId, powerEntity, now, state, attrState, isUnavailable, isMute, volumeLevel,
               currentChannel, lastCommandTime, irRemotePlatform, irRemoteCmdFile, learnedCommands, learningLocked,
               pendingLearn, sent, learnRequests)
    }

    constructor (uniqueId: string, powerEntity: string, startTime: real)
      ensures Model() == Initial(uniqueId, powerEntity, startTime)
    {
      this.uniqueId := uniqueId;
      this.powerEntity := powerEntity;
      now := startTime;
      state := StateOff;
      attrState := Off;
      isUnavailable := false;
      isMute := false;
      volumeLevel := 2;
      currentChannel := 1;
      lastCommandTime := 0.0;
      irRemotePlatform := None;
      irRemoteCmdFile := false;
      learnedCommands := None;
      learningLocked := false;
      pendingLearn := None;
      sent := [];
      learnRequests := [];
    }

    /** Time passes: the coroutine sleeps, or the host is idle. */
    method Elapse(seconds: real)
      modifies this
      ensures Model() == Controller.Elapse(old(Model()), seconds)
    {
      if seconds > 0.0 {
        now := now + seconds;
      }
    }

    method UpdatePowerState(reading: PowerReading, ir: Option<string>)
      modifies this
      ensures Model() == Controller.UpdatePowerState(old(Model()), reading, ir)
    {
      var d := DerivePower(reading, ir, attrState);
      state := d.state;
      attrState := d.attrState;
      isUnavailable := d.isUnavailable;
    }

    method HandlePowerStateChange(entityId: string, reading: PowerReading, ir: Option<string>)
      modifies this
      ensures Model() == Controller.HandlePowerStateChange(old(Model()), entityId, reading, ir)
    {
      if entityId == powerEntity {
        UpdatePowerState(reading, ir);
      }
    }

    /** Set-up before the power derivation; answers whether set-up goes on to derive it. */
    method Configure(platform: string, store: Option<Json>) returns (derive: bool)
      modifies this
      ensures derive <==> !CopyRaisesAtSetup(old(Model()), platform, store)
      ensures Model() == Controller.Configure(old(Model()), platform, store)
    {
      irRemotePlatform := Some(platform);
      derive := true;
      if platform == BROADLINK {
        irRemoteCmdFile := store.Some?;
        var selection := ReadBroadlinkCommands(store, uniqueId);
        if selection.CopyRaises? {
          derive := false;
        } else {
          learnedCommands := if selection.Selected? then Some(selection.record) else None;
        }
      }
    }

    method Initialize(registryPlatform: Option<string>, store: Option<Json>, reading: PowerReading, ir: Option<string>)
      modifies this
      ensures Model() == Controller.Initialize(old(Model()), registryPlatform, store, reading, ir)
    {
      if registryPlatform.None? {
        return;
      }
      var platform := AsciiLower(registryPlatform.value);
      var derive := Configure(platform, store);
      if derive {
        UpdatePowerState(reading, ir);
      }
    }

    method TurnOn()
      modifies this
      ensures Model() == Controller.TurnOn(old(Model()))
    {
      if state == StateOff {
        HandleSendCommand(Name(POWER_ON));
      }
    }

    method TurnOff()
      modifies this
      ensures Model() == Controller.TurnOff(old(Model()))
    {
      if state == StateOn {
        HandleSendCommand(Name(POWER_OFF));
      }
    }

    /** Hands the command to the transport when the learned-command gate allows it. */
    method HandleSendCommand(command: string)
      modifies this
      ensures Model() == Controller.HandleSendCommand(old(Model()), command)
    {
      if CheckCommandExistence(irRemotePlatform, learnedCommands, command) {
        sent := sent + [Transmission(command, now)];
      }
    }

    method HandleLearnCommand(command: string)
      modifies this
      ensures Model() == Controller.HandleLearnCommand(old(Model()), command)
    {
      if learningLocked {
        return;
      }
      learnRequests := learnRequests + [command];
      if irRemotePlatform == Some(BROADLINK) {
        learningLocked := true;
        pendingLearn := Some(now + LEARNING_WINDOW);
      }
    }

    /** The rest of a learning call, once its wait is over. */
    method ResumeLearning(store: Option<Json>)
      requires pendingLearn.Some? && now >= pendingLearn.value
      modifies this
      ensures Model() == Controller.ResumeLearning(old(Model()), store)
    {
      pendingLearn := None;
      if irRemoteCmdFile {
        var reread := ReadBroadlinkCommands(store, uniqueId);
        if reread.CopyRaises? {
          return;
        }
      }
      learningLocked := false;
    }

    /** Sleeps until `pauseDuration` has passed since `last`, and returns the time afterwards. */
    method EnsureCommandPause(last: real, pauseDuration: real) returns (updated: real)
      modifies this
      ensures updated == now && updated == Max(old(now), last + pauseDuration)
      ensures Model() == old(Model()).(now := old(now) + PauseWait(old(now), last, pauseDuration))
    {
      var currentTime := now;
      var elapsedTime := currentTime - last;
      if elapsedTime < pauseDuration {
        Elapse(pauseDuration - elapsedTime);
      }
      updated := now;
    }

    method MuteVolume(mute: bool)
      modifies this
      ensures Model() == Controller.MuteVolume(old(Model()), mute)
    {
      ghost var before := Model();
      lastCommandTime := EnsureCommandPause(lastCommandTime, INTERCOMMAND_PAUSE);
      assert Model() == Pace(before);
      isMute := mute;
      var command := if mute then MUTE else UNMUTE;
      HandleSendCommand(Name(command));
    }

    method VolumeUp()
      modifies this
      ensures Model() == Controller.VolumeUp(old(Model()))
    {
      ghost var before := Model();
      lastCommandTime := EnsureCommandPause(lastCommandTime, INTERCOMMAND_PAUSE);
      assert Model() == Pace(before);
      HandleSendCommand(Name(VOLUME_UP));
      if volumeLevel < 10 {
        volumeLevel := Min(10, volumeLevel + 1);
      }
    }

    method VolumeDown()
      modifies this
      ensures Model() == Controller.VolumeDown(old(Model()))
    {
      ghost var before := Model();
      lastCommandTime := EnsureCommandPause(lastCommandTime, INTERCOMMAND_PAUSE);
      assert Model() == Pace(before);
      HandleSendCommand(Name(VOLUME_DOWN));
      if volumeLevel > 0 {
        volumeLevel := if volumeLevel - 1 >= 0 then volumeLevel - 1 else 0;
      }
    }

    method MediaPreviousTrack()
      modifies this
      ensures Model() == Controller.MediaPreviousTrack(old(Model()))
    {
      lastCommandTime := EnsureCommandPause(lastCommandTime, INTERCOMMAND_PAUSE);
      HandleSendCommand(Name(CHANNEL_DOWN));
    }

    method MediaNextTrack()
      modifies this
      ensures Model() == Controller.MediaNextTrack(old(Model()))
    {
      lastCommandTime := EnsureCommandPause(lastCommandTime, INTERCOMMAND_PAUSE);
      HandleSendCommand(Name(CHANNEL_UP));
    }

    /** Presses the buttons in turn, sleeping a pause after each press. */
    /** One press of a channel dial: send the key, then sleep one pause. */
    method PressKey(key: string)
      modifies this
      ensures Model() == old(Model()).(now := old(now) + INTERCOMMAND_PAUSE,
                                       sent := old(sent) + Attempt(irRemotePlatform, learnedCommands, key, old(now)))
    {
      HandleSendCommand(key);
      Elapse(INTERCOMMAND_PAUSE);
    }

    method PressKeys(keys: seq<string>)
      modifies this
      ensures Model() == old(Model()).(now := old(now) + |keys| as real * INTERCOMMAND_PAUSE,
                                       sent := old(sent) + Dispatch(irRemotePlatform, learnedCommands, keys, old(now)))
    {
      ghost var start := Model();
      ghost var log: seq<Transmission> := [];
      var i := 0;
      while i < |keys|
        invariant 0 <= i <= |keys|
        invariant log == Dispatch(start.irRemotePlatform, start.learnedCommands, keys[..i], start.now)
        invariant Model() == start.(now := now, sent := sent)
        invariant now == start.now + i as real * INTERCOMMAND_PAUSE
        invariant sent == start.sent + log
      {
        ghost var step := Attempt(start.irRemotePlatform, start.learnedCommands, keys[i], now);
        DispatchSnoc(start.irRemotePlatform, start.learnedCommands, keys, i, start.now);
        AppendAssoc(start.sent, log, step);
        log := log + step;
        PressKey(keys[i]);
        i := i + 1;
      }
      assert keys[..|keys|] == keys;
    }

    /** Records an accepted channel and presses its digits. */
    method DialChannel(channelNumber: int)
      requires 1 <= channelNumber <= 999
      modifies this
      ensures Model() == old(Model()).(currentChannel := channelNumber,
                                       sent := old(sent) + Dispatch(irRemotePlatform, learnedCommands, ChannelKeys(channelNumber), old(now)),
                                       now := old(now) + |ChannelKeys(channelNumber)| as real * INTERCOMMAND_PAUSE)
    {
      currentChannel := channelNumber;
      var keys := ChannelKeys(channelNumber);
      PressKeys(keys);
    }

    /** Paces once, then, for a channel from 1 to 999, records it and presses its digits. */
    method SetChannel(channelNumber: int)
      modifies this
      ensures Model() == Controller.SetChannel(old(Model()), channelNumber)
    {
      ghost var before := Model();
      lastCommandTime := EnsureCommandPause(lastCommandTime, INTERCOMMAND_PAUSE);
      ghost var paced := Model();
      assert paced == Pace(before);
      if 1 <= channelNumber <= 999 {
        DialChannel(channelNumber);
      }
    }

    method PlayMedia(mediaType: string, mediaId: string)
      modifies this
      ensures Model() == Controller.PlayMedia(old(Model()), mediaType, mediaId)
    {
      if mediaType == MEDIA_TYPE_CHANNEL {
        if !IsNumeric(mediaId) {
          return;
        }
        SetChannel(ParseDecimal(mediaId));
      }
    }

    method MediaPlay()
      modifies this
      ensures Model() == Controller.MediaPlay(old(Model()))
    {
      if state == StateOff {
        return;
      }
      lastCommandTime := EnsureCommandPause(lastCommandTime, INTERCOMMAND_PAUSE);
      HandleSendCommand(Name(PLAY));
      attrState := Playing;
    }

    method MediaPlayPause()
      modifies this
      ensures Model() == Controller.MediaPlayPause(old(Model()))
    {
      if state == StateOff {
        return;
      }
      ghost var before := Model();
      lastCommandTime := EnsureCommandPause(lastCommandTime, INTERCOMMAND_PAUSE);
      assert Model() == Pace(before);
      var newCommand := if attrState == Playing then PAUSE else PLAY;
      assert newCommand == ToggleCommand(before.attrState);
      HandleSendCommand(Name(newCommand));
      if attrState == Playing {
        attrState := Paused;
      } else {
        attrState := Playing;
      }
    }

    method MediaPause()
      modifies this
      ensures Model() == Controller.MediaPause(old(Model()))
    {
      if state == StateOff {
        return;
      }
      lastCommandTime := EnsureCommandPause(lastCommandTime, INTERCOMMAND_PAUSE);
      HandleSendCommand(Name(PAUSE));
      attrState := Paused;
    }

    method MediaStop()
      modifies this
      ensures Model() == Controller.MediaStop(old(Model()))
    {
      if state == StateOff {
        return;
      }
      lastCommandTime := EnsureCommandPause(lastCommandTime, INTERCOMMAND_PAUSE);
      HandleSendCommand(Name(STOP));
      attrState := Idle;
    }
  }
}
