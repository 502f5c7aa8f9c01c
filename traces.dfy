/**
 * Runs of the controller: a trace of host intents applied one after another to
 * the state value of module Controller.  The lemmas here state what holds of
 * every run: the state stays valid, and as long as only paced intents occur the
 * transport log keeps consecutive commands at least one pause apart.  Turning
 * the TV on or off, and the raw send service, are not paced; a two-step run
 * shows them breaking the spacing.
 */
module Traces {
  import opened Wrappers
  import opened Store
  import Commands
  import Decimal
  import C = Controller

  /** One thing the host can ask of the controller, or time passing between asks. */
  datatype Intent =
    | Initialize(registryPlatform: Option<string>, store: Option<Json>, reading: C.PowerReading, ir: Option<string>)
    | PowerStateChanged(entityId: string, reading: C.PowerReading, ir: Option<string>)
    | TurnOn
    | TurnOff
    | SendCommand(command: string)
    | LearnCommand(command: string)
    | LearningWindowEnded(store: Option<Json>)
    | MuteVolume(mute: bool)
    | VolumeUp
    | VolumeDown
    | PreviousTrack
    | NextTrack
    | SetChannel(channelNumber: int)
    | PlayMedia(mediaType: string, mediaId: string)
    | Play
    | Pause
    | Stop
    | PlayPause
    | Elapse(seconds: real)

  /**
   * The effect of one intent.  A suspended learning call resumes only once its
   * window is over; before that, or with no call suspended, the end of a window
   * changes nothing.
   */
  function Step(s: C.Snapshot, i: Intent): C.Snapshot
  {
    match i
    case Initialize(platform, store, reading, ir) => C.Initialize(s, platform, store, reading, ir)
    case PowerStateChanged(entityId, reading, ir) => C.HandlePowerStateChange(s, entityId, reading, ir)
    case TurnOn => C.TurnOn(s)
    case TurnOff => C.TurnOff(s)
    case SendCommand(command) => C.HandleSendCommand(s, command)
    case LearnCommand(command) => C.HandleLearnCommand(s, command)
    case LearningWindowEnded(store) =>
      if s.pendingLearn.Some? && s.now >= s.pendingLearn.value then C.ResumeLearning(s, store) else s
    case MuteVolume(mute) => C.MuteVolume(s, mute)
    case VolumeUp => C.VolumeUp(s)
    case VolumeDown => C.VolumeDown(s)
    case PreviousTrack => C.MediaPreviousTrack(s)
    case NextTrack => C.MediaNextTrack(s)
    case SetChannel(n) => C.SetChannel(s, n)
    case PlayMedia(mediaType, mediaId) => C.PlayMedia(s, mediaType, mediaId)
    case Play => C.MediaPlay(s)
    case Pause => C.MediaPause(s)
    case Stop => C.MediaStop(s)
    case PlayPause => C.MediaPlayPause(s)
    case Elapse(seconds) => C.Elapse(s, seconds)
  }

  /** The state after a whole trace, first intent first. */
  function Run(s: C.Snapshot, trace: seq<Intent>): C.Snapshot
    decreases |trace|
  {
    if trace == [] then s else Run(Step(s, trace[0]), trace[1..])
  }

  /** Intents that wait for the pause before they transmit, or do not transmit at all. */
  predicate Paces(i: Intent)
  {
    !(i.TurnOn? || i.TurnOff? || i.SendCommand?)
  }

  /** The unpaced sends keep the state valid: each command goes out at the current time. */
  lemma UnpacedValid(s: C.Snapshot, i: Intent)
    requires C.Valid(s) && !Paces(i)
    ensures C.Valid(Step(s, i))
  {
  }

  /** Volume, mute and the track buttons keep the state valid. */
  lemma SteppingValid(s: C.Snapshot, i: Intent)
    requires C.Valid(s)
    requires i.MuteVolume? || i.VolumeUp? || i.VolumeDown? || i.PreviousTrack? || i.NextTrack?
    ensures C.Valid(Step(s, i))
  {
  }

  /** The playback buttons keep the state valid. */
  lemma PlaybackValid(s: C.Snapshot, i: Intent)
    requires C.Valid(s)
    requires i.Play? || i.Pause? || i.Stop? || i.PlayPause?
    ensures C.Valid(Step(s, i))
  {
  }

  /** Set-up and power events keep the state valid. */
  lemma SetupValid(s: C.Snapshot, i: Intent)
    requires C.Valid(s) && (i.Initialize? || i.PowerStateChanged?)
    ensures C.Valid(Step(s, i))
  {
    if i.Initialize? {
      C.SetupSendsNothing(s, i.registryPlatform, i.store, "", i.reading, i.ir);
    } else {
      C.SetupSendsNothing(s, None, None, i.entityId, i.reading, i.ir);
    }
    assert C.SameTransport(s, Step(s, i));
  }

  /** Learning and waiting keep the state valid. */
  lemma WaitingValid(s: C.Snapshot, i: Intent)
    requires C.Valid(s) && (i.LearnCommand? || i.LearningWindowEnded? || i.Elapse?)
    ensures C.Valid(Step(s, i))
  {
  }

  /** Every intent keeps the state valid. */
  lemma StepValid(s: C.Snapshot, i: Intent)
    requires C.Valid(s)
    ensures C.Valid(Step(s, i))
  {
    if i.SetChannel? {
      C.SetChannelValid(s, i.channelNumber);
    } else if i.PlayMedia? {
      if i.mediaType == C.MEDIA_TYPE_CHANNEL && Decimal.IsNumeric(i.mediaId) {
        C.SetChannelValid(s, Decimal.ParseDecimal(i.mediaId));
      }
    } else if i.Initialize? || i.PowerStateChanged? {
      SetupValid(s, i);
    } else if i.LearnCommand? || i.LearningWindowEnded? || i.Elapse? {
      WaitingValid(s, i);
    } else if !Paces(i) {
      UnpacedValid(s, i);
    } else if i.Play? || i.Pause? || i.Stop? || i.PlayPause? {
      PlaybackValid(s, i);
    } else {
      SteppingValid(s, i);
    }
  }

  /** Volume, mute and the track buttons: one command, sent at the next slot. */
  lemma SteppingPaced(s: C.Snapshot, i: Intent)
    requires C.Paced(s) && (i.MuteVolume? || i.VolumeUp? || i.VolumeDown? || i.PreviousTrack? || i.NextTrack?)
    ensures C.Paced(Step(s, i))
  {
    match i
    case MuteVolume(mute) => C.PacedSend(s, Step(s, i), if mute then "MUTE" else "UNMUTE");
    case VolumeUp => C.PacedSend(s, Step(s, i), "VOLUME_UP");
    case VolumeDown => C.PacedSend(s, Step(s, i), "VOLUME_DOWN");
    case PreviousTrack => C.PacedSend(s, Step(s, i), "CHANNEL_DOWN");
    case NextTrack => C.PacedSend(s, Step(s, i), "CHANNEL_UP");
  }

  /** The playback buttons: nothing while off, one command at the next slot while on. */
  lemma PlaybackPaced(s: C.Snapshot, i: Intent)
    requires C.Paced(s) && (i.Play? || i.Pause? || i.Stop? || i.PlayPause?)
    ensures C.Paced(Step(s, i))
  {
    if s.state == C.StateOn {
      match i
      case Play => C.PacedSend(s, Step(s, i), "PLAY");
      case Pause => C.PacedSend(s, Step(s, i), "PAUSE");
      case Stop => C.PacedSend(s, Step(s, i), "STOP");
      case PlayPause => C.PacedSend(s, Step(s, i), Commands.Name(C.ToggleCommand(s.attrState)));
    }
  }

  /** Set-up and power events send nothing and leave the clock and the last-command time alone. */
  lemma SetupPaced(s: C.Snapshot, i: Intent)
    requires C.Paced(s) && (i.Initialize? || i.PowerStateChanged?)
    ensures C.Paced(Step(s, i))
  {
    if i.Initialize? {
      C.SetupSendsNothing(s, i.registryPlatform, i.store, "", i.reading, i.ir);
    } else {
      C.SetupSendsNothing(s, None, None, i.entityId, i.reading, i.ir);
    }
    assert C.SameTransport(s, Step(s, i));
    C.PacedQuiet(s, Step(s, i));
  }

  /** Learning and waiting send nothing and never move the clock back. */
  lemma WaitingPaced(s: C.Snapshot, i: Intent)
    requires C.Paced(s) && (i.LearnCommand? || i.LearningWindowEnded? || i.Elapse?)
    ensures C.Paced(Step(s, i))
  {
    var r := Step(s, i);
    assert r.sent == s.sent && r.now >= s.now && r.lastCommandTime == s.lastCommandTime;
    C.PacedQuiet(s, r);
  }

  /** Setting a channel, directly or as a media item. */
  lemma ChannelPaced(s: C.Snapshot, i: Intent)
    requires C.Paced(s) && (i.SetChannel? || i.PlayMedia?)
    ensures C.Paced(Step(s, i))
  {
    if i.SetChannel? {
      C.SetChannelPaced(s, i.channelNumber);
    } else if i.mediaType == C.MEDIA_TYPE_CHANNEL && Decimal.IsNumeric(i.mediaId) {
      C.SetChannelPaced(s, Decimal.ParseDecimal(i.mediaId));
    }
  }

  /** Every paced intent keeps the log paced. */
  lemma StepPaced(s: C.Snapshot, i: Intent)
    requires C.Paced(s) && Paces(i)
    ensures C.Paced(Step(s, i))
  {
    if i.MuteVolume? || i.VolumeUp? || i.VolumeDown? || i.PreviousTrack? || i.NextTrack? {
      SteppingPaced(s, i);
    } else if i.Play? || i.Pause? || i.Stop? || i.PlayPause? {
      PlaybackPaced(s, i);
    } else if i.SetChannel? || i.PlayMedia? {
      ChannelPaced(s, i);
    } else if i.Initialize? || i.PowerStateChanged? {
      SetupPaced(s, i);
    } else {
      WaitingPaced(s, i);
    }
  }

  lemma {:induction false} RunValid(s: C.Snapshot, trace: seq<Intent>)
    requires C.Valid(s)
    ensures C.Valid(Run(s, trace))
    decreases |trace|
  {
    if trace != [] {
      StepValid(s, trace[0]);
      RunValid(Step(s, trace[0]), trace[1..]);
    }
  }

  lemma {:induction false} RunPaced(s: C.Snapshot, trace: seq<Intent>)
    requires C.Paced(s)
    requires forall k :: 0 <= k < |trace| ==> Paces(trace[k])
    ensures C.Paced(Run(s, trace))
    decreases |trace|
  {
    if trace != [] {
      StepPaced(s, trace[0]);
      RunPaced(Step(s, trace[0]), trace[1..]);
    }
  }

  /**
   * The pacing guarantee: from a fresh controller, any run of paced intents,
   * with any waits and power events in between, leaves a log in which
   * consecutive commands are at least one pause apart, sent in the past, and
   * the volume on its scale.
   */
  lemma PacedRunsAreSpaced(uniqueId: string, powerEntity: string, startTime: real, trace: seq<Intent>)
    requires startTime >= 0.0
    requires forall k :: 0 <= k < |trace| ==> Paces(trace[k])
    ensures var r := Run(C.Initial(uniqueId, powerEntity, startTime), trace);
      && C.Spaced(r.sent)
      && (forall t :: t in r.sent ==> t.at <= r.now)
      && 0 <= r.volumeLevel <= 10
  {
    C.InitialInvariants(uniqueId, powerEntity, startTime);
    RunPaced(C.Initial(uniqueId, powerEntity, startTime), trace);
    RunValid(C.Initial(uniqueId, powerEntity, startTime), trace);
  }

  /**
   * Turning the TV on right after a volume press sends POWER_ON at the same
   * instant as VOLUME_UP: the power commands do not wait for the pause.
   */
  lemma TurnOnSkipsPacing()
    ensures var r := Run(C.Initial("tv", "sensor.tv_power", 100.0), [VolumeUp, TurnOn]);
      && r.sent == [C.Transmission("VOLUME_UP", 100.0), C.Transmission("POWER_ON", 100.0)]
      && !C.Spaced(r.sent)
  {
    var s0 := C.Initial("tv", "sensor.tv_power", 100.0);
    var s1 := Step(s0, VolumeUp);
    assert s1.sent == [C.Transmission("VOLUME_UP", 100.0)] && s1.now == 100.0;
    var s2 := Step(s1, TurnOn);
    assert s2.sent == [C.Transmission("VOLUME_UP", 100.0), C.Transmission("POWER_ON", 100.0)];
    assert Run(s0, [VolumeUp, TurnOn]) == Run(s1, [TurnOn]);
    assert Run(s1, [TurnOn]) == Run(s2, []);
    assert s2.sent[0].at + Commands.INTERCOMMAND_PAUSE > s2.sent[1].at;
  }
}
