/**
 * The state of one SmartifyTV media player as a value, and what each of its
 * operations does to that state.  The class in media_player.dfy performs the
 * operations step by step and is proved to agree with the functions here; the
 * lemmas below state what those functions guarantee.
 *
 * Time is an abstract clock `now` (seconds); only waiting advances it.  The IR
 * transport is a log: `sent` records every command handed to the remote's
 * send service and the time it was handed over, `learnRequests` every command
 * handed to its learn service.
 */
module Controller {
  import opened Wrappers
  import opened Commands
  import opened Decimal
  import opened Store

  /** Power draw above which the TV counts as switched on, in watts. */
  const POWER_THRESHOLD: real := 10.0
  /** The state string the IR status takes when the remote cannot be used. */
  const STATE_UNAVAILABLE: string := "unavailable"
  /** How long a learning session waits for the button press, in seconds. */
  const LEARNING_WINDOW: real := 35.0
  /** The media type under which a channel number is played. */
  const MEDIA_TYPE_CHANNEL: string := "channel"
  const BROADLINK: string := "broadlink"
  /** IR platforms whose learned commands the controller knows how to check. */
  const IR_REMOTE_KNOWN_TYPES: map<string, bool> := map[BROADLINK := true]
  /** The remote's digit buttons, by the character they stand for. */
  const BUTTON_ALIASES: map<char, Command> :=
    map['0' := KEY_0, '1' := KEY_1, '2' := KEY_2, '3' := KEY_3, '4' := KEY_4,
        '5' := KEY_5, '6' := KEY_6, '7' := KEY_7, '8' := KEY_8, '9' := KEY_9]

  /** The derived on/off state (`_state`). */
  datatype PowerState = StateOff | StateOn

  /** The state shown to the host (`_attr_state`): power derivation and playback both write it. */
  datatype MediaPlayerState = Off | On | Idle | Playing | Paused

  /** A reading of the power sensor: no such entity, "unknown" (or no value), "unavailable", a number, or text that is not a number. */
  datatype PowerReading = Absent | Unknown | Unavailable | Numeric(watts: real) | Unparseable

  datatype Derived = Derived(state: PowerState, attrState: MediaPlayerState, isUnavailable: bool)

  /** One command handed to the remote's send service. */
  datatype Transmission = Transmission(command: string, at: real)

  /**
   * The controller's state.  `irRemoteCmdFile` says whether set-up found the
   * Broadlink command file (whether `_ir_remote_cmd_file` is a path rather than
   * None).  `pendingLearn` is Some(t) while a learning call is suspended in its
   * wait, to be resumed at time t or later.
   */
  datatype Snapshot = Snapshot(
    uniqueId: string,
    powerEntity: string,
    now: real,
    state: PowerState,
    attrState: MediaPlayerState,
    isUnavailable: bool,
    isMute: bool,
    volumeLevel: int,
    currentChannel: int,
    lastCommandTime: real,
    irRemotePlatform: Option<string>,
    irRemoteCmdFile: bool,
    learnedCommands: Option<Json>,
    learningLocked: bool,
    pendingLearn: Option<real>,
    sent: seq<Transmission>,
    learnRequests: seq<string>)

  /** The state right after construction; the volume is kept in tenths (0.2 is 2). */
  function Initial(uniqueId: string, powerEntity: string, startTime: real): Snapshot
  {
    Snapshot(uniqueId, powerEntity, startTime, StateOff, Off, false, false, 2, 1, 0.0,
             None, false, None, false, None, [], [])
  }

  function Max(a: real, b: real): real
  {
    if a >= b then a else b
  }

  function Min(a: int, b: int): int
  {
    if a <= b then a else b
  }

  // ---------------------------------------------------------------------------
  // Power and availability

  /** The IR remote's status: its state, or "unavailable" when the entity is missing, unknown or unavailable. */
  function IrStatus(ir: Option<string>): (status: string)
    ensures status == STATE_UNAVAILABLE <==> ir.None? || ir.value == "unknown" || ir.value == "unavailable"
    ensures status != STATE_UNAVAILABLE ==> ir == Some(status)
  {
    if ir.Some? && ir.value != "unknown" && ir.value != "unavailable" then ir.value
    else STATE_UNAVAILABLE
  }

  /**
   * What a power reading makes of `_state`, `_attr_state` and `_is_unavailable`.
   * Only a number strictly above the threshold is on; a reading that is not a
   * number leaves `_attr_state` as it was, except that a missing sensor forces it off.
   */
  function DerivePower(reading: PowerReading, ir: Option<string>, attrState: MediaPlayerState): (d: Derived)
    ensures d.state == StateOn <==> reading.Numeric? && reading.watts > POWER_THRESHOLD
    ensures reading.Absent? ==> d.attrState == Off
    ensures reading.Numeric? ==> d.attrState == (if d.state == StateOn then On else Off)
    ensures reading.Unknown? || reading.Unavailable? || reading.Unparseable? ==> d.attrState == attrState
    ensures d.isUnavailable <==>
              !(reading.Numeric? || reading.Unparseable?) || IrStatus(ir) == STATE_UNAVAILABLE
  {
    match reading
    case Absent => Derived(StateOff, Off, true)
    case Numeric(watts) =>
      var on := watts > POWER_THRESHOLD;
      Derived(if on then StateOn else StateOff, if on then On else Off, IrStatus(ir) == STATE_UNAVAILABLE)
    case Unparseable => Derived(StateOff, attrState, IrStatus(ir) == STATE_UNAVAILABLE)
    case Unknown => Derived(StateOff, attrState, true)
    case Unavailable => Derived(StateOff, attrState, true)
  }

  function UpdatePowerState(s: Snapshot, reading: PowerReading, ir: Option<string>): Snapshot
  {
    var d := DerivePower(reading, ir, s.attrState);
    s.(state := d.state, attrState := d.attrState, isUnavailable := d.isUnavailable)
  }

  /** A state-change event re-derives the power state only when it is about the power sensor. */
  function HandlePowerStateChange(s: Snapshot, entityId: string, reading: PowerReading, ir: Option<string>): Snapshot
  {
    if entityId == s.powerEntity then UpdatePowerState(s, reading, ir) else s
  }

  // ---------------------------------------------------------------------------
  // Set-up: platform and learned commands

  function LowerChar(c: char): char
  {
    if 'A' <= c <= 'Z' then (c as int + 32) as char else c
  }

  /** Lower-casing, for ASCII letters only. */
  function AsciiLower(s: string): (r: string)
    ensures |r| == |s|
    ensures forall i :: 0 <= i < |r| ==> !('A' <= r[i] <= 'Z')
    ensures forall i :: 0 <= i < |s| ==> r[i] == if 'A' <= s[i] <= 'Z' then (s[i] as int + 32) as char else s[i]
  {
    seq(|s|, i requires 0 <= i < |s| => LowerChar(s[i]))
  }

  /**
   * Set-up once the registry has been asked for the remote's platform.  No platform
   * (no registry entry) makes `.lower()` fail and leaves everything as it was; for
   * Broadlink the command file is looked up (`store` is None when there is none),
   * the appliance's record is loaded, and a record that cannot be copied aborts the
   * set-up before the power state is derived.
   */
  function Initialize(s: Snapshot, registryPlatform: Option<string>, store: Option<Json>,
                      reading: PowerReading, ir: Option<string>): Snapshot
  {
    match registryPlatform
    case None => s
    case Some(p) =>
      var platform := AsciiLower(p);
      var configured := Configure(s, platform, store);
      if CopyRaisesAtSetup(s, platform, store) then configured
      else UpdatePowerState(configured, reading, ir)
  }

  /** The part of set-up before the power state is derived: the platform is recorded and, on Broadlink, the record loaded. */
  function Configure(s: Snapshot, platform: string, store: Option<Json>): Snapshot
  {
    var s1 := s.(irRemotePlatform := Some(platform));
    if platform != BROADLINK then s1
    else
      var selection := ReadBroadlinkCommands(store, s.uniqueId);
      s1.(irRemoteCmdFile := store.Some?,
          learnedCommands := if selection.CopyRaises? then s.learnedCommands
                             else if selection.Selected? then Some(selection.record) else None)
  }

  /** Set-up on Broadlink finds a record that `.copy()` cannot copy, and stops there. */
  predicate CopyRaisesAtSetup(s: Snapshot, platform: string, store: Option<Json>)
  {
    platform == BROADLINK && ReadBroadlinkCommands(store, s.uniqueId).CopyRaises?
  }

  // ---------------------------------------------------------------------------
  // The learned-command gate and the transport

  /**
   * May `key` be sent?  On a platform the controller does not know (or before the
   * platform is known) always; on Broadlink only when the learned commands are a
   * dict with exactly that key.
   */
  function CheckCommandExistence(platform: Option<string>, learned: Option<Json>, key: string): (ok: bool)
    ensures platform.None? || platform.value != BROADLINK ==> ok
    ensures platform == Some(BROADLINK) ==>
              (ok <==> learned.Some? && learned.value.JObject? && key in learned.value.fields)
  {
    if platform.Some? && platform.value in IR_REMOTE_KNOWN_TYPES then
      IR_REMOTE_KNOWN_TYPES[platform.value]
      && learned.Some? && learned.value.JObject? && key in learned.value.fields
    else true
  }

  /** What the transport receives when `command` is sent at time `at`: the command, or nothing if the gate refuses it. */
  function Attempt(platform: Option<string>, learned: Option<Json>, command: string, at: real): seq<Transmission>
  {
    if CheckCommandExistence(platform, learned, command) then [Transmission(command, at)] else []
  }

  /** The send-command service: the gate, then the transport, at the current time. */
  function HandleSendCommand(s: Snapshot, command: string): Snapshot
  {
    s.(sent := s.sent + Attempt(s.irRemotePlatform, s.learnedCommands, command, s.now))
  }

  /** The send service appends exactly one transmission, at the current time, when the gate allows the command, and nothing otherwise. */
  lemma SendAppendsIffAllowed(s: Snapshot, command: string)
    ensures var r := HandleSendCommand(s, command);
      && r.sent[..|s.sent|] == s.sent
      && (|r.sent| == |s.sent| + 1 <==> CheckCommandExistence(s.irRemotePlatform, s.learnedCommands, command))
      && (|r.sent| == |s.sent| || |r.sent| == |s.sent| + 1)
      && (|r.sent| > |s.sent| ==> r.sent[|s.sent|] == Transmission(command, s.now))
      && r == s.(sent := r.sent)
  {
    var r := HandleSendCommand(s, command);
    assert r.sent[..|s.sent|] == s.sent;
  }

  // ---------------------------------------------------------------------------
  // Learning

  /**
   * The learn service up to its wait.  A call while locked does nothing; otherwise
   * the learn request goes out, and on Broadlink the lock is taken and the call
   * suspends for the learning window.
   */
  function HandleLearnCommand(s: Snapshot, command: string): (r: Snapshot)
    ensures s.learningLocked ==> r == s
    ensures !s.learningLocked ==>
              && r.learnRequests == s.learnRequests + [command]
              && (r.learningLocked <==> s.irRemotePlatform == Some(BROADLINK))
              && r.learnedCommands == s.learnedCommands
              && r.sent == s.sent && r.now == s.now
    ensures !s.learningLocked ==>
              var broadlink := s.irRemotePlatform == Some(BROADLINK);
              r == s.(learnRequests := s.learnRequests + [command], learningLocked := broadlink,
                      pendingLearn := if broadlink then Some(s.now + LEARNING_WINDOW) else s.pendingLearn)
  {
    if s.learningLocked then s
    else
      var s1 := s.(learnRequests := s.learnRequests + [command]);
      if s1.irRemotePlatform == Some(BROADLINK) then
        s1.(learningLocked := true, pendingLearn := Some(s.now + LEARNING_WINDOW))
      else s1
  }

  /**
   * The learn service after its wait: the command file found at set-up, if any, is
   * read again (`store` is its content now) and the result dropped, then the lock
   * is released; a record that cannot be copied raises first and the lock stays
   * taken.  Without a command file nothing is read.
   */
  function ResumeLearning(s: Snapshot, store: Option<Json>): (r: Snapshot)
    requires s.pendingLearn.Some? && s.now >= s.pendingLearn.value
    ensures r.learnedCommands == s.learnedCommands
    ensures r.pendingLearn.None?
    ensures r.learningLocked <==>
              s.learningLocked && s.irRemoteCmdFile && ReadBroadlinkCommands(store, s.uniqueId).CopyRaises?
    ensures r == s.(pendingLearn := None, learningLocked := r.learningLocked)
  {
    var s1 := s.(pendingLearn := None);
    if s.irRemoteCmdFile && ReadBroadlinkCommands(store, s.uniqueId).CopyRaises? then s1
    else s1.(learningLocked := false)
  }

  // ---------------------------------------------------------------------------
  // Pacing

  /** How long `ensure_command_pause` sleeps: only while less than `pause` has elapsed since `last`. */
  function PauseWait(now: real, last: real, pause: real): (wait: real)
    ensures wait > 0.0 <==> now - last < pause
    ensures now + wait == Max(now, last + pause)
  {
    var elapsed := now - last;
    if elapsed < pause then pause - elapsed else 0.0
  }

  /** The earliest time the pause allows the next command. */
  function NextSlot(s: Snapshot): real
  {
    Max(s.now, s.lastCommandTime + INTERCOMMAND_PAUSE)
  }

  /** Waiting for the pause and recording the time as `_last_command_time`. */
  function Pace(s: Snapshot): (r: Snapshot)
    ensures r == s.(now := NextSlot(s), lastCommandTime := NextSlot(s))
  {
    var t := s.now + PauseWait(s.now, s.lastCommandTime, INTERCOMMAND_PAUSE);
    s.(now := t, lastCommandTime := t)
  }

  // ---------------------------------------------------------------------------
  // Power commands (not paced)

  function TurnOn(s: Snapshot): Snapshot
  {
    if s.state == StateOff then HandleSendCommand(s, Name(POWER_ON)) else s
  }

  function TurnOff(s: Snapshot): Snapshot
  {
    if s.state == StateOn then HandleSendCommand(s, Name(POWER_OFF)) else s
  }

  // ---------------------------------------------------------------------------
  // Volume and channel stepping

  function MuteVolume(s: Snapshot, mute: bool): Snapshot
  {
    HandleSendCommand(Pace(s).(isMute := mute), Name(if mute then MUTE else UNMUTE))
  }

  /** One step up on the tenths scale, stopping at 10. */
  function VolumeStepUp(level: int): (r: int)
    ensures 0 <= level <= 10 ==> 0 <= r <= 10
    ensures level < 10 ==> r == level + 1
    ensures level >= 10 ==> r == level
  {
    if level < 10 then Min(10, level + 1) else level
  }

  /** One step down on the tenths scale, stopping at 0. */
  function VolumeStepDown(level: int): (r: int)
    ensures 0 <= level <= 10 ==> 0 <= r <= 10
    ensures level > 0 ==> r == level - 1
    ensures level <= 0 ==> r == level
  {
    if level > 0 then if level - 1 >= 0 then level - 1 else 0 else level
  }

  function VolumeUp(s: Snapshot): Snapshot
  {
    var p := HandleSendCommand(Pace(s), Name(VOLUME_UP));
    p.(volumeLevel := VolumeStepUp(p.volumeLevel))
  }

  function VolumeDown(s: Snapshot): Snapshot
  {
    var p := HandleSendCommand(Pace(s), Name(VOLUME_DOWN));
    p.(volumeLevel := VolumeStepDown(p.volumeLevel))
  }

  function MediaPreviousTrack(s: Snapshot): Snapshot
  {
    HandleSendCommand(Pace(s), Name(CHANNEL_DOWN))
  }

  function MediaNextTrack(s: Snapshot): Snapshot
  {
    HandleSendCommand(Pace(s), Name(CHANNEL_UP))
  }

  // ---------------------------------------------------------------------------
  // Channel digits

  lemma AliasName(c: char)
    requires IsDigit(c)
    ensures c in BUTTON_ALIASES && Name(BUTTON_ALIASES[c]) == "KEY_" + [c]
  {
  }

  /** The button pressed for one digit. */
  function KeyName(c: char): (name: string)
    requires IsDigit(c)
    ensures name == "KEY_" + [c]
  {
    AliasName(c);
    Name(BUTTON_ALIASES[c])
  }

  /** The buttons for a run of digits, in order. */
  function DigitKeys(digits: string): (keys: seq<string>)
    requires AllDigits(digits)
    ensures |keys| == |digits|
    ensures forall i :: 0 <= i < |keys| ==> keys[i] == "KEY_" + [digits[i]]
  {
    seq(|digits|, i requires 0 <= i < |digits| => KeyName(digits[i]))
  }

  /** The digit buttons for channel n, most significant digit first. */
  function ChannelKeys(n: nat): seq<string>
  {
    DigitKeys(ToDecimal(n))
  }

  /** Channel n presses one KEY_d per decimal digit d of n, in order (`DigitKeys`'s contract at `ToDecimal(n)`, kept as a helper for the lemmas below). */
  lemma ChannelKeysSpelled(n: nat)
    ensures |ChannelKeys(n)| == |ToDecimal(n)|
    ensures forall i :: 0 <= i < |ChannelKeys(n)| ==> ChannelKeys(n)[i] == "KEY_" + [ToDecimal(n)[i]]
  {
  }

  /** What the transport receives when `commands` are sent one pause apart from `start`. */
  function Dispatch(platform: Option<string>, learned: Option<Json>, commands: seq<string>, start: real): seq<Transmission>
    decreases |commands|
  {
    if commands == [] then []
    else
      var k := |commands| - 1;
      Dispatch(platform, learned, commands[..k], start)
      + Attempt(platform, learned, commands[k], start + k as real * INTERCOMMAND_PAUSE)
  }

  /** Every press the gate allows goes out, i pauses after `start`; at most one transmission per press. */
  lemma {:induction false} DispatchSends(platform: Option<string>, learned: Option<Json>, commands: seq<string>, start: real)
    ensures var log := Dispatch(platform, learned, commands, start);
      && |log| <= |commands|
      && forall i :: 0 <= i < |commands| && CheckCommandExistence(platform, learned, commands[i]) ==>
           Transmission(commands[i], start + i as real * INTERCOMMAND_PAUSE) in log
    decreases |commands|
  {
    if commands != [] {
      var k := |commands| - 1;
      var init := commands[..k];
      var prefix := Dispatch(platform, learned, init, start);
      var log := prefix + Attempt(platform, learned, commands[k], start + k as real * INTERCOMMAND_PAUSE);
      assert Dispatch(platform, learned, commands, start) == log;
      DispatchSends(platform, learned, init, start);
      forall i | 0 <= i < k && CheckCommandExistence(platform, learned, commands[i])
        ensures Transmission(commands[i], start + i as real * INTERCOMMAND_PAUSE) in log
      {
        assert init[i] == commands[i];
        assert Transmission(init[i], start + i as real * INTERCOMMAND_PAUSE) in prefix;
      }
    }
  }

  /** Everything that goes out is a press the gate allows, at its own time, i pauses after `start`. */
  lemma {:induction false} DispatchOnlyAllowed(platform: Option<string>, learned: Option<Json>, commands: seq<string>, start: real)
    ensures forall t :: t in Dispatch(platform, learned, commands, start) ==>
              exists i :: 0 <= i < |commands| && CheckCommandExistence(platform, learned, commands[i])
                && t == Transmission(commands[i], start + i as real * INTERCOMMAND_PAUSE)
    decreases |commands|
  {
    if commands != [] {
      var k := |commands| - 1;
      var init := commands[..k];
      var prefix := Dispatch(platform, learned, init, start);
      var log := prefix + Attempt(platform, learned, commands[k], start + k as real * INTERCOMMAND_PAUSE);
      assert Dispatch(platform, learned, commands, start) == log;
      DispatchOnlyAllowed(platform, learned, init, start);
      forall t | t in log
        ensures exists i :: 0 <= i < |commands| && CheckCommandExistence(platform, learned, commands[i])
                  && t == Transmission(commands[i], start + i as real * INTERCOMMAND_PAUSE)
      {
        if t in prefix {
          var j :| 0 <= j < |init| && CheckCommandExistence(platform, learned, init[j])
                   && t == Transmission(init[j], start + j as real * INTERCOMMAND_PAUSE);
          assert init[j] == commands[j];
        } else {
          assert t == Transmission(commands[k], start + k as real * INTERCOMMAND_PAUSE);
        }
      }
    }
  }

  /**
   * Press i goes out, i pauses after `start`, exactly when the gate allows its
   * command: every allowed press is in the log, and everything in the log is an
   * allowed press at its own time.
   */
  lemma DispatchGated(platform: Option<string>, learned: Option<Json>, commands: seq<string>, start: real)
    ensures var log := Dispatch(platform, learned, commands, start);
      && |log| <= |commands|
      && (forall i :: 0 <= i < |commands| && CheckCommandExistence(platform, learned, commands[i]) ==>
            Transmission(commands[i], start + i as real * INTERCOMMAND_PAUSE) in log)
      && (forall t :: t in log ==>
            && t.command in commands && CheckCommandExistence(platform, learned, t.command)
            && exists i :: 0 <= i < |commands| && CheckCommandExistence(platform, learned, commands[i])
                 && t == Transmission(commands[i], start + i as real * INTERCOMMAND_PAUSE))
  {
    var log := Dispatch(platform, learned, commands, start);
    DispatchSends(platform, learned, commands, start);
    DispatchOnlyAllowed(platform, learned, commands, start);
    forall t | t in log
      ensures t.command in commands && CheckCommandExistence(platform, learned, t.command)
    {
      var j :| 0 <= j < |commands| && CheckCommandExistence(platform, learned, commands[j])
               && t == Transmission(commands[j], start + j as real * INTERCOMMAND_PAUSE);
    }
  }

  /** When the gate allows every command, every press goes out in order, the i-th `i` pauses after `start`. */
  lemma {:induction false} DispatchAllowed(platform: Option<string>, learned: Option<Json>, commands: seq<string>, start: real)
    requires forall c :: c in commands ==> CheckCommandExistence(platform, learned, c)
    ensures var log := Dispatch(platform, learned, commands, start);
      && |log| == |commands|
      && forall i :: 0 <= i < |log| ==> log[i] == Transmission(commands[i], start + i as real * INTERCOMMAND_PAUSE)
    decreases |commands|
  {
    if commands != [] {
      var k := |commands| - 1;
      var prefix := Dispatch(platform, learned, commands[..k], start);
      assert commands[k] in commands;
      assert Dispatch(platform, learned, commands, start)
             == prefix + [Transmission(commands[k], start + k as real * INTERCOMMAND_PAUSE)];
      assert forall c :: c in commands[..k] ==> c in commands;
      DispatchAllowed(platform, learned, commands[..k], start);
    }
  }

  /** Proof helper: concatenation regroups freely; stated once so that loops can cite it. */
  lemma AppendAssoc<T>(a: seq<T>, b: seq<T>, c: seq<T>)
    ensures (a + b) + c == a + (b + c)
  {
  }

  /** Sending one more command extends the log by that command's attempt, a pause after the previous one. */
  lemma DispatchSnoc(platform: Option<string>, learned: Option<Json>, commands: seq<string>, i: nat, start: real)
    requires i < |commands|
    ensures Dispatch(platform, learned, commands[..i + 1], start)
            == Dispatch(platform, learned, commands[..i], start)
               + Attempt(platform, learned, commands[i], start + i as real * INTERCOMMAND_PAUSE)
  {
    assert commands[..i + 1][..i] == commands[..i];
  }

  /**
   * `set_channel`: pace once; then, for a channel from 1 to 999, record it and press
   * its digits, each followed by a plain pause that does not touch `_last_command_time`.
   */
  function SetChannel(s: Snapshot, channelNumber: int): Snapshot
  {
    var p := Pace(s);
    if 1 <= channelNumber <= 999 then
      var keys := ChannelKeys(channelNumber);
      p.(currentChannel := channelNumber,
         sent := p.sent + Dispatch(p.irRemotePlatform, p.learnedCommands, keys, p.now),
         now := p.now + |keys| as real * INTERCOMMAND_PAUSE)
    else p
  }

  /** A numeric media identifier of type "channel" sets the channel; everything else is ignored. */
  function PlayMedia(s: Snapshot, mediaType: string, mediaId: string): Snapshot
  {
    if mediaType == MEDIA_TYPE_CHANNEL && IsNumeric(mediaId) then SetChannel(s, ParseDecimal(mediaId))
    else s
  }

  // ---------------------------------------------------------------------------
  // Playback

  function MediaPlay(s: Snapshot): Snapshot
  {
    if s.state == StateOff then s
    else HandleSendCommand(Pace(s), Name(PLAY)).(attrState := Playing)
  }

  function MediaPause(s: Snapshot): Snapshot
  {
    if s.state == StateOff then s
    else HandleSendCommand(Pace(s), Name(PAUSE)).(attrState := Paused)
  }

  function MediaStop(s: Snapshot): Snapshot
  {
    if s.state == StateOff then s
    else HandleSendCommand(Pace(s), Name(STOP)).(attrState := Idle)
  }

  /** The command play/pause sends from a given shown state. */
  function ToggleCommand(attrState: MediaPlayerState): (c: Command)
    ensures c == PAUSE <==> attrState == Playing
    ensures c == PLAY <==> attrState != Playing
  {
    if attrState == Playing then PAUSE else PLAY
  }

  /** The shown state play/pause moves to. */
  function Toggled(attrState: MediaPlayerState): (r: MediaPlayerState)
    ensures r == Paused <==> attrState == Playing
    ensures r == Playing <==> attrState != Playing
  {
    if attrState == Playing then Paused else Playing
  }

  function MediaPlayPause(s: Snapshot): Snapshot
  {
    if s.state == StateOff then s
    else
      var p := Pace(s);
      HandleSendCommand(p, Name(ToggleCommand(p.attrState))).(attrState := Toggled(p.attrState))
  }

  /** Time passing: a sleep for `seconds`; a sleep for no time or less returns at once. */
  function Elapse(s: Snapshot, seconds: real): Snapshot
  {
    if seconds > 0.0 then s.(now := s.now + seconds) else s
  }

  // ---------------------------------------------------------------------------
  // Service domain name

  /** The service domain the controller registers under: its name with '.' and ' ' replaced by '_', lower-cased. */
  function ServiceDomain(name: string): (domain: string)
    ensures |domain| == |name|
    ensures forall i :: 0 <= i < |domain| ==> domain[i] != '.' && domain[i] != ' ' && !('A' <= domain[i] <= 'Z')
    ensures forall i :: 0 <= i < |name| && name[i] != '.' && name[i] != ' ' && !('A' <= name[i] <= 'Z') ==>
              domain[i] == name[i]
    ensures forall i :: 0 <= i < |name| && (name[i] == '.' || name[i] == ' ') ==> domain[i] == '_'
    ensures forall i :: 0 <= i < |name| && 'A' <= name[i] <= 'Z' ==> domain[i] == (name[i] as int + 32) as char
  {
    AsciiLower(seq(|name|, i requires 0 <= i < |name| => if name[i] == '.' || name[i] == ' ' then '_' else name[i]))
  }

  lemma ServiceDomainIdempotent(name: string)
    ensures ServiceDomain(ServiceDomain(name)) == ServiceDomain(name)
  {
    var d := ServiceDomain(name);
    assert forall i :: 0 <= i < |d| ==> ServiceDomain(d)[i] == d[i];
  }

  // ---------------------------------------------------------------------------
  // Invariants

  /** The volume stays on its scale, and no recorded time lies in the future. */
  ghost predicate Valid(s: Snapshot)
  {
    && 0 <= s.volumeLevel <= 10
    && s.lastCommandTime <= s.now
    && (forall t :: t in s.sent ==> t.at <= s.now)
    && (s.pendingLearn.Some? ==> s.learningLocked)
  }

  /** Consecutive transmissions are at least one pause apart. */
  ghost predicate Spaced(log: seq<Transmission>)
  {
    forall i :: 0 < i < |log| ==> log[i - 1].at + INTERCOMMAND_PAUSE <= log[i].at
  }

  /** The log is spaced, and the next paced command cannot come sooner than a pause after the last one. */
  ghost predicate Paced(s: Snapshot)
  {
    Spaced(s.sent) && (s.sent != [] ==> s.sent[|s.sent| - 1].at + INTERCOMMAND_PAUSE <= NextSlot(s))
  }

  lemma InitialInvariants(uniqueId: string, powerEntity: string, startTime: real)
    requires startTime >= 0.0
    ensures Valid(Initial(uniqueId, powerEntity, startTime)) && Paced(Initial(uniqueId, powerEntity, startTime))
  {
  }

  lemma {:induction false} SpacedConcat(a: seq<Transmission>, b: seq<Transmission>)
    requires Spaced(a) && Spaced(b)
    requires a != [] && b != [] ==> a[|a| - 1].at + INTERCOMMAND_PAUSE <= b[0].at
    ensures Spaced(a + b)
  {
    var c := a + b;
    forall i | 0 < i < |c|
      ensures c[i - 1].at + INTERCOMMAND_PAUSE <= c[i].at
    {
      if i < |a| {
        assert c[i - 1] == a[i - 1] && c[i] == a[i];
      } else if i == |a| {
        assert c[i - 1] == a[|a| - 1] && c[i] == b[0];
      } else {
        assert c[i - 1] == b[i - 1 - |a|] && c[i] == b[i - |a|];
      }
    }
  }

  /** When a sequence of commands goes out, none is sent before `start` and the last a pause before the sequence ends. */
  lemma {:induction false} DispatchBounds(platform: Option<string>, learned: Option<Json>, commands: seq<string>, start: real)
    ensures forall t :: t in Dispatch(platform, learned, commands, start) ==>
              start <= t.at && t.at + INTERCOMMAND_PAUSE <= start + |commands| as real * INTERCOMMAND_PAUSE
    decreases |commands|
  {
    if commands != [] {
      var k := |commands| - 1;
      var at := start + k as real * INTERCOMMAND_PAUSE;
      var prefix := Dispatch(platform, learned, commands[..k], start);
      var last := Attempt(platform, learned, commands[k], at);
      assert Dispatch(platform, learned, commands, start) == prefix + last;
      DispatchBounds(platform, learned, commands[..k], start);
    }
  }

  /** When a sequence of commands goes out, the transmissions are a pause apart. */
  lemma {:induction false} DispatchSpaced(platform: Option<string>, learned: Option<Json>, commands: seq<string>, start: real)
    ensures Spaced(Dispatch(platform, learned, commands, start))
    decreases |commands|
  {
    if commands != [] {
      var k := |commands| - 1;
      var at := start + k as real * INTERCOMMAND_PAUSE;
      var prefix := Dispatch(platform, learned, commands[..k], start);
      var last := Attempt(platform, learned, commands[k], at);
      assert Dispatch(platform, learned, commands, start) == prefix + last;
      DispatchSpaced(platform, learned, commands[..k], start);
      if prefix != [] && last != [] {
        DispatchBounds(platform, learned, commands[..k], start);
        assert prefix[|prefix| - 1] in prefix;
      }
      SpacedConcat(prefix, last);
    }
  }

  /** A command sent at the next slot, with the clock and the last-command time moved to that slot, keeps the log paced. */
  lemma PacedSend(s: Snapshot, r: Snapshot, command: string)
    requires Paced(s)
    requires r.now == NextSlot(s) && r.lastCommandTime == NextSlot(s)
    requires r.sent == s.sent + Attempt(s.irRemotePlatform, s.learnedCommands, command, NextSlot(s))
    ensures Paced(r)
  {
    SpacedConcat(s.sent, Attempt(s.irRemotePlatform, s.learnedCommands, command, NextSlot(s)));
  }

  /** A step that sends nothing and does not bring the next slot forward keeps the log paced. */
  lemma PacedQuiet(s: Snapshot, r: Snapshot)
    requires Paced(s)
    requires r.sent == s.sent && NextSlot(s) <= NextSlot(r)
    ensures Paced(r)
  {
  }

  /** Appending a spaced burst that starts at the next slot and ends before the new time keeps the log paced. */
  lemma PacedBurst(s: Snapshot, r: Snapshot, burst: seq<Transmission>, finish: real)
    requires Paced(s) && Spaced(burst)
    requires forall t :: t in burst ==> NextSlot(s) <= t.at && t.at + INTERCOMMAND_PAUSE <= finish
    requires r.sent == s.sent + burst && NextSlot(s) <= finish <= r.now
    ensures Paced(r)
  {
    if s.sent != [] && burst != [] {
      assert burst[0] in burst;
    }
    SpacedConcat(s.sent, burst);
    if burst != [] {
      assert burst[|burst| - 1] in burst;
      assert r.sent[|r.sent| - 1] == burst[|burst| - 1];
    }
  }

  lemma SetChannelPaced(s: Snapshot, channelNumber: int)
    requires Paced(s)
    ensures Paced(SetChannel(s, channelNumber))
  {
    if 1 <= channelNumber <= 999 {
      var p := Pace(s);
      var keys := ChannelKeys(channelNumber);
      DispatchBounds(p.irRemotePlatform, p.learnedCommands, keys, p.now);
      DispatchSpaced(p.irRemotePlatform, p.learnedCommands, keys, p.now);
      PacedBurst(s, SetChannel(s, channelNumber), Dispatch(p.irRemotePlatform, p.learnedCommands, keys, p.now),
                 p.now + |keys| as real * INTERCOMMAND_PAUSE);
    }
  }

  lemma SetChannelValid(s: Snapshot, channelNumber: int)
    requires Valid(s)
    ensures Valid(SetChannel(s, channelNumber))
  {
    if 1 <= channelNumber <= 999 {
      var p := Pace(s);
      var keys := ChannelKeys(channelNumber);
      DispatchBounds(p.irRemotePlatform, p.learnedCommands, keys, p.now);
    }
  }

  // ---------------------------------------------------------------------------
  // Properties of the operations

  /** Proof helper: with a permissive gate, appending the presses of `digits` keeps the log and puts press i at position |log| + i. */
  lemma AppendedPresses(log: seq<Transmission>, platform: Option<string>, learned: Option<Json>, digits: string, start: real)
    requires AllDigits(digits)
    requires forall key :: CheckCommandExistence(platform, learned, key)
    ensures var r := log + Dispatch(platform, learned, DigitKeys(digits), start);
      && |r| == |log| + |digits|
      && r[..|log|] == log
      && forall i :: 0 <= i < |digits| ==>
           r[|log| + i] == Transmission("KEY_" + [digits[i]], start + i as real * INTERCOMMAND_PAUSE)
  {
    var d := Dispatch(platform, learned, DigitKeys(digits), start);
    DigitsAllowed(platform, learned, digits, start);
    assert (log + d)[..|log|] == log;
    forall i | 0 <= i < |digits|
      ensures (log + d)[|log| + i] == Transmission("KEY_" + [digits[i]], start + i as real * INTERCOMMAND_PAUSE)
    {
      assert (log + d)[|log| + i] == d[i];
    }
  }

  /** Proof helper: an accepted channel number, in closed form over `Dispatch` from the paced slot. */
  lemma SetChannelDials(s: Snapshot, n: int)
    requires 1 <= n <= 999
    ensures var t := NextSlot(s); var keys := DigitKeys(ToDecimal(n));
      SetChannel(s, n) == s.(now := t + |keys| as real * INTERCOMMAND_PAUSE, lastCommandTime := t, currentChannel := n,
                             sent := s.sent + Dispatch(s.irRemotePlatform, s.learnedCommands, keys, t))
  {
    var p := Pace(s);
    assert p.irRemotePlatform == s.irRemotePlatform && p.learnedCommands == s.learnedCommands && p.now == NextSlot(s);
  }

  /** With a permissive gate, an accepted channel number presses exactly its digits, one pause apart from the first slot. */
  lemma SetChannelAccepted(s: Snapshot, n: int)
    requires 1 <= n <= 999
    requires forall key :: CheckCommandExistence(s.irRemotePlatform, s.learnedCommands, key)
    ensures var r := SetChannel(s, n);
      var digits := ToDecimal(n);
      && r.currentChannel == n
      && r.lastCommandTime == NextSlot(s)
      && 1 <= |digits| <= 3 && digits[0] != '0'
      && |r.sent| == |s.sent| + |digits|
      && r.sent[..|s.sent|] == s.sent
      && forall i :: 0 <= i < |digits| ==>
           r.sent[|s.sent| + i] == Transmission("KEY_" + [digits[i]], NextSlot(s) + i as real * INTERCOMMAND_PAUSE)
  {
    DigitCount(n);
    SetChannelDials(s, n);
    AppendedPresses(s.sent, s.irRemotePlatform, s.learnedCommands, ToDecimal(n), NextSlot(s));
  }

  /**
   * `log` holds exactly the gated digit presses of `digits` from `start`: the press
   * of digit i, i pauses after `start`, is in it iff the gate allows its key, it holds
   * nothing else, and its entries are a pause apart (hence in digit order).
   */
  ghost predicate GatedPresses(platform: Option<string>, learned: Option<Json>, digits: string, start: real,
                               log: seq<Transmission>)
  {
    && (forall i :: 0 <= i < |digits| && CheckCommandExistence(platform, learned, "KEY_" + [digits[i]]) ==>
          Transmission("KEY_" + [digits[i]], start + i as real * INTERCOMMAND_PAUSE) in log)
    && (forall t :: t in log ==>
          exists i :: 0 <= i < |digits| && CheckCommandExistence(platform, learned, "KEY_" + [digits[i]])
            && t == Transmission("KEY_" + [digits[i]], start + i as real * INTERCOMMAND_PAUSE))
    && Spaced(log)
  }

  /** With a permissive gate, the digit keys of `digits` all go out, digit i at i pauses after `start`. */
  lemma DigitsAllowed(platform: Option<string>, learned: Option<Json>, digits: string, start: real)
    requires AllDigits(digits)
    requires forall key :: CheckCommandExistence(platform, learned, key)
    ensures var d := Dispatch(platform, learned, DigitKeys(digits), start);
      && |d| == |digits|
      && forall i :: 0 <= i < |digits| ==> d[i] == Transmission("KEY_" + [digits[i]], start + i as real * INTERCOMMAND_PAUSE)
  {
    var keys := DigitKeys(digits);
    DispatchAllowed(platform, learned, keys, start);
  }

  /** Pressing the digit keys of `digits` from `start` sends exactly the gated presses. */
  lemma DigitsGated(platform: Option<string>, learned: Option<Json>, digits: string, start: real)
    requires AllDigits(digits)
    ensures var d := Dispatch(platform, learned, DigitKeys(digits), start);
      |d| <= |digits| && GatedPresses(platform, learned, digits, start, d)
  {
    var keys := DigitKeys(digits);
    var d := Dispatch(platform, learned, keys, start);
    DispatchGated(platform, learned, keys, start);
    DispatchSpaced(platform, learned, keys, start);
    forall t | t in d
      ensures exists i :: 0 <= i < |digits| && CheckCommandExistence(platform, learned, "KEY_" + [digits[i]])
                && t == Transmission("KEY_" + [digits[i]], start + i as real * INTERCOMMAND_PAUSE)
    {
      var j :| 0 <= j < |keys| && CheckCommandExistence(platform, learned, keys[j])
               && t == Transmission(keys[j], start + j as real * INTERCOMMAND_PAUSE);
      assert keys[j] == "KEY_" + [digits[j]];
    }
  }

  /**
   * Whatever the gate allows, an accepted channel keeps the old log and appends
   * exactly the gated presses of its digits, from the first slot on.
   */
  lemma SetChannelGated(s: Snapshot, n: int)
    requires 1 <= n <= 999
    ensures var r := SetChannel(s, n);
      && |s.sent| <= |r.sent| <= |s.sent| + |ToDecimal(n)|
      && r.sent[..|s.sent|] == s.sent
      && GatedPresses(s.irRemotePlatform, s.learnedCommands, ToDecimal(n), NextSlot(s), r.sent[|s.sent|..])
    ensures var r := SetChannel(s, n);
      && r.currentChannel == n && r.lastCommandTime == NextSlot(s)
      && r.now == NextSlot(s) + |ToDecimal(n)| as real * INTERCOMMAND_PAUSE
      && r == s.(now := r.now, lastCommandTime := NextSlot(s), currentChannel := n, sent := r.sent)
  {
    var d := Dispatch(s.irRemotePlatform, s.learnedCommands, ChannelKeys(n), NextSlot(s));
    SetChannelDials(s, n);
    DigitsGated(s.irRemotePlatform, s.learnedCommands, ToDecimal(n), NextSlot(s));
    var r := SetChannel(s, n);
    assert r.sent == s.sent + d;
    assert r.sent[..|s.sent|] == s.sent;
    assert r.sent[|s.sent|..] == d;
  }

  /** A channel number outside 1..999 sends nothing and keeps the channel, but the pause still refreshes the last-command time. */
  lemma SetChannelRejected(s: Snapshot, n: int)
    requires !(1 <= n <= 999)
    ensures SetChannel(s, n) == s.(now := NextSlot(s), lastCommandTime := NextSlot(s))
    ensures SetChannel(s, n).sent == s.sent && SetChannel(s, n).currentChannel == s.currentChannel
  {
  }

  lemma ChannelKeys205()
    ensures ChannelKeys(205) == ["KEY_2", "KEY_0", "KEY_5"]
  {
    assert ToDecimal(2) == "2";
    assert ToDecimal(20) == "20";
    assert ToDecimal(205) == "205";
  }

  /** Playing the decimal text of a channel is setting that channel. */
  lemma PlayMediaSetsChannel(s: Snapshot, n: nat)
    ensures PlayMedia(s, MEDIA_TYPE_CHANNEL, ToDecimal(n)) == SetChannel(s, n)
  {
    ParseToDecimal(n);
  }

  lemma PlayMediaIgnored(s: Snapshot, mediaType: string, mediaId: string)
    requires mediaType != MEDIA_TYPE_CHANNEL || !IsNumeric(mediaId)
    ensures PlayMedia(s, mediaType, mediaId) == s
  {
  }

  /** While the TV is off, the playback buttons change nothing at all. */
  lemma PlaybackIgnoredWhenOff(s: Snapshot)
    requires s.state == StateOff
    ensures MediaPlay(s) == s && MediaPause(s) == s && MediaStop(s) == s && MediaPlayPause(s) == s
  {
  }

  /** While the TV is on, each playback button paces, sends its command and sets the shown state. */
  lemma PlaybackWhenOn(s: Snapshot)
    requires s.state == StateOn
    ensures var t := NextSlot(s); var p := s.irRemotePlatform; var l := s.learnedCommands;
      && MediaPlay(s) == s.(now := t, lastCommandTime := t, sent := s.sent + Attempt(p, l, "PLAY", t), attrState := Playing)
      && MediaPause(s) == s.(now := t, lastCommandTime := t, sent := s.sent + Attempt(p, l, "PAUSE", t), attrState := Paused)
      && MediaStop(s) == s.(now := t, lastCommandTime := t, sent := s.sent + Attempt(p, l, "STOP", t), attrState := Idle)
  {
  }

  /** While the TV is on, play/pause paces, sends PAUSE from Playing and PLAY otherwise, and flips the shown state accordingly. */
  lemma PlayPauseWhenOn(s: Snapshot)
    requires s.state == StateOn
    ensures var t := NextSlot(s); var playing := s.attrState == Playing;
      MediaPlayPause(s) == s.(now := t, lastCommandTime := t,
                              sent := s.sent + Attempt(s.irRemotePlatform, s.learnedCommands, if playing then "PAUSE" else "PLAY", t),
                              attrState := if playing then Paused else Playing)
  {
  }

  /** Two play/pause presses from Playing send PAUSE then PLAY, a pause apart, and end in Playing. */
  lemma PlayPauseTwice(s: Snapshot)
    requires s.state == StateOn && s.attrState == Playing
    ensures var once := MediaPlayPause(s); var twice := MediaPlayPause(once);
      var t := NextSlot(s);
      && once.attrState == Paused
      && twice.attrState == Playing
      && twice.sent == s.sent
           + Attempt(s.irRemotePlatform, s.learnedCommands, "PAUSE", t)
           + Attempt(s.irRemotePlatform, s.learnedCommands, "PLAY", t + INTERCOMMAND_PAUSE)
  {
    var once := MediaPlayPause(s);
    assert once.now == NextSlot(s) && once.lastCommandTime == NextSlot(s);
    assert NextSlot(once) == NextSlot(s) + INTERCOMMAND_PAUSE;
  }

  /** Turning on sends POWER_ON only when off, turning off sends POWER_OFF only when on; neither changes the derived state or paces. */
  lemma PowerCommands(s: Snapshot)
    ensures TurnOn(s) == (if s.state == StateOff then HandleSendCommand(s, "POWER_ON") else s)
    ensures TurnOff(s) == (if s.state == StateOn then HandleSendCommand(s, "POWER_OFF") else s)
    ensures TurnOn(s).state == s.state && TurnOff(s).state == s.state
    ensures TurnOn(s).lastCommandTime == s.lastCommandTime && TurnOn(s).now == s.now
  {
  }

  /** The volume buttons always send, and the level stays on the 0..10 scale. */
  lemma VolumeSteps(s: Snapshot)
    requires 0 <= s.volumeLevel <= 10
    ensures var t := NextSlot(s);
      && VolumeUp(s).sent == s.sent + Attempt(s.irRemotePlatform, s.learnedCommands, "VOLUME_UP", t)
      && VolumeDown(s).sent == s.sent + Attempt(s.irRemotePlatform, s.learnedCommands, "VOLUME_DOWN", t)
      && 0 <= VolumeUp(s).volumeLevel <= 10 && 0 <= VolumeDown(s).volumeLevel <= 10
      && VolumeUp(s).volumeLevel == Min(10, s.volumeLevel + 1)
      && VolumeDown(s).volumeLevel == if s.volumeLevel == 0 then 0 else s.volumeLevel - 1
  {
  }

  /** Muting records the requested flag and sends MUTE or UNMUTE accordingly. */
  lemma MuteSends(s: Snapshot, mute: bool)
    ensures MuteVolume(s, mute).isMute == mute
    ensures MuteVolume(s, mute).sent ==
              s.sent + Attempt(s.irRemotePlatform, s.learnedCommands, if mute then "MUTE" else "UNMUTE", NextSlot(s))
  {
  }

  /** A learn request while a learning call is suspended is dropped. */
  lemma LearnWhilePending(s: Snapshot, command: string)
    requires Valid(s) && s.pendingLearn.Some?
    ensures HandleLearnCommand(s, command) == s
  {
  }

  /** A full Broadlink learning session: the lock is held across the wait, released at the end, and the learned commands are not refreshed. */
  lemma {:induction false} LearnSession(s: Snapshot, command: string, store: Option<Json>)
    requires !s.learningLocked && s.irRemotePlatform == Some(BROADLINK)
    requires !ReadBroadlinkCommands(store, s.uniqueId).CopyRaises?
    ensures var started := HandleLearnCommand(s, command);
      var waited := Elapse(started, LEARNING_WINDOW);
      && started.learningLocked && waited.learningLocked
      && waited.pendingLearn == Some(waited.now)
      && var done := ResumeLearning(waited, store);
         && !done.learningLocked
         && done.learnedCommands == s.learnedCommands
         && done.learnRequests == s.learnRequests + [command]
         && done.sent == s.sent
         && done.now == s.now + LEARNING_WINDOW
  {
  }

  /**
   * When set-up on Broadlink found no command file, a learning session always ends
   * with the lock released, whatever the store holds by then: there is no path to
   * read again.
   */
  lemma LearnWithoutCommandFile(s: Snapshot, platform: string, reading: PowerReading, ir: Option<string>,
                                command: string, later: Option<Json>)
    requires AsciiLower(platform) == BROADLINK && !s.learningLocked
    ensures var ready := Initialize(s, Some(platform), None, reading, ir);
      var started := HandleLearnCommand(ready, command);
      var waited := Elapse(started, LEARNING_WINDOW);
      && !ready.irRemoteCmdFile
      && waited.pendingLearn == Some(waited.now) && waited.learningLocked
      && !ResumeLearning(waited, later).learningLocked
  {
    var ready := Initialize(s, Some(platform), None, reading, ir);
    assert ready.irRemotePlatform == Some(BROADLINK) && !ready.irRemoteCmdFile && !ready.learningLocked;
  }

  /** On any other platform learning never takes the lock. */
  lemma LearnWithoutLock(s: Snapshot, command: string)
    requires s.irRemotePlatform != Some(BROADLINK)
    ensures HandleLearnCommand(s, command).learningLocked == s.learningLocked
    ensures HandleLearnCommand(s, command).pendingLearn == s.pendingLearn
  {
  }

  /** Two states agree on everything a send, the pacing, the volume and the learning lock depend on. */
  ghost predicate SameTransport(s: Snapshot, r: Snapshot)
  {
    && r.sent == s.sent && r.now == s.now && r.lastCommandTime == s.lastCommandTime
    && r.volumeLevel == s.volumeLevel && r.learningLocked == s.learningLocked && r.pendingLearn == s.pendingLearn
  }

  /** Proof helper: deriving the power state touches only the three derived fields. */
  lemma UpdateKeepsTransport(s: Snapshot, reading: PowerReading, ir: Option<string>)
    ensures var r := UpdatePowerState(s, reading, ir);
      r == s.(state := r.state, attrState := r.attrState, isUnavailable := r.isUnavailable)
  {
  }

  /** Set-up and power events send nothing and touch neither the clock, the pacing, the volume nor the learning state. */
  lemma SetupSendsNothing(s: Snapshot, registryPlatform: Option<string>, store: Option<Json>,
                          entityId: string, reading: PowerReading, ir: Option<string>)
    ensures SameTransport(s, Initialize(s, registryPlatform, store, reading, ir))
    ensures SameTransport(s, HandlePowerStateChange(s, entityId, reading, ir))
  {
    UpdateKeepsTransport(s, reading, ir);
    if registryPlatform.Some? {
      var configured := Configure(s, AsciiLower(registryPlatform.value), store);
      assert SameTransport(s, configured);
      UpdateKeepsTransport(configured, reading, ir);
    }
  }

  /** After set-up on Broadlink with a record that is a dict, exactly the record's keys may be sent. */
  lemma InitializeLoadsRecord(s: Snapshot, platform: string, store: Json, reading: PowerReading, ir: Option<string>, key: string)
    requires AsciiLower(platform) == BROADLINK
    requires HasRecord(store, s.uniqueId) && Record(store, s.uniqueId).JObject?
    ensures var r := Initialize(s, Some(platform), Some(store), reading, ir);
      CheckCommandExistence(r.irRemotePlatform, r.learnedCommands, key) <==> key in Record(store, s.uniqueId).fields
  {
  }

  /** After set-up on Broadlink without a record for the appliance, nothing may be sent. */
  lemma InitializeWithoutRecord(s: Snapshot, platform: string, store: Option<Json>, reading: PowerReading, ir: Option<string>, key: string)
    requires AsciiLower(platform) == BROADLINK
    requires store.None? || !HasRecord(store.value, s.uniqueId)
    ensures var r := Initialize(s, Some(platform), store, reading, ir);
      !CheckCommandExistence(r.irRemotePlatform, r.learnedCommands, key)
  {
  }

  /** After set-up on another platform, everything may be sent. */
  lemma InitializeOtherPlatform(s: Snapshot, platform: string, store: Option<Json>, reading: PowerReading, ir: Option<string>, key: string)
    requires AsciiLower(platform) != BROADLINK
    ensures var r := Initialize(s, Some(platform), store, reading, ir);
      CheckCommandExistence(r.irRemotePlatform, r.learnedCommands, key)
  {
  }
}
