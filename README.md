# SmartifyTV media player, modelled in Dafny

This project models the controller of the SmartifyTV Home Assistant integration: the
`SmartifyTVMediaPlayer` entity, which turns TV intents (power, volume, mute, channel
stepping, channel selection, playback, learning) into named IR commands and decides
whether and when each command may go to the IR remote.

It has seven files:

- `wrappers.dfy`: `Option`.
- `commands.dfy`: the remote's command vocabulary and the pause between button presses,
  from `custom_components/smartify_tv/const.py`.
- `decimal.dfy`: the decimal text of a channel number, and the parsing of a numeric media
  identifier. ASCII digits only.
- `store.dfy`: the Broadlink learned-command store as already parsed JSON, and the
  selection of one appliance's record from it.
- `controller.dfy`: module `Controller`. The controller's state is the value `Snapshot`,
  and each operation is a function on it. The module also holds:
  - the invariants `Valid` (volume on its scale, nothing recorded in the future, a
    suspended learning call holds the lock) and `Paced` (consecutive transmissions at
    least one pause apart);
  - the lemmas about the operations.
- `media_player.dfy`: class `MediaPlayer.SmartifyTVMediaPlayer`, with the entity's
  fields updated in place. Each method that models an operation is proved to leave
  `Model()` equal to the `Controller` function of the old state. Four methods are
  specified directly instead:
  - `EnsureCommandPause` returns the paced time and moves only the clock;
  - `PressKey` sends one key through the gate and sleeps one pause;
  - `PressKeys`, the loop that presses the digits of a channel, appends exactly
    `Controller.Dispatch` of its keys and advances the clock one pause per key;
  - `DialChannel` records an accepted channel and calls `PressKeys`.
- `traces.dfy`: runs of host intents. Every run keeps `Valid`. Every run of paced
  intents, starting from a fresh controller, leaves a spaced transport log.

Time is an abstract clock `now` in seconds, advanced only by sleeping or by waiting
between intents. The IR transport is a log:
- `sent` holds every command handed to the remote's `send_command` service, with the
  time it was handed over;
- `learnRequests` holds every command handed to `learn_command`.

Environment inputs are parameters:
- the power sensor's reading is a `PowerReading`;
- the IR entity's state is an `Option<string>`;
- the registry's platform is an `Option<string>`;
- the parsed store file is an `Option<Json>`, None when there is no command file.

Set-up records whether it found a Broadlink command file (`irRemoteCmdFile`). The
re-read after learning uses the path fixed at set-up. A store passed to
`ResumeLearning` is therefore the current content of that file, and it is ignored when
set-up found no file.

`handle_learn_command` sleeps for 35 seconds in the middle of the call. It is split into
two operations:
- `HandleLearnCommand` runs up to the sleep and leaves `pendingLearn = Some(wake time)`;
- `ResumeLearning` runs after the sleep.

With this split, the lock can be seen while the learning call is suspended.

Where the intended design and the code differ, the model follows the code:
- `async_turn_on`, `async_turn_off` and the raw `send_command` service do not call
  `ensure_command_pause`. They transmit at once and do not update `_last_command_time`.
  `Traces.TurnOnSkipsPacing` shows a run of two intents in which POWER_ON leaves at the
  same instant as the VOLUME_UP before it. The pacing theorem
  `Traces.PacedRunsAreSpaced` therefore covers only runs without these intents.
- A reading that is unknown or unavailable sets only `_state`, and so does one that does
  not parse as a number. `_attr_state` then keeps whatever it was, including a playback
  state. Only a missing sensor forces `_attr_state` to OFF.
- `set_channel` paces once, before checking the channel number. An out-of-range number
  still refreshes `_last_command_time`. Each digit is followed by a plain 0.5 s sleep
  that does not update `_last_command_time`.
- The learn lock is taken only on Broadlink, and only after the learn request has been
  issued.
- The store is read again after the learning window, but the result is discarded, so
  `_learned_commands` is not refreshed. If the record is not a list or dict, `.copy()`
  raises at that point, and the lock is never released. This can only happen when
  set-up found a command file: without one, nothing is read and the lock is always
  released (`Controller.LearnWithoutCommandFile`).
- Playback writes PLAYING, PAUSED and IDLE into the same `_attr_state` field that power
  derivation writes ON and OFF into. Toggling from ON or OFF therefore sends PLAY.
- `platform.lower()` on a missing registry entry raises. Set-up then changes nothing.
  Before set-up the platform is unknown, so the gate lets every command through: this
  is the KeyError path of the known-types lookup.
- A Broadlink record that exists but is not a list or dict makes `.copy()` raise during
  set-up. The platform is then recorded, but `_learned_commands` stays as it was and
  the power state is not derived.

Nothing here was executed. The guarantees are those the Dafny verifier proves about the
model.

## Model

| member | source | states |
|---|---|---|
| Commands.Name | custom_components/smartify_tv/const.py:12-42 | the name under which each command is learned and sent (no contract of its own) |
| Controller.DerivePower | custom_components/smartify_tv/media_player.py:244-273 | on iff the reading is a number strictly above 10 W; a missing sensor forces OFF; a number sets ON/OFF; unknown, unavailable or unparseable readings keep `_attr_state`; unavailable iff the sensor is missing, unknown or unavailable, or the IR status is unavailable |
| Controller.Initial | custom_components/smartify_tv/media_player.py:54-88 | the state right after construction (no contract of its own; `InitialInvariants` and the constructor row state it) |
| Controller.UpdatePowerState | custom_components/smartify_tv/media_player.py:244-273 | defines `_update_power_state` on the state value: the three fields `DerivePower` gives, nothing else (no contract of its own; its promises are `DerivePower`'s and `SetupSendsNothing`) |
| Controller.HandlePowerStateChange | custom_components/smartify_tv/media_player.py:275-279 | defines the state-change handler: re-derive only for the power sensor (no contract of its own; see `SetupSendsNothing`) |
| Controller.IrStatus | custom_components/smartify_tv/media_player.py:235-242 | "unavailable" exactly when the IR entity is missing, unknown or unavailable; its own state otherwise |
| Controller.AsciiLower | custom_components/smartify_tv/media_player.py:101 | same length; each capital becomes its lower-case letter, every other character is kept |
| Controller.Initialize | custom_components/smartify_tv/media_player.py:98-111 | defines set-up on the state value, including the two raising paths and the command-file flag (no contract of its own; its promises are the `Initialize...` lemmas and `SetupSendsNothing`) |
| Controller.Configure | custom_components/smartify_tv/media_player.py:100-107 | set-up before power derivation: the platform is recorded; on Broadlink, whether a command file was found, and the appliance's record or None, except that a record `.copy()` cannot copy leaves the learned commands as they were (no contract of its own) |
| Controller.CopyRaisesAtSetup | custom_components/smartify_tv/media_player.py:104-107 | set-up stops before deriving the power state exactly when the platform is Broadlink and the record cannot be copied (no contract of its own) |
| Store.ReadBroadlinkCommands | custom_components/smartify_tv/media_player.py:192-204 | defines the read: no file gives no record, otherwise `SelectRecord` (no contract of its own) |
| Controller.SetupSendsNothing | custom_components/smartify_tv/media_player.py:98-111 | set-up and power-state events send nothing and leave the clock, the last-command time, the volume and the learning lock unchanged |
| Controller.InitializeLoadsRecord | custom_components/smartify_tv/media_player.py:98-107 | after set-up on Broadlink with a dict record, a key may be sent iff it is a key of that record |
| Controller.InitializeWithoutRecord | custom_components/smartify_tv/media_player.py:98-107 | after set-up on Broadlink with no store or no record, no key may be sent |
| Controller.InitializeOtherPlatform | custom_components/smartify_tv/media_player.py:98-111 | after set-up on any other platform, every key may be sent |
| Store.SelectRecord | custom_components/smartify_tv/media_player.py:199-204 | a record is selected iff the document is a dict whose "data" is a dict holding the uid with a list or dict value, and it is that value; the copy raises iff the value exists but is neither |
| Controller.CheckCommandExistence | custom_components/smartify_tv/media_player.py:206-227 | true on any platform other than Broadlink (or none yet); on Broadlink true iff the learned commands are a dict containing exactly that key |
| Controller.Attempt | custom_components/smartify_tv/media_player.py:305-315 | what the transport receives for one send: the command at that time if the gate allows it, else nothing (no contract of its own; see `SendAppendsIffAllowed`) |
| Controller.HandleSendCommand | custom_components/smartify_tv/media_player.py:301-315 | defines the send service on the state value (no contract of its own; its promises are `SendAppendsIffAllowed`) |
| Controller.SendAppendsIffAllowed | custom_components/smartify_tv/media_player.py:301-315 | the send service keeps the log as a prefix; it appends one transmission (the command, at the current time) iff the gate allows it; nothing else changes |
| Controller.HandleLearnCommand | custom_components/smartify_tv/media_player.py:317-335 | while locked nothing happens; otherwise one learn request goes out; the lock is taken iff the platform is Broadlink; learned commands, log and clock are unchanged; on Broadlink the call suspends until 35 s later; nothing else changes |
| Controller.ResumeLearning | custom_components/smartify_tv/media_player.py:336-337 | the learned commands are not refreshed; the suspended call ends; the lock stays iff it was held, set-up found a command file and the re-read raises; nothing else changes |
| Controller.LearnWhilePending | custom_components/smartify_tv/media_player.py:319-320 | a learn request while a learning call is suspended changes nothing |
| Controller.LearnSession | custom_components/smartify_tv/media_player.py:317-337 | a Broadlink session holds the lock across the 35 s window, releases it afterwards, adds one learn request, sends nothing and leaves the learned commands as they were |
| Controller.LearnWithoutLock | custom_components/smartify_tv/media_player.py:332-333 | on any other platform the lock and the suspension are untouched |
| Controller.LearnWithoutCommandFile | custom_components/smartify_tv/media_player.py:104-107 | after set-up on Broadlink without a command file, a learning session takes the lock during the window and always releases it at the end, whatever the store holds by then |
| Controller.PauseWait | custom_components/smartify_tv/media_player.py:341-348 | sleeps iff less than the pause has elapsed since the last command; the time afterwards is the larger of the time at call and last command time plus the pause |
| Controller.Pace | custom_components/smartify_tv/media_player.py:341-348 | pacing moves the clock and `_last_command_time` to the next slot and changes nothing else |
| Controller.NextSlot | custom_components/smartify_tv/media_player.py:341-348 | the earliest time the pause allows the next paced command: the larger of now and last-command time plus 0.5 s (no contract of its own; `PauseWait` and `Pace` state it) |
| Controller.Elapse | custom_components/smartify_tv/media_player.py:347 | defines a sleep on the state value; a duration of zero or less changes nothing (no contract of its own) |
| Controller.PacedSend | custom_components/smartify_tv/media_player.py:341-348 | one command sent at the next slot, with the clock and last-command time at that slot, keeps the log paced |
| Controller.PacedQuiet | custom_components/smartify_tv/media_player.py:341-348 | a step that sends nothing and does not bring the next slot forward keeps the log paced |
| Controller.PacedBurst | custom_components/smartify_tv/media_player.py:409-414 | a spaced burst starting at the next slot and ending before the new time keeps the log paced |
| Controller.InitialInvariants | custom_components/smartify_tv/media_player.py:54-88 | the freshly constructed controller is valid and paced |
| Controller.KeyName | custom_components/smartify_tv/media_player.py:75-86 | the alias of digit d is the command KEY_d |
| Controller.AliasName | custom_components/smartify_tv/media_player.py:75-86 | every digit has an alias, named "KEY_" followed by the digit |
| Controller.DigitKeys | custom_components/smartify_tv/media_player.py:409-410 | one key per digit, in order, the i-th being KEY_ of the i-th digit |
| Controller.ChannelKeys | custom_components/smartify_tv/media_player.py:409-410 | the keys of channel n: `DigitKeys` of its decimal text (no contract of its own; `ChannelKeysSpelled` states it) |
| Controller.Dispatch | custom_components/smartify_tv/media_player.py:409-414 | what the transport receives when commands are pressed one pause apart from a start time (no contract of its own; its promises are the `Dispatch...` lemmas) |
| Controller.DispatchSends | custom_components/smartify_tv/media_player.py:409-414 | every press the gate allows goes out, i pauses after the start; at most one transmission per press |
| Controller.DispatchOnlyAllowed | custom_components/smartify_tv/media_player.py:409-414 | everything that goes out is a press the gate allows, at its own time |
| Controller.ChannelKeysSpelled | custom_components/smartify_tv/media_player.py:409-410 | channel n presses KEY_d for each decimal digit d of n, most significant first |
| Controller.ChannelKeys205 | custom_components/smartify_tv/media_player.py:409-410 | channel 205 presses KEY_2, KEY_0, KEY_5 |
| Controller.DispatchGated | custom_components/smartify_tv/media_player.py:409-414 | press i goes out, i pauses after the start, exactly when the gate allows its command: every allowed press is in the log, everything in the log is an allowed press of the run at its own time, and there is at most one transmission per press |
| Controller.DispatchAllowed | custom_components/smartify_tv/media_player.py:409-414 | when the gate allows every command, the i-th press goes out as the i-th transmission, i pauses after the start |
| Controller.DispatchBounds | custom_components/smartify_tv/media_player.py:409-414 | no press goes out before the start, and each goes out at least a pause before the run ends |
| Controller.DispatchSnoc | custom_components/smartify_tv/media_player.py:409-414 | one more press extends the log by that press's attempt, i pauses after the start |
| Controller.DispatchSpaced | custom_components/smartify_tv/media_player.py:409-414 | the presses of a run are one pause apart |
| Controller.DigitsGated | custom_components/smartify_tv/media_player.py:409-414 | the digit presses of a digit string send exactly the presses whose keys the gate allows, each at its slot, a pause apart |
| Controller.DigitsAllowed | custom_components/smartify_tv/media_player.py:409-414 | with a permissive gate, the digit presses of a digit string all go out, digit i as KEY_d at i pauses after the start |
| Controller.SetChannel | custom_components/smartify_tv/media_player.py:400-414 | defines `set_channel` on the state value (no contract of its own; its promises are the `SetChannel...` lemmas) |
| Controller.PlayMedia | custom_components/smartify_tv/media_player.py:416-430 | defines `async_play_media` on the state value (no contract of its own; see `PlayMediaSetsChannel` and `PlayMediaIgnored`) |
| Controller.SetChannelAccepted | custom_components/smartify_tv/media_player.py:400-414 | for 1..999 with a permissive gate: the channel is recorded, the last-command time is the paced slot, and exactly one KEY_d goes out per digit of n (1 to 3 digits, no leading zero), most significant first, one pause apart from that slot, after the old log |
| Controller.SetChannelGated | custom_components/smartify_tv/media_player.py:400-414 | for 1..999 with any gate: the channel is recorded, `_last_command_time` is the paced slot, the clock ends one pause per digit later, and nothing else but the log changes; the old log is kept; the KEY_d of digit i goes out, i pauses after the paced slot, exactly when the gate allows it; nothing else is added; the added presses are a pause apart, so in digit order |
| Controller.SetChannelRejected | custom_components/smartify_tv/media_player.py:403-406 | outside 1..999 nothing is sent and the channel is kept, yet clock and last-command time move to the paced slot |
| Controller.SetChannelPaced | custom_components/smartify_tv/media_player.py:400-414 | set_channel keeps the log paced |
| Controller.SetChannelValid | custom_components/smartify_tv/media_player.py:400-414 | set_channel keeps the state valid |
| Controller.PlayMediaSetsChannel | custom_components/smartify_tv/media_player.py:420-424 | playing the decimal text of n as a channel is setting channel n |
| Controller.PlayMediaIgnored | custom_components/smartify_tv/media_player.py:420-430 | any other media type, or a non-numeric identifier, changes nothing |
| Controller.PlaybackIgnoredWhenOff | custom_components/smartify_tv/media_player.py:432-496 | while `_state` is OFF, play, pause, stop and play/pause change nothing at all |
| Controller.PlaybackWhenOn | custom_components/smartify_tv/media_player.py:432-496 | while ON, play, pause and stop pace, attempt PLAY, PAUSE or STOP at the slot, and set PLAYING, PAUSED or IDLE |
| Controller.MediaPlay | custom_components/smartify_tv/media_player.py:432-445 | defines play (no contract of its own; see `PlaybackIgnoredWhenOff` and `PlaybackWhenOn`) |
| Controller.MediaPause | custom_components/smartify_tv/media_player.py:467-480 | defines pause (no contract of its own; see `PlaybackIgnoredWhenOff` and `PlaybackWhenOn`) |
| Controller.MediaStop | custom_components/smartify_tv/media_player.py:482-496 | defines stop (no contract of its own; see `PlaybackIgnoredWhenOff` and `PlaybackWhenOn`) |
| Controller.MediaPlayPause | custom_components/smartify_tv/media_player.py:447-465 | defines play/pause (no contract of its own; see `ToggleCommand`, `Toggled`, `PlaybackIgnoredWhenOff` and `PlayPauseTwice`) |
| Controller.ToggleCommand | custom_components/smartify_tv/media_player.py:455 | play/pause sends PAUSE iff the shown state is PLAYING, else PLAY |
| Controller.Toggled | custom_components/smartify_tv/media_player.py:459-462 | play/pause moves to PAUSED iff the shown state is PLAYING, else to PLAYING |
| Controller.PlayPauseTwice | custom_components/smartify_tv/media_player.py:447-464 | two play/pauses from PLAYING attempt PAUSE then PLAY, one pause apart, and end in PLAYING |
| Controller.PlayPauseWhenOn | custom_components/smartify_tv/media_player.py:447-465 | while ON, play/pause paces, attempts PAUSE at the slot from PLAYING and PLAY otherwise, and sets PAUSED from PLAYING and PLAYING otherwise, as the whole new state |
| Controller.PowerCommands | custom_components/smartify_tv/media_player.py:281-297 | turn on attempts POWER_ON only when OFF, turn off POWER_OFF only when ON; neither changes `_state`, and turn on does not pace |
| Controller.TurnOn | custom_components/smartify_tv/media_player.py:281-288 | defines turn on (no contract of its own; see `PowerCommands`) |
| Controller.TurnOff | custom_components/smartify_tv/media_player.py:290-297 | defines turn off (no contract of its own; see `PowerCommands`) |
| Controller.VolumeStepUp | custom_components/smartify_tv/media_player.py:368-369 | one tenth up, stopping at 10 and staying on the scale |
| Controller.VolumeStepDown | custom_components/smartify_tv/media_player.py:378-379 | one tenth down, stopping at 0 and staying on the scale |
| Controller.VolumeSteps | custom_components/smartify_tv/media_player.py:362-380 | volume up/down always attempt VOLUME_UP/VOLUME_DOWN at the slot and move the level one step, clamped to 0..10 |
| Controller.MuteSends | custom_components/smartify_tv/media_player.py:350-360 | mute records the flag and attempts MUTE or UNMUTE at the slot accordingly |
| Controller.MuteVolume | custom_components/smartify_tv/media_player.py:350-360 | defines mute (no contract of its own; see `MuteSends`) |
| Controller.VolumeUp | custom_components/smartify_tv/media_player.py:362-370 | defines volume up (no contract of its own; see `VolumeSteps` and `VolumeStepUp`) |
| Controller.VolumeDown | custom_components/smartify_tv/media_player.py:372-380 | defines volume down (no contract of its own; see `VolumeSteps` and `VolumeStepDown`) |
| Controller.MediaPreviousTrack | custom_components/smartify_tv/media_player.py:382-389 | defines previous track: pace, then attempt CHANNEL_DOWN (no contract of its own; see `SteppingPaced` and `SteppingValid`) |
| Controller.MediaNextTrack | custom_components/smartify_tv/media_player.py:391-398 | defines next track: pace, then attempt CHANNEL_UP (no contract of its own; see `SteppingPaced` and `SteppingValid`) |
| Controller.ServiceDomain | custom_components/smartify_tv/media_player.py:504 | same length; '.' and ' ' become '_', each capital becomes its lower-case letter, every other character is kept |
| Controller.ServiceDomainIdempotent | custom_components/smartify_tv/media_player.py:504 | sanitising a domain name twice is sanitising it once |
| Decimal.DigitValue | custom_components/smartify_tv/media_player.py:424 | a digit's value is below 10 |
| Decimal.DigitChar | custom_components/smartify_tv/media_player.py:409 | the character of a value below 10 is a digit with that value |
| Decimal.DigitCharOfValue | custom_components/smartify_tv/media_player.py:409 | a digit is the character of its own value |
| Decimal.ToDecimal | custom_components/smartify_tv/media_player.py:409 | the text is non-empty and all digits; one digit iff n < 10; a leading '0' only for n = 0 |
| Decimal.ParseToDecimal | custom_components/smartify_tv/media_player.py:421-424 | parsing the decimal text of n gives n |
| Decimal.ToDecimalParse | custom_components/smartify_tv/media_player.py:421-424 | a canonical digit string is the decimal text of the number it denotes |
| Decimal.ParsePositive | custom_components/smartify_tv/media_player.py:421-424 | a digit string with a non-zero first digit denotes a positive number |
| Decimal.ParseDecimal | custom_components/smartify_tv/media_player.py:424 | the number a digit string denotes, as `int(media_id)` (no contract of its own; `ParseToDecimal` and `ToDecimalParse` state it) |
| Decimal.IsNumeric | custom_components/smartify_tv/media_player.py:421 | the numeric check on a media identifier: non-empty and all ASCII digits (non-ASCII numerics are treated as not numeric; no contract of its own) |
| Decimal.DigitCount | custom_components/smartify_tv/media_player.py:406-409 | a number in 1..999 has 1 to 3 digits and no leading zero |
| MediaPlayer.SmartifyTVMediaPlayer.constructor | custom_components/smartify_tv/media_player.py:54-88 | the new entity is OFF and available, unmuted, at volume 2 tenths, on channel 1, with last-command time 0, no platform, no learned commands, unlocked, and empty logs |
| MediaPlayer.SmartifyTVMediaPlayer.Elapse | custom_components/smartify_tv/media_player.py:347 | a sleep advances the clock by a positive duration and changes nothing else |
| MediaPlayer.SmartifyTVMediaPlayer.UpdatePowerState | custom_components/smartify_tv/media_player.py:244-273 | the new state is `Controller.UpdatePowerState` of the old one |
| MediaPlayer.SmartifyTVMediaPlayer.HandlePowerStateChange | custom_components/smartify_tv/media_player.py:275-279 | only events about the power sensor re-derive the power state |
| MediaPlayer.SmartifyTVMediaPlayer.Initialize | custom_components/smartify_tv/media_player.py:98-111 | the new state is `Controller.Initialize` of the old one |
| MediaPlayer.SmartifyTVMediaPlayer.Configure | custom_components/smartify_tv/media_player.py:100-107 | the new state is `Controller.Configure` of the old one, and the answer is true exactly when set-up goes on to derive the power state, i.e. unless the Broadlink record cannot be copied |
| MediaPlayer.SmartifyTVMediaPlayer.TurnOn | custom_components/smartify_tv/media_player.py:281-288 | the new state is `Controller.TurnOn` of the old one |
| MediaPlayer.SmartifyTVMediaPlayer.TurnOff | custom_components/smartify_tv/media_player.py:290-297 | the new state is `Controller.TurnOff` of the old one |
| MediaPlayer.SmartifyTVMediaPlayer.HandleSendCommand | custom_components/smartify_tv/media_player.py:301-315 | the new state is `Controller.HandleSendCommand` of the old one |
| MediaPlayer.SmartifyTVMediaPlayer.HandleLearnCommand | custom_components/smartify_tv/media_player.py:317-335 | the new state is `Controller.HandleLearnCommand` of the old one |
| MediaPlayer.SmartifyTVMediaPlayer.ResumeLearning | custom_components/smartify_tv/media_player.py:336-337 | the new state is `Controller.ResumeLearning` of the old one |
| MediaPlayer.SmartifyTVMediaPlayer.EnsureCommandPause | custom_components/smartify_tv/media_player.py:341-348 | returns the time afterwards, the larger of the time at call and last plus the pause; only the clock moves |
| MediaPlayer.SmartifyTVMediaPlayer.MuteVolume | custom_components/smartify_tv/media_player.py:350-360 | the new state is `Controller.MuteVolume` of the old one |
| MediaPlayer.SmartifyTVMediaPlayer.VolumeUp | custom_components/smartify_tv/media_player.py:362-370 | the new state is `Controller.VolumeUp` of the old one |
| MediaPlayer.SmartifyTVMediaPlayer.VolumeDown | custom_components/smartify_tv/media_player.py:372-380 | the new state is `Controller.VolumeDown` of the old one |
| MediaPlayer.SmartifyTVMediaPlayer.MediaPreviousTrack | custom_components/smartify_tv/media_player.py:382-389 | the new state is `Controller.MediaPreviousTrack` of the old one |
| MediaPlayer.SmartifyTVMediaPlayer.MediaNextTrack | custom_components/smartify_tv/media_player.py:391-398 | the new state is `Controller.MediaNextTrack` of the old one |
| MediaPlayer.SmartifyTVMediaPlayer.PressKey | custom_components/smartify_tv/media_player.py:411-414 | one press: the key goes out at the current time exactly as the gate allows (`Attempt`), then the clock moves one pause; nothing else changes |
| MediaPlayer.SmartifyTVMediaPlayer.PressKeys | custom_components/smartify_tv/media_player.py:409-414 | the loop appends exactly `Controller.Dispatch` of the keys from the time at entry, and advances the clock by one pause per key |
| MediaPlayer.SmartifyTVMediaPlayer.DialChannel | custom_components/smartify_tv/media_player.py:407-414 | for 1..999: records the channel, appends exactly `Controller.Dispatch` of its digit keys from the time at entry, and advances the clock one pause per digit |
| MediaPlayer.SmartifyTVMediaPlayer.SetChannel | custom_components/smartify_tv/media_player.py:400-414 | the new state is `Controller.SetChannel` of the old one |
| MediaPlayer.SmartifyTVMediaPlayer.PlayMedia | custom_components/smartify_tv/media_player.py:416-430 | the new state is `Controller.PlayMedia` of the old one |
| MediaPlayer.SmartifyTVMediaPlayer.MediaPlay | custom_components/smartify_tv/media_player.py:432-445 | the new state is `Controller.MediaPlay` of the old one |
| MediaPlayer.SmartifyTVMediaPlayer.MediaPlayPause | custom_components/smartify_tv/media_player.py:447-465 | the new state is `Controller.MediaPlayPause` of the old one |
| MediaPlayer.SmartifyTVMediaPlayer.MediaPause | custom_components/smartify_tv/media_player.py:467-480 | the new state is `Controller.MediaPause` of the old one |
| MediaPlayer.SmartifyTVMediaPlayer.MediaStop | custom_components/smartify_tv/media_player.py:482-496 | the new state is `Controller.MediaStop` of the old one |
| Traces.UnpacedValid | custom_components/smartify_tv/media_player.py:281-315 | turn on, turn off and the raw send service keep the state valid |
| Traces.SteppingValid | custom_components/smartify_tv/media_player.py:350-398 | mute, volume and track buttons keep the state valid |
| Traces.PlaybackValid | custom_components/smartify_tv/media_player.py:432-496 | the playback buttons keep the state valid |
| Traces.SetupValid | custom_components/smartify_tv/media_player.py:98-111 | set-up and power events keep the state valid |
| Traces.WaitingValid | custom_components/smartify_tv/media_player.py:317-337 | learning, the end of a learning window and waiting keep the state valid |
| Traces.StepValid | custom_components/smartify_tv/media_player.py:244-496 | every intent keeps the volume in 0..10, every recorded time in the past, and a suspended learning call locked |
| Traces.SteppingPaced | custom_components/smartify_tv/media_player.py:350-398 | mute, volume and track buttons keep the log paced |
| Traces.PlaybackPaced | custom_components/smartify_tv/media_player.py:432-496 | the playback buttons keep the log paced |
| Traces.SetupPaced | custom_components/smartify_tv/media_player.py:98-111 | set-up and power events keep the log paced |
| Traces.WaitingPaced | custom_components/smartify_tv/media_player.py:317-337 | learning and waiting keep the log paced |
| Traces.ChannelPaced | custom_components/smartify_tv/media_player.py:400-430 | setting a channel, directly or as a media item, keeps the log paced |
| Traces.StepPaced | custom_components/smartify_tv/media_player.py:341-348 | every intent other than turn on, turn off and the raw send keeps the log paced |
| Traces.RunValid | custom_components/smartify_tv/media_player.py:244-496 | every run keeps the state valid |
| Traces.RunPaced | custom_components/smartify_tv/media_player.py:341-348 | every run of paced intents keeps the log paced |
| Traces.PacedRunsAreSpaced | custom_components/smartify_tv/media_player.py:341-348 | from a fresh controller, any run of paced intents leaves consecutive transmissions at least 0.5 s apart, all in the past, and the volume within 0..10 |
| Traces.TurnOnSkipsPacing | custom_components/smartify_tv/media_player.py:281-288 | VOLUME_UP followed by turn on sends POWER_ON at the same instant, so the log is not spaced |

## Left out

- File and JSON I/O. This covers `_find_broadlink_file_by_mac`, the `aiofiles` read and
  `json.loads`. The store comes in already parsed, or as None when there is no file.
  A malformed file, which would make `json.loads` raise, is not modelled. JSON numbers
  are abstracted to integers.
- The entity registry (`get_entity_info`). Its result is the `registryPlatform`
  parameter. The remote's MAC address (`_ir_remote_mac`) is not modelled. The
  command-file path (`_ir_remote_cmd_file`) is kept only as `irRemoteCmdFile`, whether
  set-up found a file. Its content at each read is a parameter, so a file that
  disappears or changes between the two reads is covered, but the path itself is not.
- The host calls: event-bus subscription, `async_write_ha_state`, the registration of
  the two services (only the domain sanitiser of line 504 is modelled), and logging.
- `async_update`, which does nothing, and the static properties: name, state, icon,
  device class, supported features, extra state attributes, muted, volume level and
  media title.
- Interleaving between awaits. Each method is one atomic step over the abstract clock.
  The only exception is the learning call, whose wait is split out.
- The host time between intents. It is the `Elapse` intent. `Elapse` accepts any real
  and ignores a duration of zero or less, so the clock never goes back.
- Floating point. Wattage is a real number, and only the threshold test on it is
  modelled. The float accumulation of `0.2 + 0.1 + …` in the volume is not modelled:
  the volume is kept in exact tenths.
- Unicode. `str.isnumeric` and `str.lower` are modelled for ASCII only. Non-ASCII
  numeric characters are treated as not numeric, and non-ASCII letters are not
  lower-cased.
- A missing `command` or `channel_number` in a service call (Python `None`). Commands are
  strings, and the channel number is an integer.
- `config_flow.py` and `__init__.py`, which are host set-up plumbing. Neither is part of
  this model.
