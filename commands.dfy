/**
 * The fixed vocabulary of IR commands of the emulated TV remote and the pause
 * between two presses of its buttons (custom_components/smartify_tv/const.py).
 */
module Commands {

  /** Pause between two button presses of the emulated remote, in seconds. */
  const INTERCOMMAND_PAUSE: real := 0.5

  /** One logical button of the remote; the constructor names are the command names themselves. */
  datatype Command =
    | POWER_ON | POWER_OFF
    | VOLUME_UP | VOLUME_DOWN | MUTE | UNMUTE
    | CHANNEL_UP | CHANNEL_DOWN | SOURCE
    | PLAY | STOP | PAUSE | PLAYPAUSE
    | KEY_0 | KEY_1 | KEY_2 | KEY_3 | KEY_4 | KEY_5 | KEY_6 | KEY_7 | KEY_8 | KEY_9
    | UP | DOWN | LEFT | RIGHT | OK | EXIT

  /** The name under which the command is learned and sent. */
  function Name(c: Command): string
  {
    match c
    case POWER_ON => "POWER_ON"
    case POWER_OFF => "POWER_OFF"
    case VOLUME_UP => "VOLUME_UP"
    case VOLUME_DOWN => "VOLUME_DOWN"
    case MUTE => "MUTE"
    case UNMUTE => "UNMUTE"
    case CHANNEL_UP => "CHANNEL_UP"
    case CHANNEL_DOWN => "CHANNEL_DOWN"
    case SOURCE => "SOURCE"
    case PLAY => "PLAY"
    case STOP => "STOP"
    case PAUSE => "PAUSE"
    case PLAYPAUSE => "PLAYPAUSE"
    case KEY_0 => "KEY_0"
    case KEY_1 => "KEY_1"
    case KEY_2 => "KEY_2"
    case KEY_3 => "KEY_3"
    case KEY_4 => "KEY_4"
    case KEY_5 => "KEY_5"
    case KEY_6 => "KEY_6"
    case KEY_7 => "KEY_7"
    case KEY_8 => "KEY_8"
    case KEY_9 => "KEY_9"
    case UP => "UP"
    case DOWN => "DOWN"
    case LEFT => "LEFT"
    case RIGHT => "RIGHT"
    case OK => "OK"
    case EXIT => "EXIT"
  }
}
