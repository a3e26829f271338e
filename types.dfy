/** The records and enumerations shared by the devices, the store and the communicators. */
module Types {
  import opened Wrappers
  import opened Color

  /** A MIDI channel. */
  type Channel = c: int | 1 <= c <= 16 witness 1

  /** A MIDI note or controller number. */
  type Note = n: int | 0 <= n <= 127

  /** A MIDI velocity or controller value. */
  type Velocity = v: int | 0 <= v <= 127

  datatype MessageType = ControlChange | ProgramChange | NoteOn | Sysex
  {
    /** The string value of the enumeration member. */
    function Name(): string
    {
      match this
      case ControlChange => "controlchange"
      case ProgramChange => "programchange"
      case NoteOn => "noteon"
      case Sysex => "sysex"
    }
  }

  datatype ControllerType = Lcd | Toggle | Rotary | Step

  datatype RotaryStyle = Light | Dark | Metal

  datatype LogType = Success | Info | Warn | Error
  {
    function Name(): string
    {
      match this
      case Success => "success"
      case Info => "info"
      case Warn => "warn"
      case Error => "error"
    }
  }

  datatype ToggleStatus = On | Off

  /** The authentication of the HTTP communicator: a bearer token or an API key. */
  datatype Auth = Bearer(token: string) | ApiKey(key: string)

  /**
   * One controller of a device; optional fields are `None` when absent. `caption` is the
   * `label` field (`label` is a reserved word here).
   */
  datatype Controller = Controller(
    kind: ControllerType,
    caption: string,
    message: MessageType,
    note: Option<int>,
    defaultValue: Option<int>,
    minValue: Option<int>,
    maxValue: Option<int>,
    value: Option<int>,
    group: Option<int>)

  /** The three controller buckets of a device (`lcds`, `toggles`, `rotaries`). */
  datatype Controllers = Controllers(lcds: seq<Controller>, toggles: seq<Controller>, rotaries: seq<Controller>)

  /**
   * A colour as a configuration holds it: absent (undefined or null), a string, a `Color`
   * instance, or a plain object with `r`, `g`, `b` and perhaps `a`.
   */
  datatype ColorInput = NoColor | ColorText(text: string) | ColorObject(color: Rgba) | ColorComponents(r: int, g: int, b: int, a: Option<int>)

  /** The configuration record of a device (`caption` is its `label`). */
  datatype DeviceConfig = DeviceConfig(
    id: string,
    caption: string,
    backgroundColor: ColorInput,
    panelColor: ColorInput,
    borderColor: ColorInput,
    borderSize: Option<int>,
    style: Option<RotaryStyle>,
    stock: bool,
    category: Option<string>,
    controllers: Controllers,
    logo: Option<string>)

  /** One entry of the console store; the timestamp is a clock reading. */
  datatype ConsoleLog = ConsoleLog(id: string, kind: LogType, message: string, timestamp: int)
}
