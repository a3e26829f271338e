/** The HTTP transport: remote endpoints that take MIDI messages as JSON requests. */
module Http {
  import opened Wrappers
  import opened Types
  import opened Communicator
  import HttpOutput

  /** One endpoint of the configuration. */
  datatype Endpoint = Endpoint(baseUrl: string, id: Option<string>, name: Option<string>)

  /** The configuration of `Http.init`; the endpoint list may be missing. */
  datatype HttpConfig = HttpConfig(endpoints: Option<seq<Endpoint>>, auth: Auth)

  /** The high nibble of the status value used for each message type's trace. */
  function Nibble(kind: MessageType): int
  {
    match kind
    case ControlChange => 0x0b
    case ProgramChange => 0x0c
    case NoteOn => 0x09
    case Sysex => 0xf
  }

  function OutputConfigOf(e: Endpoint, auth: Auth): HttpOutput.OutputConfig
  {
    HttpOutput.OutputConfig(e.baseUrl, e.id, e.name, auth)
  }

  /** The `map` of the endpoints to outputs: the first constructor that throws ends it. */
  function ConstructAll(endpoints: seq<Endpoint>, auth: Auth, libraryIsUrl: string -> bool): Result<seq<HttpOutput.Output>>
  {
    MapAll(endpoints, (e: Endpoint) => Built(e, auth, libraryIsUrl))
  }

  /** The output built for one endpoint, with the configuration's shared credentials. */
  function Built(e: Endpoint, auth: Auth, libraryIsUrl: string -> bool): Result<HttpOutput.Output>
  {
    HttpOutput.Construct(OutputConfigOf(e, auth), libraryIsUrl)
  }

  /** The map succeeds exactly when every endpoint builds. */
  lemma ConstructAllSucceeds(endpoints: seq<Endpoint>, auth: Auth, libraryIsUrl: string -> bool)
    ensures ConstructAll(endpoints, auth, libraryIsUrl).Ok? <==> forall i :: 0 <= i < |endpoints| ==> Built(endpoints[i], auth, libraryIsUrl).Ok?
  {
    MapAllOk(endpoints, (e: Endpoint) => Built(e, auth, libraryIsUrl));
  }

  /** A map that succeeds holds each endpoint's output in order. */
  lemma ConstructAllOutputs(endpoints: seq<Endpoint>, auth: Auth, libraryIsUrl: string -> bool)
    requires ConstructAll(endpoints, auth, libraryIsUrl).Ok?
    ensures var outs := ConstructAll(endpoints, auth, libraryIsUrl).value;
            |outs| == |endpoints| && forall i :: 0 <= i < |endpoints| ==> Ok(outs[i]) == Built(endpoints[i], auth, libraryIsUrl)
  {
    MapAllValues(endpoints, (e: Endpoint) => Built(e, auth, libraryIsUrl));
  }

  /** The three arguments `init` passes to the communicator constructor. */
  datatype Bases = Bases(inputs: seq<Port>, outputs: seq<Port>, disabled: seq<string>)

  function RemotePorts(outs: seq<HttpOutput.Output>): (r: seq<Port>)
    ensures |r| == |outs| && forall i :: 0 <= i < |outs| ==> r[i] == Remote(outs[i])
  {
    if outs == [] then [] else [Remote(outs[0])] + RemotePorts(outs[1..])
  }

  function StrayPorts(ids: seq<string>): (r: seq<Port>)
    ensures |r| == |ids| && forall i :: 0 <= i < |ids| ==> r[i] == Stray(ids[i])
  {
    if ids == [] then [] else [Stray(ids[0])] + StrayPorts(ids[1..])
  }

  /**
   * `Http.init`: nothing without endpoints, or when a constructor throws; otherwise the
   * arguments of `new Http(outputs, disabled)`, which the communicator constructor takes as
   * (inputs, outputs), the disabled list then being the default empty one.
   */
  function Init(config: HttpConfig, disabled: seq<string>, libraryIsUrl: string -> bool): Option<Bases>
  {
    if config.endpoints.None? || config.endpoints.value == [] then None
    else
      match ConstructAll(config.endpoints.value, config.auth, libraryIsUrl)
      case Err(_) => None
      case Ok(outs) => Some(Bases(RemotePorts(outs), StrayPorts(disabled), []))
  }

  /** `Http.init` building the communicator object from those arguments. */
  method InitComunicator(config: HttpConfig, disabled: seq<string>, libraryIsUrl: string -> bool) returns (c: Comunicator?)
    ensures c == null <==> Init(config, disabled, libraryIsUrl).None?
    ensures c != null ==> fresh(c) && fresh(c.disabled)
                          && Bases(c.inputs, c.outputs, c.disabled.items) == Init(config, disabled, libraryIsUrl).value
  {
    var bases := Init(config, disabled, libraryIsUrl);
    if bases.None? {
      return null;
    }
    var none := new IdList([]);
    c := new Comunicator(bases.value.inputs, bases.value.outputs, none);
  }

  /**
   * `init` fails exactly when the endpoint list is missing or empty or some endpoint's
   * constructor throws. Otherwise every endpoint's output lands in the INPUT list, in order,
   * the output list holds the caller's disabled ids, and nothing is disabled.
   */
  lemma InitBinding(config: HttpConfig, disabled: seq<string>, libraryIsUrl: string -> bool)
    ensures Init(config, disabled, libraryIsUrl).None? <==>
              config.endpoints.None? || config.endpoints.value == []
              || exists i :: 0 <= i < |config.endpoints.value|
                   && Built(config.endpoints.value[i], config.auth, libraryIsUrl).Err?
    ensures Init(config, disabled, libraryIsUrl).Some? ==>
              var b := Init(config, disabled, libraryIsUrl).value;
              var es := config.endpoints.value;
              |b.inputs| == |es| && b.disabled == [] && |b.outputs| == |disabled|
              && (forall i :: 0 <= i < |es| ==>
                    b.inputs[i].Remote? && Ok(b.inputs[i].output) == Built(es[i], config.auth, libraryIsUrl))
              && (forall i :: 0 <= i < |disabled| ==> b.outputs[i] == Stray(disabled[i]))
  {
    if config.endpoints.Some? {
      ConstructAllSucceeds(config.endpoints.value, config.auth, libraryIsUrl);
      if ConstructAll(config.endpoints.value, config.auth, libraryIsUrl).Ok? {
        ConstructAllOutputs(config.endpoints.value, config.auth, libraryIsUrl);
      }
    }
  }

  /**
   * `Http.send`: a missing output returns `false`; a control change or program change is sent
   * with the channel as its option, then traced in base 2 with the type's nibble and the
   * caller's velocity; errors are caught, so an unhandled type, a value that is not a port, or
   * a trace that cannot be formatted returns `false`.
   */
  function Send(outputs: seq<Port>, target: Target, channel: Channel, kind: MessageType, note: int, velocity: int): SendOutcome
  {
    var port := Resolve(outputs, target);
    if port.None? then SendOutcome([], None, Returned(false))
    else if !(kind.ControlChange? || kind.ProgramChange?) || port.value.Stray? then SendOutcome([], None, Returned(false))
    else
      match kind
      case ControlChange =>
        Logged(ControlChangeCall(port.value, note, velocity, HttpOutput.Single(channel)),
               PrintableOctets(Nibble(kind), channel, note, velocity, 2))
      case ProgramChange =>
        Logged(ProgramChangeCall(port.value, note, HttpOutput.Single(channel)),
               PrintableOctets(Nibble(kind), channel, note, velocity, 2))
  }

  /** After the call: the trace is written and `true` returned, or the formatter's error is caught and `false` returned. */
  function Logged(call: PortCall, trace: Result<string>): SendOutcome
  {
    match trace
    case Ok(line) => SendOutcome([call], Some(line), Returned(true))
    case Err(_) => SendOutcome([call], None, Returned(false))
  }

  /**
   * `send` never throws. It returns `true` exactly for a control change or program change on
   * a port that resolves, with a non-negative note and velocity; then exactly one call was
   * made, carrying the caller's note and channel. A missing port, a stray value or another
   * message type makes no call at all.
   */
  lemma SendReturns(outputs: seq<Port>, target: Target, channel: Channel, kind: MessageType, note: int, velocity: int)
    ensures Send(outputs, target, channel, kind, note, velocity).result.Returned?
    ensures var port := Resolve(outputs, target);
            Send(outputs, target, channel, kind, note, velocity).result == Returned(true) <==>
              (kind.ControlChange? || kind.ProgramChange?) && port.Some? && !port.value.Stray? && note >= 0 && velocity >= 0
    ensures var port := Resolve(outputs, target);
            var out := Send(outputs, target, channel, kind, note, velocity);
            (out.calls == [] <==> !(kind.ControlChange? || kind.ProgramChange?) || port.None? || port.value.Stray?)
            && |out.calls| <= 1
            && (out.calls != [] ==> out.calls[0].port == port.value && out.calls[0].note == note
                                    && out.calls[0].options == HttpOutput.Single(channel))
  {
    if kind.ControlChange? || kind.ProgramChange? {
      PrintableOctetsTokens(Nibble(kind), channel, note, velocity, 2);
      StatusValueOfNibble(Nibble(kind), channel);
    }
  }

  /** On a remote output, a control change is sent and then traced with its nibble. */
  lemma ControlChangeOnRemote(o: HttpOutput.Output, channel: Channel, note: int, velocity: int)
    ensures Send([], Given(Remote(o)), channel, ControlChange, note, velocity)
            == Logged(ControlChangeCall(Remote(o), note, velocity, HttpOutput.Single(channel)), PrintableOctets(0x0b, channel, note, velocity, 2))
  {
  }

  /** On a remote output, a program change is sent and then traced with its nibble. */
  lemma ProgramChangeOnRemote(o: HttpOutput.Output, channel: Channel, note: int, velocity: int)
    ensures Send([], Given(Remote(o)), channel, ProgramChange, note, velocity)
            == Logged(ProgramChangeCall(Remote(o), note, HttpOutput.Single(channel)), PrintableOctets(0x0c, channel, note, velocity, 2))
  {
  }

  /** A call whose trace can be formatted is logged and returns `true`. */
  lemma LoggedTrace(call: PortCall, nibble: int, channel: Channel, note: nat, velocity: nat)
    requires 0 <= nibble < 16
    ensures StatusValue(nibble, channel) == nibble * 16 + channel - 1
    ensures Logged(call, PrintableOctets(nibble, channel, note, velocity, 2))
            == SendOutcome([call], Some(Token(StatusValue(nibble, channel), 2) + " " + Token(note, 2) + " " + Token(velocity, 2)), Returned(true))
  {
    StatusValueOfNibble(nibble, channel);
    PrintableOctetsTokens(nibble, channel, note, velocity, 2);
  }

  /**
   * A control change on a remote output makes exactly one call, which issues that output's
   * control-change request with the caller's note, velocity and channel; the trace carries the
   * status value 0xb0 + channel - 1, the note and the velocity.
   */
  lemma RemoteControlChange(o: HttpOutput.Output, channel: Channel, note: nat, velocity: nat)
    ensures var call := ControlChangeCall(Remote(o), note, velocity, HttpOutput.Single(channel));
            StatusValue(0x0b, channel) == 0xb0 + channel - 1
            && Send([], Given(Remote(o)), channel, ControlChange, note, velocity)
               == SendOutcome([call], Some(Token(StatusValue(0x0b, channel), 2) + " " + Token(note, 2) + " " + Token(velocity, 2)), Returned(true))
            && RequestOf(call) == Some(HttpOutput.ControlChangeRequest(o, note, velocity, HttpOutput.Single(channel)))
  {
    ControlChangeOnRemote(o, channel, note, velocity);
    StatusValueOfNibble(0x0b, channel);
    LoggedTrace(ControlChangeCall(Remote(o), note, velocity, HttpOutput.Single(channel)), 0x0b, channel, note, velocity);
  }

  /**
   * A program change on a remote output makes exactly one call, which issues its program-change
   * request; the trace carries status 0xc0 + channel - 1 and still the caller's velocity.
   */
  lemma RemoteProgramChange(o: HttpOutput.Output, channel: Channel, note: nat, velocity: nat)
    ensures var call := ProgramChangeCall(Remote(o), note, HttpOutput.Single(channel));
            StatusValue(0x0c, channel) == 0xc0 + channel - 1
            && Send([], Given(Remote(o)), channel, ProgramChange, note, velocity)
               == SendOutcome([call], Some(Token(StatusValue(0x0c, channel), 2) + " " + Token(note, 2) + " " + Token(velocity, 2)), Returned(true))
            && RequestOf(call) == Some(HttpOutput.ProgramChangeRequest(o, note, HttpOutput.Single(channel)))
  {
    ProgramChangeOnRemote(o, channel, note, velocity);
    StatusValueOfNibble(0x0c, channel);
    LoggedTrace(ProgramChangeCall(Remote(o), note, HttpOutput.Single(channel)), 0x0c, channel, note, velocity);
  }

  /**
   * Because of that binding, sending by index on a communicator that `init` built never
   * reaches an endpoint: every index returns `false` with no call.
   */
  lemma SendByIndexAfterInit(config: HttpConfig, disabled: seq<string>, libraryIsUrl: string -> bool,
                             i: int, channel: Channel, kind: MessageType, note: int, velocity: int)
    requires Init(config, disabled, libraryIsUrl).Some?
    ensures var b := Init(config, disabled, libraryIsUrl).value;
            Send(b.outputs, Index(i), channel, kind, note, velocity) == SendOutcome([], None, Returned(false))
  {
  }
}
