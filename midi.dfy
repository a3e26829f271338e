/** The WebMIDI transport: `send` on a list of WebMIDI output ports. */
module Midi {
  import opened Wrappers
  import opened Numbers
  import opened Types
  import opened Communicator
  import HttpOutput

  /** WebMIDI's channel message numbers for control change and program change. */
  const ControlChangeNumber := 11
  const ProgramChangeNumber := 12

  function NotHandled(kind: MessageType): string
  {
    "MessageType " + kind.Name() + " not handled"
  }

  /**
   * `Midi.send`: an index selects an output (none outside the list); then a control change
   * or program change is sent on the port, with the channel as its option, and its trace is
   * formatted in base 2; any other message type throws before anything is sent. A program
   * change is traced with velocity 0. Nothing is caught, so a missing port throws a
   * `TypeError` and a trace that cannot be formatted throws after the call.
   */
  function Send(outputs: seq<Port>, target: Target, channel: Channel, kind: MessageType, note: int, velocity: int): SendOutcome
  {
    var port := Resolve(outputs, target);
    match kind
    case ControlChange =>
      if port.None? || port.value.Stray? then SendOutcome([], None, TypeError)
      else
        var call := ControlChangeCall(port.value, note, velocity, HttpOutput.Single(channel));
        Traced(call, PrintableOctets(ControlChangeNumber, channel, note, velocity, 2))
    case ProgramChange =>
      if port.None? || port.value.Stray? then SendOutcome([], None, TypeError)
      else
        var call := ProgramChangeCall(port.value, note, HttpOutput.Single(channel));
        Traced(call, PrintableOctets(ProgramChangeNumber, channel, note, 0, 2))
    case _ => SendOutcome([], None, Threw(NotHandled(kind)))
  }

  /** After the call: the trace is written and `true` returned, or the formatter's error escapes. */
  function Traced(call: PortCall, trace: Result<string>): SendOutcome
  {
    match trace
    case Ok(line) => SendOutcome([call], Some(line), Returned(true))
    case Err(m) => SendOutcome([call], None, Threw(m))
  }

  /** `send` never returns `false`: it returns `true` or throws. */
  lemma SendNeverFalse(outputs: seq<Port>, target: Target, channel: Channel, kind: MessageType, note: int, velocity: int)
    ensures Send(outputs, target, channel, kind, note, velocity).result != Returned(false)
  {
  }

  /**
   * `send` returns `true` exactly for a control change or program change on a port that
   * resolves, with a non-negative note and, for a control change, a non-negative velocity.
   */
  lemma SendTrueExactly(outputs: seq<Port>, target: Target, channel: Channel, kind: MessageType, note: int, velocity: int)
    ensures var port := Resolve(outputs, target);
            Send(outputs, target, channel, kind, note, velocity).result == Returned(true) <==>
              (kind.ControlChange? || kind.ProgramChange?) && port.Some? && !port.value.Stray?
              && note >= 0 && (kind.ControlChange? ==> velocity >= 0)
  {
    match kind
    case ControlChange =>
      PrintableOctetsTokens(ControlChangeNumber, channel, note, velocity, 2);
      StatusValueOfNibble(ControlChangeNumber, channel);
    case ProgramChange =>
      PrintableOctetsTokens(ProgramChangeNumber, channel, note, 0, 2);
      StatusValueOfNibble(ProgramChangeNumber, channel);
    case _ =>
  }

  /**
   * A control change that succeeds made exactly one call, on the resolved port with the
   * caller's note, velocity and channel, and traced the status value, note and velocity.
   */
  lemma ControlChangeSent(outputs: seq<Port>, target: Target, channel: Channel, note: int, velocity: int)
    requires Send(outputs, target, channel, ControlChange, note, velocity).result == Returned(true)
    ensures var out := Send(outputs, target, channel, ControlChange, note, velocity);
            var port := Resolve(outputs, target);
            port.Some? && note >= 0 && velocity >= 0
            && out.calls == [ControlChangeCall(port.value, note, velocity, HttpOutput.Single(channel))]
            && out.trace == Some(Token(StatusValue(ControlChangeNumber, channel), 2) + " " + Token(note, 2) + " " + Token(velocity, 2))
  {
    PrintableOctetsTokens(ControlChangeNumber, channel, note, velocity, 2);
    StatusValueOfNibble(ControlChangeNumber, channel);
  }

  /**
   * A program change that succeeds made exactly one call, on the resolved port with the
   * caller's note and channel, and traced velocity 0 whatever the caller passed.
   */
  lemma ProgramChangeSent(outputs: seq<Port>, target: Target, channel: Channel, note: int, velocity: int)
    requires Send(outputs, target, channel, ProgramChange, note, velocity).result == Returned(true)
    ensures var out := Send(outputs, target, channel, ProgramChange, note, velocity);
            var port := Resolve(outputs, target);
            port.Some? && note >= 0
            && out.calls == [ProgramChangeCall(port.value, note, HttpOutput.Single(channel))]
            && out.trace == Some(Token(StatusValue(ProgramChangeNumber, channel), 2) + " " + Token(note, 2) + " " + Token(0, 2))
  {
    PrintableOctetsTokens(ProgramChangeNumber, channel, note, 0, 2);
    StatusValueOfNibble(ProgramChangeNumber, channel);
  }

  /**
   * A note-on or sysex message throws "not handled" before anything is sent, whatever the
   * target; a control change or program change to a missing port throws a `TypeError`; and a
   * negative note (or control-change velocity) throws the formatter's error after the call.
   */
  lemma SendFailures(outputs: seq<Port>, target: Target, channel: Channel, kind: MessageType, note: int, velocity: int)
    ensures var out := Send(outputs, target, channel, kind, note, velocity);
            (kind.NoteOn? || kind.Sysex?) ==> out == SendOutcome([], None, Threw(NotHandled(kind)))
    ensures var out := Send(outputs, target, channel, kind, note, velocity);
            (kind.ControlChange? || kind.ProgramChange?) && Resolve(outputs, target).None? ==> out == SendOutcome([], None, TypeError)
    ensures var out := Send(outputs, target, channel, kind, note, velocity);
            var port := Resolve(outputs, target);
            (kind.ControlChange? || kind.ProgramChange?) && port.Some? && !port.value.Stray?
            && (note < 0 || (kind.ControlChange? && velocity < 0)) ==>
              |out.calls| == 1 && out.trace.None? && out.result == Threw(InvalidDigit('-', 10))
  {
    match kind
    case ControlChange =>
      PrintableOctetsTokens(ControlChangeNumber, channel, note, velocity, 2);
      StatusValueOfNibble(ControlChangeNumber, channel);
    case ProgramChange =>
      PrintableOctetsTokens(ProgramChangeNumber, channel, note, 0, 2);
      StatusValueOfNibble(ProgramChangeNumber, channel);
    case _ =>
  }

  /**
   * The base-2 trace is not eight bits per octet: a control change of note 7, velocity 100 on
   * channel 1 is traced with the eight zeros of the padding in front of each value's digits.
   */
  lemma TraceExample(outputs: seq<Port>)
    requires |outputs| > 0 && !outputs[0].Stray?
    ensures Send(outputs, Index(0), 1, ControlChange, 7, 100).trace
            == Some("0000000010110000" + " " + "00000000111" + " " + "000000001100100")
  {
    StatusValueOfNibble(ControlChangeNumber, 1);
    PrintableOctetsTokens(ControlChangeNumber, 1, 7, 100, 2);
    DigitsOf176();
    DigitsOf7();
    DigitsOf100();
  }

  lemma DigitsOf176()
    ensures Token(176, 2) == "0000000010110000"
  {
    assert Digits(176, 2) == Digits(88, 2) + "0";
    assert Digits(88, 2) == Digits(44, 2) + "0";
    assert Digits(44, 2) == Digits(22, 2) + "0";
    assert Digits(22, 2) == Digits(11, 2) + "0";
    assert Digits(11, 2) == Digits(5, 2) + "1";
    assert Digits(5, 2) == Digits(2, 2) + "1";
    assert Digits(2, 2) == Digits(1, 2) + "0";
    assert Digits(1, 2) == Digits(0, 2) + "1";
  }

  lemma DigitsOf7()
    ensures Token(7, 2) == "00000000111"
  {
    assert Digits(7, 2) == Digits(3, 2) + "1";
    assert Digits(3, 2) == Digits(1, 2) + "1";
    assert Digits(1, 2) == Digits(0, 2) + "1";
  }

  lemma DigitsOf100()
    ensures Token(100, 2) == "000000001100100"
  {
    assert Digits(100, 2) == Digits(50, 2) + "0";
    assert Digits(50, 2) == Digits(25, 2) + "0";
    assert Digits(25, 2) == Digits(12, 2) + "1";
    assert Digits(12, 2) == Digits(6, 2) + "0";
    assert Digits(6, 2) == Digits(3, 2) + "0";
    assert Digits(3, 2) == Digits(1, 2) + "1";
    assert Digits(1, 2) == Digits(0, 2) + "1";
  }
}
