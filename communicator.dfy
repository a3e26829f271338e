/**
 * The communicator base shared by the MIDI and HTTP transports: its port lists, the list of
 * disabled port ids, and the formatter that writes a message as three octets for the trace.
 */
module Communicator {
  import opened Wrappers
  import opened Numbers
  import opened Types
  import HttpOutput

  /**
   * A port as the lists hold it: a WebMIDI port, a remote HTTP output, or a stray value that
   * is not a port at all (the HTTP transport puts the disabled ids into its output list).
   */
  datatype Port = MidiPort(id: string, name: string, manufacturer: string) | Remote(output: HttpOutput.Output) | Stray(text: string)
  {
    /** The port's `id`; a stray string has none. */
    function Id(): Option<string>
    {
      match this
      case MidiPort(id, _, _) => Some(id)
      case Remote(o) => Some(o.id)
      case Stray(_) => None
    }
  }

  /** `ports.findIndex((p) => p.id === id)`. */
  function FindIndex(ports: seq<Port>, id: string): (r: int)
    ensures -1 <= r < |ports|
    ensures r == -1 <==> forall i :: 0 <= i < |ports| ==> ports[i].Id() != Some(id)
    ensures r >= 0 ==> ports[r].Id() == Some(id) && forall i :: 0 <= i < r ==> ports[i].Id() != Some(id)
  {
    if ports == [] then -1
    else if ports[0].Id() == Some(id) then 0
    else
      var k := FindIndex(ports[1..], id);
      if k == -1 then -1 else k + 1
  }

  /** Some port of the list has this id. */
  predicate Listed(ports: seq<Port>, id: string)
  {
    FindIndex(ports, id) != -1
  }

  /** `!disabled.includes(p.id)`: a port without an id is never disabled. */
  predicate Kept(p: Port, disabled: seq<string>)
  {
    p.Id().None? || p.Id().value !in disabled
  }

  /** `ports.filter((p) => !disabled.includes(p.id))`. */
  function Active(ports: seq<Port>, disabled: seq<string>): (r: seq<Port>)
    ensures |r| <= |ports|
    ensures forall p :: p in r <==> p in ports && Kept(p, disabled)
  {
    if ports == [] then []
    else (if Kept(ports[0], disabled) then [ports[0]] else []) + Active(ports[1..], disabled)
  }

  /** `ids.filter((a) => a !== id)`. */
  function Without(ids: seq<string>, id: string): (r: seq<string>)
    ensures |r| <= |ids|
    ensures forall x :: x in r <==> x in ids && x != id
  {
    if ids == [] then []
    else (if ids[0] != id then [ids[0]] else []) + Without(ids[1..], id)
  }

  /** The condition of `enable`: an input id, or an output id that is disabled. */
  predicate CanEnable(inputs: seq<Port>, outputs: seq<Port>, disabled: seq<string>, id: string)
  {
    Listed(inputs, id) || (Listed(outputs, id) && id in disabled)
  }

  /** The condition of `disable`: an input id, or an output id that is not disabled. */
  predicate CanDisable(inputs: seq<Port>, outputs: seq<Port>, disabled: seq<string>, id: string)
  {
    Listed(inputs, id) || (Listed(outputs, id) && id !in disabled)
  }

  /** `enable(id)` on a disabled list: its result and the list afterwards. */
  function EnableResult(inputs: seq<Port>, outputs: seq<Port>, disabled: seq<string>, id: string): (bool, seq<string>)
  {
    if CanEnable(inputs, outputs, disabled, id) then (true, Without(disabled, id)) else (false, disabled)
  }

  /** `disable(id)` on a disabled list: its result and the list afterwards. */
  function DisableResult(inputs: seq<Port>, outputs: seq<Port>, disabled: seq<string>, id: string): (bool, seq<string>)
  {
    if CanDisable(inputs, outputs, disabled, id) then (true, disabled + [id]) else (false, disabled)
  }

  /** The array of disabled ids, an object the caller of the constructor may share. */
  class IdList {
    var items: seq<string>

    constructor (items: seq<string>)
      ensures this.items == items
    {
      this.items := items;
    }
  }

  /** `AbstractComunicator`: the constructor keeps the caller's disabled array itself. */
  class Comunicator {
    var inputs: seq<Port>
    var outputs: seq<Port>
    var disabled: IdList

    constructor (inputs: seq<Port>, outputs: seq<Port>, disabled: IdList)
      ensures this.inputs == inputs && this.outputs == outputs && this.disabled == disabled
    {
      this.inputs := inputs;
      this.outputs := outputs;
      this.disabled := disabled;
    }

    /** `isActive`: the id is not in the disabled array. */
    predicate IsActive(id: string)
      reads this, disabled
    {
      id !in disabled.items
    }

    /** `activeInputs`: the inputs whose id is active, in their order; a port without an id stays. */
    function ActiveInputs(): (r: seq<Port>)
      reads this, disabled
      ensures |r| <= |inputs|
      ensures forall p :: p in r <==> p in inputs && (p.Id().None? || IsActive(p.Id().value))
    {
      Active(inputs, disabled.items)
    }

    /** `activeOutputs`: the same filter over the outputs. */
    function ActiveOutputs(): (r: seq<Port>)
      reads this, disabled
      ensures |r| <= |outputs|
      ensures forall p :: p in r <==> p in outputs && (p.Id().None? || IsActive(p.Id().value))
    {
      Active(outputs, disabled.items)
    }

    /** `enable`: on success the field is replaced by a new, filtered array; the caller's array is left as it was. */
    method Enable(id: string) returns (ok: bool)
      modifies this
      ensures (ok, disabled.items) == EnableResult(inputs, outputs, old(disabled.items), id)
      ensures inputs == old(inputs) && outputs == old(outputs)
      ensures ok ==> fresh(disabled)
      ensures !ok ==> disabled == old(disabled)
    {
      if FindIndex(inputs, id) != -1 || (FindIndex(outputs, id) != -1 && id in disabled.items) {
        disabled := new IdList(Without(disabled.items, id));
        ok := true;
      } else {
        ok := false;
      }
    }

    /** `disable`: on success the id is pushed onto the shared array. */
    method Disable(id: string) returns (ok: bool)
      modifies disabled
      ensures (ok, disabled.items) == DisableResult(inputs, outputs, old(disabled.items), id)
    {
      if FindIndex(inputs, id) != -1 || (FindIndex(outputs, id) != -1 && id !in disabled.items) {
        disabled.items := disabled.items + [id];
        ok := true;
      } else {
        ok := false;
      }
    }
  }

  /** Filtering keeps the order: it distributes over concatenation and keeps a list with nothing disabled. */
  lemma {:induction false} ActiveAppend(a: seq<Port>, b: seq<Port>, disabled: seq<string>)
    ensures Active(a + b, disabled) == Active(a, disabled) + Active(b, disabled)
    decreases |a|
  {
    if a == [] {
      assert a + b == b;
    } else {
      assert (a + b)[1..] == a[1..] + b;
      ActiveAppend(a[1..], b, disabled);
    }
  }

  lemma {:induction false} ActiveOfNothingDisabled(ports: seq<Port>)
    ensures Active(ports, []) == ports
    decreases |ports|
  {
    if ports != [] {
      ActiveOfNothingDisabled(ports[1..]);
      assert ports == [ports[0]] + ports[1..];
    }
  }

  /**
   * `enable` succeeds exactly for an input id or a disabled output id and then removes every
   * occurrence of the id, so the id is active afterwards; otherwise nothing changes.
   */
  lemma EnableEffect(inputs: seq<Port>, outputs: seq<Port>, disabled: seq<string>, id: string)
    ensures var (ok, after) := EnableResult(inputs, outputs, disabled, id);
            (ok <==> (exists i :: 0 <= i < |inputs| && inputs[i].Id() == Some(id))
                     || ((exists i :: 0 <= i < |outputs| && outputs[i].Id() == Some(id)) && id in disabled))
            && (ok ==> id !in after && forall x :: x != id ==> (x in after <==> x in disabled))
            && (!ok ==> after == disabled)
  {
  }

  /**
   * `disable` succeeds exactly for an input id or an output id that is not disabled, and then
   * appends the id once; otherwise nothing changes.
   */
  lemma DisableEffect(inputs: seq<Port>, outputs: seq<Port>, disabled: seq<string>, id: string)
    ensures var (ok, after) := DisableResult(inputs, outputs, disabled, id);
            (ok <==> (exists i :: 0 <= i < |inputs| && inputs[i].Id() == Some(id))
                     || ((exists i :: 0 <= i < |outputs| && outputs[i].Id() == Some(id)) && id !in disabled))
            && (ok ==> after == disabled + [id] && id in after)
            && (!ok ==> after == disabled)
  {
  }

  /**
   * For an id that only an output has: disabling it twice fails the second time, and
   * disabling then enabling it leaves it active again.
   */
  lemma OutputOnlyToggle(inputs: seq<Port>, outputs: seq<Port>, disabled: seq<string>, id: string)
    requires !Listed(inputs, id) && Listed(outputs, id) && id !in disabled
    ensures var (ok1, d1) := DisableResult(inputs, outputs, disabled, id);
            ok1 && id in d1 && !DisableResult(inputs, outputs, d1, id).0
            && var (ok2, d2) := EnableResult(inputs, outputs, d1, id);
            ok2 && id !in d2
  {
  }

  /** An input id can be disabled again and again, each time adding another copy. */
  lemma InputDisabledTwice(inputs: seq<Port>, outputs: seq<Port>, disabled: seq<string>, id: string)
    requires Listed(inputs, id)
    ensures var (ok1, d1) := DisableResult(inputs, outputs, disabled, id);
            var (ok2, d2) := DisableResult(inputs, outputs, d1, id);
            ok1 && ok2 && d2 == disabled + [id, id]
            && multiset(d2)[id] == multiset(disabled)[id] + 2
  {
    assert disabled + [id] + [id] == disabled + [id, id];
  }

  // The base converter and the trace formatter.

  function InvalidDigit(digit: char, base: nat): string
  {
    "Invalid digit `" + [digit] + "` for base " + Decimal(base) + "."
  }

  /** A symbol among the first `base` symbols of the converter's alphabet. */
  predicate IsBaseDigit(c: char, base: nat)
  {
    DigitValue(c).Some? && DigitValue(c).value < base
  }

  /**
   * The `reduce` of `convertBase`: the digits are read from the last one back, each adding its
   * value times the power of the base, and the first invalid one met throws.
   */
  function ParseValue(s: string, base: nat): Result<nat>
  {
    if s == [] then Ok(0) else ReadDigit(ParseValue(s[..|s| - 1], base), s[|s| - 1], base)
  }

  /** One step of the `reduce`: the digit `last` after digits that read as `before`. */
  function ReadDigit(before: Result<nat>, last: char, base: nat): Result<nat>
  {
    if !IsBaseDigit(last, base) then Err(InvalidDigit(last, base))
    else
      match before
      case Err(m) => Err(m)
      case Ok(v) => MulNat(v, base); Ok(v * base + DigitValue(last).value)
  }

  /** `convertBase(value, fromBase, toBase)`: the digits of the value in the target base, "0" for zero. */
  function Converted(value: string, fromBase: nat, toBase: nat): Result<string>
    requires 2 <= toBase <= 64
  {
    match ParseValue(value, fromBase)
    case Err(m) => Err(m)
    case Ok(n) => Ok(if n == 0 then "0" else Digits(n, toBase))
  }

  /** `convertBase`: the digit loop, which consumes the value from its least significant digit. */
  method ConvertBase(value: string, fromBase: nat, toBase: nat) returns (r: Result<string>)
    requires 2 <= fromBase <= 64 && 2 <= toBase <= 64
    ensures r == Converted(value, fromBase, toBase)
  {
    var parsed := ParseValue(value, fromBase);
    if parsed.Err? {
      return Err(parsed.message);
    }
    var newValue := DigitLoop(parsed.value, toBase);
    DigitsShape(parsed.value, toBase);
    r := Ok(if newValue == "" then "0" else newValue);
  }

  /** The `while` loop of `convertBase`: digits are put in front, least significant first. */
  method DigitLoop(value: nat, toBase: nat) returns (newValue: string)
    requires 2 <= toBase <= 64
    ensures newValue == Digits(value, toBase)
  {
    var decValue: nat := value;
    newValue := "";
    while decValue > 0
      invariant Digits(decValue, toBase) + newValue == Digits(value, toBase)
      decreases decValue
    {
      DigitStep(decValue, toBase, newValue);
      var digit := decValue % toBase;
      var rest := (decValue - digit) / toBase;
      newValue := [DigitChar(digit)] + newValue;
      decValue := rest;
    }
    assert Digits(0, toBase) + newValue == newValue;
  }

  /** One step of the loop: the last digit goes in front of the tail, the rest are the quotient's. */
  lemma DigitsSnoc(n: nat, base: nat, tail: string)
    requires 2 <= base <= 64 && n > 0
    ensures Digits(n, base) + tail == Digits(n / base, base) + ([DigitChar(n % base)] + tail)
  {
    var last := [DigitChar(n % base)];
    var init := Digits(n / base, base);
    assert Digits(n, base) == init + last;
    assert init + last + tail == init + (last + tail);
  }

  /** One pass of the loop: the quotient is smaller, and the digits still add up to the value's. */
  lemma DigitStep(n: nat, base: nat, tail: string)
    requires 2 <= base <= 64 && n > 0
    ensures n % base < base && 0 <= (n - n % base) / base < n
    ensures Digits((n - n % base) / base, base) + ([DigitChar(n % base)] + tail) == Digits(n, base) + tail
  {
    DivMod(n, base);
    SubtractRemainder(n, base);
    DigitsSnoc(n, base, tail);
  }

  /** Taking the remainder away before dividing, as the loop does, gives the plain quotient. */
  lemma SubtractRemainder(n: nat, base: nat)
    requires 2 <= base
    ensures (n - n % base) / base == n / base
  {
    var q, r := n / base, n % base;
    assert n - r == q * base + 0;
    DivUnique(n - r, base, q, 0);
  }

  /** Quotient and remainder are the only pair with `n == q * b + r` and `0 <= r < b`. */
  lemma DivUnique(n: int, b: int, q: int, r: int)
    requires b > 0 && n == q * b + r && 0 <= r < b
    ensures n / b == q && n % b == r
  {
    var q', r' := n / b, n % b;
    assert n == q' * b + r';
    assert (q - q') * b == r' - r;
    MulSmall(q - q', b);
  }

  lemma MulSmall(k: int, b: int)
    requires b > 0 && -b < b * k < b
    ensures k == 0
  {
    if k >= 1 {
      assert b * k == b * (k - 1) + b;
      MulNonNeg(b, k - 1);
    }
  }

  lemma MulNonNeg(b: int, k: int)
    requires b > 0 && k >= 0
    ensures b * k >= 0
  {
  }

  /** Reading the digits of `n` in `base` gives `n` back. */
  lemma {:induction false} ParseDigits(n: nat, base: nat)
    requires 2 <= base <= 64
    ensures ParseValue(Digits(n, base), base) == Ok(n)
    decreases n
  {
    if n > 0 {
      var q, d := n / base, n % base;
      DivMod(n, base);
      ParseDigits(q, base);
      DigitValueOfChar(d);
      assert Digits(n, base) == Digits(q, base) + [DigitChar(d)];
      ParseSnoc(Digits(q, base), DigitChar(d), base);
      assert q * base + d == n;
    }
  }

  /** Appending one valid digit to a string that reads as `v` reads as `v * base + digit`. */
  lemma ParseSnoc(s: string, c: char, base: nat)
    requires IsBaseDigit(c, base) && ParseValue(s, base).Ok?
    ensures ParseValue(s + [c], base) == Ok(ParseValue(s, base).value * base + DigitValue(c).value)
  {
    var t := s + [c];
    assert t[..|t| - 1] == s;
    assert t[|t| - 1] == c;
  }

  lemma ParseZero(base: nat)
    requires 2 <= base
    ensures ParseValue("0", base) == Ok(0)
  {
    assert "0"[..0] == [];
  }

  /** A string of zeros reads as 0. */
  lemma {:induction false} ParseZeros(zeros: string, base: nat)
    requires 2 <= base && forall i :: 0 <= i < |zeros| ==> zeros[i] == '0'
    ensures ParseValue(zeros, base) == Ok(0)
    decreases |zeros|
  {
    if zeros != [] {
      var init := zeros[..|zeros| - 1];
      assert forall i :: 0 <= i < |init| ==> init[i] == zeros[i];
      ParseZeros(init, base);
      assert zeros[|zeros| - 1] == '0';
    }
  }

  /** Two strings with the same last digit, whose digits before it read alike, read alike. */
  lemma ParseSameLast(t: string, u: string, base: nat)
    requires t != [] && u != [] && t[|t| - 1] == u[|u| - 1]
    requires ParseValue(t[..|t| - 1], base) == ParseValue(u[..|u| - 1], base)
    ensures ParseValue(t, base) == ParseValue(u, base)
  {
  }

  /** Leading zeros do not change what is read. */
  lemma {:induction false} ParseAfterZeros(zeros: string, s: string, base: nat)
    requires 2 <= base && forall i :: 0 <= i < |zeros| ==> zeros[i] == '0'
    ensures ParseValue(zeros + s, base) == ParseValue(s, base)
    decreases |s|
  {
    if s == [] {
      assert zeros + s == zeros;
      ParseZeros(zeros, base);
    } else {
      var t := zeros + s;
      assert t[..|t| - 1] == zeros + s[..|s| - 1];
      assert t[|t| - 1] == s[|s| - 1];
      ParseAfterZeros(zeros, s[..|s| - 1], base);
      ParseSameLast(t, s, base);
    }
  }

  /** A minus sign in front of decimal digits is the invalid digit met. */
  lemma {:induction false} ParseNegative(t: string)
    requires forall i :: 0 <= i < |t| ==> IsBaseDigit(t[i], 10)
    ensures ParseValue("-" + t, 10) == Err(InvalidDigit('-', 10))
    decreases |t|
  {
    var s := "-" + t;
    if t != [] {
      assert s[..|s| - 1] == "-" + t[..|t| - 1];
      ParseNegative(t[..|t| - 1]);
    }
  }

  lemma DecimalDigits(n: nat)
    ensures forall i :: 0 <= i < |Decimal(n)| ==> IsBaseDigit(Decimal(n)[i], 10)
    ensures ParseValue(Decimal(n), 10) == Ok(n)
  {
    if n == 0 {
      assert Decimal(n) == "0";
      assert "0"[..0] == [];
    } else {
      DigitsShape(n, 10);
      ParseDigits(n, 10);
    }
  }

  /** `String(v)` converted from base 10: the digits of `v` for `v >= 0`, the '-' error otherwise. */
  lemma ConvertedDecimal(v: int, base: nat)
    requires 2 <= base <= 64
    ensures v >= 0 ==> Converted(Decimal(v), 10, base) == Ok(if v == 0 then "0" else Digits(v, base))
    ensures v < 0 ==> Converted(Decimal(v), 10, base) == Err(InvalidDigit('-', 10))
  {
    if v >= 0 {
      DecimalDigits(v);
    } else {
      DecimalDigits(-v);
      ParseNegative(NatToString(-v, 10));
    }
  }

  /**
   * `convertBase` throws exactly when some symbol is not among the first `fromBase`; otherwise
   * it gives "0" for zero and else digits of the target base with no leading zero.
   */
  lemma {:induction false} ConvertedShape(value: string, fromBase: nat, toBase: nat)
    requires 2 <= toBase <= 64
    ensures Converted(value, fromBase, toBase).Err? <==> exists i :: 0 <= i < |value| && !IsBaseDigit(value[i], fromBase)
    ensures Converted(value, fromBase, toBase).Ok? ==>
              var r := Converted(value, fromBase, toBase).value;
              r != [] && (r[0] == '0' ==> r == "0") && forall i :: 0 <= i < |r| ==> IsBaseDigit(r[i], toBase)
    decreases |value|
  {
    ParseValueFails(value, fromBase);
    var p := ParseValue(value, fromBase);
    if p.Ok? && p.value > 0 {
      DigitsShape(p.value, toBase);
    }
  }

  lemma {:induction false} ParseValueFails(value: string, base: nat)
    ensures ParseValue(value, base).Err? <==> exists i :: 0 <= i < |value| && !IsBaseDigit(value[i], base)
    decreases |value|
  {
    if value != [] {
      var init := value[..|value| - 1];
      ParseValueFails(init, base);
      if exists i :: 0 <= i < |init| && !IsBaseDigit(init[i], base) {
        var i :| 0 <= i < |init| && !IsBaseDigit(init[i], base);
        assert value[i] == init[i];
      }
      if exists i :: 0 <= i < |value| && !IsBaseDigit(value[i], base) {
        var i :| 0 <= i < |value| && !IsBaseDigit(value[i], base);
        if i < |init| {
          assert init[i] == value[i];
        }
      }
    }
  }

  /** Converting to any base and back to base 10 gives the canonical decimal form. */
  lemma ConvertRoundTrip(n: nat, base: nat)
    requires 2 <= base <= 64
    ensures Converted(Decimal(n), 10, base).Ok?
    ensures Converted(Converted(Decimal(n), 10, base).value, base, 10) == Ok(Decimal(n))
  {
    ConvertedDecimal(n, base);
    if n > 0 {
      ParseDigits(n, base);
    } else {
      ParseZero(base);
      ParseZero(10);
    }
  }

  /** JavaScript's `m << 4`: the 32-bit two's-complement value of `m * 16`. */
  function Shl4(m: int): int
  {
    var u := (m * 16) % 0x1_0000_0000;
    if u >= 0x8000_0000 then u - 0x1_0000_0000 else u
  }

  /** The status value `(messageType << 4) + (channel - 1)`. */
  function StatusValue(messageType: int, channel: Channel): int
  {
    Shl4(messageType) + (channel - 1)
  }

  lemma StatusValueOfNibble(messageType: int, channel: Channel)
    requires 0 <= messageType < 0x800_0000
    ensures StatusValue(messageType, channel) == messageType * 16 + channel - 1
    ensures messageType < 16 ==> 0 <= StatusValue(messageType, channel) <= 255
  {
  }

  /** The zeros put in front of each token: eight for base 2, three for 10, two for 16, none otherwise. */
  function PadZeros(base: nat): string
  {
    if base == 2 then "00000000" else if base == 10 then "000" else if base == 16 then "00" else ""
  }

  /** The three values of a message, converted and padded. */
  function PrintableOctets(messageType: int, channel: Channel, note: int, velocity: int, base: nat): Result<string>
    requires 2 <= base <= 64
  {
    var status := Converted(Decimal(StatusValue(messageType, channel)), 10, base);
    if status.Err? then Err(status.message)
    else
      var n := Converted(Decimal(note), 10, base);
      if n.Err? then Err(n.message)
      else
        var v := Converted(Decimal(velocity), 10, base);
        if v.Err? then Err(v.message)
        else Ok(PadZeros(base) + status.value + " " + (PadZeros(base) + n.value) + " " + (PadZeros(base) + v.value))
  }

  /** `getPrintableOctects`: the three conversions in order, then padding and joining. */
  method GetPrintableOctets(messageType: int, channel: Channel, note: int, velocity: int, base: nat) returns (r: Result<string>)
    requires 2 <= base <= 64
    ensures r == PrintableOctets(messageType, channel, note, velocity, base)
  {
    var status := ConvertBase(Decimal(StatusValue(messageType, channel)), 10, base);
    if status.Err? {
      return Err(status.message);
    }
    var n := ConvertBase(Decimal(note), 10, base);
    if n.Err? {
      return Err(n.message);
    }
    var v := ConvertBase(Decimal(velocity), 10, base);
    if v.Err? {
      return Err(v.message);
    }
    var pad := PadZeros(base);
    r := Ok(pad + status.value + " " + (pad + n.value) + " " + (pad + v.value));
  }

  /** The token of a non-negative value: the padding, then its digits in the base ("0" for zero). */
  function Token(value: nat, base: nat): string
    requires 2 <= base <= 64
  {
    PadZeros(base) + (if value == 0 then "0" else Digits(value, base))
  }

  /**
   * The trace is produced exactly when all three values are non-negative; it is then three
   * tokens separated by single spaces, each the padded digits of its value, which read back
   * in the base as that value. A negative value fails on its '-' sign.
   */
  lemma PrintableOctetsTokens(messageType: int, channel: Channel, note: int, velocity: int, base: nat)
    requires 2 <= base <= 64
    ensures var status := StatusValue(messageType, channel);
            PrintableOctets(messageType, channel, note, velocity, base).Ok? <==> status >= 0 && note >= 0 && velocity >= 0
    ensures var status := StatusValue(messageType, channel);
            PrintableOctets(messageType, channel, note, velocity, base).Err? ==>
              PrintableOctets(messageType, channel, note, velocity, base) == Err(InvalidDigit('-', 10))
    ensures var status := StatusValue(messageType, channel);
            status >= 0 && note >= 0 && velocity >= 0 ==>
              PrintableOctets(messageType, channel, note, velocity, base)
              == Ok(Token(status, base) + " " + Token(note, base) + " " + Token(velocity, base))
  {
    ConvertedDecimal(StatusValue(messageType, channel), base);
    ConvertedDecimal(note, base);
    ConvertedDecimal(velocity, base);
  }

  /** Every token is free of spaces and reads back, padding included, as its value. */
  lemma TokenReadsBack(value: nat, base: nat)
    requires 2 <= base <= 64
    ensures ' ' !in Token(value, base)
    ensures ParseValue(Token(value, base), base) == Ok(value)
  {
    var digits := if value == 0 then "0" else Digits(value, base);
    if value == 0 {
      ParseZero(base);
    } else {
      ParseDigits(value, base);
      DigitsShape(value, base);
      assert forall i :: 0 <= i < |digits| ==> digits[i] != ' ' by {
        forall i | 0 <= i < |digits| ensures digits[i] != ' ' {
          assert IsBaseDigit(digits[i], base);
        }
      }
    }
    ZerosHaveNoSpace(base);
    ParseAfterZeros(PadZeros(base), digits, base);
    assert Token(value, base) == PadZeros(base) + digits;
  }

  lemma ZerosHaveNoSpace(base: nat)
    ensures ' ' !in PadZeros(base)
    ensures forall i :: 0 <= i < |PadZeros(base)| ==> PadZeros(base)[i] == '0'
  {
  }

  // What a `send` does, shared by both transports.

  /** A call made on a port: `sendControlChange(note, velocity, options)` or `sendProgramChange(note, options)`. */
  datatype PortCall =
    | ControlChangeCall(port: Port, note: int, velocity: int, options: HttpOutput.ChannelsOption)
    | ProgramChangeCall(port: Port, note: int, options: HttpOutput.ChannelsOption)

  /** The `output` argument of `send`: an index into the output list, or a port. */
  datatype Target = Index(i: int) | Given(port: Port)

  /**
   * How a `send` ends: it returns a boolean, throws an `Error` with a message, or throws the
   * `TypeError` of calling a method on something that is not a port.
   */
  datatype SendResult = Returned(sent: bool) | Threw(message: string) | TypeError

  /** The calls made, the trace line written (if any), and how the call ended. */
  datatype SendOutcome = SendOutcome(calls: seq<PortCall>, trace: Option<string>, result: SendResult)

  /** `this._outputs[output]` for an index (nothing outside the list), or the port given. */
  function Resolve(outputs: seq<Port>, target: Target): (r: Option<Port>)
    ensures target.Given? ==> r == Some(target.port)
    ensures target.Index? ==> (r.Some? <==> 0 <= target.i < |outputs|)
    ensures target.Index? && r.Some? ==> r.value == outputs[target.i]
  {
    match target
    case Given(p) => Some(p)
    case Index(i) => if 0 <= i < |outputs| then Some(outputs[i]) else None
  }

  /** The HTTP request a call on a remote output issues; a WebMIDI port sends MIDI instead. */
  function RequestOf(call: PortCall): Option<HttpOutput.Request>
  {
    match call
    case ControlChangeCall(Remote(o), note, velocity, options) => Some(HttpOutput.ControlChangeRequest(o, note, velocity, options))
    case ProgramChangeCall(Remote(o), note, options) => Some(HttpOutput.ProgramChangeRequest(o, note, options))
    case _ => None
  }
}
