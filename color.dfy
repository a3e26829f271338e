/** The RGBA colour class: validating setters, hex and `rgb()` parsing and formatting. */
module Color {
  import opened Wrappers
  import opened Numbers

  /** The four components of a colour as stored; alpha is meant to lie in 0..100. */
  datatype Rgba = Rgba(r: int, g: int, b: int, a: int)

  /** `new Color(r, g, b, a)`: alpha is 100 when `a` is undefined or null; nothing is validated. */
  function Create(r: int, g: int, b: int, a: Option<int>): Rgba
  {
    Rgba(r, g, b, if a.Some? then a.value else 100)
  }

  /** `new Color(0, 0, 0, 0)`, the fallback of colour parsing. */
  const Transparent: Rgba := Rgba(0, 0, 0, 0)

  /** `Color.validateValue`: an integer in 0..max. */
  predicate ValidateValue(value: real, max: int)
  {
    IsInteger(value) && 0.0 <= value && value <= max as real
  }

  const InvalidValueError: string := "rbga values must be between 0 and 255 and a value between 0 and 100"

  /** A `Color` object; each setter validates its component and throws without storing a bad one. */
  class Color {
    var r: int
    var g: int
    var b: int
    var a: int

    function Value(): Rgba
      reads this
    {
      Rgba(r, g, b, a)
    }

    constructor (r: int, g: int, b: int, a: Option<int>)
      ensures Value() == Create(r, g, b, a)
    {
      this.r, this.g, this.b := r, g, b;
      this.a := if a.Some? then a.value else 100;
    }

    method SetR(value: real) returns (outcome: Outcome)
      modifies this
      ensures outcome == (if ValidateValue(value, 255) then Pass else Fail(InvalidValueError))
      ensures Value() == if outcome.Pass? then old(Value()).(r := value.Floor) else old(Value())
    {
      if !ValidateValue(value, 255) {
        return Fail(InvalidValueError);
      }
      r := value.Floor;
      outcome := Pass;
    }

    method SetG(value: real) returns (outcome: Outcome)
      modifies this
      ensures outcome == (if ValidateValue(value, 255) then Pass else Fail(InvalidValueError))
      ensures Value() == if outcome.Pass? then old(Value()).(g := value.Floor) else old(Value())
    {
      if !ValidateValue(value, 255) {
        return Fail(InvalidValueError);
      }
      g := value.Floor;
      outcome := Pass;
    }

    method SetB(value: real) returns (outcome: Outcome)
      modifies this
      ensures outcome == (if ValidateValue(value, 255) then Pass else Fail(InvalidValueError))
      ensures Value() == if outcome.Pass? then old(Value()).(b := value.Floor) else old(Value())
    {
      if !ValidateValue(value, 255) {
        return Fail(InvalidValueError);
      }
      b := value.Floor;
      outcome := Pass;
    }

    method SetA(value: real) returns (outcome: Outcome)
      modifies this
      ensures outcome == (if ValidateValue(value, 100) then Pass else Fail(InvalidValueError))
      ensures Value() == if outcome.Pass? then old(Value()).(a := value.Floor) else old(Value())
    {
      if !ValidateValue(value, 100) {
        return Fail(InvalidValueError);
      }
      a := value.Floor;
      outcome := Pass;
    }
  }

  /** A setter stores exactly the integers in range, and stores them unchanged. */
  lemma ValidatedValues(n: int, x: real, max: int)
    ensures ValidateValue(n as real, max) <==> 0 <= n <= max
    ensures ValidateValue(x, max) ==> 0 <= x.Floor <= max && x.Floor as real == x
  {
  }

  /** `Color.componentToHex`: `c.toString(16)`, with a "0" in front when that is one symbol long. */
  function ComponentToHex(c: int): string
  {
    var hex := IntToString(c, 16);
    if |hex| == 1 then "0" + hex else hex
  }

  predicate IsHexDigit(c: char)
  {
    IsRadixDigit(c, 16)
  }

  predicate IsLowerHexDigit(c: char)
  {
    '0' <= c <= '9' || 'a' <= c <= 'f'
  }

  predicate AllHex(s: string)
  {
    forall i :: 0 <= i < |s| ==> IsHexDigit(s[i])
  }

  /** `parseInt(s.substr(i, 2), 16)` for two hex digits. */
  function HexPair(s: string, i: nat): nat
    requires i + 2 <= |s| && AllHex(s)
  {
    assert IsHexDigit(s[i]) && IsHexDigit(s[i + 1]);
    ParseDigit(s[i]).value * 16 + ParseDigit(s[i + 1]).value
  }

  /** For a component in 0..255 the hex form is two lower-case hex digits that read back as it. */
  lemma ComponentToHexOfByte(c: int)
    requires 0 <= c <= 255
    ensures |ComponentToHex(c)| == 2
    ensures IsLowerHexDigit(ComponentToHex(c)[0]) && IsLowerHexDigit(ComponentToHex(c)[1])
    ensures AllHex(ComponentToHex(c)) && HexPair(ComponentToHex(c), 0) == c
  {
    var h := ComponentToHex(c);
    if c == 0 {
      assert h == "00";
    } else if c < 16 {
      assert Digits(c / 16, 16) == "";
      assert Digits(c, 16) == [DigitChar(c)];
      assert h == ['0', DigitChar(c)];
      ParseDigitOfChar(c);
    } else {
      var hi := c / 16;
      assert Digits(hi / 16, 16) == "";
      assert Digits(hi, 16) == [DigitChar(hi)];
      assert Digits(c, 16) == [DigitChar(hi), DigitChar(c % 16)];
      assert h == [DigitChar(hi), DigitChar(c % 16)];
      ParseDigitOfChar(hi);
      ParseDigitOfChar(c % 16);
    }
  }

  /** The part of a hex colour string after an optional leading '#'. */
  function HexBody(hex: string): string
  {
    if |hex| > 0 && hex[0] == '#' then hex[1..] else hex
  }

  /** `Math.round((aHex / 255) * 100)`. */
  function AlphaOfByte(aHex: nat): int
  {
    Round(aHex as real / 255.0 * 100.0)
  }

  /**
   * `Color.createFromHex`: an optional '#' then six or eight hex digits of either case; the
   * optional fourth pair is an alpha byte scaled to 0..100, alpha 100 when it is absent.
   */
  function CreateFromHex(hex: string): Result<Rgba>
  {
    var body := HexBody(hex);
    if (|body| == 6 || |body| == 8) && AllHex(body) then
      var a := if |body| == 8 then AlphaOfByte(HexPair(body, 6)) else 100;
      Ok(Create(HexPair(body, 0), HexPair(body, 2), HexPair(body, 4), Some(a)))
    else
      Err(hex + " is not a valid hex value")
  }

  /** `Color.isValidHex`: an optional '#' then exactly six hex digits. */
  predicate IsValidHex(hex: string)
  {
    |HexBody(hex)| == 6 && AllHex(HexBody(hex))
  }

  /** `createFromHex` accepts exactly six or eight hex digits, and yields bytes and an alpha in 0..100. */
  lemma CreateFromHexRange(hex: string)
    ensures CreateFromHex(hex).Ok? <==> (|HexBody(hex)| == 6 || |HexBody(hex)| == 8) && AllHex(HexBody(hex))
    ensures CreateFromHex(hex).Ok? ==>
              var c := CreateFromHex(hex).value;
              0 <= c.r <= 255 && 0 <= c.g <= 255 && 0 <= c.b <= 255 && 0 <= c.a <= 100
    ensures CreateFromHex(hex).Err? ==> CreateFromHex(hex).message == hex + " is not a valid hex value"
  {
    var body := HexBody(hex);
    if |body| == 8 && AllHex(body) {
      var x := HexPair(body, 6);
      assert 0 <= x <= 255;
      assert 0.0 <= x as real / 255.0 * 100.0 <= 100.0;
    }
  }

  /** `isValidHex` holds exactly for the strings `createFromHex` accepts without an alpha pair. */
  lemma IsValidHexIsSixDigitForm(hex: string)
    ensures IsValidHex(hex) <==> CreateFromHex(hex).Ok? && |HexBody(hex)| == 6
    ensures IsValidHex(hex) ==> CreateFromHex(hex).value.a == 100
  {
  }

  /** `Color.isTransparent`. */
  predicate IsTransparent(c: Rgba)
  {
    c.a == 0
  }

  /** An alpha byte scales to alpha 0 exactly when it is 0 or 1 (1 / 255 * 100 rounds down). */
  lemma AlphaOfByteZero(aHex: nat)
    ensures AlphaOfByte(aHex) == 0 <==> aHex <= 1
  {
    var x := aHex as real / 255.0 * 100.0;
    assert x == aHex as real * 100.0 / 255.0;
    if aHex <= 1 {
      assert x < 0.5;
    } else {
      assert aHex as real >= 2.0;
      assert x >= 0.5;
    }
  }

  /**
   * Transparent black is transparent; a colour read from six hex digits never is, and one read
   * from eight is transparent exactly when its alpha pair is 00 or 01.
   */
  lemma TransparentOfHex(hex: string)
    ensures IsTransparent(Transparent)
    ensures CreateFromHex(hex).Ok? ==>
              (IsTransparent(CreateFromHex(hex).value) <==> |HexBody(hex)| == 8 && HexPair(HexBody(hex), 6) <= 1)
  {
    var body := HexBody(hex);
    if CreateFromHex(hex).Ok? && |body| == 8 {
      AlphaOfByteZero(HexPair(body, 6));
    }
  }

  /** `Color.toRgb`: `rgba(r,g,b,a)` or, without transparency, `rgb(r,g,b)`. */
  function ToRgb(c: Rgba, addTransparency: bool): string
  {
    if addTransparency then
      "rgba(" + Decimal(c.r) + "," + Decimal(c.g) + "," + Decimal(c.b) + "," + Decimal(c.a) + ")"
    else
      "rgb(" + Decimal(c.r) + "," + Decimal(c.g) + "," + Decimal(c.b) + ")"
  }

  /**
   * The alphas for which `(a / 100) * 255` is an integer in 0..255, so that `toHex` writes
   * the alpha byte as two hex digits.
   */
  predicate AlphaExact(a: int)
  {
    0 <= a <= 100 && a % 20 == 0
  }

  /** The first `k` hexadecimal digits of the fraction `rem / 20`, stopping once it is exhausted. */
  function FractionHex(rem: nat, k: nat): string
    requires rem < 20
    decreases k
  {
    if k == 0 || rem == 0 then "" else [DigitChar(rem * 16 / 20)] + FractionHex(rem * 16 % 20, k - 1)
  }

  /**
   * `componentToHex((a / 100) * 255)`: the alpha byte `a * 51 / 20`, written as a component
   * when it is an integer and otherwise as a hexadecimal number with a point.
   */
  function AlphaToHex(a: int): string
  {
    var num := a * 51;
    if num % 20 == 0 then ComponentToHex(num / 20)
    else PointForm(num < 0, if num < 0 then -num else num)
  }

  /** `(m / 20).toString(16)` for an `m / 20` that is not an integer, after a sign when negative. */
  function PointForm(negative: bool, m: nat): string
  {
    (if negative then "-" else "") + NatToString(m / 20, 16) + "." + FractionHex(m % 20, 13)
  }

  /** `Color.toHex`: '#', two hex digits per component, then the alpha byte when asked for. */
  function ToHex(c: Rgba, addTransparency: bool): string
  {
    "#" + ComponentToHex(c.r) + ComponentToHex(c.g) + ComponentToHex(c.b)
    + (if addTransparency then AlphaToHex(c.a) else "")
  }

  /** `Color.toJSON`. */
  function ToJson(c: Rgba): string
  {
    ToHex(c, true)
  }

  predicate IsByteColor(c: Rgba)
  {
    0 <= c.r <= 255 && 0 <= c.g <= 255 && 0 <= c.b <= 255
  }

  /** A '#', three hex pairs and an optional fourth read back as the pairs' values. */
  lemma ReadHexParts(x: string, y: string, z: string, alpha: string)
    requires |x| == 2 && |y| == 2 && |z| == 2 && AllHex(x) && AllHex(y) && AllHex(z)
    requires alpha == "" || (|alpha| == 2 && AllHex(alpha))
    ensures var s := "#" + x + y + z + alpha;
            |s| == 7 + |alpha| && HexBody(s) == x + y + z + alpha
            && CreateFromHex(s) == Ok(Rgba(HexPair(x, 0), HexPair(y, 0), HexPair(z, 0),
                                           if alpha == "" then 100 else AlphaOfByte(HexPair(alpha, 0))))
  {
    var body := x + y + z + alpha;
    assert "#" + x + y + z + alpha == "#" + body;
    assert body[0] == x[0] && body[1] == x[1] && body[2] == y[0] && body[3] == y[1] && body[4] == z[0] && body[5] == z[1];
    assert alpha != "" ==> body[6] == alpha[0] && body[7] == alpha[1];
    assert forall i :: 0 <= i < |body| ==> body[i] == if i < 2 then x[i] else if i < 4 then y[i - 2] else if i < 6 then z[i - 4] else alpha[i - 6];
  }

  lemma RoundOfInteger(n: int)
    ensures Round(n as real) == n
  {
  }

  /** The alpha byte `toHex` writes for an exact alpha scales back to that alpha. */
  lemma AlphaByteRoundTrip(a: int)
    requires AlphaExact(a)
    ensures 0 <= a / 20 * 51 <= 255 && AlphaOfByte(a / 20 * 51) == a
  {
    var k := a / 20;
    assert a == 20 * k && 0 <= k <= 5;
    assert (51 * k) as real / 255.0 * 100.0 == a as real;
    RoundOfInteger(a);
  }

  /** For an exact alpha `toHex` writes the alpha byte as a component, and it scales back. */
  lemma ExactAlphaHex(a: int)
    requires AlphaExact(a)
    ensures 0 <= a / 20 * 51 <= 255 && AlphaToHex(a) == ComponentToHex(a / 20 * 51) && AlphaOfByte(a / 20 * 51) == a
  {
    AlphaByteRoundTrip(a);
    var k := a / 20;
    assert a == 20 * k;
    ScaledMultiple(51 * k);
    assert a * 51 == 20 * (51 * k);
  }

  lemma ScaledMultiple(m: int)
    ensures (20 * m) % 20 == 0 && (20 * m) / 20 == m
  {
  }

  /** Rendering a byte colour with an exact alpha as hex and parsing it back gives the colour. */
  lemma HexRoundTrip(c: Rgba)
    requires IsByteColor(c) && AlphaExact(c.a)
    ensures |ToHex(c, true)| == 9 && ToJson(c) == ToHex(c, true)
    ensures CreateFromHex(ToHex(c, true)) == Ok(c)
  {
    var byte := c.a / 20 * 51;
    ExactAlphaHex(c.a);
    ComponentToHexOfByte(c.r);
    ComponentToHexOfByte(c.g);
    ComponentToHexOfByte(c.b);
    ComponentToHexOfByte(byte);
    ReadHexParts(ComponentToHex(c.r), ComponentToHex(c.g), ComponentToHex(c.b), ComponentToHex(byte));
  }

  /** Without transparency the hex form is '#' and six digits, which `isValidHex` accepts. */
  lemma HexWithoutAlpha(c: Rgba)
    requires IsByteColor(c)
    ensures |ToHex(c, false)| == 7 && IsValidHex(ToHex(c, false))
    ensures CreateFromHex(ToHex(c, false)) == Ok(c.(a := 100))
  {
    ComponentToHexOfByte(c.r);
    ComponentToHexOfByte(c.g);
    ComponentToHexOfByte(c.b);
    ReadHexParts(ComponentToHex(c.r), ComponentToHex(c.g), ComponentToHex(c.b), "");
  }

  /** The groups of a match of `createFromRgb`'s pattern, the components already read as numbers. */
  datatype RgbMatch = RgbMatch(red: nat, green: nat, blue: nat, alpha: Option<string>)

  predicate IsAsciiDigit(c: char)
  {
    '0' <= c <= '9'
  }

  /** The longest prefix of `s` matching `[\d.]*`. */
  function DecimalRun(s: string): (p: string)
    ensures |p| <= |s| && p == s[..|p|]
    ensures |p| < |s| ==> !(IsAsciiDigit(s[|p|]) || s[|p|] == '.')
  {
    if s != [] && (IsAsciiDigit(s[0]) || s[0] == '.') then [s[0]] + DecimalRun(s[1..]) else []
  }

  /** `\s*(\d+)\s*` at the start of `t`: the number and what follows the trailing spaces. */
  function ComponentAt(t: string): Option<(nat, string)>
  {
    var u := TrimStart(t);
    var digits := DigitPrefix(u, 10);
    if digits == [] then None else Some((DigitsValue(digits, 10), TrimStart(u[|digits|..])))
  }

  /** What follows `\s*,` if `t` starts that way. */
  function AfterComma(t: string): Option<string>
  {
    var u := TrimStart(t);
    if u != [] && u[0] == ',' then Some(u[1..]) else None
  }

  /** What follows `rgba?\s*\(` (either case) if `t` starts that way. */
  function AfterOpening(t: string): Option<string>
  {
    if |t| < 3 || !((t[0] == 'r' || t[0] == 'R') && (t[1] == 'g' || t[1] == 'G') && (t[2] == 'b' || t[2] == 'B')) then None
    else
      var afterName := if |t| > 3 && (t[3] == 'a' || t[3] == 'A') then t[4..] else t[3..];
      var u := TrimStart(afterName);
      if u != [] && u[0] == '(' then Some(u[1..]) else None
  }

  /** `\s*(\d+)\s*,` then the rest, with the component's value. */
  function ComponentThenComma(t: string): Option<(nat, string)>
  {
    match ComponentAt(t)
    case None => None
    case Some((n, rest)) =>
      if rest != [] && rest[0] == ',' then Some((n, rest[1..])) else None
  }

  /** The tail `(?:,\s*([\d.]+)\s*)?\)` after the third component: `Some(alpha group)` on a match. */
  function Closing(t: string): Option<Option<string>>
  {
    if t != [] && t[0] == ')' then Some(None)
    else if t != [] && t[0] == ',' then
      var u := TrimStart(t[1..]);
      var alpha := DecimalRun(u);
      var rest := TrimStart(u[|alpha|..]);
      if alpha != [] && rest != [] && rest[0] == ')' then Some(Some(alpha)) else None
    else None
  }

  /**
   * A match of `rgba?\s*\(\s*(\d+)\s*,\s*(\d+)\s*,\s*(\d+)\s*(?:,\s*([\d.]+)\s*)?\)`, case
   * insensitive, starting at the first character of `t`. Every quantifier in the pattern is
   * followed by a character it cannot consume, so taking each one greedily finds the match.
   */
  function MatchRgbAt(t: string): Option<RgbMatch>
  {
    var t1 := AfterOpening(t);
    if t1.None? then None
    else
      var c1 := ComponentThenComma(t1.value);
      if c1.None? then None
      else
        var c2 := ComponentThenComma(c1.value.1);
        if c2.None? then None
        else
          var c3 := ComponentAt(c2.value.1);
          if c3.None? then None
          else
            var close := Closing(c3.value.1);
            if close.None? then None
            else Some(RgbMatch(c1.value.0, c2.value.0, c3.value.0, close.value))
  }

  /** `RegExp.prototype.exec` for the pattern: the first position where it matches. */
  function SearchRgb(s: string): Option<RgbMatch>
  {
    var m := MatchRgbAt(s);
    if m.Some? then m else if s == [] then None else SearchRgb(s[1..])
  }

  /** `parseFloat` on a run of `[\d.]`: digits, an optional '.', digits; `None` is NaN. */
  function ParseDecimal(s: string): Option<real>
  {
    var whole := DigitPrefix(s, 10);
    var rest := s[|whole|..];
    var fraction := if rest != [] && rest[0] == '.' then DigitPrefix(rest[1..], 10) else [];
    if whole == [] && fraction == [] then None
    else Some(DigitsValue(whole, 10) as real + DigitsValue(fraction, 10) as real / Power10(|fraction|) as real)
  }

  function Power10(k: nat): (p: nat)
    ensures p >= 1
  {
    if k == 0 then 1 else 10 * Power10(k - 1)
  }

  /**
   * `Color.createFromRgb`: the first `rgb(...)`/`rgba(...)` in the string; alpha 100 when not
   * given, an alpha of at most 1 is a fraction scaled by 100, a larger one is kept (both rounded).
   */
  function CreateFromRgb(rgb: string): Result<Rgba>
  {
    match SearchRgb(rgb)
    case None => Err(rgb + " is not a valid rgb/rgba value")
    case Some(m) =>
      match ColorOfMatch(m)
      case None => Err(rgb + " has an alpha that is not a number")
      case Some(c) => Ok(c)
  }

  /** The colour built from the groups of a match; `None` when the alpha group reads as NaN. */
  function ColorOfMatch(m: RgbMatch): Option<Rgba>
  {
    var aRaw := if m.alpha.None? then Some(100.0) else ParseDecimal(m.alpha.value);
    if aRaw.None? then None
    else
      var a := if aRaw.value <= 1.0 then Round(aRaw.value * 100.0) else Round(aRaw.value);
      Some(Create(m.red, m.green, m.blue, Some(a)))
  }

  lemma ComponentAtDecimal(n: nat, rest: string)
    requires rest != [] && !IsRadixDigit(rest[0], 10) && !IsSpace(rest[0])
    ensures ComponentAt(Decimal(n) + rest) == Some((n, rest))
  {
    NatToStringValue(n, 10);
    var d := Decimal(n);
    assert !IsSpace(d[0]);
    assert TrimStart(d + rest) == d + rest;
    DigitPrefixOf(d, rest, 10);
    assert (d + rest)[|d|..] == rest;
  }

  lemma ComponentThenCommaDecimal(n: nat, rest: string)
    ensures ComponentThenComma(Decimal(n) + ("," + rest)) == Some((n, rest))
  {
    ComponentAtDecimal(n, "," + rest);
  }

  /** The text `toRgb` writes between the parentheses, followed by `tail`. */
  function ComponentsText(c: Rgba, tail: string): string
  {
    Decimal(c.r) + ("," + (Decimal(c.g) + ("," + (Decimal(c.b) + tail))))
  }

  lemma ComponentsMatch(c: Rgba, tail: string)
    requires c.r >= 0 && c.g >= 0 && c.b >= 0
    requires tail != [] && !IsRadixDigit(tail[0], 10) && !IsSpace(tail[0])
    ensures ComponentThenComma(ComponentsText(c, tail)) == Some((c.r, Decimal(c.g) + ("," + (Decimal(c.b) + tail))))
    ensures ComponentThenComma(Decimal(c.g) + ("," + (Decimal(c.b) + tail))) == Some((c.g, Decimal(c.b) + tail))
    ensures ComponentAt(Decimal(c.b) + tail) == Some((c.b, tail))
  {
    ComponentThenCommaDecimal(c.r, Decimal(c.g) + ("," + (Decimal(c.b) + tail)));
    ComponentThenCommaDecimal(c.g, Decimal(c.b) + tail);
    ComponentAtDecimal(c.b, tail);
  }

  lemma ClosingOfAlpha(a: nat)
    ensures Closing("," + (Decimal(a) + ")")) == Some(Some(Decimal(a)))
  {
    NatToStringValue(a, 10);
    var d := Decimal(a);
    assert IsRadixDigit(d[0], 10);
    DecimalRunOfDigits(d, ")");
    ClosingOfDigits(d);
  }

  /** A run of digits closing the alpha part: `Closing` reads exactly that run. */
  lemma ClosingOfDigits(d: string)
    requires d != [] && IsRadixDigit(d[0], 10) && DecimalRun(d + ")") == d
    ensures Closing("," + (d + ")")) == Some(Some(d))
  {
    var t := "," + (d + ")");
    assert t[1..] == d + ")";
    TrimStartAtDigit(d);
    AfterPrefix(d, ")");
    TrimStartOfClose();
    ClosingOfRun(t, d);
  }

  lemma AfterPrefix(d: string, r: string)
    ensures (d + r)[|d|..] == r
  {
  }

  lemma TrimStartOfClose()
    ensures TrimStart(")") == ")"
  {
  }

  /** Nothing is trimmed before a digit. */
  lemma TrimStartAtDigit(d: string)
    requires d != [] && IsRadixDigit(d[0], 10)
    ensures TrimStart(d + ")") == d + ")"
  {
    assert (d + ")")[0] == d[0];
  }

  /** The alpha branch of `Closing`, once the run after the comma is known. */
  lemma ClosingOfRun(t: string, alpha: string)
    requires t != [] && t[0] == ','
    requires alpha != [] && DecimalRun(TrimStart(t[1..])) == alpha
    requires var rest := TrimStart(TrimStart(t[1..])[|alpha|..]); rest != [] && rest[0] == ')'
    ensures Closing(t) == Some(Some(alpha))
  {
  }

  lemma ParseDecimalOfDigits(a: nat)
    ensures ParseDecimal(Decimal(a)) == Some(a as real)
  {
    var d := Decimal(a);
    NatToStringValue(a, 10);
    DigitPrefixOf(d, "", 10);
    assert d + "" == d;
  }

  /** Parsing `toRgb` output without transparency gives the colour back with alpha 100. */
  lemma RgbRoundTripOpaque(c: Rgba)
    requires c.r >= 0 && c.g >= 0 && c.b >= 0
    ensures CreateFromRgb(ToRgb(c, false)) == Ok(c.(a := 100))
  {
    var s := ToRgb(c, false);
    var x := ComponentsText(c, ")");
    assert s == "rgb(" + x;
    OpeningRgb(x);
    ComponentsMatch(c, ")");
    assert Closing(")") == Some(None);
    MatchOfSteps(s, x, Decimal(c.g) + ("," + (Decimal(c.b) + ")")), Decimal(c.b) + ")", ")", c.r, c.g, c.b, None);
    RoundOfInteger(100);
  }

  /** The alpha `createFromRgb` derives from a non-negative integer alpha token. */
  lemma AlphaOfInteger(a: nat)
    ensures (if a as real <= 1.0 then Round(a as real * 100.0) else Round(a as real)) == (if a == 1 then 100 else a)
  {
    RoundOfInteger(a);
    RoundOfInteger(100);
    RoundOfInteger(0);
  }

  lemma OpeningRgba(x: string)
    ensures AfterOpening("rgba(" + x) == Some(x)
  {
    var t := "rgba(" + x;
    assert t[0] == 'r' && t[1] == 'g' && t[2] == 'b' && t[3] == 'a';
    assert t[4..] == "(" + x;
    AfterParenthesis(x);
  }

  lemma OpeningRgb(x: string)
    ensures AfterOpening("rgb(" + x) == Some(x)
  {
    var t := "rgb(" + x;
    assert t[0] == 'r' && t[1] == 'g' && t[2] == 'b' && t[3] == '(';
    assert t[3..] == "(" + x;
    AfterParenthesis(x);
  }

  lemma AfterParenthesis(x: string)
    ensures var u := TrimStart("(" + x); u != [] && u[0] == '(' && u[1..] == x
  {
    assert !IsSpace('(');
    assert TrimStart("(" + x) == "(" + x;
    assert ("(" + x)[1..] == x;
  }

  lemma MatchOfText(c: Rgba)
    requires c.r >= 0 && c.g >= 0 && c.b >= 0 && c.a >= 0
    ensures MatchRgbAt("rgba(" + ComponentsText(c, "," + (Decimal(c.a) + ")")))
            == Some(RgbMatch(c.r, c.g, c.b, Some(Decimal(c.a))))
  {
    var tail := "," + (Decimal(c.a) + ")");
    var x := ComponentsText(c, tail);
    var y := Decimal(c.g) + ("," + (Decimal(c.b) + tail));
    OpeningRgba(x);
    ComponentsMatch(c, tail);
    ClosingOfAlpha(c.a);
    MatchOfSteps("rgba(" + x, x, y, Decimal(c.b) + tail, tail, c.r, c.g, c.b, Some(Decimal(c.a)));
  }

  /** A match is the opening, two components each followed by a comma, a component and the tail. */
  lemma MatchOfSteps(t: string, x: string, y: string, z: string, w: string, r: nat, g: nat, b: nat, alpha: Option<string>)
    requires AfterOpening(t) == Some(x)
    requires ComponentThenComma(x) == Some((r, y)) && ComponentThenComma(y) == Some((g, z))
    requires ComponentAt(z) == Some((b, w)) && Closing(w) == Some(alpha)
    ensures MatchRgbAt(t) == Some(RgbMatch(r, g, b, alpha))
  {
  }

  lemma MatchOfToRgb(c: Rgba)
    requires c.r >= 0 && c.g >= 0 && c.b >= 0 && c.a >= 0
    ensures MatchRgbAt(ToRgb(c, true)) == Some(RgbMatch(c.r, c.g, c.b, Some(Decimal(c.a))))
  {
    assert ToRgb(c, true) == "rgba(" + ComponentsText(c, "," + (Decimal(c.a) + ")"));
    MatchOfText(c);
  }

  lemma CreateFromMatch(s: string, m: RgbMatch, c: Rgba)
    requires MatchRgbAt(s) == Some(m) && ColorOfMatch(m) == Some(c)
    ensures CreateFromRgb(s) == Ok(c)
  {
  }

  lemma AlphaTokenColor(c: Rgba)
    requires c.r >= 0 && c.g >= 0 && c.b >= 0 && c.a >= 0
    ensures ColorOfMatch(RgbMatch(c.r, c.g, c.b, Some(Decimal(c.a)))) == Some(c.(a := if c.a == 1 then 100 else c.a))
  {
    ParseDecimalOfDigits(c.a);
    AlphaOfInteger(c.a);
  }

  /** Parsing `toRgb` output with transparency gives the colour back, except that alpha 1 reads as 100. */
  lemma RgbRoundTrip(c: Rgba)
    requires c.r >= 0 && c.g >= 0 && c.b >= 0 && c.a >= 0
    ensures CreateFromRgb(ToRgb(c, true)) == Ok(c.(a := if c.a == 1 then 100 else c.a))
  {
    MatchOfToRgb(c);
    AlphaTokenColor(c);
    CreateFromMatch(ToRgb(c, true), RgbMatch(c.r, c.g, c.b, Some(Decimal(c.a))), c.(a := if c.a == 1 then 100 else c.a));
  }

  lemma {:induction false} DecimalRunOfDigits(p: string, rest: string)
    requires forall i :: 0 <= i < |p| ==> IsRadixDigit(p[i], 10)
    requires rest != [] && !(IsAsciiDigit(rest[0]) || rest[0] == '.')
    ensures DecimalRun(p + rest) == p
  {
    if p != [] {
      assert (p + rest)[1..] == p[1..] + rest;
      DecimalRunOfDigits(p[1..], rest);
    } else {
      assert p + rest == rest;
    }
  }

  /** No character of `s` is an `r`, so the `rgb()` pattern cannot start anywhere in it. */
  predicate NoR(s: string)
  {
    forall i :: 0 <= i < |s| ==> s[i] != 'r' && s[i] != 'R'
  }

  /** The pattern cannot match at a position that does not hold an `r`. */
  lemma NoMatchWithoutR(t: string)
    requires t == [] || (t[0] != 'r' && t[0] != 'R')
    ensures MatchRgbAt(t) == None
  {
    assert AfterOpening(t) == None;
  }

  lemma {:induction false} SearchWithoutR(s: string)
    requires NoR(s)
    ensures SearchRgb(s) == None
  {
    NoMatchWithoutR(s);
    if s != [] {
      assert forall i :: 0 <= i < |s[1..]| ==> s[1..][i] == s[i + 1];
      SearchWithoutR(s[1..]);
    }
  }

  lemma DigitsWithoutR(n: nat)
    ensures NoR(Digits(n, 16))
  {
    DigitsShape(n, 16);
  }

  lemma HexDigitWithoutR(d: nat)
    requires d < 16
    ensures NoR([DigitChar(d)])
  {
    DigitValueOfChar(d);
  }

  lemma {:induction false} FractionWithoutR(rem: nat, k: nat)
    requires rem < 20
    ensures NoR(FractionHex(rem, k))
    decreases k
  {
    if k > 0 && rem > 0 {
      FractionWithoutR(rem * 16 % 20, k - 1);
      HexDigitWithoutR(rem * 16 / 20);
      ConcatWithoutR([DigitChar(rem * 16 / 20)], FractionHex(rem * 16 % 20, k - 1));
    }
  }

  lemma IntToHexWithoutR(n: int)
    ensures NoR(IntToString(n, 16)) && NoR(ComponentToHex(n))
  {
    DigitsWithoutR(if n < 0 then -n else n);
  }

  lemma ConcatWithoutR(a: string, b: string)
    requires NoR(a) && NoR(b)
    ensures NoR(a + b)
  {
    assert forall i :: 0 <= i < |a + b| ==> (a + b)[i] == if i < |a| then a[i] else b[i - |a|];
  }

  lemma AlphaToHexWithoutR(a: int)
    ensures NoR(AlphaToHex(a))
  {
    var num := a * 51;
    if num % 20 == 0 {
      IntToHexWithoutR(num / 20);
    } else {
      PointFormWithoutR(num < 0, if num < 0 then -num else num);
    }
  }

  /** The form `toHex` gives a fractional alpha byte has no `r`. */
  lemma PointFormWithoutR(negative: bool, m: nat)
    ensures NoR(PointForm(negative, m))
  {
    DigitsWithoutR(m / 20);
    FractionWithoutR(m % 20, 13);
    var sign := if negative then "-" else "";
    ConcatWithoutR(sign, NatToString(m / 20, 16));
    ConcatWithoutR(sign + NatToString(m / 20, 16), ".");
    ConcatWithoutR(sign + NatToString(m / 20, 16) + ".", FractionHex(m % 20, 13));
  }

  lemma ToHexWithoutR(c: Rgba)
    ensures NoR(ToHex(c, true))
  {
    IntToHexWithoutR(c.r);
    IntToHexWithoutR(c.g);
    IntToHexWithoutR(c.b);
    AlphaToHexWithoutR(c.a);
    var r, g, b := ComponentToHex(c.r), ComponentToHex(c.g), ComponentToHex(c.b);
    ConcatWithoutR("#", r);
    ConcatWithoutR("#" + r, g);
    ConcatWithoutR("#" + r + g, b);
    ConcatWithoutR("#" + r + g + b, AlphaToHex(c.a));
  }

  /** An alpha byte that is not an integer is written with a point. */
  lemma AlphaToHexPoint(a: int)
    requires (a * 51) % 20 != 0
    ensures '.' in AlphaToHex(a)
  {
    var num := a * 51;
    PointFormPoint(num < 0, if num < 0 then -num else num);
  }

  lemma PointFormPoint(negative: bool, m: nat)
    ensures '.' in PointForm(negative, m)
  {
    var whole := (if negative then "-" else "") + NatToString(m / 20, 16);
    assert PointForm(negative, m)[|whole|] == '.';
  }

  lemma PointInSuffix(p: string, q: string)
    requires '.' in q
    ensures '.' in p + q
  {
    var j :| 0 <= j < |q| && q[j] == '.';
    assert (p + q)[|p| + j] == '.';
  }

  lemma PointNotHex(s: string)
    requires '.' in s
    ensures !AllHex(s)
  {
    var j :| 0 <= j < |s| && s[j] == '.';
    assert !IsHexDigit(s[j]);
  }

  /**
   * A colour whose alpha byte `(a / 100) * 255` is not an integer is written by `toHex` with a
   * hexadecimal point, which neither `createFromHex` nor `createFromRgb` accepts.
   */
  lemma FractionalAlphaUnreadable(c: Rgba)
    requires (c.a * 51) % 20 != 0
    ensures '.' in ToHex(c, true)
    ensures CreateFromHex(ToHex(c, true)).Err? && CreateFromRgb(ToHex(c, true)).Err?
  {
    var s := ToHex(c, true);
    FractionalHexHasPoint(c);
    PointNotHex(HexBody(s));
    HexRejected(s);
    ToHexWithoutR(c);
    SearchWithoutR(s);
    RgbRejected(s);
  }

  lemma FractionalHexHasPoint(c: Rgba)
    requires (c.a * 51) % 20 != 0
    ensures '.' in ToHex(c, true) && '.' in HexBody(ToHex(c, true))
  {
    AlphaToHexPoint(c.a);
    PointInHexForm(ComponentToHex(c.r), ComponentToHex(c.g), ComponentToHex(c.b), AlphaToHex(c.a));
  }

  lemma PointInHexForm(r: string, g: string, b: string, alpha: string)
    requires '.' in alpha
    ensures '.' in "#" + r + g + b + alpha && '.' in HexBody("#" + r + g + b + alpha)
  {
    var s := "#" + r + g + b + alpha;
    assert s == "#" + (r + g + b + alpha);
    PointInSuffix(r + g + b, alpha);
    PointInSuffix("#", r + g + b + alpha);
    assert HexBody(s) == r + g + b + alpha;
  }

  lemma HexRejected(s: string)
    requires !AllHex(HexBody(s))
    ensures CreateFromHex(s).Err?
  {
  }

  lemma RgbRejected(s: string)
    requires SearchRgb(s) == None
    ensures CreateFromRgb(s).Err?
  {
  }

  /** The colour `createFromHex` reads from "#ffffff80" has alpha 50, which `toHex` cannot write back. */
  lemma HalfAlphaIsLost()
    ensures CreateFromHex("#ffffff80") == Ok(Rgba(255, 255, 255, 50))
    ensures CreateFromHex(ToHex(Rgba(255, 255, 255, 50), true)).Err?
  {
    var body := "ffffff80";
    assert HexBody("#ffffff80") == body;
    assert HexPair(body, 0) == 255 && HexPair(body, 6) == 128;
    assert AlphaOfByte(128) == 50;
    FractionalAlphaUnreadable(Rgba(255, 255, 255, 50));
  }
}
