/**
 * The JavaScript built-ins on numbers and strings that the modelled code relies on:
 * `Number.prototype.toString(radix)` on integers, `parseInt`, `Number.isInteger`,
 * `Math.round`, and the white-space class used by `String.prototype.trim`, `parseInt`
 * and the regular-expression escape `\s`.
 */
module Numbers {
  import opened Wrappers

  /**
   * The symbol for digit `d` in the 64-symbol alphabet of the trace formatter's base
   * converter: `0`-`9`, then `a`-`z`, then `A`-`Z`, then `+` and `/`.
   */
  function DigitChar(d: nat): char
    requires d < 64
  {
    if d < 10 then (48 + d) as char
    else if d < 36 then (97 + d - 10) as char
    else if d < 62 then (65 + d - 36) as char
    else if d == 62 then '+'
    else '/'
  }

  /** The position of `c` in the 64-symbol alphabet, if it occurs there. */
  function DigitValue(c: char): Option<nat>
  {
    if '0' <= c <= '9' then Some(c as int - 48)
    else if 'a' <= c <= 'z' then Some(c as int - 97 + 10)
    else if 'A' <= c <= 'Z' then Some(c as int - 65 + 36)
    else if c == '+' then Some(62)
    else if c == '/' then Some(63)
    else None
  }

  lemma DigitValueOfChar(d: nat)
    requires d < 64
    ensures DigitValue(DigitChar(d)) == Some(d)
  {
  }

  lemma DigitCharOfValue(c: char)
    requires DigitValue(c).Some?
    ensures DigitValue(c).value < 64 && DigitChar(DigitValue(c).value) == c
  {
  }

  /** The digits of `n` in `base`, most significant first, without leading zeros ("" for 0). */
  function Digits(n: nat, base: nat): string
    requires 2 <= base <= 64
    decreases n
  {
    if n == 0 then "" else DivMod(n, base); Digits(n / base, base) + [DigitChar(n % base)]
  }

  /** Euclidean division of a natural number by a base: the facts the digit lemmas need. */
  lemma DivMod(n: nat, base: nat)
    requires 2 <= base
    ensures 0 <= n % base < base && 0 <= n / base
    ensures (n / base) * base + n % base == n
    ensures n > 0 ==> n / base < n
    ensures n / base == 0 <==> n < base
    ensures n / base == 0 ==> n % base == n
  {
  }

  lemma MulNat(a: nat, b: nat)
    ensures a * b >= 0
  {
  }

  /** A string of digits of `n` in `base` has no leading zero and only symbols below `base`. */
  lemma {:induction false} DigitsShape(n: nat, base: nat)
    requires 2 <= base <= 64
    ensures (|Digits(n, base)| == 0) == (n == 0)
    ensures n > 0 ==> Digits(n, base)[0] != '0'
    ensures forall i :: 0 <= i < |Digits(n, base)| ==>
              DigitValue(Digits(n, base)[i]).Some? && DigitValue(Digits(n, base)[i]).value < base
    decreases n
  {
    if n > 0 {
      var q, r := n / base, n % base;
      DivMod(n, base);
      DigitsShape(q, base);
      DigitValueOfChar(r);
      var p := Digits(q, base);
      var s := Digits(n, base);
      assert s == p + [DigitChar(r)];
      forall i | 0 <= i < |s|
        ensures DigitValue(s[i]).Some? && DigitValue(s[i]).value < base
      {
        if i < |p| {
          assert s[i] == p[i];
        }
      }
      if q == 0 {
        assert s == [DigitChar(r)] && r == n;
      } else {
        assert s[0] == p[0];
      }
    }
  }

  /** `n.toString(radix)` for a non-negative integer `n` and `radix` in 2..36. */
  function NatToString(n: nat, radix: nat): string
    requires 2 <= radix <= 36
  {
    if n == 0 then "0" else Digits(n, radix)
  }

  /** `n.toString(radix)` for an integer `n` (a minus sign, then the digits of `|n|`). */
  function IntToString(n: int, radix: nat): string
    requires 2 <= radix <= 36
  {
    if n < 0 then "-" + NatToString(-n, radix) else NatToString(n, radix)
  }

  /** `String(n)` for an integer `n`. */
  function Decimal(n: int): string
  {
    IntToString(n, 10)
  }

  /** `Number.isInteger(x)` for a finite number `x`. */
  predicate IsInteger(x: real)
  {
    x.Floor as real == x
  }

  /** `Math.round(x)` for a finite number `x`: halves round towards positive infinity. */
  function Round(x: real): int
  {
    (x + 0.5).Floor
  }

  /** The characters JavaScript treats as white space or line terminators (`\s`, `trim`). */
  predicate IsSpace(c: char)
  {
    var u := c as int;
    (9 <= u <= 13) || u == 0x20 || u == 0xA0 || u == 0x1680 || (0x2000 <= u <= 0x200A)
    || u == 0x2028 || u == 0x2029 || u == 0x202F || u == 0x205F || u == 0x3000 || u == 0xFEFF
  }

  /** The digit value `parseInt` gives `c` (letters in either case stand for 10..35). */
  function ParseDigit(c: char): Option<nat>
  {
    if '0' <= c <= '9' then Some(c as int - 48)
    else if 'a' <= c <= 'z' then Some(c as int - 97 + 10)
    else if 'A' <= c <= 'Z' then Some(c as int - 65 + 10)
    else None
  }

  predicate IsRadixDigit(c: char, radix: nat)
  {
    ParseDigit(c).Some? && ParseDigit(c).value < radix
  }

  /** The value of a string made only of digits of `radix`, most significant first. */
  function DigitsValue(s: string, radix: nat): nat
    requires forall i :: 0 <= i < |s| ==> IsRadixDigit(s[i], radix)
  {
    if s == [] then 0
    else
      var init := s[..|s| - 1];
      assert forall i :: 0 <= i < |init| ==> init[i] == s[i];
      assert IsRadixDigit(s[|s| - 1], radix);
      var high: nat := DigitsValue(init, radix);
      var low: nat := ParseDigit(s[|s| - 1]).value;
      MulNat(high, radix);
      high * radix + low
  }

  lemma ParseDigitOfChar(d: nat)
    requires d < 36
    ensures ParseDigit(DigitChar(d)) == Some(d)
  {
  }

  /** All symbols of `n.toString(radix)` are digits of `radix`. */
  lemma NatToStringDigits(n: nat, radix: nat)
    requires 2 <= radix <= 36
    ensures forall i :: 0 <= i < |NatToString(n, radix)| ==> IsRadixDigit(NatToString(n, radix)[i], radix)
    ensures NatToString(n, radix) != []
  {
    DigitsShape(n, radix);
    var s := NatToString(n, radix);
    forall i | 0 <= i < |s| ensures IsRadixDigit(s[i], radix) {
      if n > 0 {
        DigitCharOfValue(s[i]);
        ParseDigitOfChar(DigitValue(s[i]).value);
      }
    }
  }

  /** Appending a digit multiplies the value by the radix and adds the digit. */
  lemma DigitsValueSnoc(p: string, d: nat, radix: nat)
    requires 2 <= radix <= 36 && d < radix
    requires forall i :: 0 <= i < |p| ==> IsRadixDigit(p[i], radix)
    ensures forall i :: 0 <= i < |p + [DigitChar(d)]| ==> IsRadixDigit((p + [DigitChar(d)])[i], radix)
    ensures DigitsValue(p + [DigitChar(d)], radix) == DigitsValue(p, radix) * radix + d
  {
    ParseDigitOfChar(d);
    var s := p + [DigitChar(d)];
    assert s[..|s| - 1] == p;
  }

  /** Reading back the digits of `n` gives `n`. */
  lemma {:induction false} DigitsValueOfDigits(n: nat, radix: nat)
    requires 2 <= radix <= 36
    ensures forall i :: 0 <= i < |Digits(n, radix)| ==> IsRadixDigit(Digits(n, radix)[i], radix)
    ensures DigitsValue(Digits(n, radix), radix) == n
    decreases n
  {
    if n > 0 {
      var q, r := n / radix, n % radix;
      DivMod(n, radix);
      DigitsValueOfDigits(q, radix);
      assert Digits(n, radix) == Digits(q, radix) + [DigitChar(r)];
      DigitsValueSnoc(Digits(q, radix), r, radix);
    }
  }

  /** `parseInt(n.toString(radix), radix)` is `n` for a non-negative integer `n`. */
  lemma NatToStringValue(n: nat, radix: nat)
    requires 2 <= radix <= 36
    ensures forall i :: 0 <= i < |NatToString(n, radix)| ==> IsRadixDigit(NatToString(n, radix)[i], radix)
    ensures DigitsValue(NatToString(n, radix), radix) == n
  {
    NatToStringDigits(n, radix);
    if n == 0 {
      assert NatToString(n, radix) == "0";
      assert NatToString(n, radix)[..0] == [];
    } else {
      DigitsValueOfDigits(n, radix);
    }
  }

  /** The longest prefix of `s` made of digits of `radix`. */
  function DigitPrefix(s: string, radix: nat): (p: string)
    ensures |p| <= |s| && p == s[..|p|]
    ensures forall i :: 0 <= i < |p| ==> IsRadixDigit(p[i], radix)
    ensures |p| < |s| ==> !IsRadixDigit(s[|p|], radix)
  {
    if s != [] && IsRadixDigit(s[0], radix) then [s[0]] + DigitPrefix(s[1..], radix) else []
  }

  /** The digit run of `p + rest` is `p` when `p` is all digits and `rest` does not start with one. */
  lemma {:induction false} DigitPrefixOf(p: string, rest: string, radix: nat)
    requires forall i :: 0 <= i < |p| ==> IsRadixDigit(p[i], radix)
    requires rest == [] || !IsRadixDigit(rest[0], radix)
    ensures DigitPrefix(p + rest, radix) == p
  {
    if p != [] {
      assert (p + rest)[1..] == p[1..] + rest;
      DigitPrefixOf(p[1..], rest, radix);
    } else {
      assert p + rest == rest;
    }
  }

  function TrimStart(s: string): (t: string)
    ensures |t| <= |s| && t == s[|s| - |t|..]
    ensures t != [] ==> !IsSpace(t[0])
  {
    if s != [] && IsSpace(s[0]) then TrimStart(s[1..]) else s
  }

  function TrimEnd(s: string): (t: string)
    ensures |t| <= |s| && t == s[..|t|]
    ensures t != [] ==> !IsSpace(t[|t| - 1])
  {
    if s != [] && IsSpace(s[|s| - 1]) then TrimEnd(s[..|s| - 1]) else s
  }

  /** Trimming the end keeps a leading character that is not white space. */
  lemma {:induction false} TrimEndKeepsFirst(s: string)
    requires s != [] && !IsSpace(s[0])
    ensures TrimEnd(s) != [] && TrimEnd(s)[0] == s[0]
    decreases |s|
  {
    if IsSpace(s[|s| - 1]) {
      TrimEndKeepsFirst(s[..|s| - 1]);
    }
  }

  /** `String.prototype.trim`. */
  function Trim(s: string): string
  {
    TrimEnd(TrimStart(s))
  }

  /**
   * `parseInt(s, 10)`: leading white space is skipped, then an optional sign, then the longest
   * run of decimal digits; `None` stands for `NaN` (no digit at all).
   */
  function ParseInt10(s: string): Option<int>
  {
    var t := TrimStart(s);
    var negative := t != [] && t[0] == '-';
    var rest := if t != [] && (t[0] == '-' || t[0] == '+') then t[1..] else t;
    var digits := DigitPrefix(rest, 10);
    if digits == [] then None
    else
      var magnitude: int := DigitsValue(digits, 10);
      Some(if negative then -magnitude else magnitude)
  }
}
