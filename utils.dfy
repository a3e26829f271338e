/** `StringUtils` and `Validators` of the services layer. */
module Utils {
  import opened Wrappers
  import opened Numbers

  /** `toUpperCase` on one character, for the Latin letters a-z. */
  function UpperChar(c: char): char
  {
    if 'a' <= c <= 'z' then (c as int - 32) as char else c
  }

  /** `StringUtils.ucFirst`: the first character upper-cased, the rest unchanged. */
  function UcFirst(s: string): (r: string)
    ensures s == "" ==> r == ""
    ensures |r| == |s|
    ensures s != "" ==> r[0] == UpperChar(s[0]) && r[1..] == s[1..]
  {
    if s == "" then s else [UpperChar(s[0])] + s[1..]
  }

  /** Upper-casing the first character twice changes nothing more. */
  lemma UcFirstIdempotent(s: string)
    ensures UcFirst(UcFirst(s)) == UcFirst(s)
  {
    if s != "" {
      assert UcFirst(s)[1..] == s[1..];
    }
  }

  /** A validator argument: `string | number` (a finite JavaScript number is a `real`). */
  datatype NumberOrString = Num(x: real) | Str(s: string)

  /** The number a MIDI validator tests: the value itself, or `parseInt(value, 10)` (`None` is NaN). */
  function ValidatedNumber(v: NumberOrString): Option<real>
  {
    match v
    case Num(x) => Some(x)
    case Str(s) =>
      match ParseInt10(s)
      case None => None
      case Some(n) => Some(n as real)
  }

  /**
   * `Validators.isUnsignedInt`: a number must be an integer no smaller than 0; a string is
   * judged by the validator library's `isInt(value, {min: 0})`, passed in as `libraryIsInt`.
   */
  function IsUnsignedInt(v: NumberOrString, libraryIsInt: string -> bool): bool
  {
    match v
    case Num(x) => IsInteger(x) && x >= 0.0
    case Str(s) => libraryIsInt(s)
  }

  /** `Validators.isMidiChannel`. */
  predicate IsMidiChannel(v: NumberOrString)
  {
    var n := ValidatedNumber(v);
    n.Some? && IsInteger(n.value) && 1.0 <= n.value <= 16.0
  }

  /** `Validators.isMidiNote`. */
  predicate IsMidiNote(v: NumberOrString)
  {
    var n := ValidatedNumber(v);
    n.Some? && IsInteger(n.value) && 0.0 <= n.value <= 127.0
  }

  /** `Validators.isMidiVelocity`, which defers to `isMidiNote`. */
  predicate IsMidiVelocity(v: NumberOrString)
  {
    IsMidiNote(v)
  }

  /** An integral number passes `isUnsignedInt` exactly when it is no smaller than 0; no fraction passes. */
  lemma UnsignedIntIsNat(n: int, x: real, libraryIsInt: string -> bool)
    ensures IsUnsignedInt(Num(n as real), libraryIsInt) <==> n >= 0
    ensures !IsInteger(x) ==> !IsUnsignedInt(Num(x), libraryIsInt)
  {
  }

  /** An integral number passes `isMidiChannel` exactly when it is one of the channels 1..16; no fraction passes. */
  lemma MidiChannelIsChannel(n: int, x: real)
    ensures IsMidiChannel(Num(n as real)) <==> 1 <= n <= 16
    ensures !IsInteger(x) ==> !IsMidiChannel(Num(x))
  {
  }

  /** An integral number passes `isMidiNote`, and so `isMidiVelocity`, exactly when it is in 0..127. */
  lemma MidiNoteIsNote(n: int, x: real)
    ensures IsMidiNote(Num(n as real)) <==> 0 <= n <= 127
    ensures !IsInteger(x) ==> !IsMidiNote(Num(x))
    ensures IsMidiVelocity(Num(x)) == IsMidiNote(Num(x))
  {
  }

  /** A string is judged by the integer `parseInt` reads from its start. */
  lemma MidiChannelOfString(s: string)
    ensures IsMidiChannel(Str(s)) <==> ParseInt10(s).Some? && 1 <= ParseInt10(s).value <= 16
  {
    if ParseInt10(s).Some? {
      var n := ParseInt10(s).value;
      assert (n as real).Floor == n;
    }
  }

  predicate StartsWith(s: string, prefix: string)
  {
    |prefix| <= |s| && s[..|prefix|] == prefix
  }

  /**
   * `Validators.isUrl`: the empty string is never a URL; with `allowLocal`, a trimmed string
   * starting with "/" or "./" is one; everything else is judged by the validator library's
   * `isURL` (protocol http or https required, no top-level domain required), passed in as
   * `libraryIsUrl`.
   */
  function IsUrl(s: string, allowLocal: bool, libraryIsUrl: string -> bool): (r: bool)
    ensures s == "" ==> !r
    ensures s != "" && allowLocal && (StartsWith(Trim(s), "/") || StartsWith(Trim(s), "./")) ==> r
    ensures (s != "" && !(allowLocal && (StartsWith(Trim(s), "/") || StartsWith(Trim(s), "./"))))
            ==> r == libraryIsUrl(Trim(s))
  {
    if s == "" then false
    else
      var trimmed := Trim(s);
      if allowLocal && (StartsWith(trimmed, "/") || StartsWith(trimmed, "./")) then true
      else libraryIsUrl(trimmed)
  }
}
