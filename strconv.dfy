/** The parts of Go's `strings` package the core relies on. */
module Strings {

  predicate HasPrefix(s: string, prefix: string)
  {
    |prefix| <= |s| && s[..|prefix|] == prefix
  }

  predicate HasSuffix(s: string, suffix: string)
  {
    |suffix| <= |s| && s[|s| - |suffix|..] == suffix
  }

  /** `strings.TrimPrefix`: drops one leading `prefix` when present, otherwise returns `s`. */
  function TrimPrefix(s: string, prefix: string): (r: string)
    ensures HasPrefix(s, prefix) ==> s == prefix + r
    ensures !HasPrefix(s, prefix) ==> r == s
  {
    if HasPrefix(s, prefix) then s[|prefix|..] else s
  }

  /** `strings.TrimSuffix`: drops one trailing `suffix` when present, otherwise returns `s`. */
  function TrimSuffix(s: string, suffix: string): (r: string)
    ensures HasSuffix(s, suffix) ==> s == r + suffix
    ensures !HasSuffix(s, suffix) ==> r == s
  {
    if HasSuffix(s, suffix) then s[..|s| - |suffix|] else s
  }
}

/** The decimal parsers of Go's `strconv` package that the core calls with base 10 and
    bit size 64, with their exact error texts. */
module Strconv {
  import opened Wrappers

  const MaxUint64: nat := 0xFFFF_FFFF_FFFF_FFFF
  const MaxInt64: nat := 0x7FFF_FFFF_FFFF_FFFF
  const Cutoff: nat := 0x8000_0000_0000_0000

  predicate IsDigit(c: char) { '0' <= c <= '9' }

  predicate AllDigits(s: string) { forall i :: 0 <= i < |s| ==> IsDigit(s[i]) }

  function DigitValue(c: char): (d: nat)
    requires IsDigit(c)
    ensures d <= 9
  {
    c as int - '0' as int
  }

  /** The number a string of decimal digits denotes. */
  function Decimal(s: string): nat
    requires AllDigits(s)
  {
    if s == [] then 0 else Decimal(s[..|s| - 1]) * 10 + DigitValue(s[|s| - 1])
  }

  datatype NumErr = ErrSyntax | ErrRange

  function ErrText(e: NumErr): string
  {
    match e
    case ErrSyntax => "invalid syntax"
    case ErrRange => "value out of range"
  }

  /** `strconv.Quote` for the strings met here (escaping of special characters is not modelled). */
  function Quote(s: string): string { "\"" + s + "\"" }

  /** The text of a `*strconv.NumError`. */
  function NumErrorText(fn: string, num: string, e: NumErr): string
  {
    "strconv." + fn + ": parsing " + Quote(num) + ": " + ErrText(e)
  }

  /** A Go `(value, error)` pair as the parsers return it: the value is meaningful even when
      there is an error (callers that ignore the error store it). */
  datatype Parsed = Parsed(value: int, err: Option<string>)

  /** The digit loop of `ParseUint`: left to right, the first non-digit or the first overflow stops it. */
  function ScanDecimal(s: string, i: nat, n: nat): (r: (nat, Option<NumErr>))
    requires i <= |s| && n <= MaxUint64
    ensures r.0 <= MaxUint64
    ensures r.1 == Some(ErrSyntax) ==> r.0 == 0
    ensures r.1 == Some(ErrRange) ==> r.0 == MaxUint64
    decreases |s| - i
  {
    if i == |s| then (n, None)
    else if !IsDigit(s[i]) then (0, Some(ErrSyntax))
    else if n * 10 + DigitValue(s[i]) > MaxUint64 then (MaxUint64, Some(ErrRange))
    else ScanDecimal(s, i + 1, n * 10 + DigitValue(s[i]))
  }

  function ParseUintRaw(s: string): (nat, Option<NumErr>)
  {
    if s == [] then (0, Some(ErrSyntax)) else ScanDecimal(s, 0, 0)
  }

  /** `strconv.ParseUint(s, 10, 64)`. */
  function ParseUint(s: string): Parsed
  {
    var (n, e) := ParseUintRaw(s);
    match e
    case None => Parsed(n, None)
    case Some(k) => Parsed(n, Some(NumErrorText("ParseUint", s, k)))
  }

  /** `strconv.ParseInt(s, 10, 64)`: an optional sign, then `ParseUint`'s digits; out-of-range
      values clamp to the nearest int64 bound with a range error, as Go does. */
  function ParseInt(s: string): (r: Parsed)
    ensures -(Cutoff as int) <= r.value <= MaxInt64
  {
    if s == [] then Parsed(0, Some(NumErrorText("ParseInt", s, ErrSyntax)))
    else
      var neg := s[0] == '-';
      var digits := if s[0] == '+' || s[0] == '-' then s[1..] else s;
      var (un, e) := ParseUintRaw(digits);
      if e == Some(ErrSyntax) then Parsed(0, Some(NumErrorText("ParseInt", s, ErrSyntax)))
      else if !neg && un >= Cutoff then Parsed(MaxInt64, Some(NumErrorText("ParseInt", s, ErrRange)))
      else if neg && un > Cutoff then Parsed(-(Cutoff as int), Some(NumErrorText("ParseInt", s, ErrRange)))
      else Parsed(if neg then 0 - un else un, None)
  }

  /** `strconv.ParseBool`. */
  function ParseBool(s: string): (r: Result<bool>)
    ensures r.Ok? || r == Err(NumErrorText("ParseBool", s, ErrSyntax))
  {
    if s in {"1", "t", "T", "TRUE", "true", "True"} then Ok(true)
    else if s in {"0", "f", "F", "FALSE", "false", "False"} then Ok(false)
    else Err(NumErrorText("ParseBool", s, ErrSyntax))
  }

  /** `strconv.Atoi` as `getOptions` uses it: the value when the text parses, otherwise nothing. */
  function Atoi(s: string): (r: Option<int>)
    ensures r.Some? <==> ParseInt(s).err.None?
  {
    var p := ParseInt(s);
    if p.err.None? then Some(p.value) else None
  }

  lemma {:induction false} ScanDigits(s: string, i: nat)
    requires AllDigits(s) && i <= |s| && Decimal(s) <= MaxUint64
    ensures Decimal(s[..i]) <= MaxUint64
    ensures ScanDecimal(s, i, Decimal(s[..i])) == (Decimal(s), None)
    decreases |s| - i
  {
    if i == |s| {
      assert s[..i] == s;
    } else {
      DecimalMonotone(s, i + 1);
      assert s[..i + 1][..i] == s[..i];
      ScanDigits(s, i + 1);
    }
  }

  /** A prefix of a digit string never denotes more than the whole string. */
  lemma {:induction false} DecimalMonotone(s: string, i: nat)
    requires AllDigits(s) && i <= |s|
    ensures Decimal(s[..i]) <= Decimal(s)
    decreases |s| - i
  {
    if i < |s| {
      assert s[..|s|][..|s| - 1] == s[..|s| - 1];
      DecimalMonotone(s[..|s| - 1], i);
      assert s[..|s| - 1][..i] == s[..i];
    } else {
      assert s[..i] == s;
    }
  }

  /** A non-empty run of decimal digits within the int64 range parses to the number it denotes. */
  lemma ParseIntOfDigits(s: string)
    requires s != [] && AllDigits(s) && Decimal(s) <= MaxInt64
    ensures ParseInt(s) == Parsed(Decimal(s), None)
  {
    ScanDigits(s, 0);
    assert s[..0] == [];
  }

  /** `ParseUint` of a run of digits within uint64 is its decimal value, with no error. */
  lemma ParseUintOfDigits(s: string)
    requires s != [] && AllDigits(s) && Decimal(s) <= MaxUint64
    ensures ParseUint(s) == Parsed(Decimal(s), None)
  {
    ScanDigits(s, 0);
    assert s[..0] == [];
  }

  /** A leading '-' before such a run negates it. */
  lemma ParseIntOfNegativeDigits(s: string)
    requires s != [] && AllDigits(s) && Decimal(s) <= MaxInt64
    ensures ParseInt("-" + s) == Parsed(0 - Decimal(s), None)
  {
    ScanDigits(s, 0);
    assert s[..0] == [];
    assert ("-" + s)[1..] == s;
  }

  /** A text that is not a number is a syntax error that names it, and the value is 0. */
  lemma ParseIntRejectsLetter(s: string)
    requires s != [] && s[0] != '+' && s[0] != '-' && !IsDigit(s[0])
    ensures ParseInt(s) == Parsed(0, Some("strconv.ParseInt: parsing \"" + s + "\": invalid syntax"))
  {
    assert ScanDecimal(s, 0, 0) == (0, Some(ErrSyntax));
    assert ParseInt(s) == Parsed(0, Some(NumErrorText("ParseInt", s, ErrSyntax)));
    ParseIntSyntaxText(s);
  }

  lemma ParseIntSyntaxText(s: string)
    ensures NumErrorText("ParseInt", s, ErrSyntax) == "strconv.ParseInt: parsing \"" + s + "\": invalid syntax"
  {
    var head, tail := "strconv." + "ParseInt" + ": parsing ", ": " + "invalid syntax";
    assert head + "\"" == "strconv.ParseInt: parsing \"";
    assert "\"" + tail == "\": invalid syntax";
    calc {
      NumErrorText("ParseInt", s, ErrSyntax);
      head + ("\"" + s + "\"") + tail;
      (head + "\"") + s + ("\"" + tail);
    }
  }
}
