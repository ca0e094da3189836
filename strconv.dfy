/**
 * The parts of Go's strconv package the pipeline relies on: ParseInt(s, 10, 64)
 * (through ParseUint(s, 10, 64)), FormatInt(i, 10), FormatUint(u, 10) and
 * FormatBool, on unbounded integers with the int64/uint64 limits written out.
 */
module Strconv {

  import opened Wrappers
  import opened Errors

  const MinInt64: int := -0x8000_0000_0000_0000
  const MaxInt64: int := 0x7fff_ffff_ffff_ffff
  const MaxUint64: int := 0xffff_ffff_ffff_ffff

  predicate IsDigit(c: char)
  {
    '0' <= c <= '9'
  }

  predicate IsDigits(s: string)
  {
    forall i :: 0 <= i < |s| ==> IsDigit(s[i])
  }

  function DigitValue(c: char): nat
    requires IsDigit(c)
  {
    (c as int) - ('0' as int)
  }

  function DigitChar(d: nat): (c: char)
    requires d < 10
    ensures IsDigit(c) && DigitValue(c) == d
  {
    (('0' as int) + d) as char
  }

  /** The number a string of decimal digits denotes, most significant digit first ("" denotes 0). */
  function DigitsValue(s: string): nat
    requires IsDigits(s)
  {
    if s == [] then 0 else DigitsValue(s[..|s| - 1]) * 10 + DigitValue(s[|s| - 1])
  }

  // ---------------------------------------------------------------------------
  // Parsing

  /**
   * strconv.ParseUint(s, 10, 64): the digits are scanned left to right and an
   * overflow is reported as soon as the running value leaves the uint64 range,
   * so the kind of error depends on which comes first, a bad character or the
   * overflow.
   */
  function ParseUint(s: string): (r: Result<nat, NumError>)
    ensures r.Ok? ==> r.value <= MaxUint64
  {
    if s == [] then Err(ErrSyntax) else ScanDigits(s, 0, 0)
  }

  /** The scanner from position i with running value n: it succeeds only on digits, and never leaves the uint64 range. */
  function ScanDigits(s: string, i: nat, n: nat): (r: Result<nat, NumError>)
    requires i <= |s|
    ensures r.Ok? ==> IsDigits(s[i..]) && n <= r.value
    ensures r.Ok? && n <= MaxUint64 ==> r.value <= MaxUint64
    decreases |s| - i
  {
    if i == |s| then Ok(n)
    else if !IsDigit(s[i]) then Err(ErrSyntax)
    else if n * 10 + DigitValue(s[i]) > MaxUint64 then Err(ErrRange)
    else ScanDigits(s, i + 1, n * 10 + DigitValue(s[i]))
  }

  /** strconv.ParseInt(s, 10, 64): an optional sign, then ParseUint, then the int64 range check. */
  function ParseInt(s: string): (r: Result<int, NumError>)
    ensures r.Ok? ==> MinInt64 <= r.value <= MaxInt64
  {
    if s == [] then Err(ErrSyntax)
    else
      var neg := s[0] == '-';
      var body := if s[0] == '+' || s[0] == '-' then s[1..] else s;
      match ParseUint(body)
      case Err(e) => Err(e)
      case Ok(un) =>
        if !neg && un > MaxInt64 then Err(ErrRange)
        else if neg && un > -MinInt64 then Err(ErrRange)
        else Ok(if neg then -(un as int) else un as int)
  }

  // Reference reading of a decimal literal, independent of the scanner.

  /** The text after an optional leading '+' or '-'. */
  function Magnitude(s: string): string
  {
    if |s| > 0 && (s[0] == '+' || s[0] == '-') then s[1..] else s
  }

  /** An optional sign followed by one or more decimal digits. */
  predicate IsDecimalLiteral(s: string)
  {
    |Magnitude(s)| > 0 && IsDigits(Magnitude(s))
  }

  function LiteralValue(s: string): int
    requires IsDecimalLiteral(s)
  {
    if s[0] == '-' then -(DigitsValue(Magnitude(s)) as int) else DigitsValue(Magnitude(s))
  }

  /** A decimal literal whose value fits in an int64: exactly the strings ParseInt accepts. */
  predicate IsInt64Literal(s: string)
  {
    IsDecimalLiteral(s) && MinInt64 <= LiteralValue(s) <= MaxInt64
  }

  lemma {:induction false} DigitsValuePrefix(s: string, j: nat)
    requires IsDigits(s) && j <= |s|
    ensures IsDigits(s[..j]) && DigitsValue(s[..j]) <= DigitsValue(s)
    decreases |s|
  {
    if j < |s| {
      var t := s[..|s| - 1];
      assert t[..j] == s[..j];
      DigitsValuePrefix(t, j);
    } else {
      assert s[..j] == s;
    }
  }

  /** The scanner, resumed after a valid prefix, finishes with the value of the whole string or an error. */
  lemma {:induction false} ScanDigitsCorrect(s: string, i: nat, n: nat)
    requires i <= |s| && IsDigits(s[..i]) && n == DigitsValue(s[..i]) && n <= MaxUint64
    ensures IsDigits(s) && DigitsValue(s) <= MaxUint64 ==> ScanDigits(s, i, n) == Ok(DigitsValue(s))
    ensures IsDigits(s) && DigitsValue(s) > MaxUint64 ==> ScanDigits(s, i, n) == Err(ErrRange)
    ensures !IsDigits(s) ==> ScanDigits(s, i, n).Err?
    decreases |s| - i
  {
    if i == |s| {
      assert s[..i] == s;
    } else if IsDigit(s[i]) {
      var p := s[..i + 1];
      assert p[..|p| - 1] == s[..i];
      assert IsDigits(p);
      assert DigitsValue(p) == n * 10 + DigitValue(s[i]);
      if n * 10 + DigitValue(s[i]) > MaxUint64 {
        if IsDigits(s) {
          DigitsValuePrefix(s, i + 1);
        }
      } else {
        ScanDigitsCorrect(s, i + 1, n * 10 + DigitValue(s[i]));
      }
    } else {
      assert !IsDigits(s);
    }
  }

  /** ParseUint accepts exactly the non-empty digit strings whose value fits in a uint64, with that value. */
  lemma ParseUintCorrect(s: string)
    ensures ParseUint(s).Ok? <==> |s| > 0 && IsDigits(s) && DigitsValue(s) <= MaxUint64
    ensures ParseUint(s).Ok? ==> ParseUint(s).value == DigitsValue(s)
  {
    if s != [] {
      assert s[..0] == [];
      ScanDigitsCorrect(s, 0, 0);
    }
  }

  /** ParseInt succeeds exactly on int64 decimal literals, and then yields the literal's value. */
  lemma ParseIntCorrect(s: string)
    ensures ParseInt(s).Ok? <==> IsInt64Literal(s)
    ensures ParseInt(s).Ok? ==> ParseInt(s).value == LiteralValue(s)
  {
    if s != [] {
      ParseUintCorrect(Magnitude(s));
    }
  }

  /** No input that is empty or holds a character other than a sign or a digit parses. */
  lemma ParseIntRejects(s: string)
    requires s == [] || exists i :: 0 <= i < |s| && !IsDigit(s[i]) && s[i] != '+' && s[i] != '-'
    ensures ParseInt(s).Err?
  {
    ParseIntCorrect(s);
    if s != [] {
      var i :| 0 <= i < |s| && !IsDigit(s[i]) && s[i] != '+' && s[i] != '-';
      if s[0] == '+' || s[0] == '-' {
        assert Magnitude(s)[i - 1] == s[i];
      }
    }
  }

  // ---------------------------------------------------------------------------
  // Formatting

  /** The decimal digits of n without leading zeros ("0" for zero). */
  function FormatNat(n: nat): (s: string)
    ensures |s| >= 1 && IsDigits(s)
    ensures DigitsValue(s) == n
    ensures s[0] == '0' ==> n == 0
    decreases n
  {
    if n < 10 then [DigitChar(n)]
    else
      var p := FormatNat(n / 10);
      var s := p + [DigitChar(n % 10)];
      assert s[..|s| - 1] == p;
      s
  }

  /** strconv.FormatUint(u, 10). */
  function FormatUint(u: nat): (s: string)
    ensures |s| >= 1 && IsDigits(s) && DigitsValue(s) == u
  {
    FormatNat(u)
  }

  /** strconv.FormatInt(i, 10): a '-' exactly for a negative number, then the digits of its magnitude. */
  function FormatInt(i: int): (s: string)
    ensures |s| >= 1 && (s[0] == '-' <==> i < 0)
    ensures IsDigits(Magnitude(s)) && DigitsValue(Magnitude(s)) == if i < 0 then -i else i
  {
    if i < 0 then
      var s := "-" + FormatNat(-i);
      assert Magnitude(s) == FormatNat(-i);
      s
    else FormatNat(i)
  }

  /** strconv.FormatBool. */
  function FormatBool(b: bool): (s: string)
    ensures s == "true" || s == "false"
    ensures s == "true" <==> b
  {
    if b then "true" else "false"
  }

  /** Formatting an int64 in base 10 and parsing it back gives the same number. */
  lemma ParseIntOfFormatInt(i: int)
    requires MinInt64 <= i <= MaxInt64
    ensures ParseInt(FormatInt(i)) == Ok(i)
  {
    var s := FormatInt(i);
    if i < 0 {
      assert Magnitude(s) == FormatNat(-i);
    } else {
      assert Magnitude(s) == FormatNat(i);
    }
    ParseIntCorrect(s);
  }

  /** Formatting a uint64 in base 10 and parsing it back gives the same number. */
  lemma ParseUintOfFormatUint(u: nat)
    requires u <= MaxUint64
    ensures ParseUint(FormatUint(u)) == Ok(u)
  {
    ParseUintCorrect(FormatUint(u));
  }

  /** Parsing is left-inverse to formatting on canonical literals: FormatInt is injective. */
  lemma FormatIntInjective(i: int, j: int)
    requires MinInt64 <= i <= MaxInt64 && MinInt64 <= j <= MaxInt64
    ensures FormatInt(i) == FormatInt(j) ==> i == j
  {
    ParseIntOfFormatInt(i);
    ParseIntOfFormatInt(j);
  }
}
