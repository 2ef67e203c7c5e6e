/**
 * Go's `int` (64 bits on the platforms goproxie targets), decimal formatting
 * with `%v` and parsing with strconv.Atoi, including how Atoi reports a syntax
 * error (value 0) and a value out of range (clamped to the nearest bound).
 */
module GoStrconv {

  const MaxInt64: int := 0x7FFF_FFFF_FFFF_FFFF
  const MinInt64: int := -0x8000_0000_0000_0000
  const MaxUint64: int := 0xFFFF_FFFF_FFFF_FFFF

  /** Go's `int`. */
  type Int = x: int | MinInt64 <= x <= MaxInt64

  predicate IsDigit(c: char) {
    '0' <= c <= '9'
  }

  predicate AllDigits(s: string) {
    forall i :: 0 <= i < |s| ==> IsDigit(s[i])
  }

  function DigitValue(c: char): nat
    requires IsDigit(c)
  {
    c as int - '0' as int
  }

  function DigitChar(d: nat): char
    requires d < 10
  {
    ('0' as int + d) as char
  }

  /** Decimal digits of `n`, most significant first, without leading zeros. */
  function NatToString(n: nat): (s: string)
    ensures s != [] && AllDigits(s)
  {
    if n < 10 then [DigitChar(n)] else NatToString(n / 10) + [DigitChar(n % 10)]
  }

  /** fmt's `%v` (and strconv.Itoa) of a Go int. */
  function Itoa(n: Int): string {
    if n < 0 then "-" + NatToString(-(n as int)) else NatToString(n)
  }

  /** Value of a digit string read left to right onto `acc`, with unbounded integers. */
  function DigitsValue(acc: nat, s: string): nat
    requires AllDigits(s)
    decreases |s|
  {
    if s == [] then acc else DigitsValue(acc * 10 + DigitValue(s[0]), s[1..])
  }

  datatype Scan = Parsed(n: nat) | SyntaxError | RangeError

  /**
   * strconv.ParseUint(s, 10, 64) once the sign is gone: digits are read left to
   * right; a non-digit is a syntax error, and the first digit that takes the
   * value past 2^64-1 is a range error, whatever follows it.
   */
  function ScanUint(acc: nat, s: string): Scan
    requires acc <= MaxUint64
    decreases |s|
  {
    if s == [] then Parsed(acc)
    else if !IsDigit(s[0]) then SyntaxError
    else if acc * 10 + DigitValue(s[0]) > MaxUint64 then RangeError
    else ScanUint(acc * 10 + DigitValue(s[0]), s[1..])
  }

  /** `s` without its one optional leading sign. */
  function Unsigned(s: string): string {
    if s != [] && (s[0] == '-' || s[0] == '+') then s[1..] else s
  }

  /** The (int, error) pair of strconv.Atoi; `ok` stands for a nil error. */
  datatype IntResult = IntResult(value: Int, ok: bool)

  /**
   * strconv.Atoi: an optional sign and at least one decimal digit. A syntax error
   * gives 0; a value outside the int range gives that range's nearest bound.
   */
  function Atoi(s: string): (r: IntResult)
    ensures !r.ok && r.value != 0 ==> r.value == MaxInt64 || r.value == MinInt64
  {
    if s == [] then IntResult(0, false)
    else
      var neg := s[0] == '-';
      var body := Unsigned(s);
      if body == [] then IntResult(0, false)
      else
        match ScanUint(0, body)
        case SyntaxError => IntResult(0, false)
        case RangeError => if neg then IntResult(MinInt64, false) else IntResult(MaxInt64, false)
        case Parsed(u) =>
          if !neg && u > MaxInt64 then IntResult(MaxInt64, false)
          else if neg && u > -MinInt64 then IntResult(MinInt64, false)
          else IntResult(if neg then -(u as int) else u, true)
  }

  // ---------------------------------------------------------------------------

  lemma {:induction false} DigitsValueGrows(acc: nat, s: string)
    requires AllDigits(s)
    ensures DigitsValue(acc, s) >= acc
    decreases |s|
  {
    if s != [] {
      DigitsValueGrows(acc * 10 + DigitValue(s[0]), s[1..]);
    }
  }

  lemma {:induction false} DigitsValueSnoc(acc: nat, s: string, c: char)
    requires AllDigits(s) && IsDigit(c)
    ensures AllDigits(s + [c])
    ensures DigitsValue(acc, s + [c]) == DigitsValue(acc, s) * 10 + DigitValue(c)
    decreases |s|
  {
    if s != [] {
      assert (s + [c])[1..] == s[1..] + [c];
      DigitsValueSnoc(acc * 10 + DigitValue(s[0]), s[1..], c);
    }
  }

  lemma {:induction false} DigitsValueOfNatToString(n: nat)
    ensures DigitsValue(0, NatToString(n)) == n
  {
    if n >= 10 {
      DigitsValueOfNatToString(n / 10);
      DigitsValueSnoc(0, NatToString(n / 10), DigitChar(n % 10));
    }
  }

  /** A digit string whose value fits in 64 bits scans to that value. */
  lemma {:induction false} ScanUintOfDigits(acc: nat, s: string)
    requires acc <= MaxUint64 && AllDigits(s)
    requires DigitsValue(acc, s) <= MaxUint64
    ensures ScanUint(acc, s) == Parsed(DigitsValue(acc, s))
    decreases |s|
  {
    if s != [] {
      var next := acc * 10 + DigitValue(s[0]);
      DigitsValueGrows(next, s[1..]);
      ScanUintOfDigits(next, s[1..]);
    }
  }

  /** Round trip: Atoi reads back every Go int that `%v` formats, without error. */
  lemma AtoiOfItoa(n: Int)
    ensures Atoi(Itoa(n)) == IntResult(n, true)
  {
    var m: nat := if n < 0 then -(n as int) else n;
    var digits := NatToString(m);
    DigitsValueOfNatToString(m);
    ScanUintOfDigits(0, digits);
    if n < 0 {
      assert Itoa(n)[1..] == digits;
    }
  }

  /** `%v` of an int writes only digits and a leading minus sign. */
  lemma ItoaIsPlain(n: Int)
    ensures Itoa(n) != []
    ensures forall i :: 0 <= i < |Itoa(n)| ==> IsDigit(Itoa(n)[i]) || Itoa(n)[i] == '-'
  {
  }

  /** A digit string meets a non-digit before its value outgrows 64 bits: a syntax error. */
  lemma {:induction false} ScanUintStops(acc: nat, s: string, k: nat)
    requires acc <= MaxUint64
    requires k < |s| && !IsDigit(s[k]) && AllDigits(s[..k])
    requires DigitsValue(acc, s[..k]) <= MaxUint64
    ensures ScanUint(acc, s) == SyntaxError
    decreases k
  {
    if k > 0 {
      var next := acc * 10 + DigitValue(s[0]);
      assert s[..k][1..] == s[1..][..k - 1];
      DigitsValueGrows(next, s[1..][..k - 1]);
      ScanUintStops(next, s[1..], k - 1);
    }
  }

  /**
   * Atoi reports a syntax error, and the value 0, for a string with no digits
   * after its sign, and for one whose first non-digit after the sign (at `k`)
   * follows digits that fit in 64 bits: "", "-", "+", "abc", "12a", "1-2".
   */
  lemma AtoiSyntaxError(s: string, k: nat)
    requires var body := Unsigned(s);
             body == [] || (k < |body| && !IsDigit(body[k]) && AllDigits(body[..k])
                            && DigitsValue(0, body[..k]) <= MaxUint64)
    ensures Atoi(s) == IntResult(0, false)
  {
    var body := Unsigned(s);
    if body != [] {
      ScanUintStops(0, body, k);
    }
  }
}
