/** Models of the Go standard-library routines the transaction code relies on: the 64-bit
 *  int, strconv.Atoi, strconv.Itoa and strconv.FormatInt (which database/sql uses when it scans an integer
 *  id into a string), strings.ToLower and math.Ceil. */
module GoLib {
  import opened Wrappers

  predicate IsDigit(c: char) { '0' <= c <= '9' }

  predicate IsDigits(s: string) { forall i :: 0 <= i < |s| ==> IsDigit(s[i]) }

  function DigitValue(c: char): (d: nat)
    requires IsDigit(c)
    ensures d < 10
  {
    (c as int) - ('0' as int)
  }

  function DigitChar(d: nat): (c: char)
    requires d < 10
    ensures IsDigit(c) && DigitValue(c) == d
  {
    ('0' as int + d) as char
  }

  /** The number a string of decimal digits denotes, most significant digit first. */
  function DigitsValue(s: string): (v: nat)
    requires IsDigits(s)
  {
    if s == [] then 0 else DigitsValue(s[..|s| - 1]) * 10 + DigitValue(s[|s| - 1])
  }

  const MinInt64: int := -0x8000_0000_0000_0000
  const MaxInt64: int := 0x7fff_ffff_ffff_ffff
  const TwoTo64: int := 0x1_0000_0000_0000_0000

  /** Go's `int` on a 64-bit platform. */
  type Int64 = x: int | MinInt64 <= x <= MaxInt64

  /** Go's `int` arithmetic: the exact result taken modulo 2^64 into the int64 range. */
  function Wrap64(x: int): (r: Int64)
    ensures (r - x) % TwoTo64 == 0
    ensures MinInt64 <= x <= MaxInt64 ==> r == x
  {
    var k := (x - MinInt64) / TwoTo64;
    assert x - MinInt64 == k * TwoTo64 + (x - MinInt64) % TwoTo64;
    assert (x - MinInt64) % TwoTo64 + MinInt64 - x == (-k) * TwoTo64;
    (x - MinInt64) % TwoTo64 + MinInt64
  }

  /** The integer a decimal text denotes, of any size: an optional '+' or '-' followed by at
   *  least one decimal digit; anything else (including the empty string) is a syntax error. */
  function Decimal(s: string): (r: Option<int>)
    ensures s == "" ==> r == None
    ensures r.Some? && IsDigits(s) ==> r.value >= 0
  {
    if s != [] && (s[0] == '+' || s[0] == '-') then
      if |s| > 1 && IsDigits(s[1..]) then
        Some(if s[0] == '-' then 0 - DigitsValue(s[1..]) as int else DigitsValue(s[1..]))
      else
        None
    else if s != [] && IsDigits(s) then
      Some(DigitsValue(s))
    else
      None
  }

  /** Go's integer division by a positive divisor: the quotient truncated toward zero, so it
   *  has the dividend's sign and a remainder smaller than the divisor in magnitude. */
  function Quo(a: int, b: int): (q: int)
    requires b > 0
    ensures a >= 0 ==> q >= 0 && q * b <= a < q * b + b
    ensures a < 0 ==> q <= 0 && q * b - b < a <= q * b
  {
    if a >= 0 then a / b else -((-a) / b)
  }

  /** strconv.Atoi with a nil error: the text is a decimal integer within int64. A syntax
   *  error and a range error both give None. */
  function Atoi(s: string): (r: Option<Int64>)
    ensures r.Some? <==> Decimal(s).Some? && MinInt64 <= Decimal(s).value <= MaxInt64
    ensures r.Some? ==> r.value == Decimal(s).value
  {
    match Decimal(s)
    case None => None
    case Some(v) => if MinInt64 <= v <= MaxInt64 then Some(v) else None
  }

  const MaxUint64: int := 0xffff_ffff_ffff_ffff

  /** The sign strconv.Atoi reads: a leading '-' (a leading '+' is read and dropped). */
  predicate Negative(s: string) { s != [] && s[0] == '-' }

  /** The text after the leading sign, if there is one. */
  function Unsigned(s: string): (u: string)
    ensures |u| <= |s|
  {
    if s != [] && (s[0] == '+' || s[0] == '-') then s[1..] else s
  }

  /** The length of the run of decimal digits a text starts with. */
  function DigitRun(s: string): (n: nat)
    ensures n <= |s| && IsDigits(s[..n])
    ensures n < |s| ==> !IsDigit(s[n])
  {
    if s == [] || !IsDigit(s[0]) then 0
    else
      var n := 1 + DigitRun(s[1..]);
      assert s[..n] == [s[0]] + s[1..][..n - 1];
      n
  }

  /** strconv.ParseUint reads its digits left to right and stops with a range error at the
   *  first digit that takes the value read so far past 2^64 - 1, before it meets any later
   *  character that is not a digit. */
  predicate ReadOverflows(s: string)
  {
    var u := Unsigned(s);
    DigitsValue(u[..DigitRun(u)]) > MaxUint64
  }

  /** The int strconv.Atoi returns beside its error: the int64 bound on the sign's side after a
   *  range error, which an overlong run of digits raises before any syntax error after it;
   *  0 after a syntax error. */
  function AtoiValue(s: string): (v: Int64)
    ensures Atoi(s).Some? ==> v == Atoi(s).value
    ensures Decimal(s).Some? && Decimal(s).value > MaxInt64 ==> v == MaxInt64
    ensures Decimal(s).Some? && Decimal(s).value < MinInt64 ==> v == MinInt64
    ensures ReadOverflows(s) ==> v == if Negative(s) then MinInt64 else MaxInt64
    ensures Decimal(s).None? && !ReadOverflows(s) ==> v == 0
  {
    DigitRunOfDigits(Unsigned(s));
    if ReadOverflows(s) then (if Negative(s) then MinInt64 else MaxInt64)
    else
      match Decimal(s)
      case None => 0
      case Some(v) => if v > MaxInt64 then MaxInt64 else if v < MinInt64 then MinInt64 else v
  }

  lemma {:induction false} DigitRunOfDigits(s: string)
    ensures IsDigits(s) ==> DigitRun(s) == |s| && s[..DigitRun(s)] == s
  {
    if s != [] && IsDigits(s) {
      DigitRunOfDigits(s[1..]);
    }
  }

  /** A text of digits followed by more text: the run read is the digits plus the digit run of
   *  what follows. */
  lemma {:induction false} DigitRunOfConcat(d: string, tail: string)
    requires IsDigits(d)
    ensures DigitRun(d + tail) == |d| + DigitRun(tail)
  {
    if d == [] {
      assert d + tail == tail;
    } else {
      assert (d + tail)[0] == d[0] && (d + tail)[1..] == d[1..] + tail;
      DigitRunOfConcat(d[1..], tail);
    }
  }

  /** Reading more digits never lowers the value read so far. */
  lemma {:induction false} DigitsValuePrefix(s: string, k: nat)
    requires IsDigits(s) && k <= |s|
    ensures DigitsValue(s[..k]) <= DigitsValue(s)
  {
    if k < |s| {
      var front := s[..|s| - 1];
      assert IsDigits(front) by {
        assert forall i :: 0 <= i < |front| ==> front[i] == s[i];
      }
      assert front[..k] == s[..k];
      DigitsValuePrefix(front, k);
      assert DigitsValue(s) == DigitsValue(front) * 10 + DigitValue(s[|s| - 1]);
    } else {
      assert s[..k] == s;
    }
  }

  /** Digits that overflow 2^64 - 1 decide strconv.Atoi's value whatever follows them: the
   *  largest int64, or the smallest after a '-'. */
  lemma AtoiValueOfOverflow(sign: string, d: string, tail: string)
    requires sign == "" || sign == "+" || sign == "-"
    requires IsDigits(d) && DigitsValue(d) > MaxUint64
    ensures AtoiValue(sign + d + tail) == if sign == "-" then MinInt64 else MaxInt64
  {
    var s := sign + d + tail;
    assert d != [];
    assert Unsigned(s) == d + tail by {
      if sign != "" {
        assert s[1..] == d + tail;
      }
    }
    var u := d + tail;
    DigitRunOfConcat(d, tail);
    var n := DigitRun(u);
    assert u[..n][..|d|] == d;
    DigitsValuePrefix(u[..n], |d|);
  }

  /** A character that is neither a digit nor a sign after a run of digits that does not
   *  overflow is a syntax error, and strconv.Atoi's value is 0. */
  lemma AtoiValueOfSyntaxError(sign: string, d: string, c: char, tail: string)
    requires sign == "" || sign == "+" || sign == "-"
    requires IsDigits(d) && DigitsValue(d) <= MaxUint64
    requires !IsDigit(c) && c != '+' && c != '-'
    ensures AtoiValue(sign + d + [c] + tail) == 0
  {
    var u := d + [c] + tail;
    assert sign + d + [c] + tail == sign + u;
    assert u[0] == if d == [] then c else d[0];
    SyntaxErrorAfterDigits(d, c, tail);
    AtoiValueOfSignedNonDigits(sign, u);
  }

  lemma AtoiValueOfSignedNonDigits(sign: string, u: string)
    requires sign == "" || sign == "+" || sign == "-"
    requires u != [] && u[0] != '+' && u[0] != '-'
    requires !IsDigits(u) && DigitsValue(u[..DigitRun(u)]) <= MaxUint64
    ensures AtoiValue(sign + u) == 0
  {
    UnsignedOfSigned(sign, u);
    AtoiValueOfNonDigits(sign + u);
  }

  /** Digits then a character that is not a digit: the run read is those digits, and the text is
   *  not all digits. */
  lemma SyntaxErrorAfterDigits(d: string, c: char, tail: string)
    requires IsDigits(d) && !IsDigit(c)
    ensures var u := d + [c] + tail;
      && DigitRun(u) == |d| && DigitsValue(u[..DigitRun(u)]) == DigitsValue(d) && !IsDigits(u)
  {
    var u := d + [c] + tail;
    assert u == d + ([c] + tail);
    DigitRunOfConcat(d, [c] + tail);
    assert u[..|d|] == d;
    assert u[|d|] == c;
  }

  /** A leading sign is read off, and only then. */
  lemma UnsignedOfSigned(sign: string, u: string)
    requires sign == "" || sign == "+" || sign == "-"
    requires u != [] && u[0] != '+' && u[0] != '-'
    ensures Unsigned(sign + u) == u && (Negative(sign + u) <==> sign == "-")
  {
    if sign != "" {
      assert (sign + u)[1..] == u;
    } else {
      assert sign + u == u;
    }
  }

  /** A text that is not a sign and digits, with no overflowing run of digits before the first
   *  character that is not a digit, leaves strconv.Atoi's value at 0. */
  lemma AtoiValueOfNonDigits(s: string)
    requires !IsDigits(Unsigned(s)) && !ReadOverflows(s)
    ensures AtoiValue(s) == 0
  {
    DecimalNeedsDigits(s);
  }

  /** Only a text whose unsigned part is all digits has a value. */
  lemma DecimalNeedsDigits(s: string)
    ensures Decimal(s).Some? ==> IsDigits(Unsigned(s))
  {
  }

  function Pow10(k: nat): (p: nat)
    ensures p >= 1
  {
    if k == 0 then 1 else 10 * Pow10(k - 1)
  }

  /** A text of nines denotes 10^n - 1. */
  lemma {:induction false} NinesValue(s: string)
    requires forall i :: 0 <= i < |s| ==> s[i] == '9'
    ensures IsDigits(s) && DigitsValue(s) + 1 == Pow10(|s|)
  {
    if s != [] {
      NinesValue(s[..|s| - 1]);
    }
  }

  const TwentyNines := "99999999999999999999"

  lemma TwentyNinesOverflow()
    ensures IsDigits(TwentyNines) && DigitsValue(TwentyNines) > MaxUint64
  {
    NinesValue(TwentyNines);
    assert Pow10(5) == 100000;
    assert Pow10(10) == 10000000000;
    assert Pow10(15) == 1000000000000000;
    assert Pow10(20) == 100000000000000000000;
  }

  /** Twenty nines followed by an 'x' reach the range error first, so strconv.Atoi returns the
   *  largest int64 beside the error, not 0. */
  lemma OverlongDigitsThenLetter()
    ensures AtoiValue(TwentyNines + "x") == MaxInt64
  {
    TwentyNinesOverflow();
    AtoiValueOfOverflow("", TwentyNines, "x");
    assert "" + TwentyNines + "x" == TwentyNines + "x";
  }

  /** strconv.FormatInt(n, 10) for the non-negative ids storage assigns. */
  function FormatNat(n: nat): (s: string)
    ensures s != [] && IsDigits(s)
  {
    if n < 10 then [DigitChar(n)] else FormatNat(n / 10) + [DigitChar(n % 10)]
  }

  lemma {:induction false} DigitsValueOfFormat(n: nat)
    ensures DigitsValue(FormatNat(n)) == n
  {
    if n >= 10 {
      var s := FormatNat(n / 10);
      var t := s + [DigitChar(n % 10)];
      assert t[..|t| - 1] == s;
      DigitsValueOfFormat(n / 10);
    }
  }

  /** The text of an id denotes the id. */
  lemma DecimalFormatNat(n: nat)
    ensures Decimal(FormatNat(n)) == Some(n)
  {
    DigitsValueOfFormat(n);
  }

  /** strconv.Itoa: the decimal text of any integer, with a '-' before a negative one. */
  function IntText(n: int): (s: string)
    ensures s != []
  {
    if n < 0 then "-" + FormatNat(-n) else FormatNat(n)
  }

  /** The text of an integer denotes that integer. */
  lemma DecimalIntText(n: int)
    ensures Decimal(IntText(n)) == Some(n)
  {
    if n < 0 {
      var s := IntText(n);
      assert s[1..] == FormatNat(-n);
      DigitsValueOfFormat(-n);
    } else {
      DigitsValueOfFormat(n);
      assert IsDigit(FormatNat(n)[0]);
    }
  }

  /** strconv.Atoi reads back exactly the integers of int64 from their text, and refuses
   *  the text of every other integer. */
  lemma AtoiIntText(n: int)
    ensures Atoi(IntText(n)) == if MinInt64 <= n <= MaxInt64 then Some(n) else None
  {
    DecimalIntText(n);
  }

  /** U+0130 and U+212A: the two non-ASCII letters whose lower case is ASCII. */
  const DottedCapitalI: char := 0x130 as char
  const KelvinSign: char := 0x212A as char

  /** Lower-casing of one character, as far as it can produce ASCII: the ASCII capitals and
   *  the two non-ASCII letters Go lower-cases into ASCII change; nothing else does. */
  function LowerChar(c: char): (lower: char)
  {
    if 'A' <= c <= 'Z' then (c as int + 32) as char
    else if c == DottedCapitalI then 'i'
    else if c == KelvinSign then 'k'
    else c
  }

  /** strings.ToLower, character by character. */
  function ToLower(s: string): (lowered: string)
  {
    if s == [] then [] else [LowerChar(s[0])] + ToLower(s[1..])
  }

  /** Lower-casing works character by character and keeps the length. */
  lemma {:induction false} ToLowerEach(s: string)
    ensures |ToLower(s)| == |s|
    ensures forall i :: 0 <= i < |s| ==> ToLower(s)[i] == LowerChar(s[i])
  {
    if s != [] {
      ToLowerEach(s[1..]);
    }
  }

  lemma ToLowerIdempotent(s: string)
    ensures ToLower(ToLower(s)) == ToLower(s)
  {
    var once := ToLower(s);
    ToLowerEach(s);
    ToLowerEach(once);
    assert forall i :: 0 <= i < |s| ==> ToLower(once)[i] == once[i];
  }

  /** A string none of whose characters lower-case to another is its own lower case. */
  lemma ToLowerKeepsLower(s: string)
    requires forall i :: 0 <= i < |s| ==> LowerChar(s[i]) == s[i]
    ensures ToLower(s) == s
  {
    ToLowerEach(s);
    assert forall i :: 0 <= i < |s| ==> ToLower(s)[i] == s[i];
  }

  /** math.Ceil, on exact reals: the least integer not below x. */
  function Ceil(x: real): (r: int)
    ensures x <= r as real < x + 1.0
  {
    if x.Floor as real == x then x.Floor else x.Floor + 1
  }
}
