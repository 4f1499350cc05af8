/**
 * Go's `strconv.Atoi` on a 64-bit platform, and the decimal rendering of an
 * int that `fmt`'s `%v` produces (here `Itoa`).
 *
 * Atoi accepts one optional sign followed by one or more decimal digits. On
 * failure it still returns an int beside the error: 0 on a syntax error, and
 * the nearest bound of the 64-bit range on a range error. Go's parser notices
 * overflow while it reads the digits, so a leading run of digits that already
 * exceeds 2^64 - 1 reports a range error even when a bad character follows.
 */
module Strconv {

  const MaxInt: int := 0x7fff_ffff_ffff_ffff
  const MinInt: int := -0x8000_0000_0000_0000
  const MaxUint64: int := 0xffff_ffff_ffff_ffff

  datatype NumError = ErrSyntax | ErrRange

  /** Atoi's two results: the int, and whether the error is nil. */
  datatype Conversion = Converted(value: int) | Failed(err: NumError, value: int)

  predicate IsDigit(c: char)
  {
    '0' <= c <= '9'
  }

  predicate AllDigits(s: string)
  {
    forall i :: 0 <= i < |s| ==> IsDigit(s[i])
  }

  /** The length of the run of digits that starts `s`. */
  function DigitRun(s: string): (k: nat)
    ensures k <= |s| && AllDigits(s[..k])
    ensures k < |s| ==> !IsDigit(s[k])
  {
    if |s| == 0 || !IsDigit(s[0]) then 0
    else
      var k := 1 + DigitRun(s[1..]);
      assert s[..k] == [s[0]] + s[1..][..k - 1];
      k
  }

  /** The number a string of decimal digits denotes. */
  function DigitsValue(s: string): nat
    requires AllDigits(s)
  {
    if |s| == 0 then 0
    else DigitsValue(s[..|s| - 1]) * 10 + (s[|s| - 1] as int - '0' as int)
  }

  /** `s` without its one optional leading sign. */
  function Unsigned(s: string): (b: string)
    ensures |b| <= |s|
  {
    if |s| > 0 && (s[0] == '+' || s[0] == '-') then s[1..] else s
  }

  /** One optional sign followed by one or more decimal digits. */
  predicate Decimal(s: string)
  {
    Unsigned(s) != "" && AllDigits(Unsigned(s))
  }

  /** The integer a `Decimal` string denotes, without any bound. */
  function DecimalValue(s: string): int
    requires Decimal(s)
  {
    var magnitude: int := DigitsValue(Unsigned(s));
    if s[0] == '-' then -magnitude else magnitude
  }

  /** `strconv.Atoi(s)`. */
  function Atoi(s: string): (r: Conversion)
    ensures r.Converted? <==> Decimal(s) && MinInt <= DecimalValue(s) <= MaxInt
    ensures r.Converted? ==> r.value == DecimalValue(s)
    ensures r.Failed? && r.err == ErrSyntax ==> r.value == 0
    ensures r.Failed? && r.err == ErrRange ==> r.value == (if |s| > 0 && s[0] == '-' then MinInt else MaxInt)
    ensures Decimal(s) && !(MinInt <= DecimalValue(s) <= MaxInt) ==>
              r == Failed(ErrRange, if s[0] == '-' then MinInt else MaxInt)
    ensures !Decimal(s) && Unsigned(s) != "" ==>
              (r.err == ErrRange <==> DigitsValue(Unsigned(s)[..DigitRun(Unsigned(s))]) > MaxUint64)
  {
    var neg := |s| > 0 && s[0] == '-';
    var body := Unsigned(s);
    if body == "" then Failed(ErrSyntax, 0)
    else
      var k := DigitRun(body);
      var magnitude: int := DigitsValue(body[..k]);
      if k < |body| then
        if magnitude > MaxUint64 then Failed(ErrRange, if neg then MinInt else MaxInt)
        else Failed(ErrSyntax, 0)
      else
        assert body[..k] == body;
        if neg then
          (if magnitude > -MinInt then Failed(ErrRange, MinInt) else Converted(-magnitude))
        else
          (if magnitude > MaxInt then Failed(ErrRange, MaxInt) else Converted(magnitude))
  }

  /** The decimal digits of a natural number, most significant first. */
  function NatDigits(n: nat): (s: string)
    ensures |s| >= 1 && AllDigits(s)
  {
    if n < 10 then ['0' + n as char]
    else NatDigits(n / 10) + ['0' + (n % 10) as char]
  }

  /** The decimal rendering of an int: a minus sign for negatives, no plus sign. */
  function Itoa(n: int): (s: string)
    ensures s != ""
    ensures s[0] == '-' <==> n < 0
    ensures s[0] != '+'
    ensures Decimal(s)
    ensures var d := if n < 0 then s[1..] else s; d[0] == '0' ==> d == "0"
  {
    if n < 0 then
      NatDigitsLeading(-n);
      assert Unsigned("-" + NatDigits(-n)) == NatDigits(-n);
      assert ("-" + NatDigits(-n))[1..] == NatDigits(-n);
      "-" + NatDigits(-n)
    else
      NatDigitsLeading(n);
      NatDigits(n)
  }

  /** Only the rendering of 0 starts with the digit 0: no leading zeros. */
  lemma {:induction false} NatDigitsLeading(n: nat)
    ensures NatDigits(n)[0] == '0' ==> n == 0
  {
    if n >= 10 {
      NatDigitsLeading(n / 10);
      assert NatDigits(n)[0] == NatDigits(n / 10)[0];
    }
  }

  lemma {:induction false} NatDigitsValue(n: nat)
    ensures DigitsValue(NatDigits(n)) == n
  {
    if n >= 10 {
      NatDigitsValue(n / 10);
      var s := NatDigits(n);
      assert s[..|s| - 1] == NatDigits(n / 10);
    }
  }

  /** Rendering an int of the 64-bit range and parsing it back gives the int. */
  lemma AtoiItoa(n: int)
    requires MinInt <= n <= MaxInt
    ensures Atoi(Itoa(n)) == Converted(n)
  {
    var s := Itoa(n);
    if n < 0 {
      NatDigitsValue(-n);
      assert Unsigned(s) == NatDigits(-n);
    } else {
      NatDigitsValue(n);
      assert Unsigned(s) == NatDigits(n);
    }
  }
}
