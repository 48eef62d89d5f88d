/**
 Cents on their way through floating-point numbers and decimal strings, and the platform's share of them.
 A double is a real within one part in 2^53 of the exact result of the operation that produced it.
 */
module Cents {
  import opened Ledger

  // ------------------------------------------------------------ the fee split

  function SumOf(amounts: seq<int>): int
  {
    if amounts == [] then 0 else SumOf(amounts[..|amounts| - 1]) + amounts[|amounts| - 1]
  }

  function SumOfFees(amounts: seq<int>): int
  {
    if amounts == [] then 0 else SumOfFees(amounts[..|amounts| - 1]) + Fee(amounts[|amounts| - 1])
  }

  /** The fee is a fifth rounded down, so the creator keeps four fifths rounded up. */
  lemma FeeAndShare(amount: int)
    ensures 5 * Fee(amount) <= amount < 5 * Fee(amount) + 5
    ensures amount - Fee(amount) == (4 * amount + 4) / 5
    ensures amount >= 0 ==> 0 <= Fee(amount) <= amount
  {
    assert amount * 20 / 100 == amount / 5;
  }

  /** Taking the fee order by order loses the platform less than a cent an order, and never gains it anything. */
  lemma {:induction false} FeesOrderByOrder(amounts: seq<int>)
    requires amounts != []
    ensures SumOfFees(amounts) <= Fee(SumOf(amounts)) < SumOfFees(amounts) + |amounts|
    decreases |amounts|
  {
    var rest, last := amounts[..|amounts| - 1], amounts[|amounts| - 1];
    FeeAndShare(SumOf(amounts));
    FeeAndShare(last);
    FeeAndShare(SumOf(rest));
    if rest == [] {
      assert SumOf(rest) == 0 && SumOfFees(rest) == 0;
    } else {
      FeesOrderByOrder(rest);
    }
  }

  // ------------------------------------------------------------ decimal strings

  predicate IsDigit(c: char) { '0' <= c <= '9' }

  function DigitChar(d: nat): char
    requires d < 10
  {
    '0' + d as char
  }

  function DigitOf(c: char): nat
    requires IsDigit(c)
  {
    (c - '0') as nat
  }

  predicate AllDigits(s: string) { forall c :: c in s ==> IsDigit(c) }

  /** The mathematical value of a run of digits. */
  function DigitsValue(s: string): nat
    requires AllDigits(s)
  {
    if s == "" then 0 else 10 * DigitsValue(s[..|s| - 1]) + DigitOf(s[|s| - 1])
  }

  function Digits(n: nat): (s: string)
    ensures s != "" && AllDigits(s)
  {
    if n < 10 then [DigitChar(n)] else Digits(n / 10) + [DigitChar(n % 10)]
  }

  lemma {:induction false} DigitsRoundTrip(n: nat)
    ensures DigitsValue(Digits(n)) == n
  {
    if n >= 10 {
      DigitsRoundTrip(n / 10);
      var s := Digits(n);
      assert s[..|s| - 1] == Digits(n / 10);
    } else {
      assert [DigitChar(n)][..0] == "";
    }
  }

  /** A number without its last i decimal digits. */
  function Without(n: nat, i: nat): nat
    decreases i
  {
    if i == 0 then n else Without(n / 10, i - 1)
  }

  /** Counted from the right, the i-th character is the i-th decimal digit, and there is no leading zero. */
  lemma {:induction false} DigitsAreDecimal(n: nat, i: nat)
    requires i < |Digits(n)|
    ensures Digits(n)[|Digits(n)| - 1 - i] as int == '0' as int + Without(n, i) % 10
    ensures |Digits(n)| > 1 ==> Digits(n)[0] != '0'
  {
    if n >= 10 {
      var s, rest := Digits(n), Digits(n / 10);
      assert s == rest + [DigitChar(n % 10)];
      if i > 0 {
        DigitsAreDecimal(n / 10, i - 1);
        assert s[|s| - 1 - i] == rest[|rest| - 1 - (i - 1)];
      }
      LeadingDigit(n / 10);
    }
  }

  lemma {:induction false} LeadingDigit(n: nat)
    requires n > 0
    ensures Digits(n)[0] != '0'
  {
    if n >= 10 {
      LeadingDigit(n / 10);
      assert Digits(n) == Digits(n / 10) + [DigitChar(n % 10)];
    }
  }

  /** The last two characters of the text are the cents, the one before is the point, the rest the whole units. */
  lemma Fixed2IsDecimal(n: nat)
    ensures var s := Fixed2(n);
            && |s| >= 4 && s[..|s| - 3] == Digits(n / 100) && s[|s| - 3] == '.'
            && s[|s| - 2] as int == '0' as int + n / 10 % 10 && s[|s| - 1] as int == '0' as int + n % 10
  {
  }

  /** The text of n hundredths, as `toFixed(2)` writes it (section 21.1.3.3 of ECMA-262). */
  function Fixed2(n: nat): string
  {
    Digits(n / 100) + "." + [DigitChar(n / 10 % 10), DigitChar(n % 10)]
  }

  /** The value of such a text in hundredths; -1 when it is not one. */
  function HundredthsIn(s: string): int
  {
    if |s| >= 4 && s[|s| - 3] == '.' && AllDigits(s[..|s| - 3]) && AllDigits(s[|s| - 2..])
    then 100 * DigitsValue(s[..|s| - 3]) + DigitsValue(s[|s| - 2..])
    else -1
  }

  lemma Fixed2RoundTrip(n: nat)
    ensures HundredthsIn(Fixed2(n)) == n
  {
    var s := Fixed2(n);
    var tail := [DigitChar(n / 10 % 10), DigitChar(n % 10)];
    DigitsRoundTrip(n / 100);
    assert s[..|s| - 3] == Digits(n / 100) && s[|s| - 2..] == tail;
    assert tail[..1] == [DigitChar(n / 10 % 10)] && tail[..1][..0] == "";
    assert DigitsValue(tail[..1]) == n / 10 % 10;
  }

  // ------------------------------------------------------------ rounding

  const EPSILON: real := 1.0 / 9007199254740992.0

  function AbsReal(x: real): real { if x < 0.0 then -x else x }

  /** A double that a correctly rounded operation may return for this exact, nonnegative result. */
  predicate Rounded(exact: real, double: real)
  {
    AbsReal(double - exact) <= exact * EPSILON
  }

  function ErrorOf(m: int, exact: real): real { AbsReal(m as real - exact) }

  /** Rounding to nearest: integers of this size are doubles, so none is closer than the result. */
  ghost predicate NearestDouble(exact: real, double: real)
  {
    Rounded(exact, double) && forall m :: AbsReal(double - exact) <= ErrorOf(m, exact)
  }

  /** The fee computed in doubles, a rounded quotient and its floor, is the exact fee. */
  lemma FeeFromDoubles(amount: nat, quotient: real)
    requires amount < 0x8000_0000 && NearestDouble((amount * PLATFORM_FEE_PCT) as real / 100.0, quotient)
    ensures quotient.Floor == Fee(amount)
  {
    var exact, fee := (amount * PLATFORM_FEE_PCT) as real / 100.0, Fee(amount);
    var fifths := amount - 5 * fee;
    FeeAndShare(amount);
    assert exact == fee as real + fifths as real / 5.0;
    assert AbsReal(quotient - exact) <= 0.000001;
    assert AbsReal(quotient - exact) <= ErrorOf(fee, exact);
  }

  function DistanceTo(m: int, x: real): real { AbsReal(m as real - 100.0 * x) }

  /** The integer that `toFixed(2)` picks: none is closer to a hundred times the number. */
  ghost predicate ClosestHundredths(x: real, n: int)
  {
    forall m :: DistanceTo(n, x) <= DistanceTo(m, x)
  }

  /** `Math.round`. */
  function MathRound(x: real): int { (x + 0.5).Floor }

  /** No price in a 32-bit integer column is lost by the division by a hundred and `toFixed(2)`. */
  lemma PrintsTheCents(cents: nat, quotient: real, n: int)
    requires cents < 0x8000_0000 && Rounded(cents as real / 100.0, quotient) && ClosestHundredths(quotient, n)
    ensures n == cents
  {
    var error := AbsReal(quotient - cents as real / 100.0);
    assert error <= 0.000001;
    assert DistanceTo(n, quotient) <= DistanceTo(cents, quotient);
  }

  /** Reading an amount back: `Math.round(Number(v) * 100)` is off by no cent. */
  lemma ReadsTheCents(cents: nat, number: real, product: real)
    requires cents < 0x8000_0000 && Rounded(cents as real / 100.0, number) && Rounded(number * 100.0, product)
    ensures MathRound(product) == cents
  {
    assert AbsReal(number - cents as real / 100.0) <= 0.000001;
    assert 0.0 <= number * 100.0 <= 3000000000.0;
    assert AbsReal(product - number * 100.0) <= 0.000001;
  }

  /**
   The PayPal round trip: the amount printed into the order, echoed by the capture and read back, is the
   order's own amount, so an honest capture passes the guard.
   */
  lemma HonestCapturePasses(cents: nat, quotient: real, n: int, number: real, product: real)
    requires cents < 0x8000_0000
    requires Rounded(cents as real / 100.0, quotient) && ClosestHundredths(quotient, n) && n >= 0
    requires HundredthsIn(Fixed2(n)) >= 0 && Rounded(HundredthsIn(Fixed2(n)) as real / 100.0, number)
    requires Rounded(number * 100.0, product)
    ensures MathRound(product) == cents
    ensures !Mismatch(Reported.Cents(MathRound(product)), cents)
  {
    PrintsTheCents(cents, quotient, n);
    Fixed2RoundTrip(n);
    ReadsTheCents(cents, number, product);
  }
}
