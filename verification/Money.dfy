// The dollars text in an email: float64(amount)/100.0 printed with %.2f.

module Money {
  import opened Powers

  // ----- float64, as far as the division needs it -----

  const SIGNIFICANDS: nat := 0x20_0000_0000_0000   // 2^53

  /** A non-negative finite binary64 value. */
  ghost predicate Representable(v: real) {
    || (exists m: nat, k: nat :: m < SIGNIFICANDS && k <= 1074 && v == Scaled(m, k))
    || (exists m: nat, k: nat :: m < SIGNIFICANDS && k <= 971 && v == Grown(m, k))
  }

  function Scaled(m: nat, k: nat): real {
    m as real / Pow2(k) as real
  }

  function Grown(m: nat, k: nat): real {
    (m * Pow2(k)) as real
  }

  function Distance(x: real, y: real): real {
    if x < y then y - x else x - y
  }

  /** v is x correctly rounded to nearest, whichever way a tie goes. */
  ghost predicate Nearest(v: real, x: real) {
    Representable(v) && forall u :: Representable(u) ==> Distance(v, x) <= Distance(u, x)
  }

  // ----- %.2f -----

  /** The exact value, rounded to an integer, ties to even. */
  function RoundHalfEven(x: real): int {
    var f := x.Floor;
    var rest := x - f as real;
    if rest < 0.5 then f else if rest > 0.5 then f + 1 else if f % 2 == 0 then f else f + 1
  }

  function Digit(d: nat): char
    requires d < 10
  {
    ['0', '1', '2', '3', '4', '5', '6', '7', '8', '9'][d]
  }

  function Digits(n: nat): string {
    if n < 10 then [Digit(n)] else Digits(n / 10) + [Digit(n % 10)]
  }

  function TwoDecimals(cents: nat): string {
    Digits(cents / 100) + "." + [Digit(cents / 10 % 10), Digit(cents % 10)]
  }

  /** fmt.Sprintf("$%.2f", v) for v >= 0. */
  function Dollars(v: real): string
    requires v >= 0.0
  {
    "$" + TwoDecimals(RoundHalfEven(v * 100.0))
  }

  // ----- reading it back -----

  function Value(c: char): int {
    c as int - '0' as int
  }

  function Number(s: string): int {
    if s == "" then 0 else Number(s[..|s| - 1]) * 10 + Value(s[|s| - 1])
  }

  /** The cents in "$<digits>.<two digits>". */
  function Cents(s: string): int
    requires |s| >= 4
  {
    Number(s[1..|s| - 3]) * 100 + Value(s[|s| - 2]) * 10 + Value(s[|s| - 1])
  }

  lemma {:induction false} DigitsRead(n: nat)
    ensures Number(Digits(n)) == n
  {
    if n >= 10 {
      var s := Digits(n);
      DigitsRead(n / 10);
      assert s[..|s| - 1] == Digits(n / 10);
    } else {
      assert Number("") == 0 && Digits(n)[..0] == "";
    }
  }

  lemma CentsOf(whole: string, c: char, d: char)
    ensures |"$" + (whole + "." + [c, d])| >= 4
    ensures Cents("$" + (whole + "." + [c, d])) == Number(whole) * 100 + Value(c) * 10 + Value(d)
  {
    var s := "$" + (whole + "." + [c, d]);
    assert s[1..|s| - 3] == whole && s[|s| - 2] == c && s[|s| - 1] == d;
    hide Number;
  }

  lemma DigitReads(d: nat)
    requires d < 10
    ensures Value(Digit(d)) == d
  {
  }

  lemma ThreeParts(cents: nat)
    ensures cents / 100 * 100 + cents / 10 % 10 * 10 + cents % 10 == cents
  {
    var tens := cents / 10;
    assert cents == tens * 10 + cents % 10;
    assert tens == tens / 10 * 10 + tens % 10;
    assert tens / 10 == cents / 100;
  }

  lemma TextReads(cents: nat)
    ensures |"$" + TwoDecimals(cents)| >= 4 && Cents("$" + TwoDecimals(cents)) == cents
  {
    var whole, tens, units := cents / 100, cents / 10 % 10, cents % 10;
    var text := Digits(whole) + "." + [Digit(tens), Digit(units)];
    assert TwoDecimals(cents) == text;
    hide *;
    CentsOf(Digits(whole), Digit(tens), Digit(units));
    DigitsRead(whole);
    DigitReads(tens);
    DigitReads(units);
    ThreeParts(cents);
  }

  // ----- the amounts that survive -----

  const LARGEST: nat := 7036874417766400   // 100 * 2^46

  lemma Pow2Of7()
    ensures Pow2(6) == 64 && Pow2(7) == 128
  {
    assert Pow2(3) == 8;
  }

  /** Some binary64 value lies within 1/256 of the quotient. */
  lemma CloseBy(amount: nat) returns (u: real)
    requires amount <= LARGEST
    ensures Representable(u) && Distance(u, amount as real / 100.0) <= 1.0 / 256.0
  {
    Pow2Of7();
    var m := (amount * 128 + 50) / 100;
    u := Scaled(m, 7);
    if m == SIGNIFICANDS {
      assert u == Grown(70368744177664, 0);
    }
  }

  lemma NotNegative(v: real)
    requires Representable(v)
    ensures v >= 0.0
  {
  }

  /** Every amount up to 100 * 2^46 cents, which covers all below 2^52, is
      printed as dollars and cents that read back as the same amount. */
  lemma AmountReadsBack(amount: nat, v: real)
    requires amount <= LARGEST && Nearest(v, amount as real / 100.0)
    ensures v >= 0.0 && |Dollars(v)| >= 4 && Cents(Dollars(v)) == amount
  {
    var u := CloseBy(amount);
    TextReads(amount);
    hide Representable, TwoDecimals, Cents;
    assert v >= 0.0 by { NotNegative(v); }
    assert RoundHalfEven(v * 100.0) == amount;
  }

  /** From 2^46 on, neighbouring binary64 values are at least 1/64 apart. */
  lemma SparseBeyond(v: real) returns (n: int)
    requires Representable(v) && v >= 70368744177664.0
    ensures v * 64.0 == n as real
  {
    if m: nat, k: nat :| m < SIGNIFICANDS && k <= 1074 && v == Scaled(m, k) {
      n := SparseFraction(v, m, k);
    } else {
      var m: nat, k: nat :| m < SIGNIFICANDS && k <= 971 && v == Grown(m, k);
      n := m * Pow2(k) * 64;
    }
  }

  lemma SparseFraction(v: real, m: nat, k: nat) returns (n: int)
    requires m < SIGNIFICANDS && v == Scaled(m, k) && v >= 70368744177664.0
    ensures v * 64.0 == n as real
  {
    Pow2Of7();
    Times(m, Pow2(k));
    if k >= 7 {
      Pow2Grows(7, k);
      AtLeast(v, Pow2(k));
      assert false;
    } else {
      Pow2Adds(k, 6 - k);
      n := m * Pow2(6 - k);
      Cancels(v, Pow2(k), Pow2(6 - k), m);
    }
  }

  lemma Times(m: nat, p: nat)
    requires p >= 1
    ensures m as real / p as real * p as real == m as real
  {
  }

  lemma AtLeast(v: real, p: nat)
    requires v >= 70368744177664.0 && p >= 128
    ensures v * p as real >= SIGNIFICANDS as real
  {
    assert v * p as real >= 70368744177664.0 * p as real;
  }

  lemma Cancels(v: real, p: nat, q: nat, m: nat)
    requires v * p as real == m as real && p * q == 64
    ensures v * 64.0 == (m * q) as real
  {
    assert (p * q) as real == p as real * q as real;
    assert v * (p as real * q as real) == v * p as real * q as real;
  }

  /** The next amount does not: its only correctly rounded quotient prints one cent too many. */
  lemma OnlyNeighbour(w: real)
    requires Representable(w) && Distance(w, (LARGEST + 1) as real / 100.0) < 0.006
    ensures w == Scaled(4503599627370497, 6)
  {
    Pow2Of7();
    var n := SparseBeyond(w);
    hide Representable;
    assert n == 4503599627370497;
  }

  lemma ItsText()
    ensures Dollars(Scaled(4503599627370497, 6)) == "$" + TwoDecimals(LARGEST + 2)
  {
    Pow2Of7();
    hide TwoDecimals;
  }

  lemma ItsDistance()
    ensures Representable(Scaled(4503599627370497, 6))
    ensures Distance(Scaled(4503599627370497, 6), (LARGEST + 1) as real / 100.0) < 0.006
  {
    Pow2Of7();
  }

  lemma OneCentMoreDoesNot(v: real)
    ensures Nearest(v, (LARGEST + 1) as real / 100.0) <==> v == Scaled(4503599627370497, 6)
    ensures Cents(Dollars(Scaled(4503599627370497, 6))) == LARGEST + 2
  {
    ItsDistance();
    ItsText();
    TextReads(LARGEST + 2);
    hide Representable, Scaled, Distance, Dollars, Cents, TwoDecimals;
    forall w | Representable(w) && Distance(w, (LARGEST + 1) as real / 100.0) < 0.006
      ensures w == Scaled(4503599627370497, 6)
    {
      OnlyNeighbour(w);
    }
  }

  function Quotient(amount: nat): real {
    amount as real / 100.0
  }

  /** The text of v reads as the amount. */
  ghost predicate ReadsAs(v: real, amount: nat) {
    v >= 0.0 && |Dollars(v)| >= 4 && Cents(Dollars(v)) == amount
  }

  /** Whichever nearest quotient the division yields, its text reads as the amount. */
  ghost predicate ReadsBack(amount: nat) {
    forall v :: Nearest(v, Quotient(amount)) ==> ReadsAs(v, amount)
  }

  lemma ReadsBackUpTo(amount: nat)
    requires amount <= LARGEST
    ensures ReadsBack(amount)
  {
    forall v | Nearest(v, Quotient(amount)) ensures ReadsAs(v, amount) {
      hide Nearest, Dollars, Cents;
      AmountReadsBack(amount, v);
    }
    hide Nearest, Quotient, ReadsAs;
  }

  lemma NotBeyond()
    ensures !ReadsBack(LARGEST + 1)
  {
    hide Nearest, Dollars, Cents, Scaled;
    var v := Scaled(4503599627370497, 6);
    OneCentMoreDoesNot(v);
    assert Nearest(v, Quotient(LARGEST + 1)) && !ReadsAs(v, LARGEST + 1);
  }

  /** All amounts up to n read back if and only if n is at most 100 * 2^46 cents. */
  lemma AllReadBackIff(n: nat)
    ensures (forall amount :: 0 <= amount <= n ==> ReadsBack(amount)) <==> n <= LARGEST
  {
    hide ReadsBack;
    if n <= LARGEST {
      forall amount | 0 <= amount <= n ensures ReadsBack(amount) {
        ReadsBackUpTo(amount);
      }
    } else {
      NotBeyond();
    }
  }
}
