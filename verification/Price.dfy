/** Decimal prices as atomic units of an asset with six decimals. */
module Price {
  import opened Text

  const USDC_DECIMALS: nat := 6

  /** `s.split(".")`. */
  function SplitDots(s: string): (parts: seq<string>)
    ensures parts != []
  {
    if s == "" then [""]
    else if s[0] == '.' then [""] + SplitDots(s[1..])
    else var rest := SplitDots(s[1..]); [[s[0]] + rest[0]] + rest[1..]
  }

  function Zeros(k: nat): (z: string)
    ensures |z| == k && AllDigits(z)
  {
    if k == 0 then "" else Zeros(k - 1) + "0"
  }

  /** `s.padEnd(k, "0").slice(0, k)`. */
  function Fit(s: string, k: nat): (r: string)
    ensures |r| == k
  {
    if |s| >= k then s[..k] else s + Zeros(k - |s|)
  }

  /** `s.replace(/^0+/, "")`. */
  function StripZeros(s: string): string {
    if s != "" && s[0] == '0' then StripZeros(s[1..]) else s
  }

  /** `usdToAtomicUnits`. */
  function UsdToAtomicUnits(decimal: string): string {
    var parts := SplitDots(decimal);
    var fraction := if |parts| > 1 then parts[1] else "";
    var amount := StripZeros(parts[0] + Fit(fraction, USDC_DECIMALS));
    if amount == "" then "0" else amount
  }

  // --- what a price denotes ------------------------------------------------------------------------------

  /** `\d+(\.\d+)?`: the digits before and after the dot; no fraction is written as "". */
  datatype Price = Price(whole: string, fraction: string) {
    predicate Valid() {
      whole != "" && AllDigits(whole) && AllDigits(fraction)
    }

    function Text(): string {
      if fraction == "" then whole else whole + "." + fraction
    }

    /** The price is Numerator() / 10^|fraction|. */
    function Numerator(): nat
      requires Valid()
    {
      NatOf(whole + fraction)
    }

    function Denominator(): (d: nat)
      ensures d > 0
    {
      Pow10(|fraction|)
    }
  }

  lemma {:induction false} SplitDotsOfDigits(s: string)
    requires AllDigits(s)
    ensures SplitDots(s) == [s]
  {
    if s != "" {
      SplitDotsOfDigits(s[1..]);
      assert [s[0]] + s[1..] == s;
    }
  }

  lemma {:induction false} SplitDotsOfPrice(whole: string, fraction: string)
    requires AllDigits(whole) && AllDigits(fraction)
    ensures SplitDots(whole + "." + fraction) == [whole, fraction]
  {
    var s := whole + "." + fraction;
    if whole == "" {
      assert s[1..] == fraction;
      SplitDotsOfDigits(fraction);
    } else {
      assert s[1..] == whole[1..] + "." + fraction;
      SplitDotsOfPrice(whole[1..], fraction);
      assert [whole[0]] + whole[1..] == whole;
    }
  }

  lemma {:induction false} NatOfConcat(a: string, b: string)
    requires AllDigits(a) && AllDigits(b)
    ensures AllDigits(a + b) && NatOf(a + b) == NatOf(a) * Pow10(|b|) + NatOf(b)
    ensures NatOf(b) < Pow10(|b|)
  {
    if b == "" {
      assert a + b == a;
    } else {
      var init := b[..|b| - 1];
      NatOfConcat(a, init);
      assert (a + b)[..|a + b| - 1] == a + init;
      ShiftDigits(NatOf(a), Pow10(|init|), NatOf(init), DigitValue(b[|b| - 1]));
    }
  }

  lemma ShiftDigits(x: nat, p: nat, y: nat, d: nat)
    ensures (x * p + y) * 10 + d == x * (10 * p) + (y * 10 + d)
  {
  }

  lemma {:induction false} NatOfZeros(k: nat)
    ensures NatOf(Zeros(k)) == 0
  {
    if k > 0 {
      assert Zeros(k)[..k - 1] == Zeros(k - 1);
      NatOfZeros(k - 1);
    }
  }

  lemma {:induction false} NatOfStripped(s: string)
    requires AllDigits(s)
    ensures AllDigits(StripZeros(s)) && NatOf(StripZeros(s)) == NatOf(s)
    ensures StripZeros(s) == "" || StripZeros(s)[0] != '0'
  {
    if s != "" && s[0] == '0' {
      NatOfStripped(s[1..]);
      NatOfConcat("0", s[1..]);
      assert "0"[..0] == "";
      assert "0" + s[1..] == s;
    }
  }

  lemma Pow10Split(a: nat, b: nat)
    ensures Pow10(a + b) == Pow10(a) * Pow10(b)
  {
    if b > 0 {
      Pow10Split(a, b - 1);
    }
  }

  lemma CancelOrder(a: int, b: int, x: nat)
    requires x > 0 && a * x < (b + 1) * x
    ensures a <= b
  {
  }

  lemma DivideExact(q: nat, r: nat, d: nat)
    requires r < d
    ensures (q * d + r) / d == q
  {
    var n := q * d + r;
    var u := n / d;
    assert n == u * d + n % d;
    assert u * d < (q + 1) * d by { assert (q + 1) * d == q * d + d; }
    assert q * d < (u + 1) * d by { assert (u + 1) * d == u * d + d; }
    CancelOrder(u, q, d);
    CancelOrder(q, u, d);
  }

  lemma CancelFactor(n: nat, m: nat, d: nat)
    requires m > 0 && d > 0
    ensures (n * m) / (d * m) == n / d
  {
    var q, r := n / d, n % d;
    assert n == q * d + r;
    assert n * m == q * (d * m) + r * m;
    assert r * m < d * m;
    DivideExact(q, r * m, d * m);
  }

  lemma FitCuts(p: Price, k: nat)
    requires p.Valid() && |p.fraction| >= k
    ensures AllDigits(p.whole + Fit(p.fraction, k))
    ensures NatOf(p.whole + Fit(p.fraction, k)) == p.Numerator() * Pow10(k) / p.Denominator()
  {
    var kept, dropped := p.fraction[..k], p.fraction[k..];
    var head := p.whole + kept;
    assert p.whole + p.fraction == head + dropped;
    NatOfConcat(head, dropped);
    DivideExact(NatOf(head), NatOf(dropped), Pow10(|dropped|));
    Pow10Split(|dropped|, k);
    CancelFactor(p.Numerator(), Pow10(k), Pow10(|dropped|));
  }

  lemma PadScales(n: nat, k: nat, f: nat)
    requires f <= k
    ensures n * Pow10(k - f) == n * Pow10(k) / Pow10(f)
  {
    Pow10Split(k - f, f);
    var scaled := n * Pow10(k - f);
    assert n * Pow10(k) == scaled * Pow10(f) + 0;
    DivideExact(scaled, 0, Pow10(f));
  }

  lemma FitPads(p: Price, k: nat)
    requires p.Valid() && |p.fraction| < k
    ensures AllDigits(p.whole + Fit(p.fraction, k))
    ensures NatOf(p.whole + Fit(p.fraction, k)) == p.Numerator() * Pow10(k) / p.Denominator()
  {
    hide Pow10, NatOf;
    var f := p.fraction;
    var zeros := Zeros(k - |f|);
    assert p.whole + (f + zeros) == (p.whole + f) + zeros;
    NatOfConcat(p.whole + f, zeros);
    NatOfZeros(k - |f|);
    PadScales(p.Numerator(), k, |f|);
  }

  /** The digits kept from the fraction give the floor of the scaled price. */
  lemma FitIsFloor(p: Price, k: nat)
    requires p.Valid()
    ensures AllDigits(p.whole + Fit(p.fraction, k))
    ensures NatOf(p.whole + Fit(p.fraction, k)) == p.Numerator() * Pow10(k) / p.Denominator()
  {
    if |p.fraction| >= k { FitCuts(p, k); } else { FitPads(p, k); }
  }

  /** For a price of any length, `usdToAtomicUnits` is the canonical numeral of floor(price * 10^6). */
  lemma AtomicUnitsAreFloor(p: Price)
    requires p.Valid()
    ensures IsCanonical(UsdToAtomicUnits(p.Text()))
    ensures NatOf(UsdToAtomicUnits(p.Text())) == p.Numerator() * Pow10(USDC_DECIMALS) / p.Denominator()
  {
    if p.fraction == "" {
      SplitDotsOfDigits(p.whole);
    } else {
      SplitDotsOfPrice(p.whole, p.fraction);
    }
    var digits := p.whole + Fit(p.fraction, USDC_DECIMALS);
    FitIsFloor(p, USDC_DECIMALS);
    NatOfStripped(digits);
    assert NatOf("0") == 0 by { assert "0"[..0] == ""; }
  }

  predicate AtMost(p: Price, q: Price)
    requires p.Valid() && q.Valid()
  {
    p.Numerator() * q.Denominator() <= q.Numerator() * p.Denominator()
  }

  lemma FloorIsMonotone(a: nat, x: nat, b: nat, y: nat, m: nat)
    requires x > 0 && y > 0 && a * y <= b * x
    ensures (a * m) / x <= (b * m) / y
  {
    var u := (a * m) / x;
    assert u * x <= a * m;
    ScaledOrder(u, x, a, b, y, m);
    var v := (b * m) / y;
    assert b * m < (v + 1) * y by { assert b * m == v * y + (b * m) % y; }
    CancelOrder(u, v, y);
  }

  lemma ScaledOrder(u: nat, x: nat, a: nat, b: nat, y: nat, m: nat)
    requires x > 0 && a * y <= b * x && u * x <= a * m
    ensures u * y <= b * m
  {
    calc <= {
      (u * y) * x;
      (u * x) * y;
      { MulOrder(u * x, a * m, y); }
      (a * m) * y;
      (a * y) * m;
      { MulOrder(a * y, b * x, m); }
      (b * x) * m;
      (b * m) * x;
    }
    assert (b * m) * x < (b * m + 1) * x;
    CancelOrder(u * y, b * m, x);
  }

  lemma MulOrder(a: nat, b: nat, k: nat)
    requires a <= b
    ensures a * k <= b * k
  {
  }

  /** A higher price never has fewer atomic units. */
  lemma AtomicUnitsAreMonotone(p: Price, q: Price)
    requires p.Valid() && q.Valid() && AtMost(p, q)
    ensures IsCanonical(UsdToAtomicUnits(p.Text())) && IsCanonical(UsdToAtomicUnits(q.Text()))
    ensures NatOf(UsdToAtomicUnits(p.Text())) <= NatOf(UsdToAtomicUnits(q.Text()))
  {
    AtomicUnitsAreFloor(p);
    AtomicUnitsAreFloor(q);
    FloorIsMonotone(p.Numerator(), p.Denominator(), q.Numerator(), q.Denominator(), Pow10(USDC_DECIMALS));
  }

  /** Comparing amounts as strings, as the payment middleware does, compares the amounts themselves. */
  lemma AmountsEqualIff(a: string, b: string)
    requires IsCanonical(a) && IsCanonical(b)
    ensures a == b <==> NatOf(a) == NatOf(b)
  {
    DigitsOfNat(a);
    DigitsOfNat(b);
  }
}
