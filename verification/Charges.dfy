/**
 Token charges in microdollars: rounding of one charge, the three amounts of an accepted
 job, and what rounding can add up to over many jobs.
 */
module Charges {
  import opened Int64
  import opened Sums

  const MILLION: int := 1_000_000
  const HALF_MILLION: int := 500_000

  /** Go's integer division by a positive divisor truncates toward zero. */
  function TruncDiv(a: int, b: int): (q: int)
    requires b > 0
    ensures a >= 0 ==> q * b <= a < q * b + b
    ensures a < 0 ==> q * b - b < a <= q * b && q <= 0
  {
    if a >= 0 then a / b else -((-a) / b)
  }

  function ChargeForTokens(tokens: int, perMillion: int): int {
    if tokens <= 0 || perMillion <= 0 then 0
    else TruncDiv(Wrap(Wrap(tokens * perMillion) + HALF_MILLION), MILLION)
  }

  /** The charge in millionths of a microdollar before rounding; zero for non-positive inputs. */
  function Exact(tokens: int, perMillion: int): int {
    if tokens <= 0 || perMillion <= 0 then 0 else tokens * perMillion
  }

  /** r is `exact` millionths rounded to the nearest unit, halves upward. */
  predicate RoundsTo(exact: int, r: int) {
    -HALF_MILLION < r * MILLION - exact <= HALF_MILLION
  }

  /** The intermediate product and the rounding offset stay inside an int64. */
  predicate InRange(tokens: int, perMillion: int) {
    Exact(tokens, perMillion) + HALF_MILLION < TWO63
  }

  /** The charge is the correctly rounded price exactly when the multiplication does not overflow. */
  lemma ChargeRoundsIffInRange(tokens: int, perMillion: int)
    ensures RoundsTo(Exact(tokens, perMillion), ChargeForTokens(tokens, perMillion)) <==> InRange(tokens, perMillion)
  {
    if tokens > 0 && perMillion > 0 {
      var exact := tokens * perMillion;
      ProductPositive(tokens, perMillion);
      var sum := exact + HALF_MILLION;
      WrapAdd(exact, HALF_MILLION);
      var w := Wrap(sum);
      assert ChargeForTokens(tokens, perMillion) == TruncDiv(w, MILLION);
      if !InRange(tokens, perMillion) {
        WrapDrops(sum);
        assert w <= sum - TWO64;
      }
    }
  }

  /** Ten million tokens at 10^12 microdollars a million: the product overflows and the charge comes out negative. */
  lemma OverflowingCharge()
    ensures ChargeForTokens(10_000_000, 1_000_000_000_000) < 0
    ensures !RoundsTo(Exact(10_000_000, 1_000_000_000_000), ChargeForTokens(10_000_000, 1_000_000_000_000))
  {
  }

  lemma ProductPositive(a: int, b: int)
    requires a > 0 && b > 0
    ensures a * b > 0
  {
  }

  /** A value at or above 2^63 loses at least 2^64 when it wraps. */
  lemma WrapDrops(x: int)
    requires x >= TWO63
    ensures Wrap(x) <= x - TWO64
  {
  }

  /** Rounding is a function of the exact price and preserves its order. */
  lemma RoundingMonotone(e1: int, r1: int, e2: int, r2: int)
    requires RoundsTo(e1, r1) && RoundsTo(e2, r2) && e1 <= e2
    ensures r1 <= r2
    ensures e1 == e2 ==> r1 == r2
  {
  }

  lemma ChargeMonotone(t1: int, p1: int, t2: int, p2: int)
    requires t1 <= t2 && p1 <= p2 && InRange(t2, p2)
    ensures InRange(t1, p1)
    ensures 0 <= ChargeForTokens(t1, p1) <= ChargeForTokens(t2, p2)
  {
    ExactMonotone(t1, p1, t2, p2);
    ChargeRoundsIffInRange(t1, p1);
    ChargeRoundsIffInRange(t2, p2);
    RoundingMonotone(Exact(t1, p1), ChargeForTokens(t1, p1), Exact(t2, p2), ChargeForTokens(t2, p2));
  }

  lemma ExactMonotone(t1: int, p1: int, t2: int, p2: int)
    requires t1 <= t2 && p1 <= p2
    ensures 0 <= Exact(t1, p1) <= Exact(t2, p2)
  {
    if t1 > 0 && p1 > 0 {
      assert t1 * p1 <= t2 * p1 <= t2 * p2;
      ProductPositive(t1, p1);
    } else if t2 > 0 && p2 > 0 {
      ProductPositive(t2, p2);
    }
  }

  /** The prices in force for one job, and the token counts it is billed for. */
  datatype Prices = Prices(input: int, output: int, host: int)
  datatype Usage = Usage(prompt: int, completion: int)

  predicate PricesInRange(u: Usage, p: Prices) {
    InRange(u.prompt, p.input) && InRange(u.completion, p.output) && InRange(u.completion, p.host)
  }

  function CustomerCharge(u: Usage, p: Prices): int {
    Wrap(ChargeForTokens(u.prompt, p.input) + ChargeForTokens(u.completion, p.output))
  }

  function HostCredit(u: Usage, p: Prices): int {
    ChargeForTokens(u.completion, p.host)
  }

  function ClampedOverhead(overhead: int): int {
    if overhead < 0 then 0 else overhead
  }

  function PlatformMargin(u: Usage, p: Prices, overhead: int): int {
    Wrap(Wrap(CustomerCharge(u, p) - HostCredit(u, p)) - ClampedOverhead(overhead))
  }

  /** Whatever the prices, a charge is a wrapped int64 divided by a million. */
  lemma ChargeBounded(tokens: int, perMillion: int)
    ensures -TWO63 < ChargeForTokens(tokens, perMillion) * MILLION <= TWO63
    ensures -TWO63 / 64 < ChargeForTokens(tokens, perMillion) < TWO63 / 64
  {
  }

  /** Not even overflow charges more than the rounded price. */
  lemma ChargeNeverExceeds(tokens: int, perMillion: int)
    ensures ChargeForTokens(tokens, perMillion) * MILLION <= Exact(tokens, perMillion) + HALF_MILLION
  {
    ChargeRoundsIffInRange(tokens, perMillion);
    ChargeBounded(tokens, perMillion);
  }

  /** Adding the two charges cannot overflow; in range, charge and credit are not negative. */
  lemma CustomerChargeExact(u: Usage, p: Prices)
    ensures CustomerCharge(u, p) == ChargeForTokens(u.prompt, p.input) + ChargeForTokens(u.completion, p.output)
    ensures -TWO63 / 64 < HostCredit(u, p) < TWO63 / 64 && -TWO63 / 32 < CustomerCharge(u, p) < TWO63 / 32
    ensures PricesInRange(u, p) ==> 0 <= HostCredit(u, p) && 0 <= CustomerCharge(u, p)
  {
    ChargeBounded(u.prompt, p.input);
    ChargeBounded(u.completion, p.output);
    ChargeBounded(u.completion, p.host);
    if PricesInRange(u, p) {
      ChargeRoundsIffInRange(u.prompt, p.input);
      ChargeRoundsIffInRange(u.completion, p.output);
      ChargeRoundsIffInRange(u.completion, p.host);
      ExactMonotone(u.prompt, p.input, u.prompt, p.input);
      ExactMonotone(u.completion, p.output, u.completion, p.output);
      ExactMonotone(u.completion, p.host, u.completion, p.host);
    }
  }

  /** The platform never pays a host more than the customer paid for the same tokens. */
  lemma MarginNonNegative(u: Usage, p: Prices)
    requires PricesInRange(u, p) && p.host <= p.output
    ensures PlatformMargin(u, p, 0) >= 0
    ensures PlatformMargin(u, p, 0) == CustomerCharge(u, p) - HostCredit(u, p)
  {
    CustomerChargeExact(u, p);
    ChargeMonotone(u.completion, p.host, u.completion, p.output);
    ChargeMonotone(u.prompt, p.input, u.prompt, p.input);
  }

  datatype Billed = Billed(usage: Usage, prices: Prices)

  ghost function Charged(): Billed -> int {
    (b: Billed) => CustomerCharge(b.usage, b.prices)
  }

  ghost function ExactPrice(): Billed -> int {
    (b: Billed) => Exact(b.usage.prompt, b.prices.input) + Exact(b.usage.completion, b.prices.output)
  }

  predicate AllInRange(jobs: seq<Billed>) {
    forall i | 0 <= i < |jobs| :: PricesInRange(jobs[i].usage, jobs[i].prices)
  }

  /**
   n accepted jobs are never charged more than n microdollars above the unrounded price, nor, with prices in
   range, less than n below it.
   */
  lemma {:induction false} ChargesStayClose(jobs: seq<Billed>)
    ensures Sum(jobs, Charged()) * MILLION - Sum(jobs, ExactPrice()) <= |jobs| * MILLION
    ensures AllInRange(jobs) ==> -|jobs| * MILLION <= Sum(jobs, Charged()) * MILLION - Sum(jobs, ExactPrice())
  {
    if jobs != [] {
      var n := |jobs| - 1;
      ChargesStayClose(jobs[..n]);
      var b := jobs[n];
      CustomerChargeExact(b.usage, b.prices);
      ChargeNeverExceeds(b.usage.prompt, b.prices.input);
      ChargeNeverExceeds(b.usage.completion, b.prices.output);
      if AllInRange(jobs) {
        ChargeRoundsIffInRange(b.usage.prompt, b.prices.input);
        ChargeRoundsIffInRange(b.usage.completion, b.prices.output);
      }
    }
  }
}
