/** Token metering: what a job costs, and how the cost is split between the
    provider and the gateway.  float64 is modelled by exact reals and the
    int64(...) conversion by truncation toward zero. */
module Billing {

  const MAX_TOKENS_PER_FIELD := 100_000
  const MAX_TOTAL_TOKENS_PER_JOB := 200_000
  const MAX_EARNINGS_PER_JOB_MSATS := 200_000

  datatype Pricing = Pricing(perMInputUSD: real, perMOutputUSD: real) {
    predicate NonNegative() {
      0.0 <= perMInputUSD && 0.0 <= perMOutputUSD
    }
  }

  const FALLBACK_PRICING := Pricing(0.03, 0.07)

  /** The billing engine never changes after it is created. */
  datatype Engine = Engine(feePct: real, pricing: map<string, Pricing>) {
    predicate Valid() {
      0.0 <= feePct <= 100.0 && forall m | m in pricing :: pricing[m].NonNegative()
    }

    function PricingOf(model: string): Pricing {
      if model in pricing then pricing[model] else FALLBACK_PRICING
    }
  }

  function Trunc(x: real): int {
    if x < 0.0 then -((-x).Floor) else x.Floor
  }

  function Min(a: int, b: int): int {
    if a <= b then a else b
  }

  predicate IsWhole(x: real) {
    x.Floor as real == x
  }

  function GrossUSD(p: Pricing, tokensIn: int, tokensOut: int): real {
    tokensIn as real / 1_000_000.0 * p.perMInputUSD + tokensOut as real / 1_000_000.0 * p.perMOutputUSD
  }

  function TotalMsats(p: Pricing, tokensIn: int, tokensOut: int, btcPriceUSD: real): int
    requires btcPriceUSD > 0.0
  {
    Trunc(GrossUSD(p, tokensIn, tokensOut) / btcPriceUSD * 100_000_000_000.0)
  }

  function FeeMsats(total: int, feePct: real): int {
    Trunc(total as real * feePct / 100.0)
  }

  /** Engine.Calculate without the gross amount, which no ledger uses. */
  function Calculate(e: Engine, model: string, tokensIn: int, tokensOut: int, btcPriceUSD: real): (int, int) {
    if btcPriceUSD <= 0.0 then
      (0, 0)
    else
      var total := TotalMsats(e.PricingOf(model), tokensIn, tokensOut, btcPriceUSD);
      var fee := FeeMsats(total, e.feePct);
      (total - fee, fee)
  }

  function ClampTokens(n: int): nat {
    if n < 0 then 0 else Min(n, MAX_TOKENS_PER_FIELD)
  }

  /** capTokens reassigns its two variables in turn; for every pair of reported
      counts the result is the pair of clamped counts, so its last branch, the
      joint rescale, never fires. */
  method CapTokens(tokensIn: int, tokensOut: int) returns (cappedIn: int, cappedOut: int)
    ensures cappedIn == ClampTokens(tokensIn) && cappedOut == ClampTokens(tokensOut)
    ensures cappedIn == if tokensIn < 0 then 0 else if tokensIn > 100_000 then 100_000 else tokensIn
    ensures cappedOut == if tokensOut < 0 then 0 else if tokensOut > 100_000 then 100_000 else tokensOut
    ensures cappedIn + cappedOut <= MAX_TOTAL_TOKENS_PER_JOB
  {
    cappedIn, cappedOut := tokensIn, tokensOut;
    if cappedIn < 0 {
      cappedIn := 0;
    }
    if cappedOut < 0 {
      cappedOut := 0;
    }
    if cappedIn > MAX_TOKENS_PER_FIELD {
      cappedIn := MAX_TOKENS_PER_FIELD;
    }
    if cappedOut > MAX_TOKENS_PER_FIELD {
      cappedOut := MAX_TOKENS_PER_FIELD;
    }
    if cappedIn + cappedOut > MAX_TOTAL_TOKENS_PER_JOB {
      assert false;
    }
  }

  function ScaledBy(provider: int, scale: real): int {
    Trunc(provider as real * scale)
  }

  /** capEarnings as a function: the provider's part is scaled and truncated, the
      fee takes what is left of the cap. */
  function CappedEarnings(provider: int, fee: int): (int, int) {
    var total := provider + fee;
    if total > MAX_EARNINGS_PER_JOB_MSATS then
      var scaled := ScaledBy(provider, MAX_EARNINGS_PER_JOB_MSATS as real / total as real);
      (scaled, MAX_EARNINGS_PER_JOB_MSATS - scaled)
    else
      (provider, fee)
  }

  method CapEarnings(provider: int, fee: int) returns (p: int, f: int)
    ensures (p, f) == CappedEarnings(provider, fee)
  {
    p, f := provider, fee;
    var total := p + f;
    if total > MAX_EARNINGS_PER_JOB_MSATS {
      var scale := MAX_EARNINGS_PER_JOB_MSATS as real / total as real;
      p := ScaledBy(p, scale);
      f := MAX_EARNINGS_PER_JOB_MSATS - p;
    }
  }

  /** What one finished job earns its provider and the gateway: the composition
      of capTokens, Calculate and capEarnings that both recording paths run. */
  function Bill(e: Engine, model: string, tokensIn: int, tokensOut: int, btcPriceUSD: real): (int, int) {
    var (provider, fee) := Calculate(e, model, ClampTokens(tokensIn), ClampTokens(tokensOut), btcPriceUSD);
    CappedEarnings(provider, fee)
  }

  // ---------- rounding ----------

  lemma MulIntMonotone(a: int, b: int, c: int)
    requires a <= b && 0 <= c
    ensures a * c <= b * c
  {
    assert (b - a) * c >= 0;
  }

  lemma DivisionBelow(a: int, b: int, c: int)
    requires b > 0 && a < c * b
    ensures a / b < c
  {
    if c <= a / b {
      MulIntMonotone(c, a / b, b);
    }
  }

  lemma DivisionAtLeast(a: int, b: int, c: int)
    requires b > 0 && c * b <= a
    ensures c <= a / b
  {
    if a / b + 1 <= c {
      MulIntMonotone(a / b + 1, c, b);
    }
  }

  lemma DivisionUnique(a: int, b: int, q: int)
    requires b > 0 && q * b <= a < q * b + b
    ensures a / b == q
  {
    assert q * b + b == (q + 1) * b;
    DivisionBelow(a, b, q + 1);
    DivisionAtLeast(a, b, q);
  }

  lemma MulMonotone(a: real, b: real, c: real)
    requires a <= b && 0.0 <= c
    ensures a * c <= b * c
  {
    assert (b - a) * c >= 0.0;
  }

  lemma MulStrict(a: real, b: real, c: real)
    requires a < b && 0.0 < c
    ensures a * c < b * c
  {
    assert (b - a) * c > 0.0;
  }

  lemma TruncMonotone(x: real, y: real)
    requires 0.0 <= x <= y
    ensures 0 <= Trunc(x) <= Trunc(y)
  {
  }

  /** Scaling by the real ratio and truncating is integer division. */
  lemma ScaleIsDivision(provider: int, total: int)
    requires 0 <= provider && MAX_EARNINGS_PER_JOB_MSATS < total
    ensures Trunc(provider as real * (MAX_EARNINGS_PER_JOB_MSATS as real / total as real))
         == provider * MAX_EARNINGS_PER_JOB_MSATS / total
  {
    var t := total as real;
    var scale := MAX_EARNINGS_PER_JOB_MSATS as real / t;
    assert scale * t == MAX_EARNINGS_PER_JOB_MSATS as real;
    var x := provider as real * scale;
    assert x >= 0.0;
    assert x * t == provider as real * (scale * t);
    assert x * t == (provider * MAX_EARNINGS_PER_JOB_MSATS) as real;
    var q := x.Floor;
    MulMonotone(q as real, x, t);
    assert (x - q as real - 1.0) * t < 0.0;
    assert q as real * t == (q * total) as real;
    assert (q as real + 1.0) * t == (q * total + total) as real;
    DivisionUnique(provider * MAX_EARNINGS_PER_JOB_MSATS, total, q);
  }

  lemma Percentage(x: real, pct: real)
    requires 0.0 <= x && 0.0 <= pct <= 100.0
    ensures 0.0 <= x * pct / 100.0 <= x
  {
    MulMonotone(0.0, pct, x);
    MulMonotone(pct, 100.0, x);
    var y := x * pct;
    assert y == pct * x && 0.0 <= y <= 100.0 * x;
  }

  lemma ProductGrows(x: real, y: real, pct: real)
    requires 0.0 <= x <= y && 0.0 <= pct <= 100.0
    ensures 0.0 <= x * pct <= y * pct <= x * pct + 100.0 * (y - x)
  {
    MulMonotone(0.0, x, pct);
    var g := pct * (y - x);
    MulMonotone(0.0, pct, y - x);
    MulMonotone(pct, 100.0, y - x);
    assert g == y * pct - x * pct;
  }

  lemma FeeBounds(total: int, feePct: real)
    requires 0 <= total && 0.0 <= feePct <= 100.0
    ensures 0 <= FeeMsats(total, feePct) <= total
    ensures FeeMsats(total, feePct) as real <= total as real * feePct / 100.0
          < FeeMsats(total, feePct) as real + 1.0
  {
    Percentage(total as real, feePct);
  }

  // ---------- the fee rescale, for every fee ----------

  /** Capping any non-negative split: nothing happens up to the cap; above it the
      parts sum to exactly the cap, neither part grows, each part is within one
      msat of its proportional share, and capping again changes nothing. */
  lemma CapSplit(provider: int, fee: int)
    requires 0 <= provider && 0 <= fee
    ensures var (p, f) := CappedEarnings(provider, fee);
            && 0 <= p <= provider && 0 <= f <= fee
            && p + f == Min(provider + fee, MAX_EARNINGS_PER_JOB_MSATS)
            && CappedEarnings(p, f) == (p, f)
            && (provider + fee > MAX_EARNINGS_PER_JOB_MSATS ==>
                  && 0 <= MAX_EARNINGS_PER_JOB_MSATS * provider - p * (provider + fee) < provider + fee
                  && 0 <= f * (provider + fee) - MAX_EARNINGS_PER_JOB_MSATS * fee < provider + fee)
  {
    if provider + fee > MAX_EARNINGS_PER_JOB_MSATS {
      ScaleIsDivision(provider, provider + fee);
      CeilingComplement(provider, fee, MAX_EARNINGS_PER_JOB_MSATS);
      CappedAbove(provider, fee, provider * MAX_EARNINGS_PER_JOB_MSATS / (provider + fee));
    }
  }

  lemma CappedAbove(provider: int, fee: int, scaled: int)
    requires provider + fee > MAX_EARNINGS_PER_JOB_MSATS
    requires scaled == Trunc(provider as real * (MAX_EARNINGS_PER_JOB_MSATS as real / (provider + fee) as real))
    ensures CappedEarnings(provider, fee) == (scaled, MAX_EARNINGS_PER_JOB_MSATS - scaled)
    ensures CappedEarnings(scaled, MAX_EARNINGS_PER_JOB_MSATS - scaled) == (scaled, MAX_EARNINGS_PER_JOB_MSATS - scaled)
  {
  }

  /** Splitting a cap below the total: the first part rounds down, the rest rounds up. */
  lemma CeilingComplement(a: int, b: int, cap: int)
    requires 0 <= a && 0 <= b && 0 < cap < a + b
    ensures var p := a * cap / (a + b);
            && 0 <= p <= a && 0 <= cap - p <= b
            && 0 <= cap * a - p * (a + b) < a + b
            && 0 <= (cap - p) * (a + b) - cap * b < a + b
  {
    var total := a + b;
    var p := a * cap / total;
    assert a * cap == p * total + a * cap % total;
    assert a * cap <= a * total by { MulIntMonotone(cap, total, a); }
    assert (a + 1) * total == a * total + total;
    DivisionBelow(a * cap, total, a + 1);
    DivisionAtLeast(a * cap, total, 0);
    assert (cap - p) * total == cap * a + cap * b - p * total;
    assert cap * a == a * cap;
    assert (cap - b) * total <= a * cap by {
      assert (cap - b) * total == cap * a + cap * b - b * total;
      MulIntMonotone(cap, total, b);
    }
    DivisionAtLeast(a * cap, total, cap - b);
    assert (cap + 1) * total > cap * a by { MulIntMonotone(a, total, cap); }
    DivisionBelow(a * cap, total, cap + 1);
  }

  /** The provider's final share of an uncapped total. */
  function ProviderShare(total: int, feePct: real): int {
    CappedEarnings(total - FeeMsats(total, feePct), FeeMsats(total, feePct)).0
  }

  lemma FloorsClose(a: real, b: real, t1: int, t2: int)
    requires 0.0 <= a <= b <= a + 100.0 * (t2 as real - t1 as real)
    ensures Trunc(a / 100.0) <= Trunc(b / 100.0) <= Trunc(a / 100.0) + (t2 - t1)
  {
  }

  /** The fee grows no faster than the total, so below the cap neither part ever
      shrinks when the total grows. */
  lemma FeeSlope(t1: int, t2: int, feePct: real)
    requires 0 <= t1 <= t2 && 0.0 <= feePct <= 100.0
    ensures FeeMsats(t1, feePct) <= FeeMsats(t2, feePct) <= FeeMsats(t1, feePct) + (t2 - t1)
  {
    var x, y := t1 as real, t2 as real;
    ProductGrows(x, y, feePct);
    FloorsClose(x * feePct, y * feePct, t1, t2);
  }

  /** Above the cap, a whole 2000 * feePct makes the provider's share a constant. */
  lemma WholeShareAboveCap(total: int, feePct: real)
    requires MAX_EARNINGS_PER_JOB_MSATS < total && 0.0 <= feePct <= 100.0
    requires IsWhole(2000.0 * feePct)
    ensures ProviderShare(total, feePct) == MAX_EARNINGS_PER_JOB_MSATS - (2000.0 * feePct).Floor
  {
    var cap, w := MAX_EARNINGS_PER_JOB_MSATS, (2000.0 * feePct).Floor;
    FeeBounds(total, feePct);
    var fee := FeeMsats(total, feePct);
    assert total as real * feePct / 100.0 * 200000.0 == total as real * (2000.0 * feePct);
    assert total as real * (w as real) == (total * w) as real;
    assert fee * cap <= total * w < fee * cap + cap;
    var provider := total - fee;
    ScaleIsDivision(provider, total);
    assert (cap - w) * total == cap * total - w * total;
    DivisionUnique(provider * cap, total, cap - w);
  }

  /** When 2000 * feePct is not whole, some total above the cap pays the provider
      less than the total exactly at the cap does. */
  lemma FractionalShareDrops(feePct: real) returns (total: int)
    requires 0.0 <= feePct <= 100.0
    requires !IsWhole(2000.0 * feePct)
    ensures MAX_EARNINGS_PER_JOB_MSATS < total
    ensures ProviderShare(total, feePct) < ProviderShare(MAX_EARNINGS_PER_JOB_MSATS, feePct)
  {
    var cap := MAX_EARNINGS_PER_JOB_MSATS;
    var w := (2000.0 * feePct).Floor;
    var r := 2000.0 * feePct - w as real;
    assert 0.0 < r < 1.0;
    assert FeeMsats(cap, feePct) == w;
    var bound := 200000.0 / r;
    assert bound * r == 200000.0;
    assert bound >= 200000.0 by {
      if bound < 200000.0 {
        MulMonotone(bound, 200000.0, r);
      }
    }
    total := bound.Floor + 1;
    var t := total as real;
    assert t * r >= 200000.0 by { MulMonotone(bound, t, r); }
    FeeBounds(total, feePct);
    var fee := FeeMsats(total, feePct);
    var provider := total - fee;
    var x := t * feePct / 100.0;
    assert x < fee as real + 1.0;
    assert x * 200000.0 == t * (2000.0 * feePct);
    assert t * (2000.0 * feePct) == t * (w as real) + t * r;
    assert t * (w as real) == (total * w) as real;
    assert (fee * cap + cap) as real > (total * w) as real + 200000.0;
    assert fee * cap > total * w;
    assert provider * cap == total * cap - fee * cap;
    assert provider * cap < (cap - w) * total;
    ScaleIsDivision(provider, total);
    DivisionBelow(provider * cap, total, cap - w);
  }

  /** The provider's share never shrinks as the total grows exactly when
      2000 * feePct is a whole number of msats, as it is for the 5% default. */
  lemma ShareMonotoneIff(feePct: real)
    requires 0.0 <= feePct <= 100.0
    ensures (forall t1: nat, t2: nat | t1 <= t2 :: ProviderShare(t1, feePct) <= ProviderShare(t2, feePct))
       <==> IsWhole(2000.0 * feePct)
  {
    if IsWhole(2000.0 * feePct) {
      forall t1: nat, t2: nat | t1 <= t2 ensures ProviderShare(t1, feePct) <= ProviderShare(t2, feePct) {
        WholeShareMonotone(t1, t2, feePct);
      }
    } else {
      var t := FractionalShareDrops(feePct);
      var c: nat, n: nat := MAX_EARNINGS_PER_JOB_MSATS, t;
      assert c <= n && ProviderShare(n, feePct) < ProviderShare(c, feePct);
    }
  }

  lemma WholeShareMonotone(t1: nat, t2: nat, feePct: real)
    requires t1 <= t2 && 0.0 <= feePct <= 100.0 && IsWhole(2000.0 * feePct)
    ensures ProviderShare(t1, feePct) <= ProviderShare(t2, feePct)
  {
    var cap := MAX_EARNINGS_PER_JOB_MSATS;
    if t2 <= cap {
      FeeSlope(t1, t2, feePct);
    } else {
      WholeShareAboveCap(t2, feePct);
      if t1 <= cap {
        FeeSlope(t1, cap, feePct);
        assert FeeMsats(cap, feePct) == (2000.0 * feePct).Floor;
      } else {
        WholeShareAboveCap(t1, feePct);
      }
    }
  }

  // ---------- the closed form at the 5% fee ----------

  /** ceil(19 * total / 20) */
  function NineteenTwentieths(total: int): int {
    total - total / 20
  }

  lemma FivePercentShare(total: int)
    requires 0 <= total
    ensures ProviderShare(total, 5.0) == Min(NineteenTwentieths(total), 190_000)
  {
    assert FeeMsats(total, 5.0) == total / 20;
    if total > MAX_EARNINGS_PER_JOB_MSATS {
      assert 2000.0 * 5.0 == 10000.0;
      assert (10000.0).Floor == 10000;
      WholeShareAboveCap(total, 5.0);
    }
  }

  lemma TotalNonNegative(p: Pricing, tokensIn: nat, tokensOut: nat, btcPriceUSD: real)
    requires p.NonNegative() && btcPriceUSD > 0.0
    ensures 0 <= TotalMsats(p, tokensIn, tokensOut, btcPriceUSD)
  {
    TotalMonotone(p, 0, 0, tokensIn, tokensOut, btcPriceUSD);
  }

  lemma TotalMonotone(p: Pricing, in1: nat, out1: nat, in2: nat, out2: nat, btcPriceUSD: real)
    requires p.NonNegative() && btcPriceUSD > 0.0 && in1 <= in2 && out1 <= out2
    ensures 0 <= TotalMsats(p, in1, out1, btcPriceUSD) <= TotalMsats(p, in2, out2, btcPriceUSD)
  {
    GrossMonotone(p, 0, 0, in1, out1);
    GrossMonotone(p, in1, out1, in2, out2);
    var g1, g2 := GrossUSD(p, in1, out1), GrossUSD(p, in2, out2);
    QuotientMonotone(0.0, g1, btcPriceUSD);
    QuotientMonotone(g1, g2, btcPriceUSD);
    TruncMonotone(g1 / btcPriceUSD * 100_000_000_000.0, g2 / btcPriceUSD * 100_000_000_000.0);
  }

  lemma GrossMonotone(p: Pricing, in1: nat, out1: nat, in2: nat, out2: nat)
    requires p.NonNegative() && in1 <= in2 && out1 <= out2
    ensures GrossUSD(p, in1, out1) <= GrossUSD(p, in2, out2)
  {
    MulMonotone(in1 as real / 1_000_000.0, in2 as real / 1_000_000.0, p.perMInputUSD);
    MulMonotone(out1 as real / 1_000_000.0, out2 as real / 1_000_000.0, p.perMOutputUSD);
  }

  lemma QuotientMonotone(a: real, b: real, d: real)
    requires a <= b && d > 0.0
    ensures a / d <= b / d
  {
    var x, y := a / d, b / d;
    assert x * d == a && y * d == b;
    if y < x {
      MulStrict(y, x, d);
    }
  }

  /** The whole billing of one job at the 5% fee, in closed form: with T the
      uncapped total of the clamped counts, the buyer's cost is min(T, 200000)
      and the provider's part is min(ceil(19T/20), 190000), never under 95%. */
  lemma BillClosedForm(e: Engine, model: string, tokensIn: int, tokensOut: int, btcPriceUSD: real)
    requires e.Valid() && e.feePct == 5.0 && btcPriceUSD > 0.0
    ensures var (provider, fee) := Bill(e, model, tokensIn, tokensOut, btcPriceUSD);
            var total := TotalMsats(e.PricingOf(model), ClampTokens(tokensIn), ClampTokens(tokensOut), btcPriceUSD);
            && 0 <= total
            && provider + fee == Min(total, MAX_EARNINGS_PER_JOB_MSATS)
            && provider == Min(NineteenTwentieths(total), 190_000)
            && 100 * provider >= 95 * (provider + fee)
  {
    var total := TotalMsats(e.PricingOf(model), ClampTokens(tokensIn), ClampTokens(tokensOut), btcPriceUSD);
    TotalNonNegative(e.PricingOf(model), ClampTokens(tokensIn), ClampTokens(tokensOut), btcPriceUSD);
    FivePercentShare(total);
    FeeBounds(total, 5.0);
    CapSplit(total - FeeMsats(total, 5.0), FeeMsats(total, 5.0));
  }

  /** At the 5% fee both the cost and the provider's part grow with each token
      count a node reports, whatever it reports. */
  lemma BillMonotone(e: Engine, model: string, in1: int, out1: int, in2: int, out2: int, btcPriceUSD: real)
    requires e.Valid() && e.feePct == 5.0 && in1 <= in2 && out1 <= out2
    ensures var (p1, f1) := Bill(e, model, in1, out1, btcPriceUSD);
            var (p2, f2) := Bill(e, model, in2, out2, btcPriceUSD);
            p1 <= p2 && p1 + f1 <= p2 + f2
  {
    if btcPriceUSD > 0.0 {
      BillClosedForm(e, model, in1, out1, btcPriceUSD);
      BillClosedForm(e, model, in2, out2, btcPriceUSD);
      TotalMonotone(e.PricingOf(model), ClampTokens(in1), ClampTokens(out1),
                    ClampTokens(in2), ClampTokens(out2), btcPriceUSD);
    }
  }

  /** For every valid fee, a bill is a non-negative split of at most the cap. */
  lemma BillBounds(e: Engine, model: string, tokensIn: int, tokensOut: int, btcPriceUSD: real)
    requires e.Valid()
    ensures var (provider, fee) := Bill(e, model, tokensIn, tokensOut, btcPriceUSD);
            0 <= provider && 0 <= fee && provider + fee <= MAX_EARNINGS_PER_JOB_MSATS
  {
    if btcPriceUSD > 0.0 {
      var total := TotalMsats(e.PricingOf(model), ClampTokens(tokensIn), ClampTokens(tokensOut), btcPriceUSD);
      TotalNonNegative(e.PricingOf(model), ClampTokens(tokensIn), ClampTokens(tokensOut), btcPriceUSD);
      FeeBounds(total, e.feePct);
      CapSplit(total - FeeMsats(total, e.feePct), FeeMsats(total, e.feePct));
    }
  }

  // ---------- the cost from the prices and the counts alone ----------

  /** A truncated quotient of whole numbers, computed through reals. */
  lemma QuotientTruncates(x: real, numerator: int, denominator: int)
    requires 0 <= numerator && 0 < denominator && x * denominator as real == numerator as real
    ensures Trunc(x) == numerator / denominator
  {
    assert x >= 0.0 by {
      if x < 0.0 {
        MulStrict(x, 0.0, denominator as real);
      }
    }
    var q := x.Floor;
    FloorTimes(x, numerator, denominator, q, q + 1);
    DivisionUnique(numerator, denominator, q);
  }

  lemma FloorTimes(x: real, numerator: int, denominator: int, q: int, next: int)
    requires 0 < denominator && x * denominator as real == numerator as real && q as real <= x < next as real
    ensures q * denominator <= numerator < next * denominator
  {
    var d := denominator as real;
    MulMonotone(q as real, x, d);
    MulStrict(x, next as real, d);
    RealProduct(q, denominator);
    RealProduct(next, denominator);
    WholeOrder(q as real * d, x * d, next as real * d, q * denominator, numerator, next * denominator);
  }

  lemma RealProduct(a: int, b: int)
    ensures a as real * b as real == (a * b) as real
  {
  }

  lemma WholeOrder(lo: real, mid: real, hi: real, a: int, b: int, c: int)
    requires lo <= mid < hi && lo == a as real && mid == b as real && hi == c as real
    ensures a <= b < c
  {
  }

  lemma MicroPrice(count: nat, micro: nat)
    ensures count as real / 1_000_000.0 * (micro as real / 1_000_000.0) * 1_000_000_000_000.0 == (count * micro) as real
  {
    assert count as real * micro as real == (count * micro) as real;
    var c, m := count as real / 1_000_000.0, micro as real / 1_000_000.0;
    assert c * 1_000_000.0 == count as real && m * 1_000_000.0 == micro as real;
    assert c * m * 1_000_000_000_000.0 == (c * 1_000_000.0) * (m * 1_000_000.0);
  }

  lemma GrossIs(a: nat, b: nat, i: nat, o: nat)
    ensures GrossUSD(Pricing(a as real / 1_000_000.0, b as real / 1_000_000.0), i, o) * 1_000_000_000_000.0
         == (i * a + o * b) as real
  {
    MicroPrice(i, a);
    MicroPrice(o, b);
  }

  /** gross over the price n/m, in msats, times 10n is the gross in units of 1e-12. */
  lemma PriceDivides(gross: real, units: int, n: int, m: int)
    requires gross * 1_000_000_000_000.0 == units as real && n > 0 && m > 0
    ensures n as real / m as real > 0.0
    ensures gross / (n as real / m as real) * 100_000_000_000.0 * (10 * n) as real == (units * m) as real
  {
    var price := n as real / m as real;
    assert price * m as real == n as real;
    if price <= 0.0 {
      MulMonotone(price, 0.0, m as real);
    }
    var y := gross / price;
    assert y * price == gross;
    assert y * n as real == gross * m as real by {
      assert y * (price * m as real) == (y * price) * m as real;
    }
    assert units as real * m as real == (units * m) as real;
    assert y * 100_000_000_000.0 * (10 * n) as real == (y * n as real) * 1_000_000_000_000.0;
    assert gross * m as real * 1_000_000_000_000.0 == (gross * 1_000_000_000_000.0) * m as real;
  }

  lemma TotalIs(a: nat, b: nat, i: nat, o: nat, n: int, m: int)
    requires n > 0 && m > 0
    ensures n as real / m as real > 0.0
    ensures TotalMsats(Pricing(a as real / 1_000_000.0, b as real / 1_000_000.0), i, o, n as real / m as real)
         == (i * a + o * b) * m / (10 * n)
  {
    var gross := GrossUSD(Pricing(a as real / 1_000_000.0, b as real / 1_000_000.0), i, o);
    GrossIs(a, b, i, o);
    PriceDivides(gross, i * a + o * b, n, m);
    QuotientTruncates(gross / (n as real / m as real) * 100_000_000_000.0, (i * a + o * b) * m, 10 * n);
  }

  /** What a job costs its buyer, for every fee: with prices of a and b micro-USD per
      million prompt and completion tokens (the listed ones, or 30,000 and 70,000), a
      bitcoin price of n/m USD, and each count cut to 0..100,000. */
  lemma CostFromPrices(e: Engine, model: string, tokensIn: int, tokensOut: int, a: nat, b: nat, n: int, m: int)
    requires e.Valid() && n > 0 && m > 0
    requires (if model in e.pricing then e.pricing[model] else Pricing(0.03, 0.07))
          == Pricing(a as real / 1_000_000.0, b as real / 1_000_000.0)
    ensures var i := if tokensIn < 0 then 0 else if tokensIn > 100_000 then 100_000 else tokensIn;
            var o := if tokensOut < 0 then 0 else if tokensOut > 100_000 then 100_000 else tokensOut;
            var (provider, fee) := Bill(e, model, tokensIn, tokensOut, n as real / m as real);
            provider + fee == Min((i * a + o * b) * m / (10 * n), 200_000)
  {
    var i, o := ClampTokens(tokensIn), ClampTokens(tokensOut);
    TotalIs(a, b, i, o, n, m);
    var total := TotalMsats(e.PricingOf(model), i, o, n as real / m as real);
    TotalNonNegative(e.PricingOf(model), i, o, n as real / m as real);
    FeeBounds(total, e.feePct);
    CapSplit(total - FeeMsats(total, e.feePct), FeeMsats(total, e.feePct));
  }

  /** Without a bitcoin price nothing is billed. */
  lemma NoPriceNoBill(e: Engine, model: string, tokensIn: int, tokensOut: int, btcPriceUSD: real)
    requires btcPriceUSD <= 0.0
    ensures Bill(e, model, tokensIn, tokensOut, btcPriceUSD) == (0, 0)
  {
  }

  /** At the 5% fee and 10,000 USD per bitcoin, 100,000 prompt tokens and no others
      cost 30 sats at the fallback price and 100 sats at that of the largest listed
      models; 100,000 completion tokens alone cost 70 and 140. */
  lemma OneSidedBills(e: Engine, unlisted: string, largest: string)
    requires e.Valid() && e.feePct == 5.0
    requires unlisted !in e.pricing && largest in e.pricing && e.pricing[largest] == Pricing(0.10, 0.14)
    ensures Bill(e, unlisted, 100_000, 0, 10_000.0) == (28_500, 1_500)
    ensures Bill(e, unlisted, 0, 100_000, 10_000.0) == (66_500, 3_500)
    ensures Bill(e, largest, 100_000, 0, 10_000.0) == (95_000, 5_000)
    ensures Bill(e, largest, 0, 100_000, 10_000.0) == (133_000, 7_000)
  {
    OneSidedBill(e, unlisted, 30_000, 70_000, 100_000, 0, 30_000);
    OneSidedBill(e, unlisted, 30_000, 70_000, 0, 100_000, 70_000);
    OneSidedBill(e, largest, 100_000, 140_000, 100_000, 0, 100_000);
    OneSidedBill(e, largest, 100_000, 140_000, 0, 100_000, 140_000);
  }

  lemma OneSidedBill(e: Engine, model: string, a: nat, b: nat, i: nat, o: nat, total: nat)
    requires e.Valid() && e.feePct == 5.0 && i <= 100_000 && o <= 100_000
    requires e.PricingOf(model) == Pricing(a as real / 1_000_000.0, b as real / 1_000_000.0)
    requires i * a + o * b == 100_000 * total && total <= 200_000
    ensures Bill(e, model, i, o, 10_000.0) == (total - total / 20, total / 20)
  {
    TotalAtTenThousand(a, b, i, o, total);
    BillClosedForm(e, model, i, o, 10_000.0);
  }

  lemma TotalAtTenThousand(a: nat, b: nat, i: nat, o: nat, total: nat)
    requires i * a + o * b == 100_000 * total
    ensures TotalMsats(Pricing(a as real / 1_000_000.0, b as real / 1_000_000.0), i, o, 10_000.0) == total
  {
    TotalIs(a, b, i, o, 10_000, 1);
  }

  lemma LargestListed()
    ensures "llama3.1:70b" in DefaultPricing() && DefaultPricing()["llama3.1:70b"] == Pricing(0.10, 0.14)
  {
  }

  /** At the 5% fee and 10,000 USD per bitcoin, 200,000 tokens at the fallback price
      cost 100 sats. */
  lemma HundredSats(e: Engine, model: string)
    requires e.Valid() && e.feePct == 5.0 && e.PricingOf(model) == FALLBACK_PRICING
    ensures Bill(e, model, 100_000, 100_000, 10_000.0) == (95_000, 5_000)
  {
    var gross := GrossUSD(FALLBACK_PRICING, 100_000, 100_000);
    assert gross == 0.01;
    assert gross / 10_000.0 * 100_000_000_000.0 == 100_000.0;
    BillClosedForm(e, model, 100_000, 100_000, 10_000.0);
  }

  /** At half that price per bitcoin they cost 200 sats, 190 of them the provider's. */
  lemma CappedJob(e: Engine, model: string)
    requires e.Valid() && e.feePct == 5.0 && e.PricingOf(model) == FALLBACK_PRICING
    ensures Bill(e, model, 100_000, 100_000, 5_000.0) == (190_000, 10_000)
  {
    var gross := GrossUSD(FALLBACK_PRICING, 100_000, 100_000);
    assert gross == 0.01;
    assert gross / 5_000.0 * 100_000_000_000.0 == 200_000.0;
    BillClosedForm(e, model, 100_000, 100_000, 5_000.0);
  }

  // ---------- the price table ----------

  function DefaultPricing(): map<string, Pricing> {
    map[
      "llama3.1:70b" := Pricing(0.10, 0.14),
      "llama3.1:70b-instruct-q4_K_M" := Pricing(0.10, 0.14),
      "llama3.3:70b" := Pricing(0.10, 0.14),
      "llama3.1:70b-instruct-q2_K" := Pricing(0.08, 0.12),
      "qwen2.5-coder:32b-instruct-q4_K_M" := Pricing(0.06, 0.11),
      "qwen2.5:32b" := Pricing(0.06, 0.11),
      "mixtral:8x7b" := Pricing(0.06, 0.11),
      "command-r:35b" := Pricing(0.05, 0.10),
      "gemma2:27b" := Pricing(0.05, 0.10),
      "mistral-small:24b" := Pricing(0.05, 0.10),
      "qwen2.5:14b" := Pricing(0.04, 0.09),
      "deepseek-r1:14b" := Pricing(0.05, 0.09),
      "llama3.1:8b-instruct-q8_0" := Pricing(0.03, 0.08),
      "qwen3.5:9b" := Pricing(0.03, 0.08),
      "qwen3:8b" := Pricing(0.03, 0.08),
      "deepseek-r1:8b" := Pricing(0.03, 0.07),
      "llama3.1:8b" := Pricing(0.03, 0.07),
      "qwen2.5:7b" := Pricing(0.03, 0.07),
      "qwen2.5-coder:7b" := Pricing(0.03, 0.07),
      "deepseek-r1:7b" := Pricing(0.03, 0.07),
      "gemma2:9b" := Pricing(0.03, 0.07),
      "mistral:7b" := Pricing(0.03, 0.07),
      "phi4-mini" := Pricing(0.02, 0.06),
      "phi4-mini:latest" := Pricing(0.02, 0.06),
      "qwen3.5:4b" := Pricing(0.02, 0.05),
      "gemma3:4b" := Pricing(0.02, 0.05),
      "llama3.2:3b" := Pricing(0.015, 0.04),
      "qwen2.5:3b" := Pricing(0.015, 0.04),
      "phi3:mini" := Pricing(0.015, 0.04),
      "qwen2.5:1.5b" := Pricing(0.008, 0.02),
      "deepseek-r1:1.5b" := Pricing(0.008, 0.02),
      "llama3.2:1b" := Pricing(0.005, 0.01),
      "tinyllama:1.1b" := Pricing(0.005, 0.01),
      "qwen3.5:0.8b" := Pricing(0.005, 0.012),
      "qwen2.5:0.5b" := Pricing(0.003, 0.008),
      "smollm2:360m" := Pricing(0.002, 0.005),
      "smollm2:135m" := Pricing(0.001, 0.003)
    ]
  }

  /** No listed model is free, and none costs more than the 70b models. */
  lemma DefaultPriceRange(model: string)
    requires model in DefaultPricing()
    ensures var p := DefaultPricing()[model];
            0.001 <= p.perMInputUSD <= 0.10 && p.perMInputUSD < p.perMOutputUSD <= 0.14
  {
  }

  /** With the default table, at or above 12,000 USD per bitcoin the 200-sat cap
      never binds: the two parts of the bill are what Calculate returned, for
      every model and every reported count. */
  lemma CapNeverBindsAbove12000(feePct: real, model: string, tokensIn: int, tokensOut: int, btcPriceUSD: real)
    requires 0.0 <= feePct <= 100.0 && btcPriceUSD >= 12_000.0
    ensures var e := Engine(feePct, DefaultPricing());
            && Bill(e, model, tokensIn, tokensOut, btcPriceUSD)
            == Calculate(e, model, ClampTokens(tokensIn), ClampTokens(tokensOut), btcPriceUSD)
  {
    var e := Engine(feePct, DefaultPricing());
    var p := e.PricingOf(model);
    if model in e.pricing {
      DefaultPriceRange(model);
    }
    TableTotalWithinCap(p, ClampTokens(tokensIn), ClampTokens(tokensOut), btcPriceUSD);
  }

  lemma TableTotalWithinCap(p: Pricing, tokensIn: nat, tokensOut: nat, btcPriceUSD: real)
    requires 0.0 <= p.perMInputUSD <= 0.10 && 0.0 <= p.perMOutputUSD <= 0.14 && btcPriceUSD >= 12_000.0
    requires tokensIn <= MAX_TOKENS_PER_FIELD && tokensOut <= MAX_TOKENS_PER_FIELD
    ensures TotalMsats(p, tokensIn, tokensOut, btcPriceUSD) <= MAX_EARNINGS_PER_JOB_MSATS
  {
    GrossMonotone(p, tokensIn, tokensOut, MAX_TOKENS_PER_FIELD, MAX_TOKENS_PER_FIELD);
    var gross := GrossUSD(p, tokensIn, tokensOut);
    assert gross <= 0.024;
    var x := gross / btcPriceUSD;
    assert x * btcPriceUSD == gross;
    if 0.000_002 < x {
      MulMonotone(12_000.0, btcPriceUSD, x);
    }
  }
}
