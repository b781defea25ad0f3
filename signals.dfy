/** The macro regime scorer of signals.py: six clamped sub-scores, a fixed
    weighted average, and rounding to one decimal.  All arithmetic is over
    mathematical reals. */
module Signals {

  function Min(a: real, b: real): real { if a <= b then a else b }
  function Max(a: real, b: real): real { if a >= b then a else b }
  function Abs(x: real): real { if x < 0.0 then -x else x }

  /** The six weights of the composite, in source order. */
  const GrowthWeight: real := 0.25
  const InflationWeight: real := 0.20
  const EmploymentWeight: real := 0.15
  const ManufacturingWeight: real := 0.15
  const CurveWeight: real := 0.15
  const FedWeight: real := 0.10

  // ---------------------------------------------------------------------------
  // Sub-scores
  // ---------------------------------------------------------------------------

  /** Growth: GDP growth scaled so that 6% saturates, clamped to [0, 100]. */
  function GrowthScore(gdpGrowth: real): (s: real)
    ensures 0.0 <= s <= 100.0
    ensures gdpGrowth <= 0.0 ==> s == 0.0
    ensures gdpGrowth >= 6.0 ==> s == 100.0
    ensures 0.0 < gdpGrowth < 6.0 ==> 0.0 < s < 100.0
  {
    Min(100.0, Max(0.0, gdpGrowth / 6.0 * 100.0))
  }

  /** Inflation: 100 at the 2% target, minus 30 points per point of distance,
      floored at 0 (there is no upper clamp: the value cannot exceed 100). */
  function InflationScore(inflation: real): (s: real)
    ensures 0.0 <= s <= 100.0
    ensures s == 100.0 <==> inflation == 2.0
  {
    Max(0.0, 100.0 - Abs(inflation - 2.0) * 30.0)
  }

  /** Employment: 100 on the closed band [3.5, 4.5], 80 below it, and a
      penalty of 20 points per point above 4.5, floored at 0. */
  function EmploymentScore(unemployment: real): (s: real)
    ensures 0.0 <= s <= 100.0
    ensures s == 100.0 <==> 3.5 <= unemployment <= 4.5
    ensures unemployment < 3.5 ==> s == 80.0
    ensures unemployment >= 9.5 ==> s == 0.0
  {
    if 3.5 <= unemployment <= 4.5 then 100.0
    else if unemployment < 3.5 then 80.0
    else Max(0.0, 100.0 - (unemployment - 4.5) * 20.0)
  }

  /** Manufacturing: centred on 50 at index 0, two points per unit. */
  function ManufacturingScore(manufacturingIndex: real): (s: real)
    ensures 0.0 <= s <= 100.0
    ensures manufacturingIndex == 0.0 ==> s == 50.0
    ensures manufacturingIndex <= -25.0 ==> s == 0.0
    ensures manufacturingIndex >= 25.0 ==> s == 100.0
  {
    Min(100.0, Max(0.0, 50.0 + manufacturingIndex * 2.0))
  }

  /** Yield curve: centred on 50 at spread 0, half a point per unit. */
  function CurveScore(yieldCurveSpread: real): (s: real)
    ensures 0.0 <= s <= 100.0
    ensures yieldCurveSpread == 0.0 ==> s == 50.0
    ensures yieldCurveSpread <= -100.0 ==> s == 0.0
    ensures yieldCurveSpread >= 100.0 ==> s == 100.0
  {
    Min(100.0, Max(0.0, 50.0 + yieldCurveSpread * 0.5))
  }

  /** Fed policy: 100 at a neutral stance, minus 40 points per point of
      distance in either direction, floored at 0. */
  function FedScore(fedStance: real): (s: real)
    ensures 0.0 <= s <= 100.0
    ensures s == 100.0 <==> fedStance == 0.0
    ensures Abs(fedStance) >= 2.5 ==> s == 0.0
  {
    Max(0.0, 100.0 - Abs(fedStance) * 40.0)
  }

  // ---------------------------------------------------------------------------
  // Properties of the sub-scores
  // ---------------------------------------------------------------------------

  lemma GrowthMonotone(a: real, b: real)
    requires a <= b
    ensures GrowthScore(a) <= GrowthScore(b)
  {
  }

  /** The inflation score is symmetric about the 2% target. */
  lemma InflationSymmetric(d: real)
    ensures InflationScore(2.0 + d) == InflationScore(2.0 - d)
  {
    assert Abs((2.0 + d) - 2.0) == Abs((2.0 - d) - 2.0);
  }

  /** Moving away from the target never raises the inflation score. */
  lemma InflationUnimodal(a: real, b: real)
    ensures 2.0 <= a <= b ==> InflationScore(b) <= InflationScore(a)
    ensures a <= b <= 2.0 ==> InflationScore(a) <= InflationScore(b)
  {
  }

  /** Above the healthy band the employment score strictly falls until it
      reaches 0 at 9.5% unemployment. */
  lemma EmploymentStrictlyDecreasingAboveBand(u: real, v: real)
    requires 4.5 < u < v <= 9.5
    ensures EmploymentScore(v) < EmploymentScore(u) < 100.0
  {
  }

  /** The band boundaries and the two worked boundary values. */
  lemma EmploymentBoundaries()
    ensures EmploymentScore(3.5) == 100.0 && EmploymentScore(4.5) == 100.0
    ensures EmploymentScore(3.49) == 80.0
    ensures EmploymentScore(5.5) == 80.0
  {
  }

  lemma ManufacturingMonotone(a: real, b: real)
    requires a <= b
    ensures ManufacturingScore(a) <= ManufacturingScore(b)
  {
  }

  lemma CurveMonotone(a: real, b: real)
    requires a <= b
    ensures CurveScore(a) <= CurveScore(b)
  {
  }

  /** The fed score sees only the magnitude of the stance. */
  lemma FedDependsOnlyOnMagnitude(a: real, b: real)
    requires Abs(a) == Abs(b)
    ensures FedScore(a) == FedScore(b)
  {
  }

  // ---------------------------------------------------------------------------
  // Weighted average
  // ---------------------------------------------------------------------------

  /** The fixed weighted average of the six sub-scores.  Because the weights
      are non-negative and sum to 1, the result lies between the smallest and
      the largest sub-score, and equal sub-scores give that common value. */
  function WeightedAverage(growth: real, inflation: real, employment: real,
                           manufacturing: real, curve: real, fed: real): (r: real)
    ensures Min(Min(Min(growth, inflation), Min(employment, manufacturing)), Min(curve, fed)) <= r
    ensures r <= Max(Max(Max(growth, inflation), Max(employment, manufacturing)), Max(curve, fed))
    ensures growth == inflation == employment == manufacturing == curve == fed ==> r == growth
  {
    var lo := Min(Min(Min(growth, inflation), Min(employment, manufacturing)), Min(curve, fed));
    var hi := Max(Max(Max(growth, inflation), Max(employment, manufacturing)), Max(curve, fed));
    assert lo <= growth && lo <= inflation && lo <= employment;
    assert lo <= manufacturing && lo <= curve && lo <= fed;
    assert growth <= hi && inflation <= hi && employment <= hi;
    assert manufacturing <= hi && curve <= hi && fed <= hi;
    growth * GrowthWeight +
    inflation * InflationWeight +
    employment * EmploymentWeight +
    manufacturing * ManufacturingWeight +
    curve * CurveWeight +
    fed * FedWeight
  }

  lemma WeightsSumToOne()
    ensures GrowthWeight + InflationWeight + EmploymentWeight +
            ManufacturingWeight + CurveWeight + FedWeight == 1.0
  {
  }

  /** The unrounded composite.  real_rate is not a parameter: the source
      accepts it and never reads it. */
  function RegimeComposite(gdpGrowth: real, inflation: real, unemployment: real,
                           manufacturingIndex: real, yieldCurveSpread: real,
                           fedStance: real): (r: real)
    ensures 0.0 <= r <= 100.0
  {
    WeightedAverage(GrowthScore(gdpGrowth), InflationScore(inflation),
                    EmploymentScore(unemployment), ManufacturingScore(manufacturingIndex),
                    CurveScore(yieldCurveSpread), FedScore(fedStance))
  }

  // ---------------------------------------------------------------------------
  // round(x, 1)
  // ---------------------------------------------------------------------------

  /** x is a whole number of tenths. */
  predicate IsTenth(x: real) {
    (x * 10.0).Floor as real == x * 10.0
  }

  /** Rounding to the nearest whole number, exact ties going to the even one. */
  function RoundHalfEven(t: real): (k: int)
    ensures -0.5 <= k as real - t <= 0.5
    ensures t - t.Floor as real == 0.5 ==> k % 2 == 0
  {
    var n := t.Floor;
    var f := t - n as real;
    if f < 0.5 then n
    else if f > 0.5 then n + 1
    else if n % 2 == 0 then n else n + 1
  }

  /** k tenths is a tenth, and scaling back by ten recovers k. */
  lemma TenthsOf(k: int)
    ensures (k as real / 10.0) * 10.0 == k as real
    ensures IsTenth(k as real / 10.0)
  {
    assert (k as real / 10.0) * 10.0 == k as real;
  }

  /** Rounding to one decimal place, to the nearest tenth with exact ties going
      to the even tenth, as Python's round(x, 1) does on the exact value. */
  function RoundTenth(x: real): (r: real)
    ensures IsTenth(r)
    ensures -0.05 <= r - x <= 0.05
  {
    var k := RoundHalfEven(x * 10.0);
    TenthsOf(k);
    k as real / 10.0
  }

  /** No whole number is closer to t than RoundHalfEven(t). */
  lemma RoundHalfEvenNearest(t: real, m: int)
    ensures Abs(RoundHalfEven(t) as real - t) <= Abs(m as real - t)
  {
    var n := t.Floor;
    assert n as real <= t < n as real + 1.0;
    assert m <= n || m >= n + 1;
  }

  /** No tenth is closer to x than RoundTenth(x). */
  lemma RoundTenthNearest(x: real, k: int)
    ensures Abs(RoundTenth(x) - x) <= Abs(k as real / 10.0 - x)
  {
    var t := x * 10.0;
    RoundHalfEvenNearest(t, k);
    var j := RoundHalfEven(t);
    assert RoundTenth(x) - x == (j as real - t) / 10.0;
    assert k as real / 10.0 - x == (k as real - t) / 10.0;
  }

  /** An exact tie between two tenths goes to the even one. */
  lemma RoundTenthTiesToEven(x: real)
    requires x * 10.0 - (x * 10.0).Floor as real == 0.5
    ensures (RoundTenth(x) * 10.0).Floor % 2 == 0
  {
    var k := RoundHalfEven(x * 10.0);
    assert k % 2 == 0;
    TenthsOf(k);
    assert RoundTenth(x) * 10.0 == k as real;
  }

  lemma RoundHalfEvenMonotone(s: real, t: real)
    requires s <= t
    ensures RoundHalfEven(s) <= RoundHalfEven(t)
  {
    var ns, nt := s.Floor, t.Floor;
    assert ns <= nt;
  }

  lemma RoundTenthMonotone(x: real, y: real)
    requires x <= y
    ensures RoundTenth(x) <= RoundTenth(y)
  {
    RoundHalfEvenMonotone(x * 10.0, y * 10.0);
  }

  /** A value that already is a tenth is left unchanged, so rounding is
      idempotent. */
  lemma RoundTenthOfTenth(x: real)
    requires IsTenth(x)
    ensures RoundTenth(x) == x
    ensures RoundTenth(RoundTenth(x)) == RoundTenth(x)
  {
    var n := (x * 10.0).Floor;
    assert RoundHalfEven(x * 10.0) == n;
  }

  /** Rounding keeps a value of [0, 100] inside [0, 100]. */
  lemma RoundTenthKeepsBounds(x: real)
    requires 0.0 <= x <= 100.0
    ensures 0.0 <= RoundTenth(x) <= 100.0
  {
    RoundTenthOfTenth(0.0);
    RoundTenthOfTenth(100.0);
    RoundTenthMonotone(0.0, x);
    RoundTenthMonotone(x, 100.0);
  }

  // ---------------------------------------------------------------------------
  // The scorer
  // ---------------------------------------------------------------------------

  /** Signals.calculate_macro_regime_score: the composite rounded to one
      decimal.  The result is a tenth, within [0, 100], and within 0.05 of the
      unrounded composite. */
  function MacroRegimeScore(gdpGrowth: real, inflation: real, unemployment: real,
                            manufacturingIndex: real, realRate: real,
                            yieldCurveSpread: real, fedStance: real): (r: real)
    ensures 0.0 <= r <= 100.0
    ensures IsTenth(r)
    ensures Abs(r - RegimeComposite(gdpGrowth, inflation, unemployment,
                                    manufacturingIndex, yieldCurveSpread, fedStance)) <= 0.05
  {
    var c := RegimeComposite(gdpGrowth, inflation, unemployment,
                             manufacturingIndex, yieldCurveSpread, fedStance);
    RoundTenthKeepsBounds(c);
    RoundTenth(c)
  }

  /** Two calls that differ only in real_rate return the same score. */
  lemma RealRateIgnored(gdpGrowth: real, inflation: real, unemployment: real,
                        manufacturingIndex: real, realRate1: real, realRate2: real,
                        yieldCurveSpread: real, fedStance: real)
    ensures MacroRegimeScore(gdpGrowth, inflation, unemployment, manufacturingIndex,
                             realRate1, yieldCurveSpread, fedStance)
         == MacroRegimeScore(gdpGrowth, inflation, unemployment, manufacturingIndex,
                             realRate2, yieldCurveSpread, fedStance)
  {
  }

  /** More growth, a stronger manufacturing reading or a steeper curve never
      lowers the score, even after rounding. */
  lemma ScoreMonotone(g1: real, g2: real, inflation: real, unemployment: real,
                      m1: real, m2: real, realRate: real, y1: real, y2: real,
                      fedStance: real)
    requires g1 <= g2 && m1 <= m2 && y1 <= y2
    ensures MacroRegimeScore(g1, inflation, unemployment, m1, realRate, y1, fedStance)
         <= MacroRegimeScore(g2, inflation, unemployment, m2, realRate, y2, fedStance)
  {
    GrowthMonotone(g1, g2);
    ManufacturingMonotone(m1, m2);
    CurveMonotone(y1, y2);
    RoundTenthMonotone(RegimeComposite(g1, inflation, unemployment, m1, y1, fedStance),
                       RegimeComposite(g2, inflation, unemployment, m2, y2, fedStance));
  }

  /** A concrete reading: growth 4.4, inflation 2.65, unemployment 4.1,
      manufacturing 10, real rate 1.92, spread 0.15, fed stance 2.0.  The
      sub-scores are 220/3, 80.5, 100, 70, 50.075 and 20, the composite is
      166667/2400 (about 69.4446) and the returned score is 69.4. */
  lemma ExampleReading()
    ensures CurveScore(0.15) == 50.075
    ensures RegimeComposite(4.4, 2.65, 4.1, 10.0, 0.15, 2.0) == 166667.0 / 2400.0
    ensures MacroRegimeScore(4.4, 2.65, 4.1, 10.0, 1.92, 0.15, 2.0) == 69.4
  {
    assert GrowthScore(4.4) == 220.0 / 3.0;
    assert InflationScore(2.65) == 80.5;
    assert EmploymentScore(4.1) == 100.0;
    assert ManufacturingScore(10.0) == 70.0;
    assert FedScore(2.0) == 20.0;
    var c := RegimeComposite(4.4, 2.65, 4.1, 10.0, 0.15, 2.0);
    assert c == 166667.0 / 2400.0;
    assert 694.0 <= c * 10.0 < 695.0;
    assert (c * 10.0).Floor == 694;
  }
}
