/** What calculate_cashback guarantees for every amount and every scale. */
module RateScaleLaws {
  import opened Prelude
  import opened RateScale

  // ---- rounding ----------------------------------------------------------------

  lemma RoundingIsMonotone(x: real, y: real)
    requires x <= y
    ensures RoundKopecks(x) <= RoundKopecks(y)
  {
  }

  lemma RoundingIsWithinHalfKopeck(x: real)
    requires 0.0 <= x
    ensures 0 <= RoundKopecks(x)
    ensures x * 100.0 - 0.5 < RoundKopecks(x) as real <= x * 100.0 + 0.5
  {
  }

  /** The nearest kopeck, and of two equally near ones the larger in absolute value. */
  lemma RoundsHalvesAway(x: real)
    ensures -0.5 <= RoundKopecks(x) as real - x * 100.0 <= 0.5
    ensures 0.0 <= x ==> RoundKopecks(x) as real - x * 100.0 > -0.5
    ensures RoundKopecks(-x) == -RoundKopecks(x)
  {
    assert -x * 100.0 == -(x * 100.0);
    if 0.0 <= x {
      RoundingIsWithinHalfKopeck(x);
    } else {
      RoundingIsWithinHalfKopeck(-x);
    }
  }

  // ---- which minimum, which rate -----------------------------------------------------------

  /**
   * Nothing outside the campaign's categories; the category's own minimum decides
   * whenever it has one, and only else the campaign's; then the flat rate, or the
   * scale if there is one.
   */
  lemma CashbackBelowMinimum(terms: Terms, mcc: Mcc, amount: real)
    ensures mcc !in terms.categories ==> Cashback(terms, mcc, amount) == 0
    ensures mcc in terms.categories && terms.categories[mcc].Some? && amount < terms.categories[mcc].value ==>
      Cashback(terms, mcc, amount) == 0
    ensures mcc in terms.categories && terms.categories[mcc].None?
            && terms.minAmount.Some? && amount < terms.minAmount.value ==>
      Cashback(terms, mcc, amount) == 0
    ensures
      && mcc in terms.categories
      && (terms.categories[mcc].Some? ==> terms.categories[mcc].value <= amount)
      && (terms.categories[mcc].None? && terms.minAmount.Some? ==> terms.minAmount.value <= amount) ==>
        Cashback(terms, mcc, amount) == RoundKopecks(
          if terms.tiers == [] then amount * terms.rate / 100.0 else TierSum(terms.tiers, amount))
  {
    if mcc in terms.categories && (EffectiveMin(terms, mcc).Some? ==> EffectiveMin(terms, mcc).value <= amount) {
      assert BeforeRounding(terms, mcc, amount)
          == if terms.tiers == [] then amount * terms.rate / 100.0 else TierSum(terms.tiers, amount);
    }
  }

  /** Between two amounts a tier earns its rate inside its bounds, and nothing outside them. */
  lemma TierIsMarginal(t: Tier, a: real, b: real)
    requires a <= b
    ensures t.min <= a && (t.max.Some? ==> b <= t.max.value) ==> Earned(t, b) - Earned(t, a) == (b - a) * t.rate / 100.0
    ensures b <= t.min || (t.max.Some? && t.max.value <= a) ==> Earned(t, b) == Earned(t, a)
  {
    if t.min <= a && (t.max.Some? ==> b <= t.max.value) {
      assert Covered(t, b) - Covered(t, a) == b - a;
      RateOfDifference(Covered(t, a), Covered(t, b), t.rate);
    }
  }

  lemma RateOfDifference(x: real, y: real, rate: real)
    ensures y * rate / 100.0 - x * rate / 100.0 == (y - x) * rate / 100.0
  {
  }

  lemma {:induction false} NothingBetween(ts: seq<Tier>, a: real, b: real)
    requires a <= b && forall t <- ts :: b <= t.min || (t.max.Some? && t.max.value <= a)
    ensures TierSum(ts, b) == TierSum(ts, a)
  {
    if ts != [] {
      TierIsMarginal(ts[0], a, b);
      NothingBetween(ts[1..], a, b);
    }
  }

  /** All tiers but the first one are elsewhere. */
  lemma FirstTierOnly(ts: seq<Tier>, a: real, b: real)
    requires NonOverlapping(ts) && ts != [] && ts[0].min <= a < b && (ts[0].max.Some? ==> b <= ts[0].max.value)
    ensures TierSum(ts[1..], b) == TierSum(ts[1..], a)
  {
    forall t <- ts[1..] ensures b <= t.min || (t.max.Some? && t.max.value <= a) {
      var j :| 0 <= j < |ts[1..]| && ts[1..][j] == t;
      assert Disjoint(ts[0], ts[j + 1]);
    }
    NothingBetween(ts[1..], a, b);
  }

  lemma {:induction false} OneTierGains(ts: seq<Tier>, k: nat, a: real, b: real)
    requires NonOverlapping(ts) && k < |ts| && ts[k].min <= a < b && (ts[k].max.Some? ==> b <= ts[k].max.value)
    ensures TierSum(ts, b) - TierSum(ts, a) == Earned(ts[k], b) - Earned(ts[k], a)
  {
    if k == 0 {
      FirstTierOnly(ts, a, b);
    } else {
      assert Disjoint(ts[0], ts[k]);
      TierIsMarginal(ts[0], a, b);
      NonOverlappingTail(ts);
      OneTierGains(ts[1..], k - 1, a, b);
    }
  }

  /** Inside its bounds a tier gains this much between two amounts. */
  lemma TierGains(t: Tier, a: real, b: real, gain: real)
    requires t.min <= a < b && (t.max.Some? ==> b <= t.max.value) && gain == (b - a) * t.rate / 100.0
    ensures Earned(t, b) - Earned(t, a) == gain
  {
    TierIsMarginal(t, a, b);
  }

  /**
   * The scale is progressive: what the purchase gains between a and b inside tier
   * k is that tier's rate of b - a, and nothing between tiers.  With nothing
   * earned below the first tier this fixes the scale everywhere.
   */
  lemma ScaleIsMarginal(ts: seq<Tier>, k: nat, a: real, b: real, gain: real)
    requires NonOverlapping(ts) && k < |ts| && ts[k].min <= a < b && (ts[k].max.Some? ==> b <= ts[k].max.value)
    requires gain == (b - a) * ts[k].rate / 100.0
    ensures TierSum(ts, b) - TierSum(ts, a) == gain
  {
    TierGains(ts[k], a, b, gain);
    OneTierGains(ts, k, a, b);
  }

  // ---- monotone in the amount ------------------------------------------------------

  ghost predicate RatesNonNegative(terms: Terms) {
    0.0 <= terms.rate && forall t <- terms.tiers :: 0.0 <= t.rate
  }

  lemma ScaledByRate(x: real, y: real, rate: real)
    requires x <= y && 0.0 <= rate
    ensures x * rate / 100.0 <= y * rate / 100.0
  {
  }

  lemma EarnedMonotone(t: Tier, a: real, b: real)
    requires a <= b && 0.0 <= t.rate
    ensures 0.0 <= Earned(t, a) <= Earned(t, b)
  {
    ScaledByRate(0.0, Covered(t, a), t.rate);
    ScaledByRate(Covered(t, a), Covered(t, b), t.rate);
  }

  lemma {:induction false} TierSumMonotone(ts: seq<Tier>, a: real, b: real)
    requires a <= b && forall t <- ts :: 0.0 <= t.rate
    ensures 0.0 <= TierSum(ts, a) <= TierSum(ts, b)
  {
    if ts != [] {
      EarnedMonotone(ts[0], a, b);
      TierSumMonotone(ts[1..], a, b);
    }
  }

  /** A larger purchase never earns less, cut-off and rounding included. */
  lemma CashbackMonotone(terms: Terms, mcc: Mcc, a: real, b: real)
    requires RatesNonNegative(terms) && 0.0 <= a <= b
    ensures 0 <= Cashback(terms, mcc, a) <= Cashback(terms, mcc, b)
  {
    TierSumMonotone(terms.tiers, a, b);
    ScaledByRate(0.0, a, terms.rate);
    ScaledByRate(a, b, terms.rate);
    RoundingIsMonotone(0.0, BeforeRounding(terms, mcc, a));
    RoundingIsMonotone(BeforeRounding(terms, mcc, a), BeforeRounding(terms, mcc, b));
  }

  // ---- never more than the purchase ---------------------------------------------------

  /** [t.min, t.max) and [u.min, u.max) share no amount. */
  ghost predicate Disjoint(t: Tier, u: Tier) {
    (t.max.Some? && t.max.value <= u.min) || (u.max.Some? && u.max.value <= t.min)
  }

  ghost predicate NonOverlapping(ts: seq<Tier>) {
    forall i, j :: 0 <= i < j < |ts| ==> Disjoint(ts[i], ts[j])
  }

  lemma {:induction false} NonOverlappingIgnoresOrder(a: seq<Tier>, b: seq<Tier>)
    requires multiset(a) == multiset(b) && NonOverlapping(a)
    ensures NonOverlapping(b)
  {
    if a != [] {
      var i := FindInPermutation(a, b);
      var rest := b[..i] + b[i + 1..];
      NonOverlappingIgnoresOrder(a[1..], rest);
      forall j | 0 <= j < |b| && j != i ensures Disjoint(b[i], b[j]) {
        assert b[j] == rest[if j < i then j else j - 1];
        assert b[j] in multiset(rest);
        assert b[j] in multiset(a[1..]);
        var k :| 0 <= k < |a[1..]| && a[1..][k] == b[j];
        assert Disjoint(a[0], a[k + 1]);
      }
      forall j, k | 0 <= j < k < |b| ensures Disjoint(b[j], b[k]) {
        if j != i && k != i {
          var j', k' := if j < i then j else j - 1, if k < i then k else k - 1;
          assert Disjoint(rest[j'], rest[k']);
        } else if j == i {
          assert Disjoint(b[i], b[k]);
        } else {
          assert Disjoint(b[i], b[j]);
        }
      }
    } else {
      assert |multiset(b)| == 0;
    }
  }

  lemma EarnedAtMostCovered(t: Tier, amount: real)
    requires 0.0 <= t.rate <= 100.0
    ensures Earned(t, amount) <= Covered(t, amount)
  {
    ScaledByRate(t.rate, 100.0, Covered(t, amount));
  }

  lemma NonOverlappingTail(ts: seq<Tier>)
    requires NonOverlapping(ts) && ts != []
    ensures NonOverlapping(ts[1..])
    ensures forall u <- ts[1..] :: Disjoint(ts[0], u)
  {
    forall i, j | 0 <= i < j < |ts[1..]| ensures Disjoint(ts[1..][i], ts[1..][j]) {
      assert Disjoint(ts[i + 1], ts[j + 1]);
    }
    forall u <- ts[1..] ensures Disjoint(ts[0], u) {
      var k :| 0 <= k < |ts[1..]| && ts[1..][k] == u;
      assert Disjoint(ts[0], ts[k + 1]);
    }
  }

  /** Non-overlapping sorted tiers from `low` up cover at most amount - low. */
  lemma {:induction false} CoverageBound(ts: seq<Tier>, amount: real, low: real)
    requires SortedByMin(ts) && NonOverlapping(ts) && low <= amount
    requires forall t <- ts :: 0.0 <= t.rate <= 100.0
    requires forall t <- ts :: Segment(t, amount) > 0.0 ==> low <= t.min
    ensures TierSum(ts, amount) <= amount - low
  {
    if ts != [] {
      var t := ts[0];
      NonOverlappingTail(ts);
      if Segment(t, amount) > 0.0 {
        var high := if t.max.Some? then MinReal(amount, t.max.value) else amount;
        CoverageBound(ts[1..], amount, high);
        EarnedAtMostCovered(t, amount);
      } else {
        CoverageBound(ts[1..], amount, low);
        EarnedAtMostCovered(t, amount);
      }
    }
  }

  ghost predicate ProperScale(terms: Terms) {
    && 0.0 <= terms.rate <= 100.0
    && (forall t <- terms.tiers :: 0.0 <= t.min && 0.0 <= t.rate <= 100.0)
    && NonOverlapping(terms.tiers)
  }

  lemma FlatWithinAmount(amount: real, rate: real)
    requires 0.0 <= amount && 0.0 <= rate <= 100.0
    ensures 0.0 <= amount * rate / 100.0 <= amount
  {
    ScaledByRate(0.0, amount, rate);
    ScaledByRate(rate, 100.0, amount);
  }

  lemma BeforeRoundingWithinAmount(terms: Terms, mcc: Mcc, amount: real)
    requires ProperScale(terms) && 0.0 <= amount
    ensures 0.0 <= BeforeRounding(terms, mcc, amount) <= amount
  {
    var ordered := OrderByMin(terms.tiers);
    forall t <- ordered ensures t in terms.tiers {
      assert t in multiset(ordered);
    }
    NonOverlappingIgnoresOrder(terms.tiers, ordered);
    CoverageBound(ordered, amount, 0.0);
    TierSumIgnoresOrder(terms.tiers, ordered, amount);
    TierSumMonotone(terms.tiers, amount, amount);
    FlatWithinAmount(amount, terms.rate);
  }

  /** Rounding cannot pay back more than a purchase given in whole kopecks. */
  lemma CashbackWithinAmount(terms: Terms, mcc: Mcc, amountKopecks: nat)
    requires ProperScale(terms)
    ensures 0 <= Cashback(terms, mcc, amountKopecks as real / 100.0) <= amountKopecks
  {
    var amount := amountKopecks as real / 100.0;
    BeforeRoundingWithinAmount(terms, mcc, amount);
    RoundingIsMonotone(0.0, BeforeRounding(terms, mcc, amount));
    RoundingIsMonotone(BeforeRounding(terms, mcc, amount), amount);
    assert amount * 100.0 == amountKopecks as real;
  }

  /** The listener passes amounts with any number of decimals: half a kopeck rounds up. */
  lemma FractionOfKopeckRoundsUp()
    ensures var terms := Terms(100.0, [], None, map["5411" := None]);
            ProperScale(terms) && Cashback(terms, "5411", 0.005) as real / 100.0 > 0.005
  {
    var terms := Terms(100.0, [], None, map["5411" := None]);
    assert BeforeRounding(terms, "5411", 0.005) == 0.005;
    assert (0.005 * 100.0 + 0.5) == 1.0;
  }

  /** All of the purchase back, whatever the category. */
  function FullBack(mcc: Mcc): Terms {
    Terms(100.0, [], None, map[mcc := None])
  }

  /** No proper scale pays more than the purchase. */
  ghost predicate NeverPaysMore(mcc: Mcc, amount: real) {
    forall terms :: ProperScale(terms) ==> Cashback(terms, mcc, amount) as real <= amount * 100.0
  }

  function FractionOfKopeck(amount: real): real {
    amount * 100.0 - (amount * 100.0).Floor as real
  }

  /**
   * Rounding stays within the purchase exactly when the amount's fraction of a
   * kopeck is below one half: a caller can check that on the amount.
   */
  lemma NeverPaysMoreIffFractionBelowHalf(mcc: Mcc, amount: real)
    requires 0.0 <= amount
    ensures NeverPaysMore(mcc, amount) <==> FractionOfKopeck(amount) < 0.5
  {
    RoundsDownIff(amount);
    FullBackIsProper(mcc, amount);
    if FractionOfKopeck(amount) < 0.5 {
      forall terms | ProperScale(terms) ensures Cashback(terms, mcc, amount) as real <= amount * 100.0 {
        AtMostRoundedAmount(terms, mcc, amount);
      }
    }
  }

  lemma RoundsDownIff(amount: real)
    requires 0.0 <= amount
    ensures RoundKopecks(amount) as real <= amount * 100.0 <==> FractionOfKopeck(amount) < 0.5
  {
    var x := amount * 100.0;
    FloorIs(x + 0.5, if x - x.Floor as real < 0.5 then x.Floor else x.Floor + 1);
  }

  lemma FloorIs(y: real, n: int)
    requires n as real <= y < (n + 1) as real
    ensures y.Floor == n
  {
  }

  lemma AtMostRoundedAmount(terms: Terms, mcc: Mcc, amount: real)
    requires ProperScale(terms) && 0.0 <= amount
    ensures Cashback(terms, mcc, amount) <= RoundKopecks(amount)
  {
    BeforeRoundingWithinAmount(terms, mcc, amount);
    RoundingIsMonotone(BeforeRounding(terms, mcc, amount), amount);
  }

  lemma FullBackIsProper(mcc: Mcc, amount: real)
    ensures ProperScale(FullBack(mcc)) && Cashback(FullBack(mcc), mcc, amount) == RoundKopecks(amount)
  {
    assert BeforeRounding(FullBack(mcc), mcc, amount) == amount;
  }

  // ---- contiguous scales ----------------------------------------------------------------

  /** Tiers that follow each other without gap from `low`; the last one may be open. */
  ghost predicate Contiguous(ts: seq<Tier>, low: real)
    decreases |ts|
  {
    && ts != [] && ts[0].min == low
    && (ts[0].max.Some? ==> low < ts[0].max.value)
    && (|ts| > 1 ==> ts[0].max.Some? && Contiguous(ts[1..], ts[0].max.value))
  }

  ghost predicate RatesDoNotFall(ts: seq<Tier>, least: real)
    decreases |ts|
  {
    ts != [] ==> least <= ts[0].rate && RatesDoNotFall(ts[1..], ts[0].rate)
  }

  function Last(ts: seq<Tier>): Tier
    requires ts != []
  {
    ts[|ts| - 1]
  }

  function Above(x: real, low: real): real { if x > low then x - low else 0.0 }

  /** One rate on contiguous open tiers is the flat rate. */
  lemma {:induction false} OneRateIsFlat(ts: seq<Tier>, low: real, rate: real, amount: real)
    requires Contiguous(ts, low) && Last(ts).max.None?
    requires forall t <- ts :: t.rate == rate
    ensures TierSum(ts, amount) == Above(amount, low) * rate / 100.0
    decreases |ts|
  {
    if |ts| > 1 {
      var next := ts[0].max.value;
      OneRateIsFlat(ts[1..], next, rate, amount);
      assert Covered(ts[0], amount) == Above(amount, low) - Above(amount, next);
      assert (Above(amount, low) - Above(amount, next)) * rate + Above(amount, next) * rate
          == Above(amount, low) * rate;
    } else {
      assert TierSum(ts[1..], amount) == 0.0;
    }
  }

  lemma EqualRatesEqualFlat(terms: Terms, mcc: Mcc, amount: real)
    requires 0.0 <= amount && terms.tiers != []
    requires Contiguous(terms.tiers, 0.0) && Last(terms.tiers).max.None?
    requires forall t <- terms.tiers :: t.rate == terms.rate
    ensures Cashback(terms, mcc, amount) == Cashback(terms.(tiers := []), mcc, amount)
  {
    OneRateIsFlat(terms.tiers, 0.0, terms.rate, amount);
    assert Above(amount, 0.0) == amount;
    assert BeforeRounding(terms, mcc, amount) == BeforeRounding(terms.(tiers := []), mcc, amount);
  }

  // ---- superadditivity --------------------------------------------------------------------

  function Weighted(x: real, rate: real): real { x * rate / 100.0 }

  lemma WeightedSum(x: real, y: real, rate: real)
    ensures Weighted(x + y, rate) == Weighted(x, rate) + Weighted(y, rate)
    ensures Weighted(x - y, rate) == Weighted(x, rate) - Weighted(y, rate)
  {
  }

  lemma WeightedRate(x: real, rate: real, less: real)
    ensures Weighted(x, rate - less) == Weighted(x, rate) - Weighted(x, less)
  {
  }

  /** The part above a threshold is superadditive, and so is any non-negative multiple of it. */
  lemma AboveSuperadditive(a: real, b: real, low: real, rate: real)
    requires 0.0 <= a && 0.0 <= b && 0.0 <= low && 0.0 <= rate
    ensures Weighted(Above(a, low), rate) + Weighted(Above(b, low), rate)
         <= Weighted(Above(a + b, low), rate)
  {
    WeightedSum(Above(a, low), Above(b, low), rate);
    ScaledByRate(Above(a, low) + Above(b, low), Above(a + b, low), rate);
  }

  lemma EarnedByThresholds(t: Tier, amount: real)
    requires t.max.Some? ==> t.min < t.max.value
    ensures Earned(t, amount) == Weighted(Above(amount, t.min), t.rate)
          - (if t.max.Some? then Weighted(Above(amount, t.max.value), t.rate) else 0.0)
  {
    if t.max.Some? {
      WeightedSum(Above(amount, t.min), Above(amount, t.max.value), t.rate);
      assert Covered(t, amount) == Above(amount, t.min) - Above(amount, t.max.value);
    }
  }

  /** What a scale adds on top of `least` percent from `low` up. */
  function Excess(ts: seq<Tier>, low: real, least: real, x: real): real {
    TierSum(ts, x) - Weighted(Above(x, low), least)
  }

  lemma ExcessOfFirst(ts: seq<Tier>, low: real, least: real, x: real)
    requires Contiguous(ts, low) && Last(ts).max.None?
    ensures Excess(ts, low, least, x) == Weighted(Above(x, low), ts[0].rate - least)
          + (if |ts| > 1 then Excess(ts[1..], ts[0].max.value, ts[0].rate, x) else 0.0)
  {
    EarnedByThresholds(ts[0], x);
    WeightedRate(Above(x, low), ts[0].rate, least);
    assert TierSum(ts, x) == Earned(ts[0], x) + TierSum(ts[1..], x);
    if |ts| == 1 {
      assert ts[1..] == [] && Last(ts) == ts[0];
    } else {
      assert ts[0].max.Some?;
    }
  }

  lemma {:induction false} ExcessSuperadditive(ts: seq<Tier>, low: real, least: real, a: real, b: real)
    requires Contiguous(ts, low) && Last(ts).max.None? && RatesDoNotFall(ts, least)
    requires 0.0 <= a && 0.0 <= b && 0.0 <= low
    ensures Excess(ts, low, least, a) + Excess(ts, low, least, b) <= Excess(ts, low, least, a + b)
    decreases |ts|
  {
    ExcessOfFirst(ts, low, least, a);
    ExcessOfFirst(ts, low, least, b);
    ExcessOfFirst(ts, low, least, a + b);
    AboveSuperadditive(a, b, low, ts[0].rate - least);
    if |ts| > 1 {
      ExcessSuperadditive(ts[1..], ts[0].max.value, ts[0].rate, a, b);
    }
  }

  lemma TierSumSuperadditive(ts: seq<Tier>, a: real, b: real)
    requires Contiguous(ts, 0.0) && Last(ts).max.None? && RatesDoNotFall(ts, 0.0)
    requires 0.0 <= a && 0.0 <= b
    ensures TierSum(ts, a) + TierSum(ts, b) <= TierSum(ts, a + b)
  {
    ExcessSuperadditive(ts, 0.0, 0.0, a, b);
    assert forall x: real :: Weighted(x, 0.0) == 0.0;
  }

  /** A scale whose tiers, once sorted, follow each other from 0 with rates that never fall. */
  ghost predicate Progressive(terms: Terms) {
    && 0.0 <= terms.rate
    && (terms.tiers != [] ==>
          var ordered := OrderByMin(terms.tiers);
          ordered != [] && Contiguous(ordered, 0.0) && RatesDoNotFall(ordered, 0.0))
  }

  ghost predicate OpenEnded(terms: Terms) {
    terms.tiers != [] ==>
      var ordered := OrderByMin(terms.tiers);
      ordered != [] && Last(ordered).max.None?
  }

  lemma {:induction false} RatesStayAbove(ts: seq<Tier>, least: real)
    requires RatesDoNotFall(ts, least)
    ensures forall t <- ts :: least <= t.rate
    ensures forall t <- ts :: t.rate <= Last(ts).rate
    decreases |ts|
  {
    if ts != [] {
      RatesStayAbove(ts[1..], ts[0].rate);
    }
  }

  lemma ProgressiveRates(terms: Terms)
    requires Progressive(terms)
    ensures RatesNonNegative(terms)
  {
    if terms.tiers != [] {
      var ordered := OrderByMin(terms.tiers);
      RatesStayAbove(ordered, 0.0);
      forall t <- terms.tiers ensures 0.0 <= t.rate {
        assert t in multiset(ordered);
      }
    }
  }

  /**
   * Splitting a purchase in two never earns more: exactly before ROUND, and at
   * most one kopeck more after it, the minimum-amount cut-off included.
   */
  lemma SplittingNeverPays(terms: Terms, mcc: Mcc, a: real, b: real)
    requires Progressive(terms) && OpenEnded(terms) && 0.0 <= a && 0.0 <= b
    ensures BeforeRounding(terms, mcc, a) + BeforeRounding(terms, mcc, b)
         <= BeforeRounding(terms, mcc, a + b)
    ensures Cashback(terms, mcc, a) + Cashback(terms, mcc, b) <= Cashback(terms, mcc, a + b) + 1
  {
    var ordered := OrderByMin(terms.tiers);
    ProgressiveRates(terms);
    TierSumIgnoresOrder(terms.tiers, ordered, a);
    TierSumIgnoresOrder(terms.tiers, ordered, b);
    TierSumIgnoresOrder(terms.tiers, ordered, a + b);
    if terms.tiers != [] {
      TierSumSuperadditive(ordered, a, b);
    }
    TierSumMonotone(terms.tiers, a, a + b);
    TierSumMonotone(terms.tiers, b, a + b);
    ScaledByRate(0.0, a, terms.rate);
    ScaledByRate(0.0, b, terms.rate);
    ScaledByRate(0.0, a + b, terms.rate);
    WeightedSum(a, b, terms.rate);
    RoundedSum(BeforeRounding(terms, mcc, a), BeforeRounding(terms, mcc, b));
    RoundingIsMonotone(BeforeRounding(terms, mcc, a) + BeforeRounding(terms, mcc, b),
                       BeforeRounding(terms, mcc, a + b));
  }

  lemma RoundedSum(x: real, y: real)
    requires 0.0 <= x && 0.0 <= y
    ensures RoundKopecks(x) + RoundKopecks(y) <= RoundKopecks(x + y) + 1
  {
    RoundingIsWithinHalfKopeck(x);
    RoundingIsWithinHalfKopeck(y);
    RoundingIsWithinHalfKopeck(x + y);
  }

  /** The one kopeck is reached: 1% of 0.50 twice against 1% of 1.00. */
  lemma SplittingCanGainOneKopeck()
    ensures var terms := Terms(1.0, [], None, map["5411" := None]);
            Cashback(terms, "5411", 0.5) + Cashback(terms, "5411", 0.5)
            == Cashback(terms, "5411", 1.0) + 1
  {
    var terms := Terms(1.0, [], None, map["5411" := None]);
    assert BeforeRounding(terms, "5411", 0.5) == 0.005;
    assert BeforeRounding(terms, "5411", 1.0) == 0.01;
    assert 0.005 * 100.0 + 0.5 == 1.0;
    assert 0.01 * 100.0 + 0.5 == 1.5;
  }

  // ---- a capped scale ------------------------------------------------------------------------

  lemma {:induction false} ConstantAboveTheCap(ts: seq<Tier>, low: real, x: real)
    requires Contiguous(ts, low) && Last(ts).max.Some? && Last(ts).max.value <= x
    ensures low < Last(ts).max.value
    ensures TierSum(ts, x) == TierSum(ts, Last(ts).max.value)
    decreases |ts|
  {
    var cap := Last(ts).max.value;
    if |ts| > 1 {
      ConstantAboveTheCap(ts[1..], ts[0].max.value, x);
      assert Covered(ts[0], x) == Covered(ts[0], cap);
    } else {
      assert ts[1..] == [];
    }
  }

  lemma {:induction false} LastTierPays(ts: seq<Tier>, low: real)
    requires Contiguous(ts, low) && RatesDoNotFall(ts, 0.0)
    requires Last(ts).max.Some? && 0.0 < Last(ts).rate
    ensures 0.0 < TierSum(ts, Last(ts).max.value)
    decreases |ts|
  {
    var cap := Last(ts).max.value;
    RatesStayAbove(ts, 0.0);
    assert ts[0] in ts;
    EarnedMonotone(ts[0], cap, cap);
    if |ts| > 1 {
      LastTierPays(ts[1..], ts[0].max.value);
    } else {
      assert ts[1..] == [];
      assert Covered(ts[0], cap) * ts[0].rate > 0.0;
    }
  }

  lemma {:induction false} ZeroRatesPayNothing(ts: seq<Tier>, x: real)
    requires forall t <- ts :: t.rate == 0.0
    ensures TierSum(ts, x) == 0.0
  {
    if ts != [] {
      ZeroRatesPayNothing(ts[1..], x);
    }
  }

  /**
   * A contiguous progressive scale is superadditive exactly when its last tier
   * is open or pays nothing; a scale that stops at a paying cap is not.
   */
  lemma SuperadditiveIffUncapped(ts: seq<Tier>)
    requires Contiguous(ts, 0.0) && RatesDoNotFall(ts, 0.0)
    ensures (forall a: real, b: real :: 0.0 <= a && 0.0 <= b ==>
               TierSum(ts, a) + TierSum(ts, b) <= TierSum(ts, a + b))
       <==> (Last(ts).max.None? || Last(ts).rate == 0.0)
  {
    RatesStayAbove(ts, 0.0);
    if Last(ts).max.None? {
      forall a: real, b: real | 0.0 <= a && 0.0 <= b
        ensures TierSum(ts, a) + TierSum(ts, b) <= TierSum(ts, a + b)
      {
        TierSumSuperadditive(ts, a, b);
      }
    } else if Last(ts).rate == 0.0 {
      forall x: real ensures TierSum(ts, x) == 0.0 {
        ZeroRatesPayNothing(ts, x);
      }
    } else {
      var cap := Last(ts).max.value;
      assert Last(ts) in ts;
      ConstantAboveTheCap(ts, 0.0, cap);
      ConstantAboveTheCap(ts, 0.0, cap + cap);
      LastTierPays(ts, 0.0);
      assert TierSum(ts, cap) + TierSum(ts, cap) > TierSum(ts, cap + cap);
    }
  }
}
