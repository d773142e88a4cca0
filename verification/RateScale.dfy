/**
 * calculate_cashback of migration 009: what one purchase earns under the terms
 * of one campaign.  Amounts are NUMERIC roubles, modelled as exact reals; the
 * result is rounded to whole kopecks.
 */
module RateScale {
  import opened Prelude

  type Mcc = string

  /** One element of rate_tiers; max == None is a tier without upper bound. */
  datatype Tier = Tier(min: real, max: Option<real>, rate: real)

  /** The columns calculate_cashback reads; an empty scale means the flat rate. */
  datatype Terms = Terms(
    rate: real,
    tiers: seq<Tier>,
    minAmount: Option<real>,
    categories: map<Mcc, Option<real>>)

  /** ROUND(x, 2) in kopecks: halves are rounded away from zero. */
  function RoundKopecks(x: real): int {
    if x >= 0.0 then (x * 100.0 + 0.5).Floor else -((-x * 100.0 + 0.5).Floor)
  }

  // ---- the scale as a sum over its tiers, in any order ----------------------

  function Segment(t: Tier, amount: real): real {
    (if t.max.Some? then MinReal(amount, t.max.value) else amount) - t.min
  }

  function Covered(t: Tier, amount: real): real {
    if Segment(t, amount) > 0.0 then Segment(t, amount) else 0.0
  }

  function Earned(t: Tier, amount: real): real {
    Covered(t, amount) * t.rate / 100.0
  }

  function TierSum(tiers: seq<Tier>, amount: real): real {
    if tiers == [] then 0.0 else Earned(tiers[0], amount) + TierSum(tiers[1..], amount)
  }

  /** COALESCE(category minimum, campaign minimum). */
  function EffectiveMin(terms: Terms, mcc: Mcc): Option<real>
    requires mcc in terms.categories
  {
    if terms.categories[mcc].Some? then terms.categories[mcc] else terms.minAmount
  }

  function BeforeRounding(terms: Terms, mcc: Mcc, amount: real): real {
    if mcc !in terms.categories then 0.0
    else if EffectiveMin(terms, mcc).Some? && amount < EffectiveMin(terms, mcc).value then 0.0
    else if terms.tiers == [] then amount * terms.rate / 100.0
    else TierSum(terms.tiers, amount)
  }

  /** What calculate_cashback returns, in kopecks. */
  function Cashback(terms: Terms, mcc: Mcc, amount: real): int {
    RoundKopecks(BeforeRounding(terms, mcc, amount))
  }

  // ---- ORDER BY min_amt ------------------------------------------------------

  ghost predicate SortedByMin(ts: seq<Tier>) {
    ts == [] || ((forall t <- ts[1..] :: ts[0].min <= t.min) && SortedByMin(ts[1..]))
  }

  function InsertByMin(t: Tier, ts: seq<Tier>): (r: seq<Tier>)
    requires SortedByMin(ts)
    ensures SortedByMin(r) && multiset(r) == multiset(ts) + multiset{t}
    ensures forall x <- r :: x in ts || x == t
  {
    if ts == [] then [t]
    else
      assert ts == [ts[0]] + ts[1..];
      if t.min <= ts[0].min then [t] + ts
      else [ts[0]] + InsertByMin(t, ts[1..])
  }

  function OrderByMin(ts: seq<Tier>): (r: seq<Tier>)
    ensures SortedByMin(r) && multiset(r) == multiset(ts)
  {
    if ts == [] then []
    else
      assert ts == [ts[0]] + ts[1..];
      InsertByMin(ts[0], OrderByMin(ts[1..]))
  }

  lemma {:induction false} TierSumOfConcat(a: seq<Tier>, b: seq<Tier>, amount: real)
    ensures TierSum(a + b, amount) == TierSum(a, amount) + TierSum(b, amount)
  {
    if a == [] {
      assert a + b == b;
    } else {
      assert (a + b)[1..] == a[1..] + b;
      TierSumOfConcat(a[1..], b, amount);
    }
  }

  /** The order in which the database returns the tiers does not matter. */
  lemma {:induction false} TierSumIgnoresOrder(a: seq<Tier>, b: seq<Tier>, amount: real)
    requires multiset(a) == multiset(b)
    ensures TierSum(a, amount) == TierSum(b, amount)
  {
    if a == [] {
      assert |multiset(b)| == 0;
    } else {
      var i := FindInPermutation(a, b);
      TierSumIgnoresOrder(a[1..], b[..i] + b[i + 1..], amount);
      TierSumOfConcat(b[..i], b[i + 1..], amount);
      TierSumOfConcat(b[..i], b[i..], amount);
      assert b == b[..i] + b[i..];
      assert b[i..][1..] == b[i + 1..];
    }
  }

  /** Tiers that start at or above the amount add nothing: the loop may leave there. */
  lemma {:induction false} NothingAboveAmount(ts: seq<Tier>, amount: real)
    requires forall t <- ts :: amount <= t.min
    ensures TierSum(ts, amount) == 0.0
  {
    if ts != [] {
      NothingAboveAmount(ts[1..], amount);
    }
  }

  lemma TierSumStep(ts: seq<Tier>, i: nat, amount: real)
    requires i < |ts|
    ensures TierSum(ts[i..], amount) == Earned(ts[i], amount) + TierSum(ts[i + 1..], amount)
  {
    assert ts[i..][1..] == ts[i + 1..];
  }

  lemma SortedTail(ts: seq<Tier>, i: nat)
    requires SortedByMin(ts) && i < |ts|
    ensures forall t <- ts[i..] :: ts[i].min <= t.min
    ensures SortedByMin(ts[i..])
  {
    if i > 0 {
      SortedTail(ts[1..], i - 1);
      assert ts[1..][i - 1..] == ts[i..];
    }
  }

  /** What the loop body adds for one tier. */
  lemma SegmentEarns(tier: Tier, amount: real, segment: real)
    requires segment == Segment(tier, amount)
    ensures segment > 0.0 ==> Earned(tier, amount) == segment * tier.rate / 100.0
    ensures segment <= 0.0 ==> Earned(tier, amount) == 0.0
  {
  }

  /** The FOR loop over the sorted tiers, with its early EXIT. */
  method WalkTiers(ordered: seq<Tier>, amount: real) returns (cashback: real)
    requires SortedByMin(ordered)
    ensures cashback == TierSum(ordered, amount)
  {
    cashback := 0.0;
    for i := 0 to |ordered|
      invariant cashback + TierSum(ordered[i..], amount) == TierSum(ordered, amount)
    {
      var tier := ordered[i];
      if amount <= tier.min {
        SortedTail(ordered, i);
        NothingAboveAmount(ordered[i..], amount);
        return;
      }
      var segment := (if tier.max.Some? then MinReal(amount, tier.max.value) else amount) - tier.min;
      TierSumStep(ordered, i, amount);
      SegmentEarns(tier, amount, segment);
      if segment > 0.0 {
        cashback := cashback + segment * tier.rate / 100.0;
      }
    }
  }

  /** The PL/pgSQL body. */
  method CalculateCashback(terms: Terms, mcc: Mcc, amount: real) returns (kopecks: int)
    ensures kopecks == Cashback(terms, mcc, amount)
  {
    if mcc !in terms.categories {
      return 0;
    }
    var floor := if terms.categories[mcc].Some? then terms.categories[mcc] else terms.minAmount;
    if floor.Some? && amount < floor.value {
      return 0;
    }
    if |terms.tiers| == 0 {
      return RoundKopecks(amount * terms.rate / 100.0);
    }
    var ordered := OrderByMin(terms.tiers);
    var cashback := WalkTiers(ordered, amount);
    TierSumIgnoresOrder(ordered, terms.tiers, amount);
    kopecks := RoundKopecks(cashback);
  }
}
