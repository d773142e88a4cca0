/**
 * A/B assignment: the walk along the cumulative weight axis, the interval of
 * hash prefixes each variant gets, and the insert that keeps the first choice.
 */
module Variants {
  import opened Prelude

  /** A prefix of the MD5 digest: its first 8 hex digits. */
  const PREFIXES := 0x1_0000_0000

  function PrefixSum(weights: seq<real>, i: nat): real
    requires i <= |weights|
  {
    if i == 0 then 0.0 else PrefixSum(weights, i - 1) + weights[i - 1]
  }

  predicate NonNegative(weights: seq<real>) {
    forall i :: 0 <= i < |weights| ==> weights[i] >= 0.0
  }

  function Bucket(prefix: int): real {
    prefix as real / PREFIXES as real
  }

  /** The variant that pick_variant returns: the first whose cumulative weight exceeds the bucket, else the last. */
  predicate Chosen(weights: seq<real>, bucket: real, i: nat)
    requires i < |weights|
  {
    && (forall j :: 1 <= j <= i ==> PrefixSum(weights, j) <= bucket)
    && (bucket < PrefixSum(weights, i + 1) || i == |weights| - 1)
  }

  method PickVariant(bucket: real, weights: seq<real>) returns (i: nat)
    requires weights != []
    ensures i < |weights| && Chosen(weights, bucket, i)
  {
    var cumulative := 0.0;
    i := 0;
    while i < |weights|
      invariant 0 <= i <= |weights| && cumulative == PrefixSum(weights, i)
      invariant forall j :: 1 <= j <= i ==> PrefixSum(weights, j) <= bucket
    {
      cumulative := cumulative + weights[i];
      if bucket < cumulative {
        return;
      }
      i := i + 1;
    }
    i := |weights| - 1;
  }

  // ---- the intervals ------------------------------------------------------------------------

  lemma {:induction false} PrefixSumMonotone(weights: seq<real>, i: nat, j: nat)
    requires NonNegative(weights) && i <= j <= |weights|
    ensures PrefixSum(weights, i) <= PrefixSum(weights, j)
  {
    if i < j {
      PrefixSumMonotone(weights, i, j - 1);
    }
  }

  function Ceil(x: real): int {
    -((-x).Floor)
  }

  /** The first prefix past the cumulative weight of the first i variants. */
  function Boundary(weights: seq<real>, i: nat): int
    requires i <= |weights|
  {
    if i == |weights| then PREFIXES else Ceil(PrefixSum(weights, i) * PREFIXES as real)
  }

  predicate SumsToOne(weights: seq<real>) {
    weights != [] && NonNegative(weights) && PrefixSum(weights, |weights|) == 1.0
  }

  lemma BelowCeil(p: int, x: real)
    ensures p as real < x <==> p < Ceil(x)
  {
  }

  lemma ScaledBelow(p: int, sum: real)
    ensures Bucket(p) < sum <==> p < Ceil(sum * PREFIXES as real)
  {
    var d := PREFIXES as real;
    assert Bucket(p) * d == p as real;
    BelowCeil(p, sum * d);
  }

  lemma BoundaryBounds(weights: seq<real>, i: nat)
    requires SumsToOne(weights) && i <= |weights|
    ensures 0 <= Boundary(weights, i) <= PREFIXES
    ensures 0.0 <= Boundary(weights, i) as real - PrefixSum(weights, i) * PREFIXES as real < 1.0
    ensures i < |weights| ==> Boundary(weights, i) <= Boundary(weights, i + 1)
  {
    PrefixSumMonotone(weights, 0, i);
    PrefixSumMonotone(weights, i, |weights|);
    if i < |weights| {
      PrefixSumMonotone(weights, i, i + 1);
      PrefixSumMonotone(weights, i + 1, |weights|);
    }
  }

  /** pick_variant partitions the prefixes into consecutive intervals, one per variant. */
  lemma VariantsAreIntervals(weights: seq<real>, p: int, i: nat)
    requires SumsToOne(weights) && 0 <= p < 4_294_967_296 && i < |weights|
    ensures Chosen(weights, Bucket(p), i) <==> Boundary(weights, i) <= p < Boundary(weights, i + 1)
    ensures Boundary(weights, 0) == 0 && Boundary(weights, |weights|) == 4_294_967_296
  {
    if i > 0 {
      ScaledBelow(p, PrefixSum(weights, i));
      forall j | 1 <= j <= i ensures PrefixSum(weights, j) <= PrefixSum(weights, i) {
        PrefixSumMonotone(weights, j, i);
      }
    }
    ScaledBelow(p, PrefixSum(weights, i + 1));
  }

  /** The size of each interval is within less than 1 of its weight times 2^32. */
  lemma IntervalsMatchWeights(weights: seq<real>, i: nat)
    requires SumsToOne(weights) && i < |weights|
    ensures var size := Boundary(weights, i + 1) - Boundary(weights, i);
      -1.0 < size as real - weights[i] * 4_294_967_296.0 < 1.0
  {
    BoundaryBounds(weights, i);
    BoundaryBounds(weights, i + 1);
    assert PrefixSum(weights, i + 1) * PREFIXES as real
        == PrefixSum(weights, i) * PREFIXES as real + weights[i] * PREFIXES as real;
  }

  /** A variant without traffic is never chosen, unless rounding leaves a bucket to the last one. */
  lemma ZeroWeightIsNotChosen(weights: seq<real>, bucket: real, i: nat)
    requires i < |weights| && NonNegative(weights) && bucket >= 0.0 && weights[i] == 0.0 && i < |weights| - 1
    ensures !Chosen(weights, bucket, i)
  {
    assert PrefixSum(weights, i + 1) == PrefixSum(weights, i) + weights[i];
  }

  /** The last variant takes every bucket past the total, even with weight 0. */
  lemma LastTakesTheRest(weights: seq<real>, bucket: real)
    requires weights != [] && NonNegative(weights)
    ensures Chosen(weights, bucket, |weights| - 1) <==>
      |weights| == 1 || PrefixSum(weights, |weights| - 1) <= bucket
  {
    forall j | 1 <= j <= |weights| - 1 ensures PrefixSum(weights, j) <= PrefixSum(weights, |weights| - 1) {
      PrefixSumMonotone(weights, j, |weights| - 1);
    }
  }

  // ---- assignment ------------------------------------------------------------------------------

  type Id = nat

  datatype Variant = Variant(id: Id, name: nat, weight: real)

  datatype Experiment = Experiment(active: bool, variants: seq<Variant>)   // variants in name order

  /** ab_assignments, keyed by (user, experiment); other fields do not matter here. */
  type Assignments = map<(Id, Id), Id>

  datatype Answer = NotFound | NotActive | NoVariants | Assigned(variant: Id)

  function Weights(variants: seq<Variant>): (ws: seq<real>)
    ensures |ws| == |variants| && forall k :: 0 <= k < |variants| ==> ws[k] == variants[k].weight
  {
    seq(|variants|, k requires 0 <= k < |variants| => variants[k].weight)
  }

  class AbTesting {
    var experiments: map<Id, Experiment>
    var assignments: Assignments

    constructor (experiments: map<Id, Experiment>)
      ensures this.experiments == experiments && assignments == map[]
    {
      this.experiments, assignments := experiments, map[];
    }

    /** INSERT ... ON CONFLICT DO NOTHING. */
    method InsertAssignment(user: Id, experiment: Id, variant: Id)
      modifies this`assignments
      ensures assignments == if (user, experiment) in old(assignments) then old(assignments)
                             else old(assignments)[(user, experiment) := variant]
    {
      if (user, experiment) !in assignments {
        assignments := assignments[(user, experiment) := variant];
      }
    }

    /**
     * assign_user.  Another request for the same pair may insert between this
     * request's choice and its insert: `racing` is what it inserted, if any.
     */
    method AssignUser(user: Id, experiment: Id, prefix: int, racing: Option<Id>) returns (answer: Answer)
      modifies this`assignments
      ensures forall key <- old(assignments) :: key in assignments && assignments[key] == old(assignments)[key]
      ensures answer.Assigned? ==> (user, experiment) in assignments && answer.variant == assignments[(user, experiment)]
      ensures answer.NotFound? <==> experiment !in experiments
      ensures answer.NotActive? <==> experiment in experiments && !experiments[experiment].active
      ensures answer.Assigned? <==> experiment in experiments && experiments[experiment].active && experiments[experiment].variants != []
      ensures answer.Assigned? && (user, experiment) in old(assignments) ==> answer.variant == old(assignments)[(user, experiment)]
      ensures answer.Assigned? && (user, experiment) !in old(assignments) ==>
        if racing.Some? then answer.variant == racing.value
        else exists i :: 0 <= i < |experiments[experiment].variants|
               && Chosen(Weights(experiments[experiment].variants), Bucket(prefix), i)
               && answer.variant == experiments[experiment].variants[i].id
      ensures !answer.Assigned? ==> assignments == old(assignments)
    {
      if experiment !in experiments {
        return NotFound;
      }
      var e := experiments[experiment];
      if !e.active {
        return NotActive;
      }
      if e.variants == [] {
        return NoVariants;
      }
      var i := PickVariant(Bucket(prefix), Weights(e.variants));
      if racing.Some? {
        InsertAssignment(user, experiment, racing.value);
      }
      InsertAssignment(user, experiment, e.variants[i].id);
      answer := Assigned(assignments[(user, experiment)]);
    }
  }

  // Requests as a protocol: each inserts at most once and then reads.

  datatype Step = Insert(user: Id, experiment: Id, variant: Id)

  function Apply(table: Assignments, step: Step): Assignments {
    var key := (step.user, step.experiment);
    if key in table then table else table[key := step.variant]
  }

  function Run(table: Assignments, steps: seq<Step>): Assignments {
    if steps == [] then table else Apply(Run(table, steps[..|steps| - 1]), steps[|steps| - 1])
  }

  /** Whatever inserts race, every read after the first insert for a pair returns that insert's variant. */
  lemma {:induction false} FirstInsertWins(table: Assignments, steps: seq<Step>, k: nat, user: Id, experiment: Id)
    requires k < |steps| && steps[k].user == user && steps[k].experiment == experiment
    requires (user, experiment) !in table
    requires forall j :: 0 <= j < k ==> steps[j].user != user || steps[j].experiment != experiment
    ensures (user, experiment) in Run(table, steps) && Run(table, steps)[(user, experiment)] == steps[k].variant
  {
    var front := steps[..|steps| - 1];
    if k < |steps| - 1 {
      FirstInsertWins(table, front, k, user, experiment);
    } else {
      NotYetInserted(table, front, user, experiment);
    }
  }

  lemma {:induction false} NotYetInserted(table: Assignments, steps: seq<Step>, user: Id, experiment: Id)
    requires (user, experiment) !in table
    requires forall j :: 0 <= j < |steps| ==> steps[j].user != user || steps[j].experiment != experiment
    ensures (user, experiment) !in Run(table, steps)
  {
    if steps != [] {
      NotYetInserted(table, steps[..|steps| - 1], user, experiment);
    }
  }
}
