/**
 * DataValidator: the six rules over one staged batch.  Rule R5 keeps a mutable
 * set of ids; the loop over records and rules is shown to compute a verdict that
 * looks only at the batch and the ids fetched at its start.
 */
module Validator {
  import opened Prelude

  type Id = nat

  const AMOUNT_MAX := 1_000_000_000          // kopecks
  const FUTURE_SLACK := 300                  // seconds
  const MAX_AGE := 365 * 86400

  /** A field of a staged record: null or empty, of a wrong shape, or a value. */
  datatype Field<T> = Missing | Malformed | Is(value: T)

  datatype Record = Record(
    id: Field<Id>,
    user: Field<nat>,
    mcc: Field<nat>,
    amount: Field<int>,
    currency: Field<nat>,
    at: Field<int>,
    channel: Field<nat>)

  datatype Rule = NotNull | AmountRange | Mcc | Timestamp | Deduplication | Currency

  const RULES := [NotNull, AmountRange, Mcc, Timestamp, Deduplication, Currency]

  datatype Registry = Registry(mccs: set<nat>, currencies: set<nat>)

  datatype Rejected = Rejected(record: Record, rule: Rule)

  // ---- the rules that only look at the record -------------------------------------------

  predicate Complete(r: Record) {
    && !r.id.Missing? && !r.mcc.Missing? && !r.amount.Missing? && !r.currency.Missing?
    && !r.at.Missing? && !r.channel.Missing? && r.user.Is?
  }

  predicate Meets(rule: Rule, r: Record, registry: Registry, now: int) {
    match rule
    case NotNull => Complete(r)
    case AmountRange => r.amount.Is? && 0 < r.amount.value <= AMOUNT_MAX
    case Mcc => r.mcc.Is? && r.mcc.value in registry.mccs
    case Timestamp => r.at.Is? && now - MAX_AGE <= r.at.value <= now + FUTURE_SLACK
    case Deduplication => r.id.Is?
    case Currency => r.currency.Is? && r.currency.value in registry.currencies
  }

  /** Rules R1 to R4: such a record marks its id as seen. */
  predicate Marks(r: Record, registry: Registry, now: int) {
    forall k :: 0 <= k < 4 ==> Meets(RULES[k], r, registry, now)
  }

  /** One batch: the records, the clock reading for each, and the ids fetched before it. */
  datatype Batch = Batch(records: seq<Record>, clock: seq<int>, registry: Registry, fetched: set<Id>)

  predicate Timed(b: Batch) {
    |b.clock| == |b.records|
  }

  /** Record j of the batch marks the id. */
  predicate MarksId(b: Batch, j: nat, id: Id)
    requires Timed(b) && j < |b.records|
  {
    Marks(b.records[j], b.registry, b.clock[j]) && b.records[j].id == Is(id)
  }

  predicate Taken(b: Batch, i: nat, id: Id)
    requires Timed(b) && i <= |b.records|
  {
    id in b.fetched || exists j :: 0 <= j < i && MarksId(b, j, id)
  }

  predicate Passes(b: Batch, i: nat, rule: Rule)
    requires Timed(b) && i < |b.records|
  {
    && Meets(rule, b.records[i], b.registry, b.clock[i])
    && (rule == Deduplication ==> !Taken(b, i, b.records[i].id.value))
  }

  /** Valid: every rule passes; the order of the rules does not matter for this. */
  predicate Valid(b: Batch, i: nat)
    requires Timed(b) && i < |b.records|
  {
    forall rule: Rule :: Passes(b, i, rule)
  }

  function FirstFailed(b: Batch, i: nat, k: nat): (rule: Rule)
    requires Timed(b) && i < |b.records| && k < |RULES|
    requires exists m :: k <= m < |RULES| && !Passes(b, i, RULES[m])
    ensures !Passes(b, i, rule)
    decreases |RULES| - k
  {
    if !Passes(b, i, RULES[k]) then RULES[k] else FirstFailed(b, i, k + 1)
  }

  lemma RulesAreAll(rule: Rule)
    ensures rule in RULES
  {
    match rule
    case NotNull => assert RULES[0] == rule;
    case AmountRange => assert RULES[1] == rule;
    case Mcc => assert RULES[2] == rule;
    case Timestamp => assert RULES[3] == rule;
    case Deduplication => assert RULES[4] == rule;
    case Currency => assert RULES[5] == rule;
  }

  lemma ValidByRules(b: Batch, i: nat)
    requires Timed(b) && i < |b.records|
    ensures Valid(b, i) <==> forall m :: 0 <= m < |RULES| ==> Passes(b, i, RULES[m])
  {
    if forall m :: 0 <= m < |RULES| ==> Passes(b, i, RULES[m]) {
      forall rule: Rule ensures Passes(b, i, rule) {
        RulesAreAll(rule);
      }
    }
  }

  function ValidOf(b: Batch, n: nat): seq<Record>
    requires Timed(b) && n <= |b.records|
  {
    if n == 0 then [] else ValidOf(b, n - 1) + (if Valid(b, n - 1) then [b.records[n - 1]] else [])
  }

  /** Each rejected record with the first rule, in rule order, that it fails. */
  function ErrorsOf(b: Batch, n: nat): seq<Rejected>
    requires Timed(b) && n <= |b.records|
  {
    if n == 0 then [] else
      ErrorsOf(b, n - 1) +
      (if Valid(b, n - 1) then []
       else (ValidByRules(b, n - 1); [Rejected(b.records[n - 1], FirstFailed(b, n - 1, 0))]))
  }

  // ---- properties of the verdicts ----------------------------------------------------------

  function RecordsOf(errors: seq<Rejected>): seq<Record> {
    seq(|errors|, k requires 0 <= k < |errors| => errors[k].record)
  }

  lemma RecordsOfAppended(errors: seq<Rejected>, e: Rejected)
    ensures RecordsOf(errors + [e]) == RecordsOf(errors) + [e.record]
  {
  }

  function Times(rs: seq<Record>, r: Record): nat {
    if rs == [] then 0 else Times(rs[..|rs| - 1], r) + if rs[|rs| - 1] == r then 1 else 0
  }

  lemma TimesOfAppended(rs: seq<Record>, x: Record, r: Record)
    ensures Times(rs + [x], r) == Times(rs, r) + if x == r then 1 else 0
  {
    assert (rs + [x])[..|rs|] == rs;
  }

  /** Nothing is lost or invented: the two lists together hold each record as often as the batch. */
  lemma {:induction false} ReportPartitionsBatch(b: Batch, n: nat, r: Record)
    requires Timed(b) && n <= |b.records|
    ensures Times(ValidOf(b, n), r) + Times(RecordsOf(ErrorsOf(b, n)), r) == Times(b.records[..n], r)
  {
    if n > 0 {
      ReportPartitionsBatch(b, n - 1, r);
      var x := b.records[n - 1];
      assert b.records[..n] == b.records[..n - 1] + [x];
      TimesOfAppended(b.records[..n - 1], x, r);
      if Valid(b, n - 1) {
        TimesOfAppended(ValidOf(b, n - 1), x, r);
        assert ErrorsOf(b, n) == ErrorsOf(b, n - 1);
      } else {
        ValidByRules(b, n - 1);
        assert ValidOf(b, n) == ValidOf(b, n - 1);
        RecordsOfAppended(ErrorsOf(b, n - 1), Rejected(x, FirstFailed(b, n - 1, 0)));
        TimesOfAppended(RecordsOf(ErrorsOf(b, n - 1)), x, r);
      }
    }
  }

  /** The verdict decides which list a record is in. */
  lemma {:induction false} RecordIsReported(b: Batch, n: nat, i: nat)
    requires Timed(b) && i < n <= |b.records|
    ensures if Valid(b, i) then b.records[i] in ValidOf(b, n) else b.records[i] in RecordsOf(ErrorsOf(b, n))
  {
    var es := ErrorsOf(b, n);
    if i == n - 1 && !Valid(b, i) {
      assert RecordsOf(es)[|es| - 1] == b.records[i];
    } else if i < n - 1 {
      RecordIsReported(b, n - 1, i);
      if !Valid(b, i) {
        var k :| 0 <= k < |ErrorsOf(b, n - 1)| && RecordsOf(ErrorsOf(b, n - 1))[k] == b.records[i];
        assert RecordsOf(es)[k] == b.records[i];
      }
    }
  }

  lemma {:induction false} ValidRecordsAt(b: Batch, n: nat, r: Record) returns (i: nat)
    requires Timed(b) && n <= |b.records| && r in ValidOf(b, n)
    ensures i < n && Valid(b, i) && b.records[i] == r
  {
    if Valid(b, n - 1) && b.records[n - 1] == r {
      i := n - 1;
    } else {
      i := ValidRecordsAt(b, n - 1, r);
    }
  }

  predicate DistinctIds(rs: seq<Record>) {
    forall j, k :: 0 <= j < k < |rs| ==> rs[j].id.Is? && rs[k].id.Is? && rs[j].id != rs[k].id
  }

  lemma ValidMarks(b: Batch, i: nat)
    requires Timed(b) && i < |b.records| && Valid(b, i)
    ensures b.records[i].id.Is? && MarksId(b, i, b.records[i].id.value)
    ensures !Taken(b, i, b.records[i].id.value)
  {
    assert Passes(b, i, Deduplication);
    forall k | 0 <= k < 4 ensures Meets(RULES[k], b.records[i], b.registry, b.clock[i]) {
      assert Passes(b, i, RULES[k]);
    }
  }

  /** Valid ids are pairwise distinct and none was fetched as recent. */
  lemma {:induction false} ValidIdsAreNew(b: Batch, n: nat)
    requires Timed(b) && n <= |b.records|
    ensures DistinctIds(ValidOf(b, n))
    ensures forall r <- ValidOf(b, n) :: r.id.Is? && r.at.Is? && r.id.value !in b.fetched
  {
    if n > 0 {
      ValidIdsAreNew(b, n - 1);
      if Valid(b, n - 1) {
        ValidMarks(b, n - 1);
        assert Passes(b, n - 1, Timestamp);
        forall r <- ValidOf(b, n - 1) ensures r.id != b.records[n - 1].id {
          var i := ValidRecordsAt(b, n - 1, r);
          ValidMarks(b, i);
        }
      }
    }
  }

  /** The earliest record of the batch that marks the id. */
  predicate FirstMarker(b: Batch, j: nat, id: Id)
    requires Timed(b) && j < |b.records|
  {
    MarksId(b, j, id) && forall k :: 0 <= k < j ==> !MarksId(b, k, id)
  }

  lemma {:induction false} FirstMarkerExists(b: Batch, i: nat, id: Id) returns (j: nat)
    requires Timed(b) && i < |b.records| && MarksId(b, i, id)
    ensures j <= i && FirstMarker(b, j, id)
  {
    if k: nat :| k < i && MarksId(b, k, id) {
      j := FirstMarkerExists(b, k, id);
    } else {
      j := i;
    }
  }

  predicate InCurrency(b: Batch, i: nat)
    requires Timed(b) && i < |b.records|
  {
    Meets(Currency, b.records[i], b.registry, b.clock[i])
  }

  lemma ValidIffFirstMarker(b: Batch, j: nat, id: Id)
    requires Timed(b) && j < |b.records| && MarksId(b, j, id) && id !in b.fetched
    ensures Valid(b, j) <==> FirstMarker(b, j, id) && InCurrency(b, j)
  {
    ValidByRules(b, j);
    assert forall k :: 0 <= k < 4 ==> Meets(RULES[k], b.records[j], b.registry, b.clock[j]);
    assert Passes(b, j, Currency) <==> InCurrency(b, j);
    assert Passes(b, j, Deduplication) <==> !Taken(b, j, id);
    assert RULES[4] == Deduplication && RULES[5] == Currency;
  }

  /**
   * A record that passes R1 to R4 and R6, with an id that was not fetched, gets
   * its id accepted (itself or by an earlier record) exactly when the first
   * record of the batch that marks the id has a valid currency.
   */
  lemma IdAcceptedIffFirstMarkerInCurrency(b: Batch, i: nat, id: Id)
    requires Timed(b) && i < |b.records| && MarksId(b, i, id) && InCurrency(b, i) && id !in b.fetched
    ensures (exists j :: 0 <= j <= i && MarksId(b, j, id) && Valid(b, j))
       <==> (forall j :: 0 <= j < i && FirstMarker(b, j, id) ==> InCurrency(b, j))
    ensures (exists j :: 0 <= j <= i && MarksId(b, j, id) && Valid(b, j))
       <==> (exists j :: 0 <= j <= i && b.records[j].id == Is(id) && Valid(b, j))
  {
    var first := FirstMarkerExists(b, i, id);
    ValidIffFirstMarker(b, first, id);
    forall j | 0 <= j <= i && MarksId(b, j, id) ensures Valid(b, j) ==> j == first {
      ValidIffFirstMarker(b, j, id);
    }
    forall j | 0 <= j <= i && b.records[j].id == Is(id) && Valid(b, j) ensures MarksId(b, j, id) {
      ValidMarks(b, j);
    }
  }

  /**
   * A record rejected only for its currency still marks its id: a later correct
   * record with that id is rejected as a duplicate although none was accepted.
   */
  lemma WrongCurrencyShadowsCorrection(id: Id, mcc: nat, good: nat, bad: nat, now: int)
    requires good != bad
    ensures var wrong := Record(Is(id), Is(0), Is(mcc), Is(100), Is(bad), Is(now), Is(0));
      var b := Batch([wrong, wrong.(currency := Is(good))], [now, now], Registry({mcc}, {good}), {});
      ValidOf(b, 2) == [] && Valid(b.(records := [wrong.(currency := Is(good))], clock := [now]), 0)
  {
    var wrong := Record(Is(id), Is(0), Is(mcc), Is(100), Is(bad), Is(now), Is(0));
    var b := Batch([wrong, wrong.(currency := Is(good))], [now, now], Registry({mcc}, {good}), {});
    assert !Passes(b, 0, Currency);
    assert MarksId(b, 0, id);
    assert !Passes(b, 1, Deduplication);
    assert ValidOf(b, 1) == ValidOf(b, 0);
  }

  lemma TakenNext(b: Batch, i: nat, id: Id)
    requires Timed(b) && i < |b.records|
    ensures Taken(b, i + 1, id) <==> Taken(b, i, id) || MarksId(b, i, id)
  {
  }

  // ---- the validator ----------------------------------------------------------------------------

  class DataValidator {
    const registry: Registry
    var recentIds: set<Id>

    constructor (registry: Registry)
      ensures this.registry == registry && recentIds == {}
    {
      this.registry, recentIds := registry, {};
    }

    /** _fetch_recent_ids: when the query fails the set is assumed empty. */
    method FetchRecentIds(answer: Option<set<Id>>)
      modifies this`recentIds
      ensures recentIds == if answer.Some? then answer.value else {}
    {
      recentIds := if answer.Some? then answer.value else {};
    }

    /** One rule on one record; R5 adds the id when it is new. */
    method Check(rule: Rule, r: Record, now: int) returns (passed: bool)
      modifies this`recentIds
      ensures passed <==> Meets(rule, r, registry, now) && (rule == Deduplication ==> r.id.value !in old(recentIds))
      ensures recentIds == if rule == Deduplication && passed then old(recentIds) + {r.id.value} else old(recentIds)
    {
      if rule != Deduplication {
        passed := Meets(rule, r, registry, now);
        return;
      }
      if !r.id.Is? || r.id.value in recentIds {
        return false;
      }
      recentIds := recentIds + {r.id.value};
      passed := true;
    }

    /** recentIds is what was fetched and what the first n records marked. */
    ghost predicate Tracks(b: Batch, n: nat)
      requires Timed(b) && n <= |b.records|
      reads this`recentIds
    {
      forall id: Id :: id in recentIds <==> Taken(b, n, id)
    }

    /** The loop over the rules for record i: stops at the first failure. */
    method FirstFailure(ghost b: Batch, ghost i: nat, r: Record, now: int) returns (failed: Option<Rule>)
      requires Timed(b) && i < |b.records| && b.registry == registry
      requires r == b.records[i] && now == b.clock[i] && Tracks(b, i)
      modifies this`recentIds
      ensures Tracks(b, i + 1)
      ensures failed.None? <==> Valid(b, i)
      ensures failed.Some? ==>
        (exists m :: 0 <= m < |RULES| && !Passes(b, i, RULES[m])) && failed.value == FirstFailed(b, i, 0)
    {
      ValidByRules(b, i);
      forall id: Id ensures Taken(b, i + 1, id) <==> Taken(b, i, id) || MarksId(b, i, id) {
        TakenNext(b, i, id);
      }
      ghost var before := recentIds;
      var k := 0;
      while k < |RULES|
        invariant 0 <= k <= |RULES|
        invariant forall m :: 0 <= m < k ==> Passes(b, i, RULES[m])
        invariant k <= 4 ==> recentIds == before
        invariant k > 4 ==> r.id.Is? && recentIds == before + {r.id.value}
        invariant (exists m :: 0 <= m < |RULES| && !Passes(b, i, RULES[m])) ==>
          (exists m :: k <= m < |RULES| && !Passes(b, i, RULES[m])) && FirstFailed(b, i, k) == FirstFailed(b, i, 0)
      {
        var passed := Check(RULES[k], r, now);
        if !passed {
          assert !Passes(b, i, RULES[k]);
          return Some(RULES[k]);
        }
        assert Passes(b, i, RULES[k]);
        k := k + 1;
      }
      failed := None;
    }

    /** validate_batch. */
    method ValidateBatch(records: seq<Record>, clock: seq<int>, answer: Option<set<Id>>)
      returns (valid: seq<Record>, errors: seq<Rejected>)
      requires |clock| == |records|
      modifies this`recentIds
      ensures var b := Batch(records, clock, registry, if answer.Some? then answer.value else {});
        valid == ValidOf(b, |records|) && errors == ErrorsOf(b, |records|)
    {
      FetchRecentIds(answer);
      ghost var b := Batch(records, clock, registry, recentIds);
      valid, errors := [], [];
      var i := 0;
      while i < |records|
        invariant 0 <= i <= |records|
        invariant Tracks(b, i)
        invariant valid == ValidOf(b, i) && errors == ErrorsOf(b, i)
      {
        var failed := FirstFailure(b, i, records[i], clock[i]);
        if failed.None? {
          valid := valid + [records[i]];
        } else {
          errors := errors + [Rejected(records[i], failed.value)];
        }
        i := i + 1;
      }
    }

  }
}
