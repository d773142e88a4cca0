/**
 * The six rules written out field by field: exactly which records of a batch are
 * valid, and which rule a rejected record is reported with.
 */
module ValidatorRules {
  import opened Prelude
  import opened Validator

  /** R1: nothing required is null or empty, and the user is a UUID. */
  predicate Filled(r: Record) {
    && !r.id.Missing? && r.user.Is? && !r.mcc.Missing? && !r.amount.Missing?
    && !r.currency.Missing? && !r.at.Missing? && !r.channel.Missing?
  }

  /** R2: more than nothing and at most ten million, in kopecks. */
  predicate AmountOk(r: Record) {
    r.amount.Is? && 1 <= r.amount.value && r.amount.value <= 10_000_000 * 100
  }

  predicate MccOk(r: Record, registry: Registry) {
    r.mcc.Is? && r.mcc.value in registry.mccs
  }

  /** R4: at most five minutes ahead of the clock and at most 365 days behind it. */
  predicate TimeOk(r: Record, now: int) {
    r.at.Is? && r.at.value - now <= 5 * 60 && now - r.at.value <= 365 * 24 * 3600
  }

  predicate CurrencyOk(r: Record, registry: Registry) {
    r.currency.Is? && r.currency.value in registry.currencies
  }

  /** The first four rules: from then on the id counts as seen. */
  predicate Seen(b: Batch, i: nat)
    requires Timed(b) && i < |b.records|
  {
    var r := b.records[i];
    Filled(r) && AmountOk(r) && MccOk(r, b.registry) && TimeOk(r, b.clock[i])
  }

  /** The id was fetched as recent, or an earlier record of the batch got as far as R5 with it. */
  predicate SeenBefore(b: Batch, i: nat, id: Id)
    requires Timed(b) && i < |b.records|
  {
    id in b.fetched || exists j :: 0 <= j < i && b.records[j].id == Is(id) && Seen(b, j)
  }

  lemma RuleIs(r: Record, registry: Registry, now: int)
    ensures Meets(NotNull, r, registry, now) <==> Filled(r)
    ensures Meets(AmountRange, r, registry, now) <==> AmountOk(r)
    ensures Meets(Mcc, r, registry, now) <==> MccOk(r, registry)
    ensures Meets(Timestamp, r, registry, now) <==> TimeOk(r, now)
    ensures Meets(Deduplication, r, registry, now) <==> r.id.Is?
    ensures Meets(Currency, r, registry, now) <==> CurrencyOk(r, registry)
  {
  }

  lemma MarksIff(b: Batch, j: nat)
    requires Timed(b) && j < |b.records|
    ensures Marks(b.records[j], b.registry, b.clock[j]) <==> Seen(b, j)
  {
    var r, now := b.records[j], b.clock[j];
    RuleIs(r, b.registry, now);
    if Seen(b, j) {
      forall k | 0 <= k < 4 ensures Meets(RULES[k], r, b.registry, now) {
        assert RULES[k] in [NotNull, AmountRange, Mcc, Timestamp];
      }
    } else {
      assert !Meets(RULES[0], r, b.registry, now) || !Meets(RULES[1], r, b.registry, now)
          || !Meets(RULES[2], r, b.registry, now) || !Meets(RULES[3], r, b.registry, now);
    }
  }

  lemma TakenIff(b: Batch, i: nat, id: Id)
    requires Timed(b) && i < |b.records|
    ensures Taken(b, i, id) <==> SeenBefore(b, i, id)
  {
    forall j | 0 <= j < i ensures MarksId(b, j, id) <==> b.records[j].id == Is(id) && Seen(b, j) {
      MarksIff(b, j);
    }
  }

  lemma PassesIff(b: Batch, i: nat)
    requires Timed(b) && i < |b.records|
    ensures var r := b.records[i];
      && (Passes(b, i, NotNull) <==> Filled(r)) && (Passes(b, i, AmountRange) <==> AmountOk(r))
      && (Passes(b, i, Mcc) <==> MccOk(r, b.registry)) && (Passes(b, i, Timestamp) <==> TimeOk(r, b.clock[i]))
      && (Passes(b, i, Deduplication) <==> r.id.Is? && !SeenBefore(b, i, r.id.value))
      && (Passes(b, i, Currency) <==> CurrencyOk(r, b.registry))
  {
    var r := b.records[i];
    RuleIs(r, b.registry, b.clock[i]);
    if r.id.Is? {
      TakenIff(b, i, r.id.value);
    }
  }

  /** A record is valid if and only if every field is in order and its id has not been seen. */
  lemma ValidIff(b: Batch, i: nat)
    requires Timed(b) && i < |b.records|
    ensures var r := b.records[i];
      Valid(b, i) <==>
        && Filled(r) && AmountOk(r) && MccOk(r, b.registry) && TimeOk(r, b.clock[i]) && CurrencyOk(r, b.registry)
        && r.id.Is? && !SeenBefore(b, i, r.id.value)
  {
    PassesIff(b, i);
    ValidByRules(b, i);
    assert Valid(b, i) ==> Passes(b, i, NotNull) && Passes(b, i, AmountRange) && Passes(b, i, Mcc)
                           && Passes(b, i, Timestamp) && Passes(b, i, Deduplication) && Passes(b, i, Currency);
    if Passes(b, i, NotNull) && Passes(b, i, AmountRange) && Passes(b, i, Mcc)
       && Passes(b, i, Timestamp) && Passes(b, i, Deduplication) && Passes(b, i, Currency) {
      forall rule: Rule ensures Passes(b, i, rule) {
      }
    }
  }

  /** A rejected record is reported with the first of R1 to R6 that it breaks. */
  lemma RejectedBy(b: Batch, i: nat)
    requires Timed(b) && i < |b.records| && !Valid(b, i)
    ensures var r := b.records[i];
      ErrorsOf(b, i + 1) == ErrorsOf(b, i) + [Rejected(r,
        if !Filled(r) then NotNull
        else if !AmountOk(r) then AmountRange
        else if !MccOk(r, b.registry) then Mcc
        else if !TimeOk(r, b.clock[i]) then Timestamp
        else if !r.id.Is? || SeenBefore(b, i, r.id.value) then Deduplication
        else Currency)]
  {
    PassesIff(b, i);
    ValidByRules(b, i);
    FirstFailedFrom(b, i, 0);
  }

  /** From rule k on: k itself if it fails, else what follows. */
  lemma {:induction false} FirstFailedFrom(b: Batch, i: nat, k: nat)
    requires Timed(b) && i < |b.records| && k < |RULES|
    requires exists m :: k <= m < |RULES| && !Passes(b, i, RULES[m])
    ensures exists m :: k <= m < |RULES| && FirstFailed(b, i, k) == RULES[m] && !Passes(b, i, RULES[m])
                        && forall j :: k <= j < m ==> Passes(b, i, RULES[j])
    decreases |RULES| - k
  {
    if Passes(b, i, RULES[k]) {
      FirstFailedFrom(b, i, k + 1);
      var m :| k + 1 <= m < |RULES| && FirstFailed(b, i, k + 1) == RULES[m] && !Passes(b, i, RULES[m])
               && forall j :: k + 1 <= j < m ==> Passes(b, i, RULES[j]);
      assert FirstFailed(b, i, k) == RULES[m];
    }
  }

  /** Both lists keep the order of the batch: what is reported of its beginning stays. */
  lemma {:induction false} ReportKeepsOrder(b: Batch, m: nat, n: nat)
    requires Timed(b) && m <= n <= |b.records|
    ensures ValidOf(b, m) <= ValidOf(b, n) && ErrorsOf(b, m) <= ErrorsOf(b, n)
    ensures m == n - 1 && Valid(b, m) ==> ValidOf(b, n) == ValidOf(b, m) + [b.records[m]] && ErrorsOf(b, n) == ErrorsOf(b, m)
    ensures m == n - 1 && !Valid(b, m) ==>
      ValidOf(b, n) == ValidOf(b, m) && RecordsOf(ErrorsOf(b, n)) == RecordsOf(ErrorsOf(b, m)) + [b.records[m]]
  {
    if m < n {
      ReportKeepsOrder(b, m, n - 1);
      if !Valid(b, n - 1) {
        ValidByRules(b, n - 1);
      }
    }
  }
}
