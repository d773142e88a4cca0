/** Where a batch leaves positions and committed offsets, record by record. */
module ListenerOutcomes {
  import opened Prelude
  import opened ListenerProtocol
  import opened ListenerBatch
  import opened ListenerWorld

  /** The first record to retry is number n of partition f; there is none when f is the number of partitions. */
  ghost predicate StopsAt(batch: seq<Item>, calls: map<(Tp, nat), Attempt>, f: nat, n: nat) {
    && f <= |batch|
    && (forall j :: 0 <= j < f ==> forall o <- batch[j].offs :: Handled(batch[j], calls, o))
    && (f < |batch| ==>
          && n < |batch[f].offs| && !Handled(batch[f], calls, batch[f].offs[n])
          && forall m :: 0 <= m < n ==> Handled(batch[f], calls, batch[f].offs[m]))
  }

  /**
   * A finished partition is at, and committed to, one past its last record; the
   * one that met the failure is at the failing record and committed to one past
   * the record before it; the partitions after it are where they were polled.
   */
  ghost predicate LeftAt(was: Partition, part: Partition, offs: seq<nat>, k: nat, f: nat, n: nat, accepted: bool)
    requires offs != [] && (k == f ==> n < |offs|)
  {
    && part.pos == (if k < f then offs[|offs| - 1] + 1 else if k == f then offs[n] else offs[0])
    && part.committed ==
         (if !accepted || k > f || (k == f && n == 0) then was.committed
          else if k < f then offs[|offs| - 1] + 1
          else offs[n - 1] + 1)
  }

  lemma {:induction false} CountIs(item: Item, calls: map<(Tp, nat), Attempt>, from: nat, n: nat)
    requires from <= n <= |item.offs|
    requires forall m :: from <= m < n ==> Handled(item, calls, item.offs[m])
    requires n < |item.offs| ==> !Handled(item, calls, item.offs[n])
    ensures HandledCount(item, calls, from) == n
    decreases n - from
  {
    if from < n {
      CountIs(item, calls, from + 1, n);
    }
  }

  lemma StopsLater(batch: seq<Item>, calls: map<(Tp, nat), Attempt>, f: nat, n: nat)
    requires batch != [] && StopsAt(batch, calls, f, n)
    ensures f == 0 ==> HandledCount(batch[0], calls, 0) == n < |batch[0].offs|
    ensures f > 0 ==> HandledCount(batch[0], calls, 0) == |batch[0].offs| && StopsAt(batch[1..], calls, f - 1, n)
  {
    if f == 0 {
      CountIs(batch[0], calls, 0, n);
    } else {
      assert forall m :: 0 <= m < |batch[0].offs| ==> batch[0].offs[m] in batch[0].offs;
      CountIs(batch[0], calls, 0, |batch[0].offs|);
      forall j | 0 <= j < f - 1 ensures forall o <- batch[1..][j].offs :: Handled(batch[1..][j], calls, o) {
        assert batch[1..][j] == batch[j + 1];
      }
    }
  }

  lemma {:induction false} RemainingIs(batch: seq<Item>, calls: map<(Tp, nat), Attempt>, f: nat, n: nat)
    requires NonEmptyItems(batch) && StopsAt(batch, calls, f, n)
    ensures Remaining(batch, calls) == if f == |batch| then [] else [Suffix(batch[f], n)] + batch[f + 1..]
  {
    if batch != [] {
      StopsLater(batch, calls, f, n);
      if f > 0 {
        RemainingIs(batch[1..], calls, f - 1, n);
        assert f < |batch| ==> batch[1..][f..] == batch[f + 1..];
      }
    }
  }

  /** The offsets to commit: of the partitions up to the failing one, and of no other. */
  lemma {:induction false} DoneIs(batch: seq<Item>, calls: map<(Tp, nat), Attempt>, done: map<Tp, nat>, f: nat, n: nat, tp: Tp)
    requires NonEmptyItems(batch) && DistinctPartitions(batch) && StopsAt(batch, calls, f, n)
    ensures var done' := Done(batch, calls, done);
      && (forall k :: 0 <= k < f && batch[k].tp == tp ==> tp in done' && done'[tp] == Last(batch[k].offs) + 1)
      && (f < |batch| && batch[f].tp == tp && n > 0 ==> tp in done' && done'[tp] == batch[f].offs[n - 1] + 1)
      && ((forall k :: 0 <= k < |batch| && (k < f || (k == f && n > 0)) ==> batch[k].tp != tp) ==>
            (tp in done' <==> tp in done) && (tp in done ==> done'[tp] == done[tp]))
  {
    if batch != [] {
      StopsLater(batch, calls, f, n);
      if f > 0 {
        var done1 := DoneAt(done, batch[0], |batch[0].offs|);
        DoneIs(batch[1..], calls, done1, f - 1, n, tp);
        forall k | 0 <= k < |batch[1..]| ensures batch[1..][k] == batch[k + 1] && batch[k + 1].tp != batch[0].tp {
        }
      }
    }
  }

  /** Rewinding puts an owned partition at the first record left of it, and touches no other. */
  lemma {:induction false} RewoundTo(parts: map<Tp, Partition>, me: Proc, rest: seq<Item>, tp: Tp)
    requires NonEmptyItems(rest) && DistinctPartitions(rest) && tp in parts && parts[tp].owner == Some(me)
    ensures var after := Rewound(parts, me, rest);
      && tp in after
      && (forall k :: 0 <= k < |rest| && rest[k].tp == tp ==> after[tp] == parts[tp].(pos := rest[k].offs[0]))
      && ((forall k :: 0 <= k < |rest| ==> rest[k].tp != tp) ==> after[tp] == parts[tp])
  {
    if rest != [] {
      var item := rest[0];
      var moved := if item.tp in parts && parts[item.tp].owner == Some(me)
                   then parts[item.tp := parts[item.tp].(pos := item.offs[0])] else parts;
      RewoundTo(moved, me, rest[1..], tp);
      forall k | 0 <= k < |rest[1..]| ensures rest[1..][k] == rest[k + 1] && rest[k + 1].tp != item.tp {
      }
    }
  }

  lemma LeftOver(batch: seq<Item>, f: nat, n: nat, k: nat, rest: seq<Item>)
    requires NonEmptyItems(batch) && DistinctPartitions(batch) && k < |batch|
    requires f <= |batch| && (f < |batch| ==> n < |batch[f].offs|)
    requires rest == if f == |batch| then [] else [Suffix(batch[f], n)] + batch[f + 1..]
    ensures NonEmptyItems(rest) && DistinctPartitions(rest)
    ensures k < f ==> forall j :: 0 <= j < |rest| ==> rest[j].tp != batch[k].tp
    ensures k == f ==> rest[0].tp == batch[k].tp && rest[0].offs[0] == batch[k].offs[n]
    ensures k > f ==> rest[k - f] == batch[k]
  {
    assert forall j :: 0 <= j < |rest| ==> rest[j].tp == batch[f + j].tp;
  }

  lemma AdvancedIs(parts: map<Tp, Partition>, batch: seq<Item>, k: nat)
    requires Polled(parts, batch) && k < |batch|
    ensures var offs := batch[k].offs;
      && batch[k].tp in parts && offs != []
      && Advanced(parts, batch)[batch[k].tp] == parts[batch[k].tp].(pos := offs[|offs| - 1] + 1)
  {
    AdvancedPast(parts, batch, k);
  }

  /** From the polled positions: rewound to the start of what is left of the partition, if anything is. */
  lemma RewoundFrom(advanced: map<Tp, Partition>, me: Proc, batch: seq<Item>, f: nat, n: nat, k: nat, rest: seq<Item>)
    requires NonEmptyItems(batch) && DistinctPartitions(batch) && k < |batch|
    requires f <= |batch| && (f < |batch| ==> n < |batch[f].offs|)
    requires rest == if f == |batch| then [] else [Suffix(batch[f], n)] + batch[f + 1..]
    requires batch[k].tp in advanced && advanced[batch[k].tp].owner == Some(me)
    ensures NonEmptyItems(rest) && batch[k].tp in Rewound(advanced, me, rest)
    ensures Rewound(advanced, me, rest)[batch[k].tp] == advanced[batch[k].tp].(
              pos := if k < f then advanced[batch[k].tp].pos else if k == f then batch[k].offs[n] else batch[k].offs[0])
  {
    LeftOver(batch, f, n, k, rest);
    RewoundTo(advanced, me, rest, batch[k].tp);
  }

  lemma RewoundLeaves(parts: map<Tp, Partition>, me: Proc, batch: seq<Item>, calls: map<(Tp, nat), Attempt>,
                      f: nat, n: nat, k: nat)
    requires Polled(parts, batch) && StopsAt(batch, calls, f, n) && k < |batch|
    requires parts[batch[k].tp].owner == Some(me)
    ensures var after, offs := Rewound(Advanced(parts, batch), me, Remaining(batch, calls)), batch[k].offs;
      && batch[k].tp in after
      && after[batch[k].tp] == parts[batch[k].tp].(
           pos := if k < f then offs[|offs| - 1] + 1 else if k == f then offs[n] else offs[0])
  {
    RemainingIs(batch, calls, f, n);
    AdvancedIs(parts, batch, k);
    RewoundFrom(Advanced(parts, batch), me, batch, f, n, k, Remaining(batch, calls));
  }

  lemma CommittedTo(parts: map<Tp, Partition>, batch: seq<Item>, calls: map<(Tp, nat), Attempt>, f: nat, n: nat, k: nat)
    requires NonEmptyItems(batch) && DistinctPartitions(batch) && StopsAt(batch, calls, f, n) && k < |batch|
    requires batch[k].tp in parts
    ensures var tp, offs, after := batch[k].tp, batch[k].offs, Committed(parts, Done(batch, calls, map[]));
      && after[tp].pos == parts[tp].pos
      && after[tp].committed ==
           if k > f || (k == f && n == 0) then parts[tp].committed
           else if k < f then offs[|offs| - 1] + 1
           else offs[n - 1] + 1
  {
    DoneIs(batch, calls, map[], f, n, batch[k].tp);
  }

  /** What is committed belongs to the partitions of the batch. */
  lemma DoneIsOwned(parts: map<Tp, Partition>, me: Proc, batch: seq<Item>, calls: map<(Tp, nat), Attempt>, f: nat, n: nat)
    requires Polled(parts, batch) && StopsAt(batch, calls, f, n)
    requires forall k :: 0 <= k < |batch| ==> parts[batch[k].tp].owner == Some(me)
    ensures Owns(Rewound(Advanced(parts, batch), me, Remaining(batch, calls)), me, Done(batch, calls, map[]).Keys)
  {
    forall tp <- Done(batch, calls, map[])
      ensures var after := Rewound(Advanced(parts, batch), me, Remaining(batch, calls));
        tp in after && after[tp].owner == Some(me)
    {
      DoneIs(batch, calls, map[], f, n, tp);
      var k :| 0 <= k < |batch| && batch[k].tp == tp;
      RewoundLeaves(parts, me, batch, calls, f, n, k);
    }
  }

  /** Position and committed offset of every partition of a batch, after it. */
  lemma BatchLeaves(parts: map<Tp, Partition>, me: Proc, batch: seq<Item>, calls: map<(Tp, nat), Attempt>,
                    accepted: bool, f: nat, n: nat, k: nat)
    requires Polled(parts, batch) && StopsAt(batch, calls, f, n) && k < |batch|
    requires forall j :: 0 <= j < |batch| ==> parts[batch[j].tp].owner == Some(me)
    ensures var moved, done := Rewound(Advanced(parts, batch), me, Remaining(batch, calls)), Done(batch, calls, map[]);
      var after := if accepted && Owns(moved, me, done.Keys) then Committed(moved, done) else moved;
      batch[k].tp in after && LeftAt(parts[batch[k].tp], after[batch[k].tp], batch[k].offs, k, f, n, accepted)
  {
    var moved := Rewound(Advanced(parts, batch), me, Remaining(batch, calls));
    RewoundLeaves(parts, me, batch, calls, f, n, k);
    CommittedTo(moved, batch, calls, f, n, k);
    DoneIsOwned(parts, me, batch, calls, f, n);
  }

  ghost predicate BatchLeft(before: map<Tp, Partition>, after: map<Tp, Partition>, batch: seq<Item>,
                            calls: map<(Tp, nat), Attempt>, accepted: bool)
  {
    forall f: nat, n: nat, k: nat {:trigger StopsAt(batch, calls, f, n), batch[k]} ::
      StopsAt(batch, calls, f, n) && k < |batch| ==>
        && batch[k].offs != [] && batch[k].tp in before && batch[k].tp in after
        && LeftAt(before[batch[k].tp], after[batch[k].tp], batch[k].offs, k, f, n, accepted)
  }

  /** The partitions of one process over one of its turns. */
  lemma TurnLeaves(parts: map<Tp, Partition>, me: Proc, batch: seq<Item>, calls: map<(Tp, nat), Attempt>,
                   accepted: bool, after: map<Tp, Partition>)
    requires batch != [] && Fetched(parts, me, batch) && NonEmptyItems(batch)
    requires var moved, done := Rewound(Owned(Advanced(parts, batch), me), me, Remaining(batch, calls)), Done(batch, calls, map[]);
      after == if accepted && Owns(moved, me, done.Keys) then Committed(moved, done) else moved
    ensures BatchLeft(parts, after, batch, calls, accepted)
  {
    FetchedIsPolled(parts, me, batch);
    OwnedAdvanced(parts, me, batch);
    forall f: nat, n: nat, k: nat | StopsAt(batch, calls, f, n) && k < |batch|
      ensures batch[k].tp in after && LeftAt(parts[batch[k].tp], after[batch[k].tp], batch[k].offs, k, f, n, accepted)
    {
      BatchLeaves(Owned(parts, me), me, batch, calls, accepted, f, n, k);
    }
  }
}
