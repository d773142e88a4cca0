/** What one polled batch comes to: what is left of it, and how far it brings the positions. */
module ListenerBatch {
  import opened Prelude
  import opened ListenerProtocol

  // ---- what one batch comes to --------------------------------------------------------------

  /** _handle returns a label instead of raising. */
  predicate Succeeds(a: Attempt) {
    a.Offerless? || a.AccrueCall? || a.Told? || (a.Permanent? && a.published)
  }

  predicate NonEmptyItems(batch: seq<Item>) {
    forall k :: 0 <= k < |batch| ==> batch[k].offs != []
  }

  predicate Handled(item: Item, calls: map<(Tp, nat), Attempt>, o: nat) {
    (item.tp, o) in calls && Succeeds(calls[(item.tp, o)])
  }

  /** How many records of an item are handled before the first retryable failure. */
  function HandledCount(item: Item, calls: map<(Tp, nat), Attempt>, from: nat): (n: nat)
    requires from <= |item.offs|
    ensures from <= n <= |item.offs|
    ensures forall k :: from <= k < n ==> Handled(item, calls, item.offs[k])
    ensures n < |item.offs| ==> !Handled(item, calls, item.offs[n])
    decreases |item.offs| - from
  {
    if from < |item.offs| && Handled(item, calls, item.offs[from]) then HandledCount(item, calls, from + 1) else from
  }

  function Suffix(item: Item, n: nat): Item
    requires n <= |item.offs|
  {
    item.(offs := item.offs[n..])
  }

  /** done after the first n records of an item. */
  function DoneAt(done: map<Tp, nat>, item: Item, n: nat): map<Tp, nat>
    requires n <= |item.offs|
  {
    if n == 0 then done else done[item.tp := item.offs[n - 1] + 1]
  }

  /** The records from the first retryable failure on. */
  function Remaining(batch: seq<Item>, calls: map<(Tp, nat), Attempt>): (rest: seq<Item>)
    requires NonEmptyItems(batch)
    ensures NonEmptyItems(rest)
  {
    if batch == [] then []
    else
      var n := HandledCount(batch[0], calls, 0);
      if n < |batch[0].offs| then [Suffix(batch[0], n)] + batch[1..] else Remaining(batch[1..], calls)
  }

  /** The offsets to commit: one past the last record handled, per partition. */
  function Done(batch: seq<Item>, calls: map<(Tp, nat), Attempt>, done: map<Tp, nat>): map<Tp, nat> {
    if batch == [] then done
    else
      var n := HandledCount(batch[0], calls, 0);
      var done' := DoneAt(done, batch[0], n);
      if n < |batch[0].offs| then done' else Done(batch[1..], calls, done')
  }

  /** Every position after the rewinds of one process. */
  function Rewound(parts: map<Tp, Partition>, me: Proc, rest: seq<Item>): map<Tp, Partition>
    requires NonEmptyItems(rest)
  {
    if rest == [] then parts
    else
      var item := rest[0];
      var moved := if item.tp in parts && parts[item.tp].owner == Some(me)
                   then parts[item.tp := parts[item.tp].(pos := item.offs[0])] else parts;
      Rewound(moved, me, rest[1..])
  }

  function Committed(parts: map<Tp, Partition>, done: map<Tp, nat>): map<Tp, Partition> {
    map tp | tp in parts ::
      if tp in done then parts[tp].(committed := done[tp]) else parts[tp]
  }

  predicate Owns(parts: map<Tp, Partition>, me: Proc, tps: set<Tp>) {
    forall tp <- tps :: tp in parts && parts[tp].owner == Some(me)
  }

  // ---- what is left, in terms of the calls -----------------------------------------------------

  predicate AllHandled(batch: seq<Item>, calls: map<(Tp, nat), Attempt>) {
    forall k :: 0 <= k < |batch| ==> forall o <- batch[k].offs :: Handled(batch[k], calls, o)
  }

  /** A batch is finished exactly when every record of it was handled. */
  lemma {:induction false} FinishedIffAllHandled(batch: seq<Item>, calls: map<(Tp, nat), Attempt>)
    requires NonEmptyItems(batch)
    ensures Remaining(batch, calls) == [] <==> AllHandled(batch, calls)
  {
    if batch != [] {
      FinishedIffAllHandled(batch[1..], calls);
      var n := HandledCount(batch[0], calls, 0);
      if n < |batch[0].offs| {
        assert batch[0].offs[n] in batch[0].offs;
      } else if AllHandled(batch[1..], calls) {
        forall k | 0 <= k < |batch| ensures forall o <- batch[k].offs :: Handled(batch[k], calls, o) {
          assert k > 0 ==> batch[k] == batch[1..][k - 1];
        }
      } else {
        var k :| 0 <= k < |batch[1..]| && !forall o <- batch[1..][k].offs :: Handled(batch[1..][k], calls, o);
        assert batch[k + 1] == batch[1..][k];
      }
    }
  }

  // ---- progress -----------------------------------------------------------------------------------

  /** Records at or past their partition's position. */
  function RecordsAhead(parts: map<Tp, Partition>): set<(Tp, nat)> {
    set tp, o | tp in parts && o in parts[tp].log && parts[tp].pos <= o :: (tp, o)
  }

  ghost predicate SameLogs(p: map<Tp, Partition>, q: map<Tp, Partition>) {
    p.Keys == q.Keys && forall tp <- p :: p[tp].log == q[tp].log
  }

  lemma LaterPositionsLeaveLess(p: map<Tp, Partition>, q: map<Tp, Partition>)
    requires SameLogs(p, q) && forall tp <- p :: p[tp].pos <= q[tp].pos
    ensures RecordsAhead(q) <= RecordsAhead(p)
  {
  }

  /** What is left starts at or after what was polled. */
  lemma {:induction false} RemainingStartsLater(batch: seq<Item>, calls: map<(Tp, nat), Attempt>, item: Item)
    requires NonEmptyItems(batch) && item in Remaining(batch, calls)
    requires forall k :: 0 <= k < |batch| ==> Increasing(batch[k].offs)
    ensures item.offs != []
    ensures exists k :: 0 <= k < |batch| && batch[k].tp == item.tp && batch[k].offs[0] <= item.offs[0]
  {
    var n := HandledCount(batch[0], calls, 0);
    if n < |batch[0].offs| && item == Suffix(batch[0], n) {
      assert batch[0].tp == item.tp && batch[0].offs[0] <= item.offs[0];
    } else if n < |batch[0].offs| {
      var k :| 0 <= k < |batch[1..]| && batch[1..][k] == item;
      assert batch[k + 1] == item;
    } else {
      RemainingStartsLater(batch[1..], calls, item);
      var k :| 0 <= k < |batch[1..]| && batch[1..][k].tp == item.tp && batch[1..][k].offs[0] <= item.offs[0];
      assert batch[k + 1].tp == item.tp && batch[k + 1].offs[0] <= item.offs[0];
    }
  }

  /** A rewind moves a position only to the start of what is left of its partition. */
  lemma {:induction false} RewoundPosition(parts: map<Tp, Partition>, me: Proc, rest: seq<Item>, tp: Tp)
    requires NonEmptyItems(rest) && tp in parts
    ensures SameLogs(parts, Rewound(parts, me, rest))
    ensures Rewound(parts, me, rest)[tp].pos == parts[tp].pos
         || exists item <- rest :: item.tp == tp && item.offs != [] && item.offs[0] == Rewound(parts, me, rest)[tp].pos
    ensures Rewound(parts, me, rest)[tp] == parts[tp].(pos := Rewound(parts, me, rest)[tp].pos)
  {
    if rest != [] {
      var item := rest[0];
      var moved := if item.tp in parts && parts[item.tp].owner == Some(me)
                   then parts[item.tp := parts[item.tp].(pos := item.offs[0])] else parts;
      RewoundPosition(moved, me, rest[1..], tp);
      assert item in rest;
    }
  }

  /** What getmany may return, given the positions. */
  ghost predicate Polled(parts: map<Tp, Partition>, batch: seq<Item>) {
    && batch != [] && NonEmptyItems(batch) && DistinctPartitions(batch)
    && forall k :: 0 <= k < |batch| ==>
         && batch[k].tp in parts && Increasing(batch[k].offs)
         && parts[batch[k].tp].pos <= batch[k].offs[0]
         && forall o <- batch[k].offs :: o in parts[batch[k].tp].log
  }

  lemma AdvancedPast(parts: map<Tp, Partition>, batch: seq<Item>, k: nat)
    requires Polled(parts, batch) && k < |batch|
    ensures Advanced(parts, batch)[batch[k].tp].pos == Last(batch[k].offs) + 1
  {
    var found := ItemFor(batch, batch[k].tp);
    assert batch[k] in batch;
    var j :| 0 <= j < |batch| && batch[j] == found.value;
    assert j == k;
  }

  /**
   * Progress: after a batch no position is behind where it was polled from, and
   * a finished batch leaves strictly fewer records ahead.
   */
  lemma BatchMakesProgress(parts: map<Tp, Partition>, me: Proc, batch: seq<Item>, calls: map<(Tp, nat), Attempt>)
    requires Polled(parts, batch)
    ensures var after := Rewound(Advanced(parts, batch), me, Remaining(batch, calls));
      && SameLogs(parts, after)
      && |RecordsAhead(after)| <= |RecordsAhead(parts)|
      && (Remaining(batch, calls) == [] ==> |RecordsAhead(after)| < |RecordsAhead(parts)|)
  {
    var advanced, rest := Advanced(parts, batch), Remaining(batch, calls);
    var after := Rewound(advanced, me, rest);
    forall tp <- parts
      ensures tp in after && after[tp].log == parts[tp].log && parts[tp].pos <= after[tp].pos
    {
      PositionNotBehind(parts, me, batch, calls, tp);
    }
    RewoundPosition(advanced, me, rest, batch[0].tp);
    assert SameLogs(parts, after);
    LaterPositionsLeaveLess(parts, after);
    SubsetsAreSmaller(RecordsAhead(after), RecordsAhead(parts));
    if rest == [] {
      AdvancedPast(parts, batch, 0);
      var first := (batch[0].tp, batch[0].offs[0]);
      assert batch[0].offs[0] in batch[0].offs;
      assert first in RecordsAhead(parts) && first !in RecordsAhead(after);
      SubsetsAreSmaller(RecordsAhead(after), RecordsAhead(parts) - {first});
    }
  }

  lemma SubsetsAreSmaller(a: set<(Tp, nat)>, b: set<(Tp, nat)>)
    requires a <= b
    ensures |a| <= |b|
  {
    if a != {} {
      var x :| x in a;
      SubsetsAreSmaller(a - {x}, b - {x});
    }
  }

  lemma AdvancedNotBehind(parts: map<Tp, Partition>, batch: seq<Item>, tp: Tp)
    requires Polled(parts, batch) && tp in parts
    ensures parts[tp].pos <= Advanced(parts, batch)[tp].pos
  {
    var found := ItemFor(batch, tp);
    if found.Some? {
      var k :| 0 <= k < |batch| && batch[k] == found.value;
      assert batch[k].offs[0] <= Last(batch[k].offs);
    }
  }

  lemma RemainingNotBehind(parts: map<Tp, Partition>, batch: seq<Item>, calls: map<(Tp, nat), Attempt>, item: Item)
    requires Polled(parts, batch) && item in Remaining(batch, calls) && item.tp in parts
    ensures item.offs != [] && parts[item.tp].pos <= item.offs[0]
  {
    RemainingStartsLater(batch, calls, item);
  }

  lemma PositionNotBehind(parts: map<Tp, Partition>, me: Proc, batch: seq<Item>,
                          calls: map<(Tp, nat), Attempt>, tp: Tp)
    requires Polled(parts, batch) && tp in parts
    ensures var after := Rewound(Advanced(parts, batch), me, Remaining(batch, calls));
      tp in after && after[tp].log == parts[tp].log && parts[tp].pos <= after[tp].pos
  {
    var advanced, rest := Advanced(parts, batch), Remaining(batch, calls);
    RewoundPosition(advanced, me, rest, tp);
    AdvancedNotBehind(parts, batch, tp);
    forall item <- rest | item.tp == tp ensures item.offs != [] && parts[tp].pos <= item.offs[0] {
      RemainingNotBehind(parts, batch, calls, item);
    }
  }

  lemma CommitLeavesPositions(parts: map<Tp, Partition>, done: map<Tp, nat>)
    ensures RecordsAhead(Committed(parts, done)) == RecordsAhead(parts)
  {
  }

  /** Every record of an item exists and has an answer that is possible for it. */
  predicate Callable(parts: map<Tp, Partition>, item: Item, calls: map<(Tp, nat), Attempt>) {
    item.tp in parts && forall o <- item.offs ::
      (item.tp, o) in calls && o in parts[item.tp].log && Possible(parts[item.tp].log[o], calls[(item.tp, o)])
  }

  lemma AdvancingKeepsCallable(parts: map<Tp, Partition>, batch: seq<Item>, item: Item,
                               calls: map<(Tp, nat), Attempt>)
    requires Callable(parts, item, calls)
    ensures Callable(Advanced(parts, batch), item, calls)
  {
  }

  /** The same with the offsets committed or not. */
  lemma TurnProgress(polled: map<Tp, Partition>, me: Proc, batch: seq<Item>, calls: map<(Tp, nat), Attempt>,
                     after: map<Tp, Partition>)
    requires Polled(polled, batch)
    requires var moved := Rewound(Advanced(polled, batch), me, Remaining(batch, calls));
      after == moved || after == Committed(moved, Done(batch, calls, map[]))
    ensures SameLogs(polled, after) && |RecordsAhead(after)| <= |RecordsAhead(polled)|
    ensures Remaining(batch, calls) == [] ==> |RecordsAhead(after)| < |RecordsAhead(polled)|
    ensures Remaining(batch, calls) == [] <==> AllHandled(batch, calls)
  {
    CommitLeavesPositions(Rewound(Advanced(polled, batch), me, Remaining(batch, calls)), Done(batch, calls, map[]));
    BatchMakesProgress(polled, me, batch, calls);
    FinishedIffAllHandled(batch, calls);
  }
}
