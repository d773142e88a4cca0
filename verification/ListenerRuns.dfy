/** Executions of the listener protocol: delivery, money and committed offsets. */
module ListenerRuns {
  import opened Prelude
  import opened RateScale
  import opened Ledger
  import opened LedgerLaws
  import opened ListenerProtocol
  import opened ListenerLaws

  ghost predicate Execution(states: seq<State>, actions: seq<Action>) {
    && |states| == |actions| + 1
    && forall n {:trigger actions[n]} :: 0 <= n < |actions| ==>
         Enabled(states[n], actions[n]) && states[n + 1] == Do(states[n], actions[n])
  }

  /** A new consumer group (auto_offset_reset = earliest) on an existing topic. */
  ghost predicate Initial(s: State) {
    && s.works == map[] && s.results == map[]
    && forall tp <- s.parts ::
         var part := s.parts[tp];
         && part.committed == 0 && part.pos == 0 && part.owner.None?
         && forall o <- part.log :: o < part.end
  }

  lemma InitialInv(s: State)
    requires Initial(s)
    ensures Inv(s)
  {
  }

  // ---- the money tables in an execution ----------------------------------------------------

  /** The writes one action makes to the money tables. */
  function Writes(a: Action): seq<Event> {
    match a
    case Handle(_, AccrueCall(p, stamp)) => [AccrueEvent(p, stamp)]
    case Handle(_, Transient(p, stamp, effect)) => if effect then [AccrueEvent(p, stamp)] else []
    case Money(e) => [e]
    case _ => []
  }

  function AllWrites(actions: seq<Action>): seq<Event> {
    if actions == [] then [] else AllWrites(actions[..|actions| - 1]) + Writes(actions[|actions| - 1])
  }

  lemma StepWrites(s: State, a: Action)
    requires Enabled(s, a)
    ensures Do(s, a).db == Run(s.db, Writes(a))
  {
    if Writes(a) != [] {
      assert Writes(a)[..0] == [];
      assert Run(s.db, Writes(a)) == Apply(s.db, Writes(a)[0]);
    }
  }

  lemma {:induction false} RunOfAppended(db: Db, xs: seq<Event>, ys: seq<Event>)
    requires |ys| <= 1
    ensures Run(db, xs + ys) == Run(Run(db, xs), ys)
  {
    if ys == [] {
      assert xs + ys == xs;
    } else {
      assert (xs + ys)[..|xs|] == xs && ys[..0] == [];
    }
  }

  lemma {:induction false} ExecutionWrites(states: seq<State>, actions: seq<Action>, n: nat)
    requires Execution(states, actions) && n < |states|
    ensures states[n].db == Run(states[0].db, AllWrites(actions[..n]))
  {
    if n > 0 {
      ExecutionWrites(states, actions, n - 1);
      StepWrites(states[n - 1], actions[n - 1]);
      assert actions[..n][..n - 1] == actions[..n - 1];
      RunOfAppended(states[0].db, AllWrites(actions[..n - 1]), Writes(actions[n - 1]));
    }
  }

  // ---- results are true of the ledger --------------------------------------------------------

  ghost predicate ResultTrue(s: State, key: (Tp, nat)) {
    && key in s.results && key.0 in s.parts && key.1 in s.parts[key.0].log
    && var record, result := s.parts[key.0].log[key.1], s.results[key];
       && (result != DeadLettered ==> record.Transaction?)
       && (result.Engine? && result.outcome.Accrued? ==> PaidOut(s.db, record.tx, result.outcome.amount))
  }

  ghost predicate ResultsTrue(s: State) {
    forall key <- s.results :: ResultTrue(s, key)
  }

  lemma EventKeepsPaidOut(db: Db, e: Event, tx: TxId, k: int)
    requires PaidOut(db, tx, k)
    ensures PaidOut(Apply(db, e), tx, k)
  {
    var row :| row in db.accruals && row.tx == tx && row.offer.Some? && row.amount == k;
    var i :| 0 <= i < |db.accruals| && db.accruals[i] == row;
    RunKeepsRowsAndPayouts(db, [e]);
    assert [e][..0] == [];
    assert Run(db, [e]) == Apply(db, e);
    var row' := Apply(db, e).accruals[i];
    assert row' in Apply(db, e).accruals;
  }

  lemma StepKeepsPaidOut(s: State, a: Action, tx: TxId, k: int)
    requires Enabled(s, a) && PaidOut(s.db, tx, k)
    ensures PaidOut(Do(s, a).db, tx, k)
  {
    StepWrites(s, a);
    if Writes(a) != [] {
      assert Writes(a)[..0] == [];
      assert Run(s.db, Writes(a)) == Apply(s.db, Writes(a)[0]);
      EventKeepsPaidOut(s.db, Writes(a)[0], tx, k);
    }
  }

  lemma StepKeepsLogs(s: State, a: Action, tp: Tp, o: nat)
    requires Inv(s) && Enabled(s, a) && tp in s.parts && o in s.parts[tp].log
    ensures tp in Do(s, a).parts && o in Do(s, a).parts[tp].log
    ensures Do(s, a).parts[tp].log[o] == s.parts[tp].log[o]
  {
    assert PartitionOk(s, tp);
  }

  lemma NewResultTrue(s: State, i: Proc, attempt: Attempt)
    requires Inv(s) && Enabled(s, Handle(i, attempt)) && Finish(attempt, s.db).Some?
    ensures var item := WorkOf(s, i).rest[0];
      (item.tp, item.offs[0]) !in s.results ==>
        ResultTrue(DoHandle(s, i, attempt), (item.tp, item.offs[0]))
  {
    if attempt.AccrueCall? && Accrue(s.db, attempt.p, attempt.stamp).1.Accrued? {
      AccruedMeans(s.db, attempt.p, attempt.stamp);
      var row := NewRow(attempt.p, attempt.stamp, Accrue(s.db, attempt.p, attempt.stamp).1.amount);
      assert row in Accrue(s.db, attempt.p, attempt.stamp).0.accruals;
    }
  }

  lemma StepKeepsResults(s: State, a: Action)
    requires Inv(s) && ResultsTrue(s) && Enabled(s, a)
    ensures ResultsTrue(Do(s, a))
  {
    var s' := Do(s, a);
    forall key <- s'.results ensures ResultTrue(s', key) {
      if key in s.results {
        assert ResultTrue(s, key) && s'.results[key] == s.results[key];
        StepKeepsLogs(s, a, key.0, key.1);
        if s.results[key].Engine? && s.results[key].outcome.Accrued? {
          StepKeepsPaidOut(s, a, s.parts[key.0].log[key.1].tx, s.results[key].outcome.amount);
        }
      } else {
        NewResultTrue(s, a.i, a.attempt);
      }
    }
  }

  lemma {:induction false} ExecutionKeepsInv(states: seq<State>, actions: seq<Action>, n: nat)
    requires Execution(states, actions) && Initial(states[0]) && n < |states|
    ensures Inv(states[n]) && ResultsTrue(states[n])
  {
    if n == 0 {
      InitialInv(states[0]);
    } else {
      ExecutionKeepsInv(states, actions, n - 1);
      StepKeepsInv(states[n - 1], actions[n - 1]);
      StepKeepsResults(states[n - 1], actions[n - 1]);
    }
  }

  /**
   * At-least-once delivery with single payment.  In every execution each record
   * below a committed offset was accrued, skipped by a rule or dead-lettered;
   * every result that says "accrued" is backed by a ledger row; the ledger keeps
   * its keys, so at most one row pays a purchase or an offer; and each budget
   * grew by exactly the rows booked, replays and half-failed calls included.
   */
  lemma CommittedRecordsAreSettled(states: seq<State>, actions: seq<Action>, n: nat)
    requires Execution(states, actions) && Initial(states[0]) && Sound(states[0].db)
    requires n < |states|
    ensures var s := states[n];
      && (forall tp <- s.parts :: CoveredBelow(s, tp, s.parts[tp].committed))
      && ResultsTrue(s) && Sound(s.db)
      && forall cid <- states[0].db.campaigns ::
           cid in s.db.campaigns && Unexplained(s.db, cid) == Unexplained(states[0].db, cid)
  {
    var s := states[n];
    ExecutionKeepsInv(states, actions, n);
    forall tp <- s.parts ensures CoveredBelow(s, tp, s.parts[tp].committed) {
      assert PartitionOk(s, tp);
    }
    ExecutionWrites(states, actions, n);
    RunKeepsSound(states[0].db, AllWrites(actions[..n]));
    forall cid <- states[0].db.campaigns
      ensures cid in s.db.campaigns && Unexplained(s.db, cid) == Unexplained(states[0].db, cid)
    {
      RunKeepsBooks(states[0].db, AllWrites(actions[..n]), cid);
    }
  }

  // ---- committed offsets ----------------------------------------------------------------------

  predicate WorksOn(w: Work, tp: Tp) {
    tp in DoneOf(w) || exists item <- RestOf(w) :: item.tp == tp
  }

  /** What the batch would commit for tp if it stopped now, or what is committed. */
  function NextCommit(part: Partition, w: Work, tp: Tp): nat {
    if tp in DoneOf(w) then DoneOf(w)[tp] else part.committed
  }

  /** Whoever reads on from offset `from` commits n or more. */
  predicate ReadsPast(part: Partition, from: nat, n: nat) {
    forall o <- part.log :: from <= o ==> n <= o + 1
  }

  /** The batch starts with tp no more than one record below what it would commit. */
  predicate ItemForward(part: Partition, w: Work, tp: Tp, item: Item) {
    && item.offs != [] && NextCommit(part, w, tp) <= item.offs[0] + 1
    // Handled to its end, the item is not sought back: the position counts.
    && (w.Handling? ==> ReadsPast(part, part.pos, Last(item.offs) + 1))
  }

  /** The work of its owner cannot move the committed offset of tp back. */
  ghost predicate Forward(part: Partition, w: Work, tp: Tp) {
    && part.committed <= NextCommit(part, w, tp)
    && (forall item <- RestOf(w) :: item.tp == tp ==> ItemForward(part, w, tp, item))
    && ((forall item <- RestOf(w) :: item.tp != tp) ==> ReadsPast(part, part.pos, NextCommit(part, w, tp)))
  }

  ghost predicate ForwardAt(s: State, tp: Tp) {
    tp in s.parts && s.parts[tp].owner.Some? ==> Forward(s.parts[tp], WorkOf(s, s.parts[tp].owner.value), tp)
  }

  /** The partition comes to a process whose batch cannot move its committed offset back. */
  ghost predicate SafeReturn(s: State, a: Action, tp: Tp) {
    a.Assign? && a.tp == tp && tp in s.parts ==>
      Forward(s.parts[tp].(pos := s.parts[tp].committed), WorkOf(s, a.i), tp)
  }

  /** In particular to one that is not in the middle of a batch with the partition. */
  lemma CleanReturnIsSafe(s: State, tp: Tp, i: Proc)
    requires !WorksOn(WorkOf(s, i), tp)
    ensures SafeReturn(s, Assign(tp, i), tp)
  {
  }

  lemma ItemsAfterDrop(rest: seq<Item>, item: Item)
    requires rest != [] && rest[0].offs != [] && Increasing(rest[0].offs) && DistinctPartitions(rest)
    requires item in DropHead(rest)
    ensures if item.tp == rest[0].tp then |rest[0].offs| > 1 && item.offs == rest[0].offs[1..]
            else item in rest
  {
    if item in rest[1..] {
      var k :| 0 <= k < |rest[1..]| && rest[1..][k] == item;
      assert rest[k + 1] == item;
    }
  }

  /** Unless it was the last record of its item, tp is still in the batch after the head was handled. */
  lemma StillInBatch(rest: seq<Item>, tp: Tp)
    requires rest != [] && rest[0].offs != []
    requires exists item <- rest :: item.tp == tp && (item != rest[0] || |item.offs| > 1)
    ensures exists item <- DropHead(rest) :: item.tp == tp
  {
    var item :| item in rest && item.tp == tp && (item != rest[0] || |item.offs| > 1);
    var k :| 0 <= k < |rest| && rest[k] == item;
    if k == 0 {
      assert DropHead(rest)[0].tp == tp;
    } else {
      assert rest[1..][k - 1] == item;
      assert item in DropHead(rest);
    }
  }

  /** The batch has handled the record at its head. */
  predicate Handles(w: Work, w': Work) {
    && w.Handling? && w.rest != [] && w.rest[0].offs != []
    && Increasing(w.rest[0].offs) && DistinctPartitions(w.rest)
    && (w'.Handling? || w'.Committing?) && RestOf(w') == DropHead(w.rest)
    && DoneOf(w') == w.done[w.rest[0].tp := w.rest[0].offs[0] + 1]
  }

  /** Handling a record of tp leaves an item that starts just past it, or none. */
  lemma HandleOwnKeepsForward(part: Partition, w: Work, w': Work, tp: Tp)
    requires Handles(w, w') && w.rest[0].tp == tp && Forward(part, w, tp)
    ensures Forward(part, w', tp)
  {
    assert w.rest[0] in RestOf(w) && ItemForward(part, w, tp, w.rest[0]);
    forall item <- RestOf(w') | item.tp == tp ensures ItemForward(part, w', tp, item) {
      ItemsAfterDrop(w.rest, item);
    }
    if exists item <- w.rest :: item.tp == tp && (item != w.rest[0] || |item.offs| > 1) {
      StillInBatch(w.rest, tp);
    } else {
      assert |w.rest[0].offs| == 1;
    }
  }

  lemma HandleOtherKeepsForward(part: Partition, w: Work, w': Work, tp: Tp)
    requires Handles(w, w') && w.rest[0].tp != tp && Forward(part, w, tp)
    ensures Forward(part, w', tp)
  {
    forall item <- RestOf(w') | item.tp == tp ensures ItemForward(part, w', tp, item) {
      ItemsAfterDrop(w.rest, item);
      assert ItemForward(part, w, tp, item);
    }
    if exists item <- w.rest :: item.tp == tp && (item != w.rest[0] || |item.offs| > 1) {
      StillInBatch(w.rest, tp);
    }
  }

  lemma HandledWorkIs(s: State, i: Proc, attempt: Attempt)
    requires WorkOk(s, i) && Enabled(s, Handle(i, attempt))
    ensures var w, w' := WorkOf(s, i), WorkOf(DoHandle(s, i, attempt), i);
      if Finish(attempt, s.db).Some? then Handles(w, w') else w' == Rewinding(w.rest, w.done)
  {
    var w := WorkOf(s, i);
    assert w.rest[0] in RestOf(w) && ItemOk(s, w.rest[0]);
  }

  lemma FailedKeepsForward(part: Partition, w: Work, tp: Tp)
    requires w.Handling? && Forward(part, w, tp)
    ensures Forward(part, Rewinding(w.rest, w.done), tp)
  {
    var w' := Rewinding(w.rest, w.done);
    forall item <- RestOf(w') | item.tp == tp ensures ItemForward(part, w', tp, item) {
      assert item in RestOf(w) && ItemForward(part, w, tp, item);
    }
    assert RestOf(w') == RestOf(w);
  }

  lemma HandleKeepsForward(s: State, i: Proc, attempt: Attempt, tp: Tp)
    requires WorkOk(s, i) && Enabled(s, Handle(i, attempt)) && tp in s.parts
    requires Forward(s.parts[tp], WorkOf(s, i), tp)
    ensures Forward(s.parts[tp], WorkOf(DoHandle(s, i, attempt), i), tp)
  {
    var part, w, w' := s.parts[tp], WorkOf(s, i), WorkOf(DoHandle(s, i, attempt), i);
    HandledWorkIs(s, i, attempt);
    if Finish(attempt, s.db).None? {
      FailedKeepsForward(part, w, tp);
    } else if w.rest[0].tp == tp {
      HandleOwnKeepsForward(part, w, w', tp);
    } else {
      HandleOtherKeepsForward(part, w, w', tp);
    }
  }

  /** The batch has sought the item at its head. */
  predicate Seeks(w: Work, w': Work) {
    && w.Rewinding? && w.rest != [] && w.rest[0].offs != [] && DistinctPartitions(w.rest)
    && (w'.Rewinding? || w'.Committing?) && RestOf(w') == w.rest[1..] && DoneOf(w') == w.done
  }

  lemma SeekOwnKeepsForward(part: Partition, w: Work, w': Work, tp: Tp)
    requires Seeks(w, w') && w.rest[0].tp == tp && Forward(part, w, tp)
    ensures Forward(part.(pos := w.rest[0].offs[0]), w', tp)
  {
    assert w.rest[0] in RestOf(w) && ItemForward(part, w, tp, w.rest[0]);
  }

  lemma SeekOtherKeepsForward(part: Partition, w: Work, w': Work, tp: Tp)
    requires Seeks(w, w') && w.rest[0].tp != tp && Forward(part, w, tp)
    ensures Forward(part, w', tp)
  {
    forall item <- RestOf(w') | item.tp == tp ensures ItemForward(part, w', tp, item) {
      assert item in RestOf(w) && ItemForward(part, w, tp, item);
    }
    if item :| item in w.rest && item.tp == tp {
      var k :| 0 <= k < |w.rest| && w.rest[k] == item;
      assert w.rest[1..][k - 1] == item;
    }
  }

  lemma SoughtWorkIs(s: State, i: Proc, tp: Tp)
    requires WorkOk(s, i) && Enabled(s, Seek(i)) && tp in s.parts && s.parts[tp].owner == Some(i)
    ensures var w := WorkOf(s, i);
      && Seeks(w, WorkOf(DoSeek(s, i), i))
      && DoSeek(s, i).parts[tp] == if w.rest[0].tp == tp then s.parts[tp].(pos := w.rest[0].offs[0]) else s.parts[tp]
  {
  }

  lemma SeekKeepsForward(part: Partition, part': Partition, w: Work, w': Work, tp: Tp)
    requires Seeks(w, w') && Forward(part, w, tp)
    requires part' == if w.rest[0].tp == tp then part.(pos := w.rest[0].offs[0]) else part
    ensures Forward(part', w', tp)
  {
    if w.rest[0].tp == tp {
      SeekOwnKeepsForward(part, w, w', tp);
    } else {
      SeekOtherKeepsForward(part, w, w', tp);
    }
  }

  lemma PollKeepsForward(s: State, i: Proc, items: seq<Item>, tp: Tp)
    requires Inv(s) && Enabled(s, Poll(i, items)) && tp in s.parts && s.parts[tp].owner == Some(i)
    requires Forward(s.parts[tp], WorkOf(s, i), tp)
    ensures Forward(DoPoll(s, i, items).parts[tp], WorkOf(DoPoll(s, i, items), i), tp)
  {
    var found := ItemFor(items, tp);
    forall item <- items | item.tp == tp ensures found == Some(item) {
      var j :| 0 <= j < |items| && items[j] == item;
      var k :| 0 <= k < |items| && items[k] == found.value;
      assert j == k;
    }
    if found.Some? {
      assert Fetchable(s.parts, i, found.value);
      FetchedItemIsOk(s, i, found.value);
    }
  }

  lemma CommitKeepsForward(s: State, i: Proc, ok: bool, tp: Tp)
    requires Enabled(s, Commit(i, ok)) && tp in s.parts && s.parts[tp].owner == Some(i)
    requires Forward(s.parts[tp], WorkOf(s, i), tp)
    ensures Forward(DoCommit(s, i, ok).parts[tp], WorkOf(DoCommit(s, i, ok), i), tp)
    ensures s.parts[tp].committed <= DoCommit(s, i, ok).parts[tp].committed
  {
  }

  /** New records lie past everything the batch knows of. */
  lemma AppendKeepsForward(s: State, a: Action, tp: Tp, i: Proc)
    requires Inv(s) && Enabled(s, a) && a.Append? && a.tp == tp
    requires Forward(s.parts[tp], WorkOf(s, i), tp)
    ensures Forward(Do(s, a).parts[tp], WorkOf(s, i), tp)
  {
    var w, part, part' := WorkOf(s, i), s.parts[tp], Do(s, a).parts[tp];
    assert PartitionOk(s, tp) && WorkOk(s, i);
    assert tp in DoneOf(w) ==> DoneOk(s, tp, DoneOf(w)[tp]);
    forall item <- RestOf(w) | item.tp == tp ensures ItemForward(part', w, tp, item) {
      assert ItemForward(part, w, tp, item) && ItemOk(s, item) && Last(item.offs) in part.log;
    }
  }

  /** The owner stays and takes no part in the step. */
  lemma OthersKeepForward(s: State, a: Action, tp: Tp, i: Proc)
    requires Enabled(s, a) && tp in s.parts && s.parts[tp].owner == Some(i)
    requires Do(s, a).parts[tp].owner == Some(i)
    requires !(a.Append? && a.tp == tp) && !(a.Assign? && a.tp == tp)
    requires a.Handle? || a.Seek? || a.Poll? || a.Commit? ==> a.i != i
    ensures Do(s, a).parts[tp] == s.parts[tp] && WorkOf(Do(s, a), i) == WorkOf(s, i)
  {
    if a.Poll? {
      assert ItemFor(a.items, tp).None?;
    }
  }

  lemma OwnerSeeks(s: State, tp: Tp, i: Proc)
    requires WorkOk(s, i) && Enabled(s, Seek(i)) && tp in s.parts && s.parts[tp].owner == Some(i)
    requires Forward(s.parts[tp], WorkOf(s, i), tp)
    ensures OwnedForward(DoSeek(s, i), tp, i) && NotBack(s, DoSeek(s, i), tp)
  {
    SoughtWorkIs(s, i, tp);
    SeekKeepsForward(s.parts[tp], DoSeek(s, i).parts[tp], WorkOf(s, i), WorkOf(DoSeek(s, i), i), tp);
  }

  lemma OwnerHandles(s: State, tp: Tp, i: Proc, attempt: Attempt)
    requires WorkOk(s, i) && Enabled(s, Handle(i, attempt)) && tp in s.parts && s.parts[tp].owner == Some(i)
    requires Forward(s.parts[tp], WorkOf(s, i), tp)
    ensures OwnedForward(DoHandle(s, i, attempt), tp, i) && NotBack(s, DoHandle(s, i, attempt), tp)
  {
    HandleKeepsForward(s, i, attempt, tp);
  }

  ghost predicate OwnedForward(s: State, tp: Tp, i: Proc) {
    tp in s.parts && s.parts[tp].owner == Some(i) && Forward(s.parts[tp], WorkOf(s, i), tp)
  }

  lemma OwnerKeepsForward(s: State, a: Action, tp: Tp, i: Proc)
    requires Inv(s) && Enabled(s, a) && OwnedForward(s, tp, i)
    requires a.Handle? || a.Seek? || a.Poll? || a.Commit?
    requires a.i == i
    ensures OwnedForward(Do(s, a), tp, i) && NotBack(s, Do(s, a), tp)
  {
    assert WorkOk(s, i);
    match a
    case Handle(_, attempt) => OwnerHandles(s, tp, i, attempt);
    case Seek(_) => OwnerSeeks(s, tp, i);
    case Poll(_, items) => PollKeepsForward(s, i, items, tp);
    case Commit(_, ok) => CommitKeepsForward(s, i, ok, tp);
  }

  predicate Acts(a: Action, i: Proc) {
    (a.Handle? || a.Seek? || a.Poll? || a.Commit?) && a.i == i
  }

  /** Only a commit of the owner changes the committed offset. */
  lemma CommittedStays(s: State, a: Action, tp: Tp)
    requires Enabled(s, a) && tp in s.parts
    ensures tp in Do(s, a).parts
    ensures Do(s, a).parts[tp].committed == s.parts[tp].committed || (s.parts[tp].owner.Some? && Acts(a, s.parts[tp].owner.value))
  {
  }

  lemma StepKeepsForward(s: State, a: Action, tp: Tp)
    requires Inv(s) && ForwardAt(s, tp) && Enabled(s, a) && SafeReturn(s, a, tp)
    ensures ForwardAt(Do(s, a), tp) && NotBack(s, Do(s, a), tp)
  {
    var s' := Do(s, a);
    if tp in s.parts {
      CommittedStays(s, a, tp);
      if s.parts[tp].owner.Some? && Acts(a, s.parts[tp].owner.value) {
        OwnerKeepsForward(s, a, tp, s.parts[tp].owner.value);
      } else if s'.parts[tp].owner.Some? && !(a.Assign? && a.tp == tp) {
        var i := s'.parts[tp].owner.value;
        if a.Append? && a.tp == tp {
          AppendKeepsForward(s, a, tp, i);
        } else {
          OthersKeepForward(s, a, tp, i);
        }
      }
    }
  }

  /** The partition never comes back to a batch that could move it back. */
  ghost predicate SafeRun(states: seq<State>, actions: seq<Action>, tp: Tp) {
    |states| == |actions| + 1
    && forall k {:trigger actions[k]} :: 0 <= k < |actions| ==> SafeReturn(states[k], actions[k], tp)
  }

  ghost predicate NotBack(s: State, s': State, tp: Tp) {
    tp in s.parts ==> tp in s'.parts && s.parts[tp].committed <= s'.parts[tp].committed
  }

  lemma NotBackByBoth(s: State, s': State, s'': State, tp: Tp)
    requires NotBack(s, s', tp) && NotBack(s', s'', tp)
    ensures NotBack(s, s'', tp)
  {
  }

  lemma NextKeepsForward(states: seq<State>, actions: seq<Action>, k: nat, tp: Tp)
    requires Execution(states, actions) && SafeRun(states, actions, tp) && k < |actions|
    requires Inv(states[k]) && ForwardAt(states[k], tp)
    ensures ForwardAt(states[k + 1], tp) && NotBack(states[k], states[k + 1], tp)
  {
    StepKeepsForward(states[k], actions[k], tp);
  }

  lemma {:induction false} ExecutionIsForward(states: seq<State>, actions: seq<Action>, n: nat, tp: Tp)
    requires Execution(states, actions) && Initial(states[0]) && n < |states| && SafeRun(states, actions, tp)
    ensures Inv(states[n]) && ForwardAt(states[n], tp)
  {
    ExecutionKeepsInv(states, actions, n);
    if n > 0 {
      ExecutionIsForward(states, actions, n - 1, tp);
      NextKeepsForward(states, actions, n - 1, tp);
    }
  }

  /**
   * The committed offset of a partition never moves back in a run that gives the
   * partition only to processes whose batch, if they are in the middle of one,
   * cannot move it back.  Other partitions may come and go at any moment.
   */
  lemma {:induction false} CommittedNeverMovesBack(states: seq<State>, actions: seq<Action>, m: nat, n: nat, tp: Tp)
    requires Execution(states, actions) && Initial(states[0]) && m <= n < |states| && tp in states[m].parts
    requires SafeRun(states, actions, tp)
    ensures tp in states[n].parts
    ensures states[m].parts[tp].committed <= states[n].parts[tp].committed
    decreases n
  {
    if m < n {
      CommittedNeverMovesBack(states, actions, m, n - 1, tp);
      ExecutionIsForward(states, actions, n - 1, tp);
      NextKeepsForward(states, actions, n - 1, tp);
      NotBackByBoth(states[m], states[n - 1], states[n], tp);
    }
  }

  // ---- a partition that comes back too early ----------------------------------------------------

  ghost predicate Step(s: State, a: Action, s': State) {
    Enabled(s, a) && s' == Do(s, a)
  }

  /** The actions can be taken one after the other from s and end in t. */
  ghost predicate Leads(s: State, actions: seq<Action>, t: State)
    decreases |actions|
  {
    if actions == [] then s == t
    else Enabled(s, actions[0]) && Leads(Do(s, actions[0]), actions[1..], t)
  }

  ghost predicate Reaches(s: State, t: State) {
    exists actions :: Leads(s, actions, t)
  }

  lemma ReachesItself(s: State)
    ensures Reaches(s, s)
  {
    assert Leads(s, [], s);
  }

  lemma ReachesFirst(s: State, a: Action, s': State, t: State)
    requires Step(s, a, s') && Reaches(s', t)
    ensures Reaches(s, t)
  {
    var rest :| Leads(s', rest, t);
    assert ([a] + rest)[1..] == rest;
    assert Leads(s, [a] + rest, t);
  }

  function OnePartition(committed: nat, owner: Option<Proc>, pos: nat): map<Tp, Partition> {
    map[0 := Partition(map[0 := Garbage, 1 := Garbage], 2, committed, owner, pos)]
  }

  lemma CanPoll(i: Proc, offs: seq<nat>)
    requires offs == [0] || offs == [0, 1]
    ensures Fetchable(OnePartition(0, Some(i), 0), i, Item(0, offs))
    ensures Advanced(OnePartition(0, Some(i), 0), [Item(0, offs)]) == OnePartition(0, Some(i), |offs|)
  {
  }

  lemma PollStep(s: State, i: Proc, offs: seq<nat>)
    requires s.parts == OnePartition(0, Some(i), 0) && WorkOf(s, i).Idle?
    requires offs == [0] || offs == [0, 1]
    ensures Step(s, Poll(i, [Item(0, offs)]),
                 s.(parts := OnePartition(0, Some(i), |offs|),
                    works := s.works[i := Handling([Item(0, offs)], map[])]))
  {
    CanPoll(i, offs);
  }

  function AddDeadLetter(results: map<(Tp, nat), Result>, o: nat): map<(Tp, nat), Result> {
    if (0, o) in results then results else results[(0, o) := DeadLettered]
  }

  lemma HandleStep(s: State, i: Proc, offs: seq<nat>, done: map<Tp, nat>)
    requires s.parts == OnePartition(0, Some(i), 1) || s.parts == OnePartition(0, Some(i), 2)
    requires offs != [] && offs[0] <= 1 && i in s.works
    requires s.works[i] == Handling([Item(0, offs)], done)
    ensures Step(s, Handle(i, Permanent(true)),
                 s.(works := s.works[i := if |offs| == 1 then Committing(done[0 := offs[0] + 1])
                                          else Handling([Item(0, offs[1..])], done[0 := offs[0] + 1])],
                    results := AddDeadLetter(s.results, offs[0])))
  {
    assert DropHead([Item(0, offs)]) == if |offs| == 1 then [] else [Item(0, offs[1..])];
  }

  lemma CommitStep(s: State, i: Proc, pos: nat, committed: nat, next: nat)
    requires s.parts == OnePartition(committed, Some(i), pos) && i in s.works
    requires s.works[i] == Committing(map[0 := next])
    ensures Step(s, Commit(i, true),
                 s.(parts := OnePartition(next, Some(i), pos), works := s.works[i := Idle]))
  {
    assert DoCommit(s, i, true).parts == OnePartition(next, Some(i), pos);
  }

  function Start(db: Db): State {
    State(OnePartition(0, None, 0), map[], map[], db)
  }

  /** Process 1 took the first record and is about to commit offset 1. */
  function Slow(db: Db): State {
    State(OnePartition(0, Some(1), 1), map[1 := Committing(map[0 := 1])], AddDeadLetter(map[], 0), db)
  }

  /** Process 2 got the partition and committed both records. */
  function Overtaken(db: Db): State {
    State(OnePartition(2, Some(2), 2), map[1 := Committing(map[0 := 1]), 2 := Idle],
          AddDeadLetter(AddDeadLetter(map[], 0), 1), db)
  }

  /** Process 2 has both records in hand, then only the second, then none. */
  function Catching(db: Db, work: Work, results: map<(Tp, nat), Result>): State {
    State(OnePartition(0, Some(2), 2), map[1 := Committing(map[0 := 1]), 2 := work], results, db)
  }

  lemma FastProcessCommits(db: Db)
    ensures Reaches(Catching(db, Committing(map[0 := 2]), AddDeadLetter(AddDeadLetter(map[], 0), 1)), Overtaken(db))
  {
    var s7 := Catching(db, Committing(map[0 := 2]), AddDeadLetter(AddDeadLetter(map[], 0), 1));
    ReachesItself(Overtaken(db));
    CommitStep(s7, 2, 2, 0, 2);
    ReachesFirst(s7, Commit(2, true), Overtaken(db), Overtaken(db));
  }

  lemma FastProcessEnds(db: Db)
    ensures Reaches(Catching(db, Handling([Item(0, [1])], map[0 := 1]), AddDeadLetter(map[], 0)), Overtaken(db))
  {
    var s6 := Catching(db, Handling([Item(0, [1])], map[0 := 1]), AddDeadLetter(map[], 0));
    var s7 := Catching(db, Committing(map[0 := 2]), AddDeadLetter(AddDeadLetter(map[], 0), 1));
    FastProcessCommits(db);
    HandleStep(s6, 2, [1], map[0 := 1]);
    assert map[0 as nat := 1 as nat][0 := 2] == map[0 := 2];
    ReachesFirst(s6, Handle(2, Permanent(true)), s7, Overtaken(db));
  }

  lemma FastProcessHandles(db: Db)
    ensures Reaches(Catching(db, Handling([Item(0, [0, 1])], map[]), AddDeadLetter(map[], 0)), Overtaken(db))
  {
    var s5 := Catching(db, Handling([Item(0, [0, 1])], map[]), AddDeadLetter(map[], 0));
    var s6 := Catching(db, Handling([Item(0, [1])], map[0 := 1]), AddDeadLetter(map[], 0));
    FastProcessEnds(db);
    HandleStep(s5, 2, [0, 1], map[]);
    assert [0 as nat, 1][1..] == [1];
    ReachesFirst(s5, Handle(2, Permanent(true)), s6, Overtaken(db));
  }

  lemma AssignStep(s: State, i: Proc)
    requires s.parts == OnePartition(0, Some(1), 1)
    ensures Step(s, Assign(0, i), s.(parts := OnePartition(0, Some(i), 0)))
  {
    assert s.parts[0 := s.parts[0].(owner := Some(i), pos := 0)] == OnePartition(0, Some(i), 0);
  }

  lemma FastProcessPolls(db: Db)
    ensures Reaches(Slow(db).(parts := OnePartition(0, Some(2), 0)), Overtaken(db))
  {
    var s4 := Slow(db).(parts := OnePartition(0, Some(2), 0));
    var s5 := Catching(db, Handling([Item(0, [0, 1])], map[]), AddDeadLetter(map[], 0));
    FastProcessHandles(db);
    PollStep(s4, 2, [0, 1]);
    ReachesFirst(s4, Poll(2, [Item(0, [0, 1])]), s5, Overtaken(db));
  }

  lemma FastProcess(db: Db)
    ensures Reaches(Slow(db), Overtaken(db))
  {
    var s4 := Slow(db).(parts := OnePartition(0, Some(2), 0));
    FastProcessPolls(db);
    AssignStep(Slow(db), 2);
    ReachesFirst(Slow(db), Assign(0, 2), s4, Overtaken(db));
  }

  /** Process 1 has the partition, then the first record. */
  function Assigned(db: Db): State {
    Start(db).(parts := OnePartition(0, Some(1), 0))
  }

  function Holding(db: Db): State {
    Assigned(db).(parts := OnePartition(0, Some(1), 1), works := map[1 := Handling([Item(0, [0])], map[])])
  }

  lemma SlowProcessHandles(db: Db)
    ensures Reaches(Holding(db), Overtaken(db))
  {
    FastProcess(db);
    HandleStep(Holding(db), 1, [0], map[]);
    ReachesFirst(Holding(db), Handle(1, Permanent(true)), Slow(db), Overtaken(db));
  }

  lemma SlowProcess(db: Db)
    ensures Reaches(Start(db), Overtaken(db))
  {
    SlowProcessHandles(db);
    PollStep(Assigned(db), 1, [0]);
    ReachesFirst(Assigned(db), Poll(1, [Item(0, [0])]), Holding(db), Overtaken(db));
    ReachesFirst(Start(db), Assign(0, 1), Assigned(db), Overtaken(db));
  }

  lemma LateCommit(db: Db)
    ensures Enabled(Overtaken(db), Assign(0, 1)) && !SafeReturn(Overtaken(db), Assign(0, 1), 0)
    ensures var back := Do(Overtaken(db), Assign(0, 1));
      && Enabled(back, Commit(1, true)) && back.parts == OnePartition(2, Some(1), 2)
      && Do(back, Commit(1, true)).parts == OnePartition(1, Some(1), 2)
  {
    var back := Do(Overtaken(db), Assign(0, 1));
    assert back.parts == OnePartition(2, Some(1), 2);
    CommitStep(back, 1, 2, 2, 1);
  }

  /**
   * Without that condition they can.  Process 1 takes the first record and is
   * slow to commit; process 2 gets the partition, handles and commits both
   * records; process 1 gets the partition back and commits its old offset.
   * Nothing is lost: the records are replayed and end as duplicates.
   */
  lemma CommittedCanMoveBack(db: Db)
    ensures exists s, t ::
      (&& Initial(s) && Reaches(s, t) && Enabled(t, Commit(1, true))
       && 0 in t.parts && t.parts[0].committed == 2
       && 0 in Do(t, Commit(1, true)).parts && Do(t, Commit(1, true)).parts[0].committed == 1)
  {
    SlowProcess(db);
    LateCommit(db);
    ReachesLast(Start(db), Overtaken(db), Assign(0, 1));
    assert Initial(Start(db));
  }

  lemma {:induction false} LeadsLast(s: State, actions: seq<Action>, t: State, a: Action)
    requires Leads(s, actions, t) && Enabled(t, a)
    ensures Leads(s, actions + [a], Do(t, a))
    decreases |actions|
  {
    if actions == [] {
      assert [] + [a] == [a] && [a][1..] == [];
    } else {
      LeadsLast(Do(s, actions[0]), actions[1..], t, a);
      assert (actions + [a])[1..] == actions[1..] + [a];
    }
  }

  lemma ReachesLast(s: State, t: State, a: Action)
    requires Reaches(s, t) && Enabled(t, a)
    ensures Reaches(s, Do(t, a))
  {
    var actions :| Leads(s, actions, t);
    LeadsLast(s, actions, t, a);
  }
}
