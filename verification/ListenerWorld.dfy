/**
 * What surrounds one listener process: the other processes, the writers of the
 * money tables, rebalances and producers, all running while it waits.
 */
module ListenerWorld {
  import opened Prelude
  import opened ListenerProtocol
  import opened ListenerLaws
  import opened ListenerRuns
  import opened ListenerBatch

  // ---- sets of states that no step leaves ---------------------------------------------------

  ghost predicate Closed(reached: iset<State>) {
    forall t, a, u :: t in reached && Step(t, a, u) ==> u in reached
  }

  /** The invariant, under a name that the solver unfolds only where it is asked for. */
  ghost predicate Sound(s: State) {
    Inv(s)
  }

  /** Closed, and every state of it satisfies the invariant. */
  ghost predicate Sheltered(reached: iset<State>) {
    Closed(reached) && forall t {:trigger Sound(t)} :: t in reached ==> Sound(t)
  }

  lemma StepStays(reached: iset<State>, t: State, a: Action, u: State)
    requires Closed(reached) && t in reached && Step(t, a, u)
    ensures u in reached
  {
  }

  lemma {:induction false} LeadsStays(reached: iset<State>, s: State, actions: seq<Action>, t: State)
    requires Closed(reached) && s in reached && Leads(s, actions, t)
    ensures t in reached
    decreases |actions|
  {
    if actions != [] {
      StepStays(reached, s, actions[0], Do(s, actions[0]));
      LeadsStays(reached, Do(s, actions[0]), actions[1..], t);
    }
  }

  lemma {:induction false} LeadsKeepsInv(s: State, actions: seq<Action>, t: State)
    requires Inv(s) && Leads(s, actions, t)
    ensures Inv(t)
    decreases |actions|
  {
    if actions != [] {
      StepKeepsInv(s, actions[0]);
      LeadsKeepsInv(Do(s, actions[0]), actions[1..], t);
    }
  }

  lemma ReachableIsSheltered(start: State, reached: iset<State>)
    requires Sound(start)
    requires forall t :: t in reached <==> Reaches(start, t)
    ensures start in reached && Sheltered(reached)
  {
    ReachesItself(start);
    forall t, a, u | t in reached && Step(t, a, u) ensures u in reached {
      ReachesLast(start, t, a);
    }
    forall t | t in reached ensures Sound(t) {
      var actions :| Leads(start, actions, t);
      LeadsKeepsInv(start, actions, t);
    }
  }

  lemma ReachesStays(reached: iset<State>, s: State, t: State)
    requires Sheltered(reached) && s in reached && Reaches(s, t)
    ensures t in reached && Sound(t)
  {
    var actions :| Leads(s, actions, t);
    LeadsStays(reached, s, actions, t);
  }

  // ---- the steps of everybody else ---------------------------------------------------------------

  predicate By(a: Action, me: Proc) {
    (a.Poll? || a.Handle? || a.Seek? || a.Commit? || a.Crash?) && a.i == me
  }

  /** From s the others can bring the state to t while process `me` waits. */
  ghost predicate OthersReach(me: Proc, s: State, t: State) {
    exists actions :: Leads(s, actions, t) && forall k :: 0 <= k < |actions| ==> !By(actions[k], me)
  }

  /** The same tables with process `me` at `work`. */
  function At(s: State, me: Proc, work: Work): State {
    s.(works := s.works[me := work])
  }

  /** Records are never removed or replaced. */
  ghost predicate LogsKept(p: map<Tp, Partition>, q: map<Tp, Partition>) {
    forall tp, o :: tp in p && o in p[tp].log ==> tp in q && o in q[tp].log && q[tp].log[o] == p[tp].log[o]
  }

  lemma StepKeepsAllLogs(s: State, a: Action)
    requires Inv(s) && Enabled(s, a)
    ensures LogsKept(s.parts, Do(s, a).parts)
  {
    forall tp, o | tp in s.parts && o in s.parts[tp].log
      ensures tp in Do(s, a).parts && o in Do(s, a).parts[tp].log
      ensures Do(s, a).parts[tp].log[o] == s.parts[tp].log[o]
    {
      StepKeepsLogs(s, a, tp, o);
    }
  }

  lemma {:induction false} LeadsKeepsLogs(s: State, actions: seq<Action>, t: State)
    requires Inv(s) && Leads(s, actions, t)
    ensures LogsKept(s.parts, t.parts)
    decreases |actions|
  {
    if actions != [] {
      StepKeepsAllLogs(s, actions[0]);
      StepKeepsInv(s, actions[0]);
      LeadsKeepsLogs(Do(s, actions[0]), actions[1..], t);
    }
  }

  lemma OthersStay(reached: iset<State>, me: Proc, s: State, t: State)
    requires Sheltered(reached) && s in reached && OthersReach(me, s, t)
    ensures t in reached && LogsKept(s.parts, t.parts)
  {
    assert Sound(s);
    var actions :| Leads(s, actions, t);
    LeadsStays(reached, s, actions, t);
    LeadsKeepsLogs(s, actions, t);
  }

  lemma LoggedStaysCallable(p: map<Tp, Partition>, q: map<Tp, Partition>, item: Item,
                            calls: map<(Tp, nat), Attempt>)
    requires LogsKept(p, q) && item.offs != [] && Callable(p, item, calls)
    ensures Callable(q, item, calls)
  {
    assert item.offs[0] in item.offs;
  }

  predicate AllCallable(parts: map<Tp, Partition>, batch: seq<Item>, calls: map<(Tp, nat), Attempt>) {
    forall k :: 0 <= k < |batch| ==> Callable(parts, batch[k], calls)
  }

  lemma BatchStaysCallable(p: map<Tp, Partition>, q: map<Tp, Partition>, batch: seq<Item>,
                           calls: map<(Tp, nat), Attempt>)
    requires LogsKept(p, q) && NonEmptyItems(batch) && AllCallable(p, batch, calls)
    ensures AllCallable(q, batch, calls)
  {
    forall k | 0 <= k < |batch| ensures Callable(q, batch[k], calls) {
      LoggedStaysCallable(p, q, batch[k], calls);
    }
  }

  // ---- the partitions of one process -----------------------------------------------------------

  function Owned(parts: map<Tp, Partition>, me: Proc): map<Tp, Partition> {
    map tp | tp in parts && parts[tp].owner == Some(me) :: parts[tp]
  }

  lemma OwnedAdvanced(parts: map<Tp, Partition>, me: Proc, batch: seq<Item>)
    ensures Owned(Advanced(parts, batch), me) == Advanced(Owned(parts, me), batch)
  {
  }

  lemma {:induction false} OwnedRewound(parts: map<Tp, Partition>, me: Proc, rest: seq<Item>)
    requires NonEmptyItems(rest)
    ensures Owned(Rewound(parts, me, rest), me) == Rewound(Owned(parts, me), me, rest)
    decreases |rest|
  {
    if rest != [] {
      var item := rest[0];
      var moved := if item.tp in parts && parts[item.tp].owner == Some(me)
                   then parts[item.tp := parts[item.tp].(pos := item.offs[0])] else parts;
      var mine := Owned(parts, me);
      assert Owned(moved, me) == if item.tp in mine && mine[item.tp].owner == Some(me)
                                 then mine[item.tp := mine[item.tp].(pos := item.offs[0])] else mine;
      OwnedRewound(moved, me, rest[1..]);
    }
  }

  lemma OwnedCommitted(parts: map<Tp, Partition>, me: Proc, done: map<Tp, nat>)
    ensures Owned(Committed(parts, done), me) == Committed(Owned(parts, me), done)
    ensures Owns(parts, me, done.Keys) <==> Owns(Owned(parts, me), me, done.Keys)
  {
  }

  /** What getmany returns: nothing, or consecutive records from the positions of owned partitions. */
  ghost predicate Fetched(parts: map<Tp, Partition>, me: Proc, batch: seq<Item>) {
    DistinctPartitions(batch) && forall k :: 0 <= k < |batch| ==> Fetchable(parts, me, batch[k])
  }

  lemma FetchedIsPolled(parts: map<Tp, Partition>, me: Proc, batch: seq<Item>)
    requires batch != [] && Fetched(parts, me, batch)
    ensures Polled(Owned(parts, me), batch)
  {
  }

  /** No record is ahead that was not ahead before, and a finished batch leaves strictly fewer. */
  ghost predicate Shrinks(p: map<Tp, Partition>, q: map<Tp, Partition>, finished: bool) {
    && SameLogs(p, q) && |RecordsAhead(q)| <= |RecordsAhead(p)|
    && (finished ==> |RecordsAhead(q)| < |RecordsAhead(p)|)
  }

  /** The partitions of one process over one of its turns. */
  lemma OwnTurn(parts: map<Tp, Partition>, me: Proc, batch: seq<Item>, calls: map<(Tp, nat), Attempt>,
                after: map<Tp, Partition>)
    requires batch != [] && Fetched(parts, me, batch) && NonEmptyItems(batch)
    requires var moved := Rewound(Owned(Advanced(parts, batch), me), me, Remaining(batch, calls));
      after == moved || after == Committed(moved, Done(batch, calls, map[]))
    ensures Shrinks(Owned(parts, me), after, AllHandled(batch, calls))
  {
    FetchedIsPolled(parts, me, batch);
    OwnedAdvanced(parts, me, batch);
    TurnProgress(Owned(parts, me), me, batch, calls, after);
  }

  /** getmany is the protocol's poll: whatever can be reached after it can be reached from before it. */
  lemma PollStepIs(s: State, me: Proc, batch: seq<Item>, polled: State)
    requires WorkOf(s, me).Idle? && batch != [] && Fetched(s.parts, me, batch) && Sound(s)
    requires polled == State(Advanced(s.parts, batch), s.works[me := Handling(batch, map[])], s.results, s.db)
    ensures Sound(polled) && forall t :: Reaches(polled, t) ==> Reaches(s, t)
  {
    StepKeepsInv(s, Poll(me, batch));
    forall t | Reaches(polled, t) ensures Reaches(s, t) {
      ReachesFirst(s, Poll(me, batch), polled, t);
    }
  }

  // ---- a run of one process ------------------------------------------------------------------------

  /** What Kafka, Redis and Postgres answer in each turn. */
  datatype Service = Service(
    getmany: (nat, map<Tp, Partition>) -> seq<Item>,
    calls: nat -> map<(Tp, nat), Attempt>,
    accepts: nat -> bool)

  /** getmany keeps to the positions, and comes back empty only when nothing is ahead. */
  ghost predicate Delivers(service: Service, me: Proc) {
    forall n, p ::
      && Fetched(p, me, service.getmany(n, p))
      && (service.getmany(n, p) == [] ==> RecordsAhead(Owned(p, me)) == {})
  }

  lemma {:induction false} LeastOf(offsets: set<nat>) returns (least: nat)
    requires offsets != {}
    ensures least in offsets && forall o <- offsets :: least <= o
  {
    var o :| o in offsets;
    if offsets == {o} {
      least := o;
    } else {
      least := LeastOf(offsets - {o});
      least := Min(least, o);
      assert offsets == offsets - {o} + {o};
    }
  }

  /** A consumer can always deliver: with records ahead there is a batch to fetch. */
  lemma SomethingToFetch(parts: map<Tp, Partition>, me: Proc)
    requires RecordsAhead(Owned(parts, me)) != {}
    ensures exists batch :: batch != [] && Fetched(parts, me, batch)
  {
    var key :| key in RecordsAhead(Owned(parts, me));
    var part := parts[key.0];
    var ahead := set o | o in part.log && part.pos <= o;
    assert key.1 in ahead;
    var least := LeastOf(ahead);
    var item := Item(key.0, [least]);
    forall o <- part.log | part.pos <= o ensures least <= o {
      assert o in ahead;
    }
    assert Fetchable(parts, me, item);
    assert Fetched(parts, me, [item]);
  }

  /** There is an answer for every record that is possible for it. */
  ghost predicate Answers(parts: map<Tp, Partition>, calls: map<(Tp, nat), Attempt>) {
    forall tp, o :: tp in parts && o in parts[tp].log ==>
      (tp, o) in calls && Possible(parts[tp].log[o], calls[(tp, o)])
  }

  ghost predicate AllSucceed(calls: map<(Tp, nat), Attempt>) {
    forall key <- calls :: Succeeds(calls[key])
  }

  lemma AnsweredIsCallable(parts: map<Tp, Partition>, me: Proc, batch: seq<Item>, calls: map<(Tp, nat), Attempt>)
    requires Fetched(parts, me, batch) && Answers(Owned(parts, me), calls)
    ensures AllCallable(parts, batch, calls)
    ensures AllSucceed(calls) ==> AllHandled(batch, calls)
  {
    forall k | 0 <= k < |batch|
      ensures Callable(parts, batch[k], calls)
      ensures AllSucceed(calls) ==> forall o <- batch[k].offs :: Handled(batch[k], calls, o)
    {
      assert Fetchable(parts, me, batch[k]);
    }
  }

  /** The failing turns still to come. */
  function Coming(failing: set<nat>, turn: nat): set<nat> {
    set f | f in failing && turn <= f
  }

  lemma ComingShrinks(failing: set<nat>, turn: nat)
    ensures |Coming(failing, turn + 1)| == |Coming(failing, turn)| - (if turn in failing then 1 else 0)
  {
    if turn in failing {
      assert Coming(failing, turn + 1) == Coming(failing, turn) - {turn};
    } else {
      assert Coming(failing, turn + 1) == Coming(failing, turn);
    }
  }

  /** Between batches, with nothing ahead of their owner, all its records have a result. */
  lemma DrainedMeansSettled(s: State, i: Proc)
    requires Sound(s) && WorkOf(s, i).Idle? && RecordsAhead(Owned(s.parts, i)) == {}
    ensures forall tp, o :: tp in Owned(s.parts, i) && o in s.parts[tp].log ==> (tp, o) in s.results
  {
    forall tp, o | tp in Owned(s.parts, i) && o in s.parts[tp].log ensures (tp, o) in s.results {
      assert PartitionOk(s, tp) && RestOf(WorkOf(s, i)) == [];
      assert (tp, o) !in RecordsAhead(Owned(s.parts, i));
      assert o < s.parts[tp].pos;
    }
  }
}
