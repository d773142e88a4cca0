/**
 * The code of TransactionListener: the run loop, one batch with its nested loops,
 * rewinds and commit, and the retry pause.  Everybody else runs before each poll,
 * each record and each commit; a run is shown to be a path of ListenerProtocol,
 * so everything proved there holds of it.
 */
module Listener {
  import opened Prelude
  import opened Ledger
  import opened ListenerProtocol
  import opened ListenerRuns
  import opened ListenerBatch
  import opened ListenerOutcomes
  import opened ListenerWorld
  import opened HandleMessage
  import FailureKind

  // ---- the retry pause --------------------------------------------------------------------------

  function Doubled(initial: real, times: nat): real {
    if times == 0 then initial else 2.0 * Doubled(initial, times - 1)
  }

  function DelayAfter(initial: real, most: real, failures: nat): real {
    if failures == 0 then initial else MinReal(DelayAfter(initial, most, failures - 1) * 2.0, most)
  }

  /** After k failures in a row the pause is the initial one doubled k times, capped. */
  lemma {:induction false} DelayDoublesUpToCap(initial: real, most: real, k: nat)
    requires 0.0 < initial <= most
    ensures DelayAfter(initial, most, k) == MinReal(Doubled(initial, k), most)
    ensures initial <= DelayAfter(initial, most, k) <= most
  {
    if k > 0 {
      DelayDoublesUpToCap(initial, most, k - 1);
    }
  }

  // ---- where the nested loops are ------------------------------------------------------------------

  /** The records not yet handled at message j of partition i. */
  function RestAt(batch: seq<Item>, i: nat, j: nat): seq<Item>
    requires i < |batch| && j <= |batch[i].offs|
  {
    if j < |batch[i].offs| then [Suffix(batch[i], j)] + batch[i + 1..] else batch[i + 1..]
  }

  lemma RestAdvances(batch: seq<Item>, i: nat, j: nat)
    requires i < |batch| && j < |batch[i].offs|
    ensures var rest := RestAt(batch, i, j);
      rest != [] && rest[0].offs != [] && rest[0].tp == batch[i].tp && rest[0].offs[0] == batch[i].offs[j]
      && DropHead(rest) == RestAt(batch, i, j + 1)
  {
    assert batch[i].offs[j..][1..] == batch[i].offs[j + 1..];
    assert RestAt(batch, i, j)[1..] == batch[i + 1..];
  }

  lemma RestAtStart(batch: seq<Item>, i: nat)
    requires i < |batch| && batch[i].offs != []
    ensures RestAt(batch, i, 0) == batch[i..]
    ensures batch[i..][0] == batch[i] && batch[i..][1..] == batch[i + 1..]
  {
    assert batch[i].offs[0..] == batch[i].offs;
  }

  lemma DoneAdvances(done: map<Tp, nat>, item: Item, j: nat)
    requires j < |item.offs|
    ensures DoneAt(done, item, j)[item.tp := item.offs[j] + 1] == DoneAt(done, item, j + 1)
  {
  }

  lemma CountAdvances(item: Item, calls: map<(Tp, nat), Attempt>, j: nat)
    requires j < |item.offs|
    ensures Handled(item, calls, item.offs[j]) ==> HandledCount(item, calls, j) == HandledCount(item, calls, j + 1)
    ensures !Handled(item, calls, item.offs[j]) ==> HandledCount(item, calls, j) == j
  {
  }

  function Working(rest: seq<Item>, done: map<Tp, nat>): Work {
    if rest == [] then Committing(done) else Handling(rest, done)
  }

  function Seeking(rest: seq<Item>, done: map<Tp, nat>): Work {
    if rest == [] then Committing(done) else Rewinding(rest, done)
  }

  /** The protocol step of one call of _handle. */
  lemma HandleStepIs(s: State, me: Proc, rest: seq<Item>, done: map<Tp, nat>, call: Attempt)
    requires rest != [] && rest[0].offs != [] && me in s.works && s.works[me] == Handling(rest, done)
    requires rest[0].tp in s.parts && rest[0].offs[0] in s.parts[rest[0].tp].log
    requires Possible(s.parts[rest[0].tp].log[rest[0].offs[0]], call)
    ensures var key, finished := (rest[0].tp, rest[0].offs[0]), Finish(call, s.db);
      if finished.None? then
        Step(s, Handle(me, call), State(s.parts, s.works[me := Rewinding(rest, done)], s.results, Residue(call, s.db)))
      else
        Step(s, Handle(me, call),
             State(s.parts, s.works[me := Working(DropHead(rest), done[rest[0].tp := rest[0].offs[0] + 1])],
                   if key in s.results then s.results else s.results[key := finished.value.0], finished.value.1))
  {
  }

  lemma SeekStep(s: State, me: Proc, rest: seq<Item>, done: map<Tp, nat>)
    requires rest != [] && rest[0].offs != [] && me in s.works && s.works[me] == Rewinding(rest, done)
    ensures var item := rest[0];
      Step(s, Seek(me),
           State(if item.tp in s.parts && s.parts[item.tp].owner == Some(me)
                 then s.parts[item.tp := s.parts[item.tp].(pos := item.offs[0])] else s.parts,
                 s.works[me := Seeking(rest[1..], done)], s.results, s.db))
  {
  }

  lemma CommitStepIs(s: State, me: Proc, done: map<Tp, nat>, ok: bool)
    requires me in s.works && s.works[me] == Committing(done)
    requires ok ==> Owns(s.parts, me, done.Keys)
    ensures Step(s, Commit(me, ok),
                 State(if ok then Committed(s.parts, done) else s.parts, s.works[me := Idle], s.results, s.db))
  {
    assert DoCommit(s, me, ok).parts == if ok then Committed(s.parts, done) else s.parts;
  }

  class TransactionListener {
    const me: Proc
    const initial: real
    const most: real
    /** What everybody else does while this process waits for the n-th time. */
    const outside: (nat, State) -> State
    var waits: nat
    var parts: map<Tp, Partition>
    var results: map<(Tp, nat), Result>
    var db: Db
    var others: map<Proc, Work>
    var retryDelay: real
    ghost var failures: nat

    constructor (me: Proc, initial: real, most: real, outside: (nat, State) -> State, s: State)
      ensures View(Idle) == At(s, me, Idle) && Paused()
      ensures this.me == me && this.outside == outside
    {
      this.me, this.initial, this.most, this.outside := me, initial, most, outside;
      waits := 0;
      parts, results, db, others := s.parts, s.results, s.db, s.works;
      retryDelay, failures := initial, 0;
    }

    /** The protocol state when this process is at `work`. */
    function View(work: Work): State
      reads this
    {
      State(parts, others[me := work], results, db)
    }

    ghost predicate Paused()
      reads this
    {
      retryDelay == DelayAfter(initial, most, failures)
    }

    /** The others take steps of their own, whatever this process is doing. */
    ghost predicate Lawful() {
      forall n, s, work {:trigger outside(n, s), At(s, me, work)} ::
        OthersReach(me, At(s, me, work), At(outside(n, s), me, work))
    }

    /** The others leave the partitions of this process alone. */
    ghost predicate Undisturbed() {
      forall n, s :: Owned(outside(n, s).parts, me) == Owned(s.parts, me)
    }

    ghost predicate Kept(before: map<Tp, Partition>)
      reads this
    {
      LogsKept(before, parts) && (Undisturbed() ==> Owned(parts, me) == Owned(before, me))
    }

    /** await: the others run. */
    method Await(ghost work: Work, ghost reached: iset<State>)
      requires Lawful() && Sheltered(reached) && View(work) in reached
      modifies this`parts, this`results, this`db, this`others, this`waits
      ensures View(work) in reached && Kept(old(parts))
    {
      var s := View(Idle);
      var t := outside(waits, s);
      waits := waits + 1;
      assert s.works[me := work] == others[me := work];
      OthersStay(reached, me, At(s, me, work), At(t, me, work));
      parts, results, db, others := t.parts, t.results, t.db, t.works;
    }

    /** seek(): logged and ignored when the partition was lost meanwhile. */
    method Rewind(tp: Tp, offset: nat)
      modifies this`parts
      ensures parts == if tp in old(parts) && old(parts)[tp].owner == Some(me)
                       then old(parts)[tp := old(parts)[tp].(pos := offset)] else old(parts)
    {
      if tp in parts && parts[tp].owner == Some(me) {
        parts := parts[tp := parts[tp].(pos := offset)];
      }
    }

    /** _commit: nothing to do without offsets; a failure is logged and survived. */
    method CommitOffsets(done: map<Tp, nat>, accepted: bool)
      modifies this`parts
      ensures parts == if accepted && Owns(old(parts), me, done.Keys)
                       then Committed(old(parts), done) else old(parts)
    {
      if |done| == 0 {
        assert Committed(parts, done) == parts;
        return;
      }
      if accepted && Owns(parts, me, done.Keys) {
        parts := Committed(parts, done);
      }
    }

    /** One call of _handle: false when the record must be retried. */
    method HandleRecord(tp: Tp, offset: nat, call: Attempt) returns (handled: bool)
      modifies this`results, this`db
      ensures handled <==> Succeeds(call)
      ensures handled ==>
        (&& Finish(call, old(db)).Some? && db == Finish(call, old(db)).value.1
         && results == (if (tp, offset) in old(results) then old(results)
                        else old(results)[(tp, offset) := Finish(call, old(db)).value.0]))
      ensures !handled ==> Finish(call, old(db)).None? && db == Residue(call, old(db)) && results == old(results)
    {
      var finished := Finish(call, db);
      if finished.None? {
        db := Residue(call, db);
        return false;
      }
      db := finished.value.1;
      if (tp, offset) !in results {
        results := results[(tp, offset) := finished.value.0];
      }
      handled := true;
    }

    /** _handle with what the outside world answers: what it comes to for the tables and the results. */
    method HandleAnswered(tp: Tp, offset: nat, a: Answer, errors: map<FailureKind.ErrorId, FailureKind.Error>)
      returns (handled: bool)
      requires tp in parts && offset in parts[tp].log && Fits(errors, parts[tp].log[offset], a)
      modifies this`results, this`db
      ensures handled <==>
        Failure(a).None? || (!FailureKind.Retryable(errors, Failure(a).value) && a.published)
      ensures var record := parts[tp].log[offset];
        db == if AsksEngine(a) && (a.engine.Returned? || a.engine.effect)
              then Accrue(old(db), Bought(record, a), a.engine.stamp).0 else old(db)
      ensures !handled || (tp, offset) in old(results) ==> results == old(results)
      ensures handled && (tp, offset) !in old(results) ==>
        var record := parts[tp].log[offset];
        results == old(results)[(tp, offset) :=
          if Failure(a).Some? then DeadLettered
          else if AsksEngine(a) then Engine(Accrue(old(db), Bought(record, a), a.engine.stamp).1)
          else SkippedOffer]
    {
      var call := HandleOne(parts[tp].log[offset], a, errors);
      handled := HandleRecord(tp, offset, call);
    }

    /** run(): the pause before the next poll. */
    method AfterBatch(ok: bool)
      requires Paused()
      modifies this`retryDelay, this`failures
      ensures Paused()
      ensures failures == if ok then 0 else old(failures) + 1
      ensures retryDelay == if ok then initial
                            else if old(retryDelay) + old(retryDelay) <= most then old(retryDelay) + old(retryDelay)
                            else most
      ensures 0.0 < initial <= most ==> initial <= retryDelay <= most
    {
      if ok {
        retryDelay, failures := initial, 0;
      } else {
        retryDelay, failures := MinReal(retryDelay * 2.0, most), failures + 1;
      }
      if 0.0 < initial <= most {
        DelayDoublesUpToCap(initial, most, failures);
      }
    }

    /** The seeks after a retryable failure, each to the first record not handled. */
    method RewindAll(rest: seq<Item>, ghost reached: iset<State>, ghost done: map<Tp, nat>)
      requires rest != [] && NonEmptyItems(rest)
      requires Sheltered(reached) && View(Rewinding(rest, done)) in reached
      modifies this`parts
      ensures parts == Rewound(old(parts), me, rest)
      ensures View(Committing(done)) in reached
    {
      var k := 0;
      assert rest[0..] == rest;
      while k < |rest|
        invariant 0 <= k <= |rest|
        invariant Rewound(parts, me, rest[k..]) == Rewound(old(parts), me, rest)
        invariant View(Seeking(rest[k..], done)) in reached
      {
        ghost var before := View(Seeking(rest[k..], done));
        Rewind(rest[k].tp, rest[k].offs[0]);
        assert rest[k..][1..] == rest[k + 1..];
        SeekStep(before, me, rest[k..], done);
        StepStays(reached, before, Seek(me), View(Seeking(rest[k + 1..], done)));
        k := k + 1;
      }
    }

    /** HandleRecord as a step of the protocol. */
    method HandleNext(tp: Tp, offset: nat, call: Attempt,
                      ghost reached: iset<State>, ghost rest: seq<Item>, ghost done: map<Tp, nat>)
      returns (handled: bool)
      requires rest != [] && rest[0].offs != [] && rest[0].tp == tp && rest[0].offs[0] == offset
      requires tp in parts && offset in parts[tp].log && Possible(parts[tp].log[offset], call)
      requires Sheltered(reached) && View(Handling(rest, done)) in reached
      modifies this`results, this`db
      ensures handled <==> Succeeds(call)
      ensures View(if handled then Working(DropHead(rest), done[tp := offset + 1])
                   else Rewinding(rest, done)) in reached
    {
      ghost var before := View(Handling(rest, done));
      handled := HandleRecord(tp, offset, call);
      HandleStepIs(before, me, rest, done, call);
      StepStays(reached, before, Handle(me, call),
                View(if handled then Working(DropHead(rest), done[tp := offset + 1]) else Rewinding(rest, done)));
    }

    /** The body of the inner loop of _process_batch: message j of partition i. */
    method HandleAt(batch: seq<Item>, i: nat, j: nat, calls: map<(Tp, nat), Attempt>,
                    ghost reached: iset<State>, ghost earlier: map<Tp, nat>, done: map<Tp, nat>)
      returns (done': map<Tp, nat>, handled: bool)
      requires i < |batch| && j < |batch[i].offs| && Callable(parts, batch[i], calls)
      requires Lawful() && Sheltered(reached) && View(Working(RestAt(batch, i, j), done)) in reached
      requires done == DoneAt(earlier, batch[i], j)
      modifies this`parts, this`results, this`db, this`others, this`waits
      ensures Kept(old(parts))
      ensures handled <==> Handled(batch[i], calls, batch[i].offs[j])
      ensures done' == if handled then DoneAt(earlier, batch[i], j + 1) else done
      ensures handled ==> View(Working(RestAt(batch, i, j + 1), done')) in reached
      ensures !handled ==> View(Rewinding(RestAt(batch, i, j), done')) in reached
    {
      var tp, offset := batch[i].tp, batch[i].offs[j];
      RestAdvances(batch, i, j);
      Await(Working(RestAt(batch, i, j), done), reached);
      LoggedStaysCallable(old(parts), parts, batch[i], calls);
      assert offset in batch[i].offs;
      handled := HandleNext(tp, offset, calls[(tp, offset)], reached, RestAt(batch, i, j), done);
      done' := if handled then done[tp := offset + 1] else done;
      DoneAdvances(earlier, batch[i], j);
    }

    /** The inner loop of _process_batch: the records of one partition up to a failure. */
    method HandlePartition(batch: seq<Item>, i: nat, calls: map<(Tp, nat), Attempt>,
                           ghost reached: iset<State>, done: map<Tp, nat>)
      returns (done': map<Tp, nat>, j: nat)
      requires i < |batch| && Callable(parts, batch[i], calls)
      requires Lawful() && Sheltered(reached) && View(Working(RestAt(batch, i, 0), done)) in reached
      modifies this`parts, this`results, this`db, this`others, this`waits
      ensures Kept(old(parts))
      ensures j == HandledCount(batch[i], calls, 0) && done' == DoneAt(done, batch[i], j)
      ensures j < |batch[i].offs| ==> View(Rewinding(RestAt(batch, i, j), done')) in reached
      ensures j == |batch[i].offs| ==> View(Working(RestAt(batch, i, j), done')) in reached
    {
      var n := |batch[i].offs|;
      done', j := done, 0;
      while j < n
        invariant 0 <= j <= n && done' == DoneAt(done, batch[i], j)
        invariant HandledCount(batch[i], calls, j) == HandledCount(batch[i], calls, 0)
        invariant View(Working(RestAt(batch, i, j), done')) in reached
        invariant Kept(old(parts)) && Callable(parts, batch[i], calls)
      {
        ghost var before := parts;
        var handled;
        done', handled := HandleAt(batch, i, j, calls, reached, done, done');
        LoggedStaysCallable(before, parts, batch[i], calls);
        CountAdvances(batch[i], calls, j);
        if !handled {
          return;
        }
        j := j + 1;
      }
    }

    /** _process_batch: handle partition by partition; on a retryable failure rewind. */
    method ProcessBatch(batch: seq<Item>, calls: map<(Tp, nat), Attempt>, accepted: bool)
      returns (ok: bool)
      requires batch != [] && NonEmptyItems(batch)
      requires AllCallable(parts, batch, calls)
      requires Lawful() && Sound(View(Handling(batch, map[])))
      modifies this`parts, this`results, this`db, this`others, this`waits
      ensures ok <==> Remaining(batch, calls) == []
      ensures Undisturbed() ==>
        var moved, done := Rewound(Owned(old(parts), me), me, Remaining(batch, calls)), Done(batch, calls, map[]);
        Owned(parts, me) == if accepted && Owns(moved, me, done.Keys) then Committed(moved, done) else moved
      ensures Reaches(old(View(Handling(batch, map[]))), View(Idle))
    {
      ghost var start := View(Handling(batch, map[]));
      ghost var reached := iset t | Reaches(start, t);
      ReachableIsSheltered(start, reached);
      assert batch[0..] == batch;
      var done: map<Tp, nat> := map[];
      var i := 0;
      while i < |batch|
        invariant 0 <= i <= |batch|
        invariant Kept(old(parts)) && AllCallable(parts, batch, calls)
        invariant Remaining(batch[i..], calls) == Remaining(batch, calls)
        invariant Done(batch[i..], calls, done) == Done(batch, calls, map[])
        invariant View(Working(batch[i..], done)) in reached
      {
        RestAtStart(batch, i);
        var j;
        done, j := HandlePartition(batch, i, calls, reached, done);
        BatchStaysCallable(old(parts), parts, batch, calls);
        if j < |batch[i].offs| {
          StopBatch([batch[i].(offs := batch[i].offs[j..])] + batch[i + 1..], reached, done, accepted);
          return false;
        }
        i := i + 1;
      }
      CommitAndReport(reached, done, accepted);
      ok := true;
    }

    /** A retryable failure: seek every unfinished partition, then commit what was handled. */
    method StopBatch(rest: seq<Item>, ghost reached: iset<State>, done: map<Tp, nat>, accepted: bool)
      requires rest != [] && NonEmptyItems(rest)
      requires Lawful() && Sheltered(reached) && View(Rewinding(rest, done)) in reached
      modifies this`parts, this`results, this`db, this`others, this`waits
      ensures Undisturbed() ==>
        var moved := Rewound(Owned(old(parts), me), me, rest);
        Owned(parts, me) == if accepted && Owns(moved, me, done.Keys) then Committed(moved, done) else moved
      ensures View(Idle) in reached
    {
      OwnedRewound(parts, me, rest);
      RewindAll(rest, reached, done);
      CommitAndReport(reached, done, accepted);
    }

    method CommitAndReport(ghost reached: iset<State>, done: map<Tp, nat>, accepted: bool)
      requires Lawful() && Sheltered(reached) && View(Committing(done)) in reached
      modifies this`parts, this`results, this`db, this`others, this`waits
      ensures Undisturbed() ==>
        var mine := Owned(old(parts), me);
        Owned(parts, me) == if accepted && Owns(mine, me, done.Keys) then Committed(mine, done) else mine
      ensures View(Idle) in reached
    {
      Await(Committing(done), reached);
      ghost var before := View(Committing(done));
      OwnedCommitted(parts, me, done);
      CommitOffsets(done, accepted);
      CommitStepIs(before, me, done, accepted && Owns(before.parts, me, done.Keys));
      StepStays(reached, before, Commit(me, accepted && Owns(before.parts, me, done.Keys)), View(Idle));
    }

    /** getmany: the positions move past everything returned. */
    method FetchBatch(batch: seq<Item>, ghost calls: map<(Tp, nat), Attempt>)
      requires AllCallable(parts, batch, calls)
      requires batch != [] && Fetched(parts, me, batch) && Sound(View(Idle))
      modifies this`parts
      ensures parts == Advanced(old(parts), batch)
      ensures AllCallable(parts, batch, calls)
      ensures Sound(View(Handling(batch, map[])))
      ensures forall t :: Reaches(View(Handling(batch, map[])), t) ==> Reaches(old(View(Idle)), t)
    {
      forall k | 0 <= k < |batch| ensures Callable(Advanced(parts, batch), batch[k], calls) {
        AdvancingKeepsCallable(parts, batch, batch[k], calls);
      }
      ghost var before := View(Idle);
      parts := Advanced(parts, batch);
      assert others[me := Idle][me := Handling(batch, map[])] == others[me := Handling(batch, map[])];
      PollStepIs(before, me, batch, View(Handling(batch, map[])));
    }

    /**
     * A poll that returned something, and its batch.  Undisturbed, it adds nothing
     * to the records ahead of this process, without a failure it removes some, and
     * it leaves each partition at and committed to its first record not handled.
     */
    method PollAndProcess(batch: seq<Item>, calls: map<(Tp, nat), Attempt>, accepted: bool) returns (ok: bool)
      requires batch != [] && Fetched(parts, me, batch) && AllCallable(parts, batch, calls)
      requires Lawful() && Sound(View(Idle))
      modifies this`parts, this`results, this`db, this`others, this`waits
      ensures ok <==> AllHandled(batch, calls)
      ensures Reaches(old(View(Idle)), View(Idle))
      ensures Undisturbed() ==> Shrinks(Owned(old(parts), me), Owned(parts, me), ok)
      ensures Undisturbed() ==> BatchLeft(old(parts), Owned(parts, me), batch, calls, accepted)
    {
      ghost var before := parts;
      FetchBatch(batch, calls);
      ok := ProcessBatch(batch, calls, accepted);
      FinishedIffAllHandled(batch, calls);
      if Undisturbed() {
        OwnTurn(before, me, batch, calls, Owned(parts, me));
        TurnLeaves(before, me, batch, calls, accepted, Owned(parts, me));
      }
    }

    /** One turn of run() that polled something: the batch, then the pause. */
    method Turn(batch: seq<Item>, calls: map<(Tp, nat), Attempt>, accepted: bool) returns (ok: bool)
      requires Paused() && batch != [] && Fetched(parts, me, batch) && AllCallable(parts, batch, calls)
      requires Lawful() && Sound(View(Idle))
      modifies this`parts, this`results, this`db, this`others, this`waits, this`retryDelay, this`failures
      ensures Paused() && failures == if ok then 0 else old(failures) + 1
      ensures ok <==> AllHandled(batch, calls)
      ensures Reaches(old(View(Idle)), View(Idle))
      ensures Undisturbed() ==> Shrinks(Owned(old(parts), me), Owned(parts, me), ok)
      ensures Undisturbed() ==> BatchLeft(old(parts), Owned(parts, me), batch, calls, accepted)
    {
      ok := PollAndProcess(batch, calls, accepted);
      AfterBatch(ok);
    }

    /** A turn without a failing call leaves fewer records ahead, one with it fewer failing turns to come. */
    method TakeTurn(service: Service, batch: seq<Item>, n: nat, ghost failing: set<nat>, ghost reached: iset<State>)
      requires Paused() && batch != [] && Fetched(parts, me, batch)
      requires Answers(Owned(parts, me), service.calls(n)) && (n !in failing ==> AllSucceed(service.calls(n)))
      requires Lawful() && Undisturbed() && Sheltered(reached) && View(Idle) in reached
      modifies this`parts, this`results, this`db, this`others, this`waits, this`retryDelay, this`failures
      ensures Paused() && View(Idle) in reached
      ensures SameLogs(old(Owned(parts, me)), Owned(parts, me))
      ensures |RecordsAhead(Owned(parts, me))| + |Coming(failing, n + 1)|
            < |old(RecordsAhead(Owned(parts, me)))| + |Coming(failing, n)|
    {
      AnsweredIsCallable(parts, me, batch, service.calls(n));
      assert Sound(View(Idle));
      var ok := Turn(batch, service.calls(n), service.accepts(n));
      ReachesStays(reached, old(View(Idle)), View(Idle));
      ComingShrinks(failing, n);
    }

    /**
     * run() until a poll comes back empty, with others at work on other partitions:
     * every record of the partitions of this process gets a result, after at most
     * as many batches as there are records ahead and turns in which a call fails.
     */
    method Run(service: Service, ghost failing: set<nat>) returns (turns: nat)
      requires Paused() && Lawful() && Undisturbed() && Sound(View(Idle)) && Delivers(service, me)
      requires forall n :: Answers(Owned(parts, me), service.calls(n))
      requires forall n :: n !in failing ==> AllSucceed(service.calls(n))
      modifies this`parts, this`results, this`db, this`others, this`waits, this`retryDelay, this`failures
      ensures Reaches(old(View(Idle)), View(Idle)) && Paused()
      ensures SameLogs(old(Owned(parts, me)), Owned(parts, me)) && RecordsAhead(Owned(parts, me)) == {}
      ensures forall tp, o :: tp in Owned(parts, me) && o in parts[tp].log ==> (tp, o) in results
      ensures turns <= |old(RecordsAhead(Owned(parts, me)))| + |failing|
    {
      ghost var start := View(Idle);
      ghost var reached := iset t | Reaches(start, t);
      ReachableIsSheltered(start, reached);
      turns := 0;
      assert Coming(failing, 0) == failing;
      var stop := false;
      while !stop
        invariant View(Idle) in reached && Paused()
        invariant SameLogs(old(Owned(parts, me)), Owned(parts, me))
        invariant turns + |RecordsAhead(Owned(parts, me))| + |Coming(failing, turns)|
               <= |old(RecordsAhead(Owned(parts, me)))| + |failing|
        invariant stop ==> RecordsAhead(Owned(parts, me)) == {}
        decreases |RecordsAhead(Owned(parts, me))| + |Coming(failing, turns)|, !stop
      {
        Await(Idle, reached);
        var batch := service.getmany(turns, parts);
        if batch == [] {
          stop := true;
        } else {
          TakeTurn(service, batch, turns, failing, reached);
          turns := turns + 1;
        }
      }
      assert Sound(View(Idle));
      DrainedMeansSettled(View(Idle), me);
    }
  }
}
