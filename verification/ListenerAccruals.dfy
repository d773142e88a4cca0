/**
 * Listeners whose accruals are the interleaved transactions of
 * AccrualTransactions: a call begins a transaction, its steps mix with those of
 * every other transaction and writer, its answer comes later or never, and a
 * process may crash in between.  Every such execution is one of
 * ListenerProtocol, where an accrual is a single step.
 */
module ListenerAccruals {
  import opened Prelude
  import opened Ledger
  import opened LedgerLaws
  import opened ListenerProtocol
  import opened ListenerLaws
  import opened ListenerRuns
  import T = AccrualTransactions

  /** `calls`: the transaction each waiting process waits for. */
  datatype Joint = Joint(s: State, txns: map<T.TxnId, T.Txn>, calls: map<Proc, T.TxnId>)

  datatype JointAction =
    | Listen(a: Action)                                          // a step without the engine
    | Call(i: Proc, t: T.TxnId, p: Purchase, stamp: Stamp)       // process i calls accrue
    | Database(ta: T.Action)                                     // a step of any transaction or writer
    | Reply(i: Proc)                                             // the outcome reaches process i
    | Raise(i: Proc)                                             // the call raises, whatever becomes of it

  function TablesOf(j: Joint): T.World {
    T.World(j.s.db, j.txns)
  }

  // ---- guards and effects -----------------------------------------------------------------------

  /** Everything of the protocol but accruals and other writes; a waiting process can only crash. */
  ghost predicate Listens(j: Joint, a: Action) {
    && ListenerProtocol.Enabled(j.s, a) && !a.Money?
    && (a.Handle? ==> a.attempt.Offerless? || a.attempt.Permanent? || (a.attempt.Transient? && !a.attempt.effect))
    && forall i <- j.calls :: !Acts(a, i)
  }

  /** The record that process i is at. */
  function CurrentRecord(s: State, i: Proc): Option<Record> {
    var w := WorkOf(s, i);
    if w.Handling? && w.rest != [] && w.rest[0].offs != [] && w.rest[0].tp in s.parts
       && w.rest[0].offs[0] in s.parts[w.rest[0].tp].log
    then Some(s.parts[w.rest[0].tp].log[w.rest[0].offs[0]])
    else None
  }

  ghost predicate Can(j: Joint, a: JointAction) {
    match a
    case Listen(la) => Listens(j, la)
    case Call(i, t, p, stamp) =>
      && i !in j.calls && T.Enabled(TablesOf(j), T.Begin(t, p, stamp))
      && CurrentRecord(j.s, i).Some? && PurchaseOf(CurrentRecord(j.s, i).value, p)
    case Database(ta) => T.Enabled(TablesOf(j), ta)
    case Reply(i) =>
      && i in j.calls && j.calls[i] in j.txns && CurrentRecord(j.s, i).Some?
      && j.txns[j.calls[i]].phase.Ended? && j.txns[j.calls[i]].phase.outcome.Some?
    case Raise(i) => i in j.calls && CurrentRecord(j.s, i).Some?
  }

  const NOTHING := Transient(Purchase(0, 0, 0, "", "", 0.0, 0), Stamp(0, 0, 0), false)

  function Without(calls: map<Proc, T.TxnId>, a: Action): map<Proc, T.TxnId> {
    if a.Crash? then calls - {a.i} else calls
  }

  ghost function Next(j: Joint, a: JointAction): Joint
    requires Can(j, a)
  {
    match a
    case Listen(la) => Joint(ListenerProtocol.Do(j.s, la), j.txns, Without(j.calls, la))
    case Call(i, t, p, stamp) => j.(txns := T.Do(TablesOf(j), T.Begin(t, p, stamp)).txns, calls := j.calls[i := t])
    case Database(ta) => Joint(j.s.(db := T.Do(TablesOf(j), ta).db), T.Do(TablesOf(j), ta).txns, j.calls)
    case Reply(i) => Joint(DoHandle(j.s, i, Told(j.txns[j.calls[i]].phase.outcome.value)), j.txns, j.calls - {i})
    case Raise(i) => Joint(DoHandle(j.s, i, NOTHING), j.txns, j.calls - {i})
  }

  // ---- the invariant --------------------------------------------------------------------------------

  /** A waiting process is at a record that its transaction's purchase was made from. */
  ghost predicate CallOk(j: Joint, i: Proc) {
    i in j.calls ==>
      && j.calls[i] in j.txns && CurrentRecord(j.s, i).Some?
      && PurchaseOf(CurrentRecord(j.s, i).value, j.txns[j.calls[i]].p)
  }

  /** A transaction that says it accrued has its row in the ledger. */
  ghost predicate OutcomeTrue(db: Db, x: T.Txn) {
    x.phase.Ended? && x.phase.outcome.Some? && x.phase.outcome.value.Accrued? ==>
      PaidOut(db, x.p.tx, x.phase.outcome.value.amount)
  }

  ghost predicate JointInv(j: Joint) {
    && T.Inv(TablesOf(j)) && ListenerProtocol.Inv(j.s)
    && (forall i: Proc :: CallOk(j, i))
    && (forall t <- j.txns :: OutcomeTrue(j.s.db, j.txns[t]))
  }

  // ---- the database alone --------------------------------------------------------------------------

  function Writing(events: seq<Event>): seq<Action> {
    seq(|events|, k requires 0 <= k < |events| => Money(events[k]))
  }

  /** Writes of the tables are steps of the protocol. */
  lemma {:induction false} WritesLead(s: State, events: seq<Event>)
    ensures Reaches(s, s.(db := Run(s.db, events)))
  {
    if events == [] {
      ReachesItself(s);
      assert s.(db := Run(s.db, events)) == s;
    } else {
      var front, last := events[..|events| - 1], events[|events| - 1];
      WritesLead(s, front);
      ReachesLast(s, s.(db := Run(s.db, front)), Money(last));
    }
  }

  lemma {:induction false} RunKeepsPaidOut(db: Db, events: seq<Event>, tx: TxId, k: int)
    requires PaidOut(db, tx, k)
    ensures PaidOut(Run(db, events), tx, k)
  {
    if events != [] {
      RunKeepsPaidOut(db, events[..|events| - 1], tx, k);
      EventKeepsPaidOut(Run(db, events[..|events| - 1]), events[|events| - 1], tx, k);
    }
  }

  /** Transactions keep their purchase, and none disappears. */
  lemma TxnStays(w: T.World, a: T.Action, t: T.TxnId)
    requires T.Enabled(w, a) && t in w.txns
    ensures t in T.Do(w, a).txns && T.Do(w, a).txns[t].p == w.txns[t].p
  {
  }

  /** The commit that makes a transaction say "accrued" books its row. */
  lemma CommitPays(w: T.World, t: T.TxnId)
    requires T.Inv(w) && T.Enabled(w, T.Commit(t))
    ensures OutcomeTrue(T.Do(w, T.Commit(t)).db, T.Do(w, T.Commit(t)).txns[t])
  {
    var x := w.txns[t];
    assert T.Consistent(w.db, x);
    T.CommitIsAccrue(w.db, x);
    var row := T.RowOf(x);
    assert Book(w.db, row).accruals == w.db.accruals + [row];
    assert row in Book(w.db, row).accruals;
  }

  lemma OutcomeStaysTrue(w: T.World, a: T.Action, t: T.TxnId)
    requires T.Inv(w) && T.Enabled(w, a) && t in T.Do(w, a).txns
    requires t in w.txns ==> OutcomeTrue(w.db, w.txns[t])
    ensures OutcomeTrue(T.Do(w, a).db, T.Do(w, a).txns[t])
  {
    var x' := T.Do(w, a).txns[t];
    if a.Commit? && a.t == t {
      CommitPays(w, t);
    } else if x'.phase.Ended? && x'.phase.outcome.Some? && x'.phase.outcome.value.Accrued? {
      AccruedBefore(w, a, t);
      T.StepRefines(w, a);
      RunKeepsPaidOut(w.db, T.Sequential(w, a), x'.p.tx, x'.phase.outcome.value.amount);
    }
  }

  /** Only a commit says "accrued". */
  lemma AccruedBefore(w: T.World, a: T.Action, t: T.TxnId)
    requires T.Enabled(w, a) && t in T.Do(w, a).txns && !(a.Commit? && a.t == t)
    requires var x' := T.Do(w, a).txns[t]; x'.phase.Ended? && x'.phase.outcome.Some? && x'.phase.outcome.value.Accrued?
    ensures t in w.txns && w.txns[t] == T.Do(w, a).txns[t]
  {
  }

  // ---- every step keeps it ---------------------------------------------------------------------------

  /** The process stays where it is. */
  lemma OthersKeepRecord(s: State, a: Action, i: Proc)
    requires ListenerProtocol.Inv(s) && ListenerProtocol.Enabled(s, a) && CurrentRecord(s, i).Some?
    requires !Acts(a, i) && !(a.Crash? && a.i == i)
    ensures CurrentRecord(ListenerProtocol.Do(s, a), i) == CurrentRecord(s, i)
  {
    var w := WorkOf(s, i);
    StepKeepsLogs(s, a, w.rest[0].tp, w.rest[0].offs[0]);
  }

  lemma ListenKeepsInv(j: Joint, a: Action)
    requires JointInv(j) && Listens(j, a)
    ensures JointInv(Next(j, Listen(a)))
  {
    var j' := Next(j, Listen(a));
    StepKeepsInv(j.s, a);
    ListenKeepsTables(j.s, a);
    assert TablesOf(j') == TablesOf(j);
    forall i: Proc ensures CallOk(j', i) {
      assert CallOk(j, i);
      if i in j'.calls {
        OthersKeepRecord(j.s, a, i);
      }
    }
  }

  lemma ListenKeepsTables(s: State, a: Action)
    requires ListenerProtocol.Enabled(s, a) && !a.Money?
    requires a.Handle? ==>
      a.attempt.Offerless? || a.attempt.Permanent? || a.attempt.Told? || (a.attempt.Transient? && !a.attempt.effect)
    ensures ListenerProtocol.Do(s, a).db == s.db
  {
  }

  /** The tables change under the listeners. */
  lemma TablesKeepInv(s: State, db: Db)
    requires ListenerProtocol.Inv(s)
    ensures ListenerProtocol.Inv(s.(db := db))
  {
    var s' := s.(db := db);
    assert Extends(s, s');
    forall tp <- s'.parts ensures PartitionOk(s', tp) {
      assert PartitionOk(s, tp);
      ExtendsPartition(s, s', tp);
    }
    forall i: Proc ensures WorkOk(s', i) {
      assert WorkOk(s, i);
      ExtendsWork(s, s', i);
    }
  }

  lemma DatabaseKeepsInv(j: Joint, a: T.Action)
    requires JointInv(j) && T.Enabled(TablesOf(j), a)
    ensures JointInv(Next(j, Database(a)))
  {
    var w, j' := TablesOf(j), Next(j, Database(a));
    T.InvStep(w, a);
    assert TablesOf(j') == T.Do(w, a);
    TablesKeepInv(j.s, j'.s.db);
    forall t <- j'.txns ensures OutcomeTrue(j'.s.db, j'.txns[t]) {
      OutcomeStaysTrue(w, a, t);
    }
    forall i: Proc ensures CallOk(j', i) {
      assert CallOk(j, i);
      if i in j.calls {
        TxnStays(w, a, j.calls[i]);
        assert CurrentRecord(j'.s, i) == CurrentRecord(j.s, i);
      }
    }
  }

  lemma CallKeepsInv(j: Joint, a: JointAction)
    requires JointInv(j) && Can(j, a) && a.Call?
    ensures JointInv(Next(j, a))
  {
    var w, j' := TablesOf(j), Next(j, a);
    T.InvStep(w, T.Begin(a.t, a.p, a.stamp));
    assert TablesOf(j') == T.Do(w, T.Begin(a.t, a.p, a.stamp));
    forall i: Proc ensures CallOk(j', i) {
      assert CallOk(j, i);
    }
  }

  /** The answer is true of the ledger, so the protocol allows it. */
  lemma ReplyIsStep(j: Joint, i: Proc)
    requires JointInv(j) && Can(j, Reply(i))
    ensures ListenerProtocol.Enabled(j.s, Handle(i, Told(j.txns[j.calls[i]].phase.outcome.value)))
  {
    var t := j.calls[i];
    assert CallOk(j, i) && OutcomeTrue(j.s.db, j.txns[t]);
    assert Tells(j.s.db, CurrentRecord(j.s, i).value, Told(j.txns[t].phase.outcome.value));
  }

  lemma RaiseIsStep(j: Joint, i: Proc)
    requires Can(j, Raise(i))
    ensures ListenerProtocol.Enabled(j.s, Handle(i, NOTHING))
  {
    assert Possible(CurrentRecord(j.s, i).value, NOTHING);
  }

  /** Process i goes on; nothing of the tables changes. */
  lemma AnswerKeepsInv(j: Joint, i: Proc, attempt: Attempt)
    requires JointInv(j) && ListenerProtocol.Enabled(j.s, Handle(i, attempt))
    requires attempt.Told? || attempt == NOTHING
    ensures JointInv(Joint(DoHandle(j.s, i, attempt), j.txns, j.calls - {i}))
  {
    var j' := Joint(DoHandle(j.s, i, attempt), j.txns, j.calls - {i});
    StepKeepsInv(j.s, Handle(i, attempt));
    ListenKeepsTables(j.s, Handle(i, attempt));
    assert TablesOf(j') == TablesOf(j);
    forall k: Proc ensures CallOk(j', k) {
      assert CallOk(j, k);
      if k in j'.calls {
        OthersKeepRecord(j.s, Handle(i, attempt), k);
      }
    }
  }

  lemma JointStepKeepsInv(j: Joint, a: JointAction)
    requires JointInv(j) && Can(j, a)
    ensures JointInv(Next(j, a))
  {
    match a
    case Listen(la) => ListenKeepsInv(j, la);
    case Call(_, _, _, _) => CallKeepsInv(j, a);
    case Database(ta) => DatabaseKeepsInv(j, ta);
    case Reply(i) =>
      ReplyIsStep(j, i);
      AnswerKeepsInv(j, i, Told(j.txns[j.calls[i]].phase.outcome.value));
    case Raise(i) =>
      RaiseIsStep(j, i);
      AnswerKeepsInv(j, i, NOTHING);
  }

  // ---- refinement ------------------------------------------------------------------------------------

  lemma OneStepReaches(s: State, a: Action)
    requires ListenerProtocol.Enabled(s, a)
    ensures Reaches(s, ListenerProtocol.Do(s, a))
  {
    ReachesItself(s);
    ReachesLast(s, s, a);
  }

  /** Every joint step is some steps of the protocol. */
  lemma JointStepRefines(j: Joint, a: JointAction)
    requires JointInv(j) && Can(j, a)
    ensures Reaches(j.s, Next(j, a).s)
  {
    match a
    case Listen(la) => OneStepReaches(j.s, la);
    case Call(_, _, _, _) => ReachesItself(j.s);
    case Database(ta) =>
      T.StepRefines(TablesOf(j), ta);
      WritesLead(j.s, T.Sequential(TablesOf(j), ta));
    case Reply(i) =>
      ReplyIsStep(j, i);
      OneStepReaches(j.s, Handle(i, Told(j.txns[j.calls[i]].phase.outcome.value)));
    case Raise(i) =>
      RaiseIsStep(j, i);
      OneStepReaches(j.s, Handle(i, NOTHING));
  }

  ghost predicate JointExecution(js: seq<Joint>, actions: seq<JointAction>) {
    && |js| == |actions| + 1
    && forall n {:trigger actions[n]} :: 0 <= n < |actions| ==>
         Can(js[n], actions[n]) && js[n + 1] == Next(js[n], actions[n])
  }

  ghost predicate JointInitial(j: Joint) {
    Initial(j.s) && j.txns == map[] && j.calls == map[]
  }

  lemma NextStep(js: seq<Joint>, actions: seq<JointAction>, n: nat)
    requires JointExecution(js, actions) && n < |actions| && JointInv(js[n])
    ensures JointInv(js[n + 1]) && Reaches(js[n].s, js[n + 1].s)
  {
    JointStepKeepsInv(js[n], actions[n]);
    JointStepRefines(js[n], actions[n]);
  }

  lemma {:induction false} LeadsOn(s: State, xs: seq<Action>, t: State, ys: seq<Action>, u: State)
    requires Leads(s, xs, t) && Leads(t, ys, u)
    ensures Leads(s, xs + ys, u)
    decreases |xs|
  {
    if xs == [] {
      assert xs + ys == ys;
    } else {
      LeadsOn(ListenerProtocol.Do(s, xs[0]), xs[1..], t, ys, u);
      assert (xs + ys)[1..] == xs[1..] + ys;
    }
  }

  lemma ReachesOn(s: State, t: State, u: State)
    requires Reaches(s, t) && Reaches(t, u)
    ensures Reaches(s, u)
  {
    var xs :| Leads(s, xs, t);
    var ys :| Leads(t, ys, u);
    LeadsOn(s, xs, t, ys, u);
  }

  /**
   * Refinement: whatever listeners with interleaved accrual transactions reach,
   * the protocol with atomic accruals reaches too, tables included.
   */
  lemma {:induction false} InterleavedAccrualsRefine(js: seq<Joint>, actions: seq<JointAction>, n: nat)
    requires JointExecution(js, actions) && JointInitial(js[0]) && n < |js|
    ensures JointInv(js[n]) && Reaches(js[0].s, js[n].s)
  {
    if n == 0 {
      InitialInv(js[0].s);
      ReachesItself(js[0].s);
    } else {
      InterleavedAccrualsRefine(js, actions, n - 1);
      NextStep(js, actions, n - 1);
      ReachesOn(js[0].s, js[n - 1].s, js[n].s);
    }
  }

  // ---- what follows ------------------------------------------------------------------------------------

  lemma {:induction false} LeadsIsExecution(s: State, actions: seq<Action>, t: State) returns (states: seq<State>)
    requires Leads(s, actions, t)
    ensures Execution(states, actions) && states[0] == s && states[|actions|] == t
    decreases |actions|
  {
    if actions == [] {
      states := [s];
    } else {
      var rest := LeadsIsExecution(ListenerProtocol.Do(s, actions[0]), actions[1..], t);
      states := [s] + rest;
      forall n | 0 <= n < |actions|
        ensures ListenerProtocol.Enabled(states[n], actions[n])
        ensures states[n + 1] == ListenerProtocol.Do(states[n], actions[n])
      {
        if n > 0 {
          assert actions[n] == actions[1..][n - 1];
        }
      }
    }
  }

  /**
   * So with interleaved transactions, lost answers, crashes and late commits:
   * every record below a committed offset is settled, every result is true of the
   * ledger, keys and budgets hold, and budgets grow by exactly what is booked.
   */
  lemma InterleavedRecordsAreSettled(js: seq<Joint>, actions: seq<JointAction>, n: nat)
    requires JointExecution(js, actions) && JointInitial(js[0]) && n < |js| && Sound(js[0].s.db)
    ensures var s := js[n].s;
      && (forall tp <- s.parts :: CoveredBelow(s, tp, s.parts[tp].committed))
      && ResultsTrue(s) && Sound(s.db)
      && forall cid <- js[0].s.db.campaigns ::
           cid in s.db.campaigns && Unexplained(s.db, cid) == Unexplained(js[0].s.db, cid)
  {
    InterleavedAccrualsRefine(js, actions, n);
    var steps :| Leads(js[0].s, steps, js[n].s);
    var states := LeadsIsExecution(js[0].s, steps, js[n].s);
    CommittedRecordsAreSettled(states, steps, |steps|);
  }
}
