/**
 * Concurrent accrual transactions of AccrualEngine under READ COMMITTED: each
 * statement sees the committed tables, row locks are held to the end, an INSERT
 * waits for an uncommitted row with the same key.  Every interleaving, with
 * aborts at any point, is a sequential run of the atomic accruals of Ledger.
 */
module AccrualTransactions {
  import opened Prelude
  import opened RateScale
  import opened Ledger
  import opened LedgerLaws

  type TxnId = nat

  /** How far a transaction got; the client is the snapshot its decision was based on. */
  datatype Phase =
    | Started
    | OfferHeld
    | Unpaid
    | CampaignHeld
    | Decided(client: Client, k: int)
    | Inserted(client: Client, k: int)
    | Ended(outcome: Option<Outcome>)

  datatype Txn = Txn(p: Purchase, stamp: Stamp, phase: Phase)

  datatype World = World(db: Db, txns: map<TxnId, Txn>)

  predicate HoldsOffer(x: Txn) { !x.phase.Started? && !x.phase.Ended? }

  predicate HoldsCampaign(x: Txn) { x.phase.CampaignHeld? || x.phase.Decided? || x.phase.Inserted? }

  predicate OfferFree(w: World, offer: OfferId) {
    forall t <- w.txns :: HoldsOffer(w.txns[t]) ==> w.txns[t].p.offer != offer
  }

  predicate CampaignFree(w: World, cid: CampaignId) {
    forall t <- w.txns :: HoldsCampaign(w.txns[t]) ==> w.txns[t].p.campaign != cid
  }

  function RowOf(x: Txn): Accrual
    requires x.phase.Decided? || x.phase.Inserted?
  {
    NewRow(x.p, x.stamp, x.phase.k)
  }

  // ---- the actions ---------------------------------------------------------------------

  datatype Action =
    | Begin(t: TxnId, p: Purchase, stamp: Stamp)
    | LockOffer(t: TxnId)
    | CheckPaid(t: TxnId)
    | LockCampaign(t: TxnId)
    | CheckEligible(t: TxnId)
    | InsertRow(t: TxnId)
    | Commit(t: TxnId)
    | Abort(t: TxnId)
    | Write(e: Event)

  /** Writers outside the engine take the row locks of the rows they change. */
  predicate WriteAllowed(w: World, e: Event) {
    match e
    case AccrueEvent(_, _) => false
    case SetStatus(cid, _) => CampaignFree(w, cid)
    case ArchiveCampaign(cid) => CampaignFree(w, cid)
    case EditDraft(cid, _) => CampaignFree(w, cid)
    case CompleteExpiredEvent(now) =>
      forall cid <- w.db.campaigns :: IsExpired(w.db.campaigns[cid], now) ==> CampaignFree(w, cid)
    case WriteOffer(offer, _) => OfferFree(w, offer)
    // The seeder locks its campaigns, and its offers are new in its own transaction.
    case SeedEvent(sp, now, hold) =>
      && OfferFree(w, sp.p.offer) && CampaignFree(w, sp.p.campaign)
      && forall u <- w.txns :: w.txns[u].phase.Inserted? ==>
           RowOf(w.txns[u]).tx != sp.p.tx && RowOf(w.txns[u]).id != sp.id
    case _ => true
  }

  predicate Enabled(w: World, a: Action) {
    match a
    case Begin(t, _, _) => t !in w.txns
    case LockOffer(t) => t in w.txns && w.txns[t].phase.Started? && OfferFree(w, w.txns[t].p.offer)
    case CheckPaid(t) => t in w.txns && w.txns[t].phase.OfferHeld?
    case LockCampaign(t) => t in w.txns && w.txns[t].phase.Unpaid? && CampaignFree(w, w.txns[t].p.campaign)
    case CheckEligible(t) => t in w.txns && w.txns[t].phase.CampaignHeld?
    case InsertRow(t) =>
      t in w.txns && w.txns[t].phase.Decided? &&
      forall u <- w.txns :: w.txns[u].phase.Inserted? ==> !Conflict(RowOf(w.txns[u]), RowOf(w.txns[t]))
    case Commit(t) => t in w.txns && w.txns[t].phase.Inserted?
    case Abort(t) => t in w.txns
    case Write(e) => WriteAllowed(w, e)
  }

  function NextPhase(db: Db, x: Txn, a: Action): Phase {
    match a
    case LockOffer(_) => if OfferFits(db, x.p) then OfferHeld else Ended(Some(OfferMismatch))
    case CheckPaid(_) =>
      if exists row <- db.accruals :: Pays(row, x.p) then
        Ended(Some(Duplicate(exists row <- db.accruals :: row.offer == Some(x.p.offer))))
      else if x.p.offer !in db.offers then Ended(Some(OfferMismatch))
      else
        var refusal := OfferRefusal(db.offers[x.p.offer], x.p.at);
        if refusal.Some? then Ended(refusal) else Unpaid
    case LockCampaign(_) => CampaignHeld
    case CheckEligible(_) =>
      if x.p.user !in db.clients then Ended(Some(NotEligible))
      else
        var decision := Decide(db, db.clients[x.p.user], x.p, x.stamp.now);
        if decision.Accrued? then Decided(db.clients[x.p.user], decision.amount) else Ended(Some(decision))
    case InsertRow(_) =>
      if !x.phase.Decided? then x.phase
      else if exists row <- db.accruals :: Conflict(row, RowOf(x)) then
        Ended(Some(Duplicate(exists row <- db.accruals :: row.offer == Some(x.p.offer))))
      else Inserted(x.phase.client, x.phase.k)
    case Commit(_) => if x.phase.Inserted? then Ended(Some(Accrued(x.phase.k))) else x.phase
    case Abort(_) => Ended(None)
    case _ => x.phase
  }

  function Do(w: World, a: Action): World
    requires Enabled(w, a)
  {
    if a.Write? then w.(db := Apply(w.db, a.e))
    else if a.Begin? then w.(txns := w.txns[a.t := Txn(a.p, a.stamp, Started)])
    else
      var x := w.txns[a.t];
      var txns := w.txns[a.t := x.(phase := NextPhase(w.db, x, a))];
      if a.Commit? && x.p.campaign in w.db.campaigns then World(Book(w.db, RowOf(x)), txns)
      else World(w.db, txns)
  }

  // ---- the invariant ---------------------------------------------------------------------

  /** What holds of one transaction against the committed tables. */
  ghost predicate Consistent(db: Db, x: Txn) {
    && (HoldsOffer(x) ==> OfferFits(db, x.p))
    && (HoldsOffer(x) && !x.phase.OfferHeld? ==>
          && OfferRefusal(db.offers[x.p.offer], x.p.at).None?
          && forall row <- db.accruals :: row.offer != Some(x.p.offer) && (row.tx == x.p.tx ==> row.offer.Some?))
    && (x.phase.Decided? || x.phase.Inserted? ==>
          && x.p.user in db.clients
          && Decide(db, x.phase.client, x.p, x.stamp.now) == Accrued(x.phase.k))
    && (x.phase.Inserted? ==> forall row <- db.accruals :: !Conflict(row, RowOf(x)))
  }

  /** Locks exclude each other and uncommitted rows do not clash. */
  ghost predicate Apart(x: Txn, y: Txn) {
    && (HoldsOffer(x) && HoldsOffer(y) ==> x.p.offer != y.p.offer)
    && (HoldsCampaign(x) && HoldsCampaign(y) ==> x.p.campaign != y.p.campaign)
    && (x.phase.Inserted? && y.phase.Inserted? ==> !Conflict(RowOf(x), RowOf(y)))
  }

  ghost predicate Inv(w: World) {
    && (forall t <- w.txns :: Consistent(w.db, w.txns[t]))
    && (forall t <- w.txns, u <- w.txns :: t != u ==> Apart(w.txns[t], w.txns[u]))
  }

  lemma SpentSinceAfterAppend(rows: seq<Accrual>, row: Accrual, cid: CampaignId, from: int)
    requires row.campaign != cid
    ensures SpentSince(rows + [row], cid, from) == SpentSince(rows, cid, from)
  {
    assert (rows + [row])[..|rows|] == rows;
  }

  /** A row of another offer and campaign does not disturb a transaction. */
  lemma BookingKeepsConsistent(db: Db, row: Accrual, x: Txn)
    requires Consistent(db, x) && row.campaign in db.campaigns && row.offer.Some?
    requires HoldsOffer(x) ==> row.offer != Some(x.p.offer)
    requires x.phase.Decided? || x.phase.Inserted? ==> row.campaign != x.p.campaign
    requires x.phase.Inserted? ==> !Conflict(row, RowOf(x))
    ensures Consistent(Book(db, row), x)
  {
    assert Book(db, row).accruals == db.accruals + [row];
    if x.phase.Decided? || x.phase.Inserted? {
      SpentSinceAfterAppend(db.accruals, row, x.p.campaign, WindowStart(x.p.at, x.stamp.now));
    }
  }

  /** Another transaction's commit does not disturb one that is apart from it. */
  lemma CommitKeepsOthers(db: Db, mine: Txn, other: Txn)
    requires mine.phase.Inserted? && mine.p.campaign in db.campaigns
    requires Consistent(db, other) && Apart(mine, other)
    ensures Consistent(Book(db, RowOf(mine)), other)
  {
    BookingKeepsConsistent(db, RowOf(mine), other);
  }

  lemma SettledRowHasOrigin(rows: seq<Accrual>, now: int, hold: int, row: Accrual)
    requires row in Settle(rows, now, hold)
    ensures exists prior <- rows :: prior.(payout := row.payout) == row
  {
    var i :| 0 <= i < |rows| && Settle(rows, now, hold)[i] == row;
    assert rows[i] in rows && rows[i].(payout := row.payout) == row;
  }

  lemma SettleKeepsDecision(db: Db, now: int, hold: int, client: Client, p: Purchase, at: int)
    ensures Decide(Apply(db, SettleEvent(now, hold)), client, p, at) == Decide(db, client, p, at)
  {
    SettleChangesPayoutsOnly(db.accruals, now, hold);
    PayoutDoesNotCount(db.accruals, Settle(db.accruals, now, hold), p.campaign, WindowStart(p.at, at));
  }

  lemma SettleKeepsConsistent(db: Db, now: int, hold: int, x: Txn)
    requires Consistent(db, x)
    ensures Consistent(Apply(db, SettleEvent(now, hold)), x)
  {
    var rows := Settle(db.accruals, now, hold);
    forall row <- rows
      ensures exists prior <- db.accruals :: prior.(payout := row.payout) == row
    {
      SettledRowHasOrigin(db.accruals, now, hold, row);
    }
    if x.phase.Decided? || x.phase.Inserted? {
      SettleKeepsDecision(db, now, hold, x.phase.client, x.p, x.stamp.now);
    }
  }

  /** What the seeder books is apart from every open transaction. */
  lemma SeedKeepsConsistent(w: World, sp: SeedPurchase, now: int, hold: int, t: TxnId)
    requires Inv(w) && WriteAllowed(w, SeedEvent(sp, now, hold)) && t in w.txns
    ensures Consistent(SeedOne(w.db, sp, now, hold), w.txns[t])
  {
    var x, result := w.txns[t], SeedDecision(w.db, sp, now, hold);
    if result.SeedAccrued? {
      BookingKeepsConsistent(w.db, result.row, x);
    }
  }

  lemma WriteKeepsConsistent(w: World, e: Event, t: TxnId)
    requires Inv(w) && WriteAllowed(w, e) && t in w.txns
    ensures Consistent(Apply(w.db, e), w.txns[t])
  {
    var x := w.txns[t];
    match e
    case SettleEvent(now, hold) => SettleKeepsConsistent(w.db, now, hold, x);
    case SeedEvent(sp, now, hold) => SeedKeepsConsistent(w, sp, now, hold, t);
    case CompleteExpiredEvent(now) =>
      if x.phase.Decided? || x.phase.Inserted? {
        assert !IsExpired(w.db.campaigns[x.p.campaign], now);
      }
    case _ =>
  }

  /** The acting transaction itself stays consistent. */
  lemma ActorStaysConsistent(w: World, a: Action)
    requires Inv(w) && Enabled(w, a) && !a.Write?
    ensures var w' := Do(w, a); a.t in w'.txns && Consistent(w'.db, w'.txns[a.t])
  {
    var w' := Do(w, a);
    if !a.Begin? {
      var x := w.txns[a.t];
      assert Consistent(w.db, x);
    }
  }

  lemma ActorStaysApart(w: World, a: Action, u: TxnId)
    requires Inv(w) && Enabled(w, a) && !a.Write? && u in w.txns && u != a.t
    ensures Apart(Do(w, a).txns[a.t], w.txns[u]) && Apart(w.txns[u], Do(w, a).txns[a.t])
  {
    if !a.Begin? {
      assert Apart(w.txns[a.t], w.txns[u]) && Apart(w.txns[u], w.txns[a.t]);
    }
  }

  lemma InvStep(w: World, a: Action)
    requires Inv(w) && Enabled(w, a)
    ensures Inv(Do(w, a))
  {
    var w' := Do(w, a);
    forall t <- w'.txns ensures Consistent(w'.db, w'.txns[t]) {
      if a.Write? {
        WriteKeepsConsistent(w, a.e, t);
      } else if t == a.t {
        ActorStaysConsistent(w, a);
      } else if a.Commit? && w.txns[a.t].p.campaign in w.db.campaigns {
        assert Apart(w.txns[a.t], w.txns[t]);
        CommitKeepsOthers(w.db, w.txns[a.t], w.txns[t]);
      }
    }
    forall t <- w'.txns, u <- w'.txns | t != u ensures Apart(w'.txns[t], w'.txns[u]) {
      if !a.Write? && t == a.t {
        ActorStaysApart(w, a, u);
      } else if !a.Write? && u == a.t {
        ActorStaysApart(w, a, t);
      } else {
        assert Apart(w.txns[t], w.txns[u]);
      }
    }
  }

  // ---- refinement -----------------------------------------------------------------------------

  /**
   * The sequential writes an action amounts to.  A commit is one atomic accrual;
   * the client is the snapshot read when eligibility was decided, because
   * consents and scores are not locked.
   */
  function Sequential(w: World, a: Action): seq<Event>
    requires Enabled(w, a)
  {
    match a
    case Write(e) => [e]
    case Commit(t) =>
      var x := w.txns[t];
      var user := x.p.user;
      if user !in w.db.clients then []
      else [WriteClient(user, x.phase.client), AccrueEvent(x.p, x.stamp), WriteClient(user, w.db.clients[user])]
    case _ => []
  }

  /** When a transaction commits, the atomic accrual takes exactly the same branch. */
  lemma CommitIsAccrue(db: Db, x: Txn)
    requires Consistent(db, x) && x.phase.Inserted?
    ensures x.p.campaign in db.campaigns && x.p.user in db.clients
    ensures var seen := db.(clients := db.clients[x.p.user := x.phase.client]);
      Accrue(seen, x.p, x.stamp) == (Book(seen, RowOf(x)), Accrued(x.phase.k))
  {
    var seen := db.(clients := db.clients[x.p.user := x.phase.client]);
    forall row <- db.accruals ensures !Pays(row, x.p) {
      assert !Conflict(row, RowOf(x));
    }
    assert Decide(seen, x.phase.client, x.p, x.stamp.now) == Accrued(x.phase.k);
  }

  lemma RunOfThree(db: Db, a: Event, b: Event, c: Event)
    ensures Run(db, [a, b, c]) == Apply(Apply(Apply(db, a), b), c)
  {
    assert [a, b, c][..2] == [a, b] && [a, b][..1] == [a] && [a][..0] == [];
    assert Run(db, [a]) == Apply(db, a);
    assert Run(db, [a, b]) == Apply(Run(db, [a]), b);
  }

  /** Reading the client's snapshot, accruing and putting the client back only books the row. */
  lemma AccrueWithSnapshot(db: Db, x: Txn, client: Client)
    requires x.phase.Inserted? && x.p.user in db.clients
    requires var seen := db.(clients := db.clients[x.p.user := client]);
      x.p.campaign in db.campaigns && Accrue(seen, x.p, x.stamp).0 == Book(seen, RowOf(x))
    ensures Run(db, [WriteClient(x.p.user, client), AccrueEvent(x.p, x.stamp),
                     WriteClient(x.p.user, db.clients[x.p.user])]) == Book(db, RowOf(x))
  {
    var user := x.p.user;
    RunOfThree(db, WriteClient(user, client), AccrueEvent(x.p, x.stamp), WriteClient(user, db.clients[user]));
    assert db.clients[user := client][user := db.clients[user]] == db.clients;
  }

  lemma CommitRefines(w: World, t: TxnId)
    requires Inv(w) && Enabled(w, Commit(t))
    ensures Do(w, Commit(t)).db == Run(w.db, Sequential(w, Commit(t)))
  {
    var x := w.txns[t];
    assert Consistent(w.db, x);
    CommitIsAccrue(w.db, x);
    AccrueWithSnapshot(w.db, x, x.phase.client);
  }

  lemma StepRefines(w: World, a: Action)
    requires Inv(w) && Enabled(w, a)
    ensures Do(w, a).db == Run(w.db, Sequential(w, a))
  {
    match a
    case Write(e) =>
      assert [e][..0] == [];
    case Commit(t) => CommitRefines(w, t);
    case _ =>
  }

  lemma {:induction false} RunOfConcat(db: Db, xs: seq<Event>, ys: seq<Event>)
    ensures Run(db, xs + ys) == Run(Run(db, xs), ys)
  {
    if ys == [] {
      assert xs + ys == xs;
    } else {
      assert (xs + ys)[..|xs + ys| - 1] == xs + ys[..|ys| - 1];
      RunOfConcat(db, xs, ys[..|ys| - 1]);
    }
  }

  /** An execution of any number of interleaved transactions and other writers. */
  ghost predicate Execution(worlds: seq<World>, actions: seq<Action>) {
    && |worlds| == |actions| + 1
    && forall i {:trigger actions[i]} :: 0 <= i < |actions| ==>
         Enabled(worlds[i], actions[i]) && worlds[i + 1] == Do(worlds[i], actions[i])
  }

  ghost predicate StampedInWindow(w: World) {
    forall t <- w.txns :: BookedInWindow(w.txns[t].p.at, w.txns[t].stamp)
  }

  ghost predicate ActionsInWindow(actions: seq<Action>) {
    forall a <- actions :: a.Begin? ==> BookedInWindow(a.p.at, a.stamp)
  }

  lemma {:induction false} ExecutionKeepsInv(worlds: seq<World>, actions: seq<Action>, i: nat)
    requires Execution(worlds, actions) && Inv(worlds[0]) && i < |worlds|
    ensures Inv(worlds[i])
    ensures StampedInWindow(worlds[0]) && ActionsInWindow(actions) ==> StampedInWindow(worlds[i])
  {
    if i > 0 {
      ExecutionKeepsInv(worlds, actions, i - 1);
      InvStep(worlds[i - 1], actions[i - 1]);
      assert actions[i - 1] in actions;
    }
  }

  /** Serialisability: the tables after an execution are those of a sequential run. */
  lemma {:induction false} ExecutionIsSequential(worlds: seq<World>, actions: seq<Action>, i: nat)
    returns (events: seq<Event>)
    requires Execution(worlds, actions) && Inv(worlds[0]) && i < |worlds|
    ensures worlds[i].db == Run(worlds[0].db, events)
    ensures StampedInWindow(worlds[0]) && ActionsInWindow(actions) ==>
              forall e <- events :: EventBookedInWindow(e)
  {
    if i == 0 {
      events := [];
    } else {
      var earlier := ExecutionIsSequential(worlds, actions, i - 1);
      var w, a := worlds[i - 1], actions[i - 1];
      ExecutionKeepsInv(worlds, actions, i - 1);
      StepRefines(w, a);
      RunOfConcat(worlds[0].db, earlier, Sequential(w, a));
      events := earlier + Sequential(w, a);
    }
  }

  // ---- an undisturbed transaction ---------------------------------------------------------------

  /** The statement a transaction issues next. */
  function Statement(t: TxnId, phase: Phase): Action
    requires !phase.Ended?
  {
    match phase
    case Started => LockOffer(t)
    case OfferHeld => CheckPaid(t)
    case Unpaid => LockCampaign(t)
    case CampaignHeld => CheckEligible(t)
    case Decided(_, _) => InsertRow(t)
    case Inserted(_, _) => Commit(t)
  }

  /** Its statements one after the other, at most n of them. */
  function Issue(w: World, t: TxnId, n: nat): World
    requires t in w.txns
    decreases n
  {
    if n == 0 || w.txns[t].phase.Ended? || !Enabled(w, Statement(t, w.txns[t].phase)) then w
    else Issue(Do(w, Statement(t, w.txns[t].phase)), t, n - 1)
  }

  /** No other transaction holds a lock. */
  predicate NoneElse(w: World, t: TxnId) {
    forall u <- w.txns :: u != t ==> w.txns[u].phase.Started? || w.txns[u].phase.Ended?
  }

  lemma IssueNext(w: World, t: TxnId, n: nat)
    requires t in w.txns && n > 0 && !w.txns[t].phase.Ended? && NoneElse(w, t)
    ensures var a := Statement(t, w.txns[t].phase);
      Enabled(w, a) && Issue(w, t, n) == Issue(Do(w, a), t, n - 1) && NoneElse(Do(w, a), t) && t in Do(w, a).txns
  {
  }

  lemma IssueEnded(w: World, t: TxnId, n: nat)
    requires t in w.txns && w.txns[t].phase.Ended?
    ensures Issue(w, t, n) == w
  {
  }

  /** From the campaign lock on. */
  lemma LockedAlone(w: World, t: TxnId, p: Purchase, stamp: Stamp, n: nat)
    requires t in w.txns && w.txns[t] == Txn(p, stamp, CampaignHeld) && NoneElse(w, t) && n >= 3
    requires OfferFits(w.db, p) && !(exists row <- w.db.accruals :: Pays(row, p))
    requires OfferRefusal(w.db.offers[p.offer], p.at).None?
    ensures var w', r := Issue(w, t, n), Accrue(w.db, p, stamp);
      w'.db == r.0 && t in w'.txns && w'.txns[t].phase == Ended(Some(r.1))
  {
    var w1 := Do(w, CheckEligible(t));
    IssueNext(w, t, n);
    if !w1.txns[t].phase.Ended? {
      var w2 := Do(w1, InsertRow(t));
      IssueNext(w1, t, n - 1);
      if !w2.txns[t].phase.Ended? {
        IssueNext(w2, t, n - 2);
        IssueEnded(Do(w2, Commit(t)), t, n - 3);
      } else {
        assert forall row <- w.db.accruals :: row.offer != Some(p.offer) by {
          forall row <- w.db.accruals ensures row.offer != Some(p.offer) {
            assert !Pays(row, p);
          }
        }
        IssueEnded(w2, t, n - 2);
      }
    } else {
      IssueEnded(w1, t, n - 1);
    }
  }

  /** The paid check and the offer's terms refuse exactly as the atomic accrual does. */
  lemma PaidCheckIsAccrue(db: Db, t: TxnId, p: Purchase, stamp: Stamp)
    requires OfferFits(db, p)
    ensures var next, r := NextPhase(db, Txn(p, stamp, OfferHeld), CheckPaid(t)), Accrue(db, p, stamp);
      if next.Ended? then next == Ended(Some(r.1)) && r.0 == db
      else next == Unpaid && OfferRefusal(db.offers[p.offer], p.at).None? && !(exists row <- db.accruals :: Pays(row, p))
  {
  }

  /** From the offer lock on. */
  lemma HeldAlone(w: World, t: TxnId, p: Purchase, stamp: Stamp, n: nat)
    requires t in w.txns && w.txns[t] == Txn(p, stamp, OfferHeld) && NoneElse(w, t) && n >= 5 && OfferFits(w.db, p)
    ensures var w', r := Issue(w, t, n), Accrue(w.db, p, stamp);
      w'.db == r.0 && t in w'.txns && w'.txns[t].phase == Ended(Some(r.1))
  {
    var w1 := Do(w, CheckPaid(t));
    IssueNext(w, t, n);
    PaidCheckIsAccrue(w.db, t, p, stamp);
    assert w1.txns[t] == Txn(p, stamp, NextPhase(w.db, Txn(p, stamp, OfferHeld), CheckPaid(t)));
    if w1.txns[t].phase.Ended? {
      IssueEnded(w1, t, n - 1);
    } else {
      IssueNext(w1, t, n - 1);
      LockedAlone(Do(w1, LockCampaign(t)), t, p, stamp, n - 2);
    }
  }

  /**
   * Left to itself a transaction ends after at most six statements, with the
   * tables and the outcome of the atomic accrual: paid when that pays, refused
   * for the same reason when it refuses.
   */
  lemma AloneIsAccrue(w: World, t: TxnId)
    requires t in w.txns && w.txns[t].phase.Started? && NoneElse(w, t)
    ensures var w', r := Issue(w, t, 6), Accrue(w.db, w.txns[t].p, w.txns[t].stamp);
      w'.db == r.0 && t in w'.txns && w'.txns[t].phase == Ended(Some(r.1))
  {
    var w1 := Do(w, LockOffer(t));
    IssueNext(w, t, 6);
    if w1.txns[t].phase.Ended? {
      IssueEnded(w1, t, 5);
    } else {
      HeldAlone(w1, t, w.txns[t].p, w.txns[t].stamp, 5);
    }
  }

  /**
   * Money integrity under concurrency: from a sound ledger without open
   * transactions, every interleaving keeps the unique keys and the budget check,
   * grows each budget by exactly the booked accruals, never touches a COMPLETED
   * campaign and, with stamps in their window, keeps every daily limit.
   */
  lemma ConcurrentAccrualsKeepTheLedger(worlds: seq<World>, actions: seq<Action>, i: nat)
    requires Execution(worlds, actions) && worlds[0].txns == map[] && i < |worlds|
    requires Sound(worlds[0].db)
    ensures Sound(worlds[i].db)
    ensures forall cid <- worlds[0].db.campaigns ::
      && cid in worlds[i].db.campaigns
      && Unexplained(worlds[i].db, cid) == Unexplained(worlds[0].db, cid)
      && (worlds[0].db.campaigns[cid].status == Completed ==> Frozen(worlds[0].db, worlds[i].db, cid))
    ensures DailyCapped(worlds[0].db) && ActionsInWindow(actions) ==> DailyCapped(worlds[i].db)
  {
    var db := worlds[0].db;
    var events := ExecutionIsSequential(worlds, actions, i);
    RunKeepsSound(db, events);
    forall cid <- db.campaigns
      ensures cid in worlds[i].db.campaigns
      ensures Unexplained(worlds[i].db, cid) == Unexplained(db, cid)
      ensures db.campaigns[cid].status == Completed ==> Frozen(db, worlds[i].db, cid)
    {
      RunKeepsBooks(db, events, cid);
      if db.campaigns[cid].status == Completed {
        RunFreezesCompleted(db, events, cid);
      }
    }
    if DailyCapped(db) && ActionsInWindow(actions) {
      RunKeepsDailyCap(db, events);
    }
  }
}
