/** What every run of writes keeps: keys, budgets, daily limits, finished campaigns. */
module LedgerLaws {
  import opened Prelude
  import opened RateScale
  import opened Ledger

  /** The keys of migration 009, the budget check and the foreign key to campaigns. */
  ghost predicate Sound(db: Db) {
    && UniqueKeys(db.accruals)
    && (forall row <- db.accruals ::
          && 0 <= row.amount
          && row.campaign in db.campaigns
          && db.campaigns[row.campaign].status != Draft)
    && (forall cid <- db.campaigns :: db.campaigns[cid].budgetSpent <= db.campaigns[cid].budgetTotal)
  }

  predicate CappedOn(db: Db, cid: CampaignId, day: int) {
    cid in db.campaigns && db.campaigns[cid].dailyLimit.Some? ==>
      DayTotal(db.accruals, cid, day) <= db.campaigns[cid].dailyLimit.value
  }

  ghost predicate DailyCapped(db: Db) {
    forall cid, day :: CappedOn(db, cid, day)
  }

  // ---- sums --------------------------------------------------------------------------

  /** Rows that differ in nothing but their payout. */
  ghost predicate SameButPayout(a: seq<Accrual>, b: seq<Accrual>) {
    |a| == |b| && forall i :: 0 <= i < |a| ==> a[i].(payout := b[i].payout) == b[i]
  }

  lemma {:induction false} PayoutDoesNotCount(a: seq<Accrual>, b: seq<Accrual>, cid: CampaignId, x: int)
    requires SameButPayout(a, b)
    ensures CampaignTotal(a, cid) == CampaignTotal(b, cid)
    ensures SpentSince(a, cid, x) == SpentSince(b, cid, x)
    ensures DayTotal(a, cid, x) == DayTotal(b, cid, x)
  {
    if a != [] {
      PayoutDoesNotCount(a[..|a| - 1], b[..|b| - 1], cid, x);
    }
  }

  lemma TotalsAfterAppend(rows: seq<Accrual>, row: Accrual, cid: CampaignId, x: int)
    ensures CampaignTotal(rows + [row], cid)
         == CampaignTotal(rows, cid) + (if row.campaign == cid then row.amount else 0)
    ensures DayTotal(rows + [row], cid, x)
         == DayTotal(rows, cid, x) + (if row.campaign == cid && DayOf(row.accruedAt) == x then row.amount else 0)
  {
    assert (rows + [row])[..|rows|] == rows;
  }

  /** The window without upper bound over-approximates every day it starts in or before. */
  lemma {:induction false} DayWithinWindow(rows: seq<Accrual>, cid: CampaignId, day: int, from: int)
    requires forall row <- rows :: 0 <= row.amount
    requires from <= day * DAY
    ensures 0 <= DayTotal(rows, cid, day) <= SpentSince(rows, cid, from)
  {
    if rows != [] {
      DayWithinWindow(rows[..|rows| - 1], cid, day, from);
      assert rows[|rows| - 1] in rows;
    }
  }

  lemma {:induction false} NoRowsNoTotal(rows: seq<Accrual>, cid: CampaignId, day: int)
    requires forall row <- rows :: row.campaign != cid
    ensures CampaignTotal(rows, cid) == 0 && DayTotal(rows, cid, day) == 0
  {
    if rows != [] {
      assert rows[|rows| - 1] in rows;
      NoRowsNoTotal(rows[..|rows| - 1], cid, day);
    }
  }

  // ---- one accrual ------------------------------------------------------------------------

  /** An accrual that is booked is checked against everything the transaction promises. */
  lemma AccruedMeans(db: Db, p: Purchase, s: Stamp)
    requires Accrue(db, p, s).1.Accrued?
    ensures var k := Accrue(db, p, s).1.amount;
      && 0 < k && p.campaign in db.campaigns && p.user in db.clients && p.offer in db.offers
      && Accrue(db, p, s).0 == Book(db, NewRow(p, s, k))
      && (var c := db.campaigns[p.campaign];
          && c.status == Active && !c.archived && c.startAt <= p.at < c.endAt
          && c.budgetSpent + k <= c.budgetTotal
          && (c.dailyLimit.Some? ==>
                SpentSince(db.accruals, p.campaign, WindowStart(p.at, s.now)) + k <= c.dailyLimit.value))
      && forall row <- db.accruals :: !Pays(row, p) && !Conflict(row, NewRow(p, s, k))
  {
  }

  lemma AppendKeepsKeys(rows: seq<Accrual>, row: Accrual)
    requires UniqueKeys(rows) && forall prior <- rows :: !Conflict(prior, row)
    ensures UniqueKeys(rows + [row])
  {
  }

  /** Everything but an accrual leaves the tables or books one row and its amount. */
  lemma NotAccruedMeansUnchanged(db: Db, p: Purchase, s: Stamp)
    ensures !Accrue(db, p, s).1.Accrued? ==> Accrue(db, p, s).0 == db
  {
  }

  /** At-least-once delivery is harmless: a replay of a paid purchase changes nothing. */
  lemma ReplayIsDuplicate(db: Db, p: Purchase, s: Stamp, p': Purchase, s': Stamp)
    requires Accrue(db, p, s).1.Accrued?
    requires p'.tx == p.tx || p'.offer == p.offer
    ensures var (after, _) := Accrue(db, p, s);
      && Accrue(after, p', s').0 == after
      && (OfferFits(after, p') ==> Accrue(after, p', s').1.Duplicate?)
      && (OfferFits(after, p') && p'.offer == p.offer ==> Accrue(after, p', s').1.consumed)
  {
    var (after, outcome) := Accrue(db, p, s);
    AccruedMeans(db, p, s);
    var row := NewRow(p, s, outcome.amount);
    assert after.accruals == db.accruals + [row];
    assert row in after.accruals && Pays(row, p');
  }

  // ---- every write keeps the keys and the budgets ---------------------------------------------

  lemma SettleChangesPayoutsOnly(rows: seq<Accrual>, now: int, hold: int)
    ensures SameButPayout(rows, Settle(rows, now, hold))
  {
  }

  lemma SameButPayoutKeepsKeys(a: seq<Accrual>, b: seq<Accrual>)
    requires SameButPayout(a, b) && UniqueKeys(a)
    ensures UniqueKeys(b)
  {
    forall i, j | 0 <= i < j < |b| ensures !Conflict(b[i], b[j]) {
      assert !Conflict(a[i], a[j]);
      assert a[i].(payout := b[i].payout) == b[i] && a[j].(payout := b[j].payout) == b[j];
    }
  }

  lemma AccrueKeepsSound(db: Db, p: Purchase, s: Stamp)
    requires Sound(db)
    ensures Sound(Accrue(db, p, s).0)
  {
    var (after, outcome) := Accrue(db, p, s);
    NotAccruedMeansUnchanged(db, p, s);
    if outcome.Accrued? {
      AccruedMeans(db, p, s);
      AppendKeepsKeys(db.accruals, NewRow(p, s, outcome.amount));
    }
  }

  lemma SeedOneKeepsSound(db: Db, sp: SeedPurchase, now: int, hold: int)
    requires Sound(db)
    ensures Sound(SeedOne(db, sp, now, hold))
  {
    var result := SeedDecision(db, sp, now, hold);
    if result.SeedAccrued? {
      AppendKeepsKeys(db.accruals, result.row);
    }
  }

  lemma EventKeepsSound(db: Db, e: Event)
    requires Sound(db)
    ensures Sound(Apply(db, e))
  {
    match e
    case AccrueEvent(p, stamp) => AccrueKeepsSound(db, p, stamp);
    case SeedEvent(sp, now, hold) => SeedOneKeepsSound(db, sp, now, hold);
    case SettleEvent(now, hold) =>
      SettleChangesPayoutsOnly(db.accruals, now, hold);
      SameButPayoutKeepsKeys(db.accruals, Settle(db.accruals, now, hold));
      forall row <- Settle(db.accruals, now, hold)
        ensures 0 <= row.amount && row.campaign in db.campaigns && db.campaigns[row.campaign].status != Draft
      {
        var i :| 0 <= i < |db.accruals| && Settle(db.accruals, now, hold)[i] == row;
        assert db.accruals[i] in db.accruals;
      }
    case _ =>
  }

  // ---- budgets grow by exactly what is booked -----------------------------------------------------

  /** budget_spent minus the ledger of one campaign. */
  function Unexplained(db: Db, cid: CampaignId): int
    requires cid in db.campaigns
  {
    db.campaigns[cid].budgetSpent - CampaignTotal(db.accruals, cid)
  }

  lemma BookingKeepsBooks(db: Db, row: Accrual, cid: CampaignId)
    requires cid in db.campaigns && row.campaign in db.campaigns
    ensures cid in Book(db, row).campaigns && Unexplained(Book(db, row), cid) == Unexplained(db, cid)
  {
    assert (db.accruals + [row])[..|db.accruals|] == db.accruals;
  }

  lemma SeedOneKeepsBooks(db: Db, sp: SeedPurchase, now: int, hold: int, cid: CampaignId)
    requires cid in db.campaigns
    ensures Unexplained(SeedOne(db, sp, now, hold), cid) == Unexplained(db, cid)
  {
    var result := SeedDecision(db, sp, now, hold);
    if result.SeedAccrued? {
      BookingKeepsBooks(db, result.row, cid);
    }
  }

  lemma EventKeepsBooks(db: Db, e: Event, cid: CampaignId)
    requires Sound(db) && cid in Apply(db, e).campaigns
    ensures Unexplained(Apply(db, e), cid) == if cid in db.campaigns then Unexplained(db, cid) else 0
  {
    match e
    case AccrueEvent(p, stamp) =>
      NotAccruedMeansUnchanged(db, p, stamp);
      var outcome := Accrue(db, p, stamp).1;
      if outcome.Accrued? {
        AccruedMeans(db, p, stamp);
        TotalsAfterAppend(db.accruals, NewRow(p, stamp, outcome.amount), cid, 0);
      }
    case SettleEvent(now, hold) =>
      SettleChangesPayoutsOnly(db.accruals, now, hold);
      PayoutDoesNotCount(db.accruals, Settle(db.accruals, now, hold), cid, 0);
    case SeedEvent(sp, now, hold) => SeedOneKeepsBooks(db, sp, now, hold, cid);
    case CreateCampaign(_, _) =>
      if cid !in db.campaigns {
        NoRowsNoTotal(db.accruals, cid, 0);
      }
    case _ =>
  }

  // ---- the daily limit -----------------------------------------------------------------------------

  /** The window checked by eligible_campaigns starts no later than the day of booking. */
  predicate BookedInWindow(at: int, s: Stamp) {
    DayOf(Min(at, s.now)) <= DayOf(s.accruedAt)
  }

  lemma AccrueKeepsCapOn(db: Db, p: Purchase, s: Stamp, cid: CampaignId, day: int)
    requires Sound(db) && CappedOn(db, cid, day) && BookedInWindow(p.at, s)
    ensures CappedOn(Accrue(db, p, s).0, cid, day)
  {
    var outcome := Accrue(db, p, s).1;
    NotAccruedMeansUnchanged(db, p, s);
    if outcome.Accrued? {
      AccruedMeans(db, p, s);
      TotalsAfterAppend(db.accruals, NewRow(p, s, outcome.amount), cid, day);
      DayWithinWindow(db.accruals, p.campaign, DayOf(s.accruedAt), WindowStart(p.at, s.now));
    }
  }

  /** The seeder books at the purchase time, so it can never miss a daily limit. */
  lemma SeedOneKeepsCapOn(db: Db, sp: SeedPurchase, now: int, hold: int, cid: CampaignId, day: int)
    requires Sound(db) && CappedOn(db, cid, day)
    ensures CappedOn(SeedOne(db, sp, now, hold), cid, day)
  {
    var result := SeedDecision(db, sp, now, hold);
    if result.SeedAccrued? {
      TotalsAfterAppend(db.accruals, result.row, cid, day);
      DayWithinWindow(db.accruals, sp.p.campaign, DayOf(sp.p.at), WindowStart(sp.p.at, now));
    }
  }

  ghost predicate EventBookedInWindow(e: Event) {
    e.AccrueEvent? ==> BookedInWindow(e.p.at, e.stamp)
  }

  lemma EventKeepsCapOn(db: Db, e: Event, cid: CampaignId, day: int)
    requires Sound(db) && CappedOn(db, cid, day) && EventBookedInWindow(e)
    ensures CappedOn(Apply(db, e), cid, day)
  {
    match e
    case AccrueEvent(p, stamp) => AccrueKeepsCapOn(db, p, stamp, cid, day);
    case SeedEvent(sp, now, hold) => SeedOneKeepsCapOn(db, sp, now, hold, cid, day);
    case SettleEvent(now, hold) =>
      SettleChangesPayoutsOnly(db.accruals, now, hold);
      PayoutDoesNotCount(db.accruals, Settle(db.accruals, now, hold), cid, day);
    case CreateCampaign(_, _) =>
      if cid !in db.campaigns {
        NoRowsNoTotal(db.accruals, cid, day);
      }
    case EditDraft(_, _) =>
      if cid in db.campaigns && db.campaigns[cid].status == Draft {
        NoRowsNoTotal(db.accruals, cid, day);
      }
    case _ =>
  }

  // ---- a COMPLETED campaign -----------------------------------------------------------------------

  /** The rows of one campaign, in the order they were booked. */
  function RowsOf(rows: seq<Accrual>, cid: CampaignId): seq<Accrual> {
    if rows == [] then []
    else
      var last := rows[|rows| - 1];
      RowsOf(rows[..|rows| - 1], cid) + (if last.campaign == cid then [last] else [])
  }

  lemma CampaignTotalOfAppended(rows: seq<Accrual>, row: Accrual, cid: CampaignId)
    requires row.campaign == cid
    ensures CampaignTotal(rows + [row], cid) == CampaignTotal(rows, cid) + row.amount
  {
    assert (rows + [row])[..|rows|] == rows;
  }

  lemma {:induction false} TotalOfRowsOf(rows: seq<Accrual>, cid: CampaignId)
    ensures CampaignTotal(RowsOf(rows, cid), cid) == CampaignTotal(rows, cid)
  {
    if rows != [] {
      var last := rows[|rows| - 1];
      TotalOfRowsOf(rows[..|rows| - 1], cid);
      if last.campaign == cid {
        CampaignTotalOfAppended(RowsOf(rows[..|rows| - 1], cid), last, cid);
      } else {
        assert RowsOf(rows, cid) == RowsOf(rows[..|rows| - 1], cid);
      }
    }
  }

  lemma {:induction false} RowsOfSameButPayout(a: seq<Accrual>, b: seq<Accrual>, cid: CampaignId)
    requires SameButPayout(a, b)
    ensures SameButPayout(RowsOf(a, cid), RowsOf(b, cid))
  {
    if a != [] {
      RowsOfSameButPayout(a[..|a| - 1], b[..|b| - 1], cid);
    }
  }

  /** Status, money and rows of a finished campaign, payouts aside. */
  ghost predicate Frozen(before: Db, after: Db, cid: CampaignId) {
    && cid in before.campaigns && cid in after.campaigns
    && before.campaigns[cid].status == Completed
    && after.campaigns[cid] == before.campaigns[cid].(archived := after.campaigns[cid].archived)
    && SameButPayout(RowsOf(before.accruals, cid), RowsOf(after.accruals, cid))
  }

  lemma EventFreezesCompleted(db: Db, e: Event, cid: CampaignId)
    requires cid in db.campaigns && db.campaigns[cid].status == Completed
    ensures Frozen(db, Apply(db, e), cid)
  {
    match e
    case AccrueEvent(p, stamp) =>
      NotAccruedMeansUnchanged(db, p, stamp);
      if Accrue(db, p, stamp).1.Accrued? {
        AccruedMeans(db, p, stamp);
        var rows := db.accruals + [NewRow(p, stamp, Accrue(db, p, stamp).1.amount)];
        assert rows[..|rows| - 1] == db.accruals;
      }
    case SeedEvent(sp, now, hold) =>
      var result := SeedDecision(db, sp, now, hold);
      if result.SeedAccrued? {
        assert (db.accruals + [result.row])[..|db.accruals|] == db.accruals;
      }
    case SettleEvent(now, hold) =>
      SettleChangesPayoutsOnly(db.accruals, now, hold);
      RowsOfSameButPayout(db.accruals, Settle(db.accruals, now, hold), cid);
    case _ =>
  }

  // ---- whole runs ------------------------------------------------------------------------------------

  lemma {:induction false} RunKeepsSound(db: Db, events: seq<Event>)
    requires Sound(db)
    ensures Sound(Run(db, events))
  {
    if events != [] {
      RunKeepsSound(db, events[..|events| - 1]);
      EventKeepsSound(Run(db, events[..|events| - 1]), events[|events| - 1]);
    }
  }

  lemma EventKeepsCampaigns(db: Db, e: Event)
    ensures db.campaigns.Keys <= Apply(db, e).campaigns.Keys
  {
  }

  /**
   * In every run the budget spent by a campaign grows by exactly the sum of the
   * accruals booked for it.
   */
  lemma {:induction false} RunKeepsBooks(db: Db, events: seq<Event>, cid: CampaignId)
    requires Sound(db) && cid in db.campaigns
    ensures cid in Run(db, events).campaigns
    ensures Unexplained(Run(db, events), cid) == Unexplained(db, cid)
  {
    if events != [] {
      var before := Run(db, events[..|events| - 1]);
      RunKeepsBooks(db, events[..|events| - 1], cid);
      RunKeepsSound(db, events[..|events| - 1]);
      EventKeepsCampaigns(before, events[|events| - 1]);
      EventKeepsBooks(before, events[|events| - 1], cid);
    }
  }

  /**
   * The accruals booked on a UTC day never exceed the daily limit, whatever the
   * transaction times, as long as no accrual is stamped before the day its
   * window starts.
   */
  lemma {:induction false} RunKeepsDailyCap(db: Db, events: seq<Event>)
    requires Sound(db) && DailyCapped(db)
    requires forall e <- events :: EventBookedInWindow(e)
    ensures DailyCapped(Run(db, events))
  {
    if events != [] {
      var before := Run(db, events[..|events| - 1]);
      RunKeepsDailyCap(db, events[..|events| - 1]);
      RunKeepsSound(db, events[..|events| - 1]);
      forall cid, day ensures CappedOn(Run(db, events), cid, day) {
        assert CappedOn(before, cid, day);
        assert events[|events| - 1] in events;
        EventKeepsCapOn(before, events[|events| - 1], cid, day);
      }
    }
  }

  /** Once COMPLETED, always COMPLETED, with the same accruals and the same sum. */
  lemma {:induction false} RunFreezesCompleted(db: Db, events: seq<Event>, cid: CampaignId)
    requires cid in db.campaigns && db.campaigns[cid].status == Completed
    ensures Frozen(db, Run(db, events), cid)
    ensures CampaignTotal(Run(db, events).accruals, cid) == CampaignTotal(db.accruals, cid)
  {
    if events != [] {
      var before := Run(db, events[..|events| - 1]);
      RunFreezesCompleted(db, events[..|events| - 1], cid);
      EventFreezesCompleted(before, events[|events| - 1], cid);
    }
    PayoutDoesNotCount(RowsOf(db.accruals, cid), RowsOf(Run(db, events).accruals, cid), cid, 0);
    TotalOfRowsOf(db.accruals, cid);
    TotalOfRowsOf(Run(db, events).accruals, cid);
  }

  /** The same row, or one whose payout went from PENDING to PAID. */
  predicate PaidAtMost(was: Accrual, now: Accrual) {
    was == now || (was.payout.PayoutPending? && now.payout.Paid? && was.(payout := now.payout) == now)
  }

  lemma EventKeepsRowsAndPayouts(db: Db, e: Event)
    ensures |db.accruals| <= |Apply(db, e).accruals|
    ensures forall i :: 0 <= i < |db.accruals| ==> PaidAtMost(db.accruals[i], Apply(db, e).accruals[i])
  {
    if e.AccrueEvent? {
      NotAccruedMeansUnchanged(db, e.p, e.stamp);
    }
  }

  /** Payouts move one way: a PENDING row may become PAID, a PAID row keeps its time. */
  lemma {:induction false} RunKeepsRowsAndPayouts(db: Db, events: seq<Event>)
    ensures |db.accruals| <= |Run(db, events).accruals|
    ensures forall i :: 0 <= i < |db.accruals| ==> PaidAtMost(db.accruals[i], Run(db, events).accruals[i])
  {
    if events != [] {
      RunKeepsRowsAndPayouts(db, events[..|events| - 1]);
      EventKeepsRowsAndPayouts(Run(db, events[..|events| - 1]), events[|events| - 1]);
    }
  }

  /** A row that is PAID longer than `hold` after its booking, or by the seeder at the end of its own hold. */
  predicate PaidAfterHold(row: Accrual, hold: int, e: Event) {
    row.payout.Paid? &&
      (row.accruedAt < row.payout.at - hold || (e.SeedEvent? && row.payout.at == row.accruedAt + e.hold))
  }

  lemma EventPaysAfterHold(db: Db, e: Event, hold: int)
    requires e.SettleEvent? ==> hold <= e.hold
    ensures var rows := Apply(db, e).accruals;
      |db.accruals| <= |rows| && forall i :: 0 <= i < |rows| && rows[i].payout.Paid? ==>
        || (i < |db.accruals| && db.accruals[i].payout == rows[i].payout && db.accruals[i].accruedAt == rows[i].accruedAt)
        || PaidAfterHold(rows[i], hold, e)
  {
    if e.AccrueEvent? {
      NotAccruedMeansUnchanged(db, e.p, e.stamp);
    }
  }

  /**
   * A payout happens only after the hold: every row that is PAID after the run
   * was so before it, or was accrued more than the shortest hold earlier, or was
   * booked by the seeder as paid at the end of its hold.
   */
  lemma {:induction false} RunPaysAfterHold(db: Db, events: seq<Event>, hold: int)
    requires forall e <- events :: e.SettleEvent? ==> hold <= e.hold
    ensures var rows := Run(db, events).accruals;
      forall i :: 0 <= i < |rows| && rows[i].payout.Paid? ==>
        || (i < |db.accruals| && db.accruals[i].payout == rows[i].payout)
        || exists e <- events :: PaidAfterHold(rows[i], hold, e)
  {
    if events != [] {
      var before, e := Run(db, events[..|events| - 1]), events[|events| - 1];
      assert e in events;
      RunPaysAfterHold(db, events[..|events| - 1], hold);
      RunKeepsRowsAndPayouts(db, events[..|events| - 1]);
      EventPaysAfterHold(before, e, hold);
      var rows := Run(db, events).accruals;
      forall i | 0 <= i < |rows| && rows[i].payout.Paid? && !PaidAfterHold(rows[i], hold, e)
        ensures (i < |db.accruals| && db.accruals[i].payout == rows[i].payout)
             || exists e' <- events :: PaidAfterHold(rows[i], hold, e')
      {
        if !(i < |db.accruals| && db.accruals[i].payout == rows[i].payout) {
          var e' :| e' in events[..|events| - 1] && PaidAfterHold(before.accruals[i], hold, e');
          assert e' in events && PaidAfterHold(rows[i], hold, e');
        }
      }
    }
  }

  // ---- when the daily limit can be missed ---------------------------------------------------------------

  /** A campaign with limit 1 whose limit is already used on the day of `bookedAt`. */
  function ExhaustedDay(at: int, bookedAt: int): Db {
    var terms := Terms(100.0, [], None, map["5411" := None]);
    Db(map[1 := Campaign(Active, false, at, at + 1, terms, {}, None, None, 10, 1, Some(1))],
       map[1 := Offer(1, 1, "5411", Accepted, Some(at), at + 1)],
       map[1 := Client(None, None, [Consent(true, 0, 0)])],
       [Accrual(0, 1, 1, None, "earlier", "5411", 0.01, 1, PayoutPending, bookedAt)])
  }

  lemma ExhaustedDayIsLegal(at: int, bookedAt: int)
    ensures Sound(ExhaustedDay(at, bookedAt)) && DailyCapped(ExhaustedDay(at, bookedAt))
  {
    var db := ExhaustedDay(at, bookedAt);
    forall cid, day ensures CappedOn(db, cid, day) {
      assert DayTotal(db.accruals[..0], cid, day) == 0;
    }
  }

  lemma MissedDailyLimit(at: int, s: Stamp)
    requires !BookedInWindow(at, s) && s.id != 0
    ensures var db, p := ExhaustedDay(at, s.accruedAt), Purchase(1, 1, 1, "later", "5411", 0.01, at);
      Accrue(db, p, s).1 == Accrued(1) && !CappedOn(Accrue(db, p, s).0, 1, DayOf(s.accruedAt))
  {
    var db, p := ExhaustedDay(at, s.accruedAt), Purchase(1, 1, 1, "later", "5411", 0.01, at);
    var c := db.campaigns[1];
    assert db.accruals[..0] == [];
    assert SpentSince(db.accruals, 1, WindowStart(at, s.now)) == 0;
    assert BeforeRounding(c.terms, "5411", 0.01) == 0.01;
    assert 0.01 * 100.0 + 0.5 == 1.5;
    assert LatestConsent(db.clients[1].consents[1..]) == None;
    assert LatestConsent(db.clients[1].consents) == Some(Consent(true, 0, 0));
    assert Eligible(c, db.clients[1], "5411", 0.01, at, 0);
    assert Decide(db, db.clients[1], p, s.now) == Accrued(1);
    TotalsAfterAppend(db.accruals, NewRow(p, s, 1), 1, DayOf(s.accruedAt));
    TotalsAfterAppend([], db.accruals[0], 1, DayOf(s.accruedAt));
    assert [] + [db.accruals[0]] == db.accruals;
  }

  /**
   * The engine stamps the row before its transaction starts, so the window can
   * start a day later than the booking (a transaction dated tomorrow that waits
   * over midnight for a connection).  The daily limit is safe for every ledger
   * exactly when it does not.
   */
  lemma DailyCapIffBookedInWindow(at: int, accruedAt: int, now: int)
    ensures (forall db: Db, p: Purchase, id: AccrualId ::
               Sound(db) && DailyCapped(db) && p.at == at ==>
                 DailyCapped(Accrue(db, p, Stamp(id, accruedAt, now)).0))
       <==> DayOf(Min(at, now)) <= DayOf(accruedAt)
  {
    if DayOf(Min(at, now)) <= DayOf(accruedAt) {
      forall db: Db, p: Purchase, id: AccrualId | Sound(db) && DailyCapped(db) && p.at == at
        ensures DailyCapped(Accrue(db, p, Stamp(id, accruedAt, now)).0)
      {
        forall cid, day ensures CappedOn(Accrue(db, p, Stamp(id, accruedAt, now)).0, cid, day) {
          assert CappedOn(db, cid, day);
          AccrueKeepsCapOn(db, p, Stamp(id, accruedAt, now), cid, day);
        }
      }
    } else {
      ExhaustedDayIsLegal(at, accruedAt);
      MissedDailyLimit(at, Stamp(1, accruedAt, now));
    }
  }
}
