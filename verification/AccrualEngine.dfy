/**
 * The code that writes the money tables: AccrualEngine.accrue, the scheduler's
 * settlement and completion jobs, the status trigger and the demo seeder.
 */
module AccrualEngine {
  import opened Prelude
  import opened RateScale
  import opened Ledger
  import opened LedgerLaws

  function SeedAll(db: Db, sps: seq<SeedPurchase>, now: int, hold: int): Db {
    if sps == [] then db
    else SeedOne(SeedAll(db, sps[..|sps| - 1], now, hold), sps[|sps| - 1], now, hold)
  }

  /** How many of the purchases a seeding refuses, each on the tables its predecessors leave. */
  function Refusals(db: Db, sps: seq<SeedPurchase>, now: int, hold: int): nat {
    if sps == [] then 0
    else
      var front := sps[..|sps| - 1];
      Refusals(db, front, now, hold)
      + (if SeedDecision(SeedAll(db, front, now, hold), sps[|sps| - 1], now, hold).SeedRefused? then 1 else 0)
  }

  function Total(rows: seq<Accrual>): int {
    if rows == [] then 0 else Total(rows[..|rows| - 1]) + rows[|rows| - 1].amount
  }

  lemma {:induction false} TotalOfConcat(a: seq<Accrual>, b: seq<Accrual>)
    ensures Total(a + b) == Total(a) + Total(b)
  {
    if b == [] {
      assert a + b == a;
    } else {
      assert (a + b)[..|a + b| - 1] == a + b[..|b| - 1];
      TotalOfConcat(a, b[..|b| - 1]);
    }
  }

  function PaidOut(rows: seq<Accrual>): nat {
    if rows == [] then 0 else PaidOut(rows[..|rows| - 1]) + if rows[|rows| - 1].payout.Paid? then 1 else 0
  }

  lemma TotalOfTail(rows: seq<Accrual>, row: Accrual, from: nat)
    requires from <= |rows|
    ensures Total((rows + [row])[from..]) == Total(rows[from..]) + row.amount
    ensures PaidOut((rows + [row])[from..]) == PaidOut(rows[from..]) + if row.payout.Paid? then 1 else 0
  {
    assert (rows + [row])[from..] == rows[from..] + [row];
    assert (rows[from..] + [row])[..|rows[from..]|] == rows[from..];
  }

  function SeedEvents(sps: seq<SeedPurchase>, now: int, hold: int): seq<Event> {
    seq(|sps|, i requires 0 <= i < |sps| => SeedEvent(sps[i], now, hold))
  }

  /** Seeding is a run of writes like any other. */
  lemma {:induction false} SeedAllIsRun(db: Db, sps: seq<SeedPurchase>, now: int, hold: int)
    ensures SeedAll(db, sps, now, hold) == Run(db, SeedEvents(sps, now, hold))
  {
    if sps != [] {
      var n := |sps| - 1;
      SeedAllIsRun(db, sps[..n], now, hold);
      assert SeedEvents(sps, now, hold)[..n] == SeedEvents(sps[..n], now, hold);
    }
  }

  /** Seeding keeps the keys, every budget's explanation and every daily limit. */
  lemma SeedingKeepsTheLedger(db: Db, sps: seq<SeedPurchase>, now: int, hold: int)
    requires Sound(db)
    ensures Sound(SeedAll(db, sps, now, hold))
    ensures forall cid <- db.campaigns ::
      cid in SeedAll(db, sps, now, hold).campaigns
      && Unexplained(SeedAll(db, sps, now, hold), cid) == Unexplained(db, cid)
    ensures DailyCapped(db) ==> DailyCapped(SeedAll(db, sps, now, hold))
  {
    var events := SeedEvents(sps, now, hold);
    SeedAllIsRun(db, sps, now, hold);
    RunKeepsSound(db, events);
    forall cid <- db.campaigns ensures cid in Run(db, events).campaigns && Unexplained(Run(db, events), cid) == Unexplained(db, cid) {
      RunKeepsBooks(db, events, cid);
    }
    if DailyCapped(db) {
      RunKeepsDailyCap(db, events);
    }
  }

  /** Rows a settlement at `now` pays out. */
  function Due(rows: seq<Accrual>, now: int, hold: int): nat {
    if rows == [] then 0
    else
      var last := rows[|rows| - 1];
      Due(rows[..|rows| - 1], now, hold)
      + (if last.payout == PayoutPending && last.accruedAt < now - hold then 1 else 0)
  }

  /** The rows that a settlement changes, by position. */
  function ChangedRows(rows: seq<Accrual>, now: int, hold: int): set<int> {
    set i | 0 <= i < |rows| && Settle(rows, now, hold)[i] != rows[i]
  }

  lemma {:induction false} DueCountsChanged(rows: seq<Accrual>, now: int, hold: int)
    ensures Due(rows, now, hold) == |ChangedRows(rows, now, hold)|
  {
    if rows != [] {
      var n := |rows| - 1;
      DueCountsChanged(rows[..n], now, hold);
      var before := ChangedRows(rows[..n], now, hold);
      assert ChangedRows(rows, now, hold) == if SettleRow(rows[n], now, hold) != rows[n] then before + {n} else before;
    }
  }

  /** After a settlement nothing is due at that time: running the job again pays nobody twice. */
  lemma {:induction false} SettledTwicePaysOnce(rows: seq<Accrual>, now: int, hold: int)
    ensures Due(Settle(rows, now, hold), now, hold) == 0
    ensures Settle(Settle(rows, now, hold), now, hold) == Settle(rows, now, hold)
  {
    if rows != [] {
      var settled := Settle(rows, now, hold);
      SettledTwicePaysOnce(rows[..|rows| - 1], now, hold);
      assert settled[..|rows| - 1] == Settle(rows[..|rows| - 1], now, hold);
    }
  }

  class MoneyDatabase {
    var campaigns: map<CampaignId, Campaign>
    var offers: map<OfferId, Offer>
    var clients: map<UserId, Client>
    var accruals: seq<Accrual>

    function View(): Db
      reads this
    {
      Db(campaigns, offers, clients, accruals)
    }

    constructor (db: Db)
      ensures View() == db
    {
      campaigns, offers, clients, accruals := db.campaigns, db.offers, db.clients, db.accruals;
    }

    /** AccrualEngine.accrue: the offer, the paid check, then steps 2-6. */
    method Accrue(p: Purchase, s: Stamp) returns (outcome: Outcome)
      modifies this`campaigns, this`accruals
      ensures (View(), outcome) == Ledger.Accrue(old(View()), p, s)
    {
      if p.offer !in offers {
        return OfferMismatch;
      }
      var offer := offers[p.offer];
      if offer.user != p.user || offer.campaign != p.campaign || offer.mcc != p.mcc {
        return OfferMismatch;
      }
      if exists row <- accruals :: Pays(row, p) {
        return Duplicate(exists row <- accruals :: row.offer == Some(p.offer));
      }
      if offer.response != Accepted {
        return OfferNotAccepted;
      }
      if offer.respondedAt.None? || WholeSecond(offer.respondedAt.value) > p.at {
        return AcceptedAfterPurchase;
      }
      if offer.expiresAt <= p.at {
        return OfferExpired;
      }
      outcome := AccrueLocked(p, s);
    }

    /** _accrue_locked: eligibility, cashback, limits, INSERT, budget. */
    method AccrueLocked(p: Purchase, s: Stamp) returns (outcome: Outcome)
      requires OfferFits(View(), p) && OfferRefusal(offers[p.offer], p.at).None?
      requires !exists row <- accruals :: Pays(row, p)
      modifies this`campaigns, this`accruals
      ensures (View(), outcome) == Ledger.Accrue(old(View()), p, s)
    {
      if p.campaign !in campaigns || p.user !in clients {
        return NotEligible;
      }
      var c := campaigns[p.campaign];
      var spentToday := SpentSince(accruals, p.campaign, WindowStart(p.at, s.now));
      if !Eligible(c, clients[p.user], p.mcc, p.amount, p.at, spentToday) {
        return NotEligible;
      }
      var cashback := CalculateCashback(c.terms, p.mcc, p.amount);
      if cashback <= 0 {
        return ZeroCashback;
      }
      if c.dailyLimit.Some? && spentToday + cashback > c.dailyLimit.value {
        return DailyLimitReached;
      }
      if cashback > c.budgetTotal - c.budgetSpent {
        return BudgetExhausted;
      }
      var row := NewRow(p, s, cashback);
      if exists prior <- accruals :: Conflict(prior, row) {
        return Duplicate(false);
      }
      accruals := accruals + [row];
      campaigns := campaigns[p.campaign := c.(budgetSpent := c.budgetSpent + cashback)];
      outcome := Accrued(cashback);
    }

    /** settle_accruals: PENDING rows past the hold become PAID; returns the row count. */
    method SettleAccruals(now: int, hold: int) returns (count: nat)
      modifies this`accruals
      ensures accruals == Settle(old(accruals), now, hold)
      ensures |accruals| == |old(accruals)|
      ensures forall i :: 0 <= i < |accruals| ==> accruals[i] == old(accruals)[i] || accruals[i] == old(accruals)[i].(payout := Paid(now))
      ensures forall i :: 0 <= i < |accruals| ==>
        (accruals[i] != old(accruals)[i] <==>
          old(accruals)[i].payout == PayoutPending && old(accruals)[i].accruedAt + hold < now)
      ensures count == |ChangedRows(old(accruals), now, hold)|
    {
      ghost var was := accruals;
      count := 0;
      for i := 0 to |accruals|
        invariant |accruals| == |was| && forall j :: 0 <= j < |was| ==>
          accruals[j] == if j < i then SettleRow(was[j], now, hold) else was[j]
        invariant count == Due(was[..i], now, hold)
      {
        var row := accruals[i];
        assert was[..i + 1][..i] == was[..i];
        if row.payout == PayoutPending && row.accruedAt < now - hold {
          accruals := accruals[i := row.(payout := Paid(now))];
          count := count + 1;
        }
      }
      assert was[..|was|] == was;
      assert accruals == Settle(was, now, hold);
      DueCountsChanged(was, now, hold);
    }

    /** complete_expired_campaigns: returns the campaigns it finished. */
    method CompleteExpiredCampaigns(now: int) returns (finished: set<CampaignId>)
      modifies this`campaigns
      ensures View() == Apply(old(View()), CompleteExpiredEvent(now))
      ensures forall cid <- campaigns ::
        cid in finished <==> old(campaigns)[cid].status != Completed && campaigns[cid].status == Completed
      // Live campaigns past their end, and only these, and only their status.
      ensures forall cid :: cid in finished <==>
        && cid in old(campaigns) && !old(campaigns)[cid].archived && old(campaigns)[cid].endAt <= now
        && old(campaigns)[cid].status != Draft && old(campaigns)[cid].status != Completed
      ensures campaigns.Keys == old(campaigns).Keys && forall cid <- campaigns ::
        campaigns[cid] == old(campaigns)[cid].(status := if cid in finished then Completed else old(campaigns)[cid].status)
    {
      finished := set cid | cid in campaigns && IsExpired(campaigns[cid], now);
      campaigns := CompleteExpired(campaigns, now);
    }

    /** UPDATE of a status under trg_campaign_status_guard; false is SQLSTATE 23514. */
    method UpdateStatus(cid: CampaignId, status: Status) returns (accepted: bool)
      requires cid in campaigns
      modifies this`campaigns
      ensures View() == Apply(old(View()), SetStatus(cid, status))
      ensures accepted <==> campaigns[cid].status == status
      // A draft can only be started, nothing becomes a draft again, and the end is final.
      ensures accepted <==>
        match old(campaigns)[cid].status
        case Draft => status == Draft || status == Active
        case Completed => status == Completed
        case _ => status != Draft
      ensures campaigns == if accepted then old(campaigns)[cid := old(campaigns)[cid].(status := status)] else old(campaigns)
    {
      var was := campaigns[cid].status;
      if was == status {
        return true;
      }
      if !Allowed(was, status) {
        return false;
      }
      campaigns := campaigns[cid := campaigns[cid].(status := status)];
      accepted := true;
    }

    /** seed_accruals over purchases already ordered by time. */
    method SeedAccruals(purchases: seq<SeedPurchase>, now: int, hold: int)
      returns (accrued: nat, total: int, refused: nat, paid: nat)
      modifies this`campaigns, this`accruals
      ensures View() == SeedAll(old(View()), purchases, now, hold)
      ensures old(accruals) <= accruals && accrued == |accruals| - |old(accruals)|
      ensures total == Total(accruals[|old(accruals)|..]) && paid == PaidOut(accruals[|old(accruals)|..])
      ensures accrued + refused <= |purchases| && refused == Refusals(old(View()), purchases, now, hold)
    {
      accrued, total, refused, paid := 0, 0, 0, 0;
      for i := 0 to |purchases|
        invariant View() == SeedAll(old(View()), purchases[..i], now, hold)
        invariant old(accruals) <= accruals && accrued == |accruals| - |old(accruals)|
        invariant total == Total(accruals[|old(accruals)|..]) && paid == PaidOut(accruals[|old(accruals)|..])
        invariant accrued + refused <= i && refused == Refusals(old(View()), purchases[..i], now, hold)
      {
        assert purchases[..i + 1][..i] == purchases[..i];
        var before := accruals;
        var inserted, cashback := SeedPurchaseRow(purchases[i], now, hold);
        if inserted.None? {
          refused := refused + 1;
        } else if inserted.value {
          TotalOfTail(before, accruals[|before|], |old(accruals)|);
          accrued, total := accrued + 1, total + cashback;
          paid := paid + (if purchases[i].p.at < now - hold then 1 else 0);
        }
      }
      assert purchases[..|purchases|] == purchases;
    }

    /** One iteration: None is a refusal, Some(false) a key conflict, Some(true) a new row. */
    method SeedPurchaseRow(sp: SeedPurchase, now: int, hold: int)
      returns (inserted: Option<bool>, cashback: int)
      modifies this`campaigns, this`accruals
      ensures View() == SeedOne(old(View()), sp, now, hold)
      ensures var result := SeedDecision(old(View()), sp, now, hold);
        && (inserted.None? <==> result.SeedRefused?)
        && (inserted == Some(false) <==> result.SeedConflict?)
        && (inserted == Some(true) ==> accruals == old(accruals) + [result.row] && cashback == result.row.amount)
        && (inserted != Some(true) ==> accruals == old(accruals))
    {
      cashback := 0;
      if sp.p.user !in clients {
        return None, 0;
      }
      var decision := Decide(View(), clients[sp.p.user], sp.p, now);
      if !decision.Accrued? {
        return None, 0;
      }
      cashback := decision.amount;
      var row := SeedRow(sp, cashback, now, hold);
      if exists prior <- accruals :: Conflict(prior, row) {
        return Some(false), 0;
      }
      var c := campaigns[sp.p.campaign];
      accruals := accruals + [row];
      campaigns := campaigns[sp.p.campaign := c.(budgetSpent := c.budgetSpent + cashback)];
      inserted := Some(true);
    }
  }
}
