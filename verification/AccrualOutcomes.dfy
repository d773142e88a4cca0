/**
 * What each outcome of an accrual means for the client, the offer, the campaign
 * and the ledger, condition by condition: who is paid, exactly what is written,
 * and why anybody else is refused.
 */
module AccrualOutcomes {
  import opened Prelude
  import opened RateScale
  import opened Ledger
  import opened LedgerLaws

  // ---- time and sums ------------------------------------------------------------------------

  /** UTC days and whole seconds of a time in microseconds, rounded down also before 1970. */
  lemma ClockUnits(t: int)
    ensures 86_400_000_000 * DayOf(t) <= t < 86_400_000_000 * DayOf(t) + 86_400_000_000
    ensures WholeSecond(t) % 1_000_000 == 0 && WholeSecond(t) <= t < WholeSecond(t) + 1_000_000
  {
  }

  /** The window starts at a UTC midnight: of today, or of the purchase day when that is earlier. */
  lemma WindowStartsAtMidnight(at: int, now: int)
    ensures WindowStart(at, now) % 86_400_000_000 == 0
    ensures WindowStart(at, now) <= at && WindowStart(at, now) <= now
    ensures at < WindowStart(at, now) + 86_400_000_000 || now < WindowStart(at, now) + 86_400_000_000
  {
    ClockUnits(Min(at, now));
  }

  /** Sums grow by the amounts of their own campaign's rows only, late rows only in the window. */
  lemma SumsAfterRow(rows: seq<Accrual>, row: Accrual, cid: CampaignId, from: int)
    ensures CampaignTotal([], cid) == 0 && SpentSince([], cid, from) == 0
    ensures row.campaign != cid ==>
      CampaignTotal(rows + [row], cid) == CampaignTotal(rows, cid) && SpentSince(rows + [row], cid, from) == SpentSince(rows, cid, from)
    ensures row.campaign == cid ==> CampaignTotal(rows + [row], cid) == CampaignTotal(rows, cid) + row.amount
    ensures row.campaign == cid && row.accruedAt < from ==> SpentSince(rows + [row], cid, from) == SpentSince(rows, cid, from)
    ensures row.campaign == cid && row.accruedAt >= from ==>
      SpentSince(rows + [row], cid, from) == SpentSince(rows, cid, from) + row.amount
  {
    assert (rows + [row])[..|rows|] == rows;
  }

  // ---- the conditions of a payout -------------------------------------------------------------

  /** Consents are rows of a table: no two have the same id. */
  predicate ConsentKeys(cs: seq<Consent>) {
    forall i, j :: 0 <= i < j < |cs| ==> cs[i].id != cs[j].id
  }

  /** The newest consent was given, not withdrawn; of two at the same time the larger id is newer. */
  predicate NewestGrants(cs: seq<Consent>) {
    exists c <- cs :: c.granted &&
      forall d <- cs :: d.createdAt < c.createdAt || (d.createdAt == c.createdAt && d.id <= c.id)
  }

  /** Somebody with the right segment, scores and consent. */
  predicate ClientFits(c: Campaign, client: Client) {
    && (c.segments != {} ==> client.segment.Some? && client.segment.value in c.segments)
    && (c.rfmMin.Some? ==> client.rfm.Some? && c.rfmMin.value <= client.rfm.value)
    && (c.rfmMax.Some? ==> client.rfm.Some? && client.rfm.value <= c.rfmMax.value)
    && NewestGrants(client.consents)
  }

  /** A live campaign for this category, at this time, from this amount on. */
  predicate CampaignFits(c: Campaign, p: Purchase) {
    && c.status.Active? && !c.archived && c.startAt <= p.at < c.endAt
    && p.mcc in c.terms.categories
    && match c.terms.categories[p.mcc]
       case Some(own) => own <= p.amount
       case None => if c.terms.minAmount.Some? then c.terms.minAmount.value <= p.amount else 0.0 <= p.amount
  }

  /** The offer is this client's, for this campaign and category. */
  predicate OfferIsFor(db: Db, p: Purchase) {
    && p.offer in db.offers
    && var o := db.offers[p.offer]; o.user == p.user && o.campaign == p.campaign && o.mcc == p.mcc
  }

  /** It was accepted by the second of the purchase and had not expired. */
  predicate AcceptedInTime(o: Offer, at: int) {
    o.response.Accepted? && o.respondedAt.Some? && o.respondedAt.value / 1_000_000 * 1_000_000 <= at < o.expiresAt
  }

  predicate PaidBefore(db: Db, p: Purchase) {
    exists row <- db.accruals :: row.offer == Some(p.offer) || row.tx == p.tx
  }

  /** What the campaign paid from the start of the window on. */
  function SpentInWindow(db: Db, p: Purchase, s: Stamp): int {
    SpentSince(db.accruals, p.campaign, Min(p.at, s.now) / 86_400_000_000 * 86_400_000_000)
  }

  predicate MoneyFor(c: Campaign, spent: int, k: int) {
    0 < k && c.budgetSpent + k <= c.budgetTotal && (c.dailyLimit.Some? ==> spent + k <= c.dailyLimit.value)
  }

  /** Every condition of a payout of k kopecks. */
  predicate MayPay(db: Db, p: Purchase, s: Stamp, k: int) {
    && OfferIsFor(db, p) && AcceptedInTime(db.offers[p.offer], p.at) && !PaidBefore(db, p)
    && (forall row <- db.accruals :: row.id != s.id)
    && p.campaign in db.campaigns && p.user in db.clients
    && var c := db.campaigns[p.campaign];
       && CampaignFits(c, p) && ClientFits(c, db.clients[p.user])
       && k == Cashback(c.terms, p.mcc, p.amount) && MoneyFor(c, SpentInWindow(db, p, s), k)
  }

  // ---- they are what the code checks ------------------------------------------------------------

  lemma LatestGrantsIff(cs: seq<Consent>)
    requires ConsentKeys(cs)
    ensures LatestConsent(cs).Some? && LatestConsent(cs).value.granted <==> NewestGrants(cs)
  {
    if LatestConsent(cs).Some? {
      var r := LatestConsent(cs).value;
      if c :| c in cs && c.granted
              && forall d <- cs :: d.createdAt < c.createdAt || (d.createdAt == c.createdAt && d.id <= c.id) {
        var i :| 0 <= i < |cs| && cs[i] == c;
        var j :| 0 <= j < |cs| && cs[j] == r;
        assert c.id == r.id;
      }
    }
  }

  lemma EligibleIff(c: Campaign, client: Client, p: Purchase, spent: int)
    requires ConsentKeys(client.consents)
    ensures Eligible(c, client, p.mcc, p.amount, p.at, spent) <==>
      && CampaignFits(c, p) && ClientFits(c, client)
      && c.budgetSpent < c.budgetTotal && (c.dailyLimit.Some? ==> spent < c.dailyLimit.value)
  {
    LatestGrantsIff(client.consents);
  }

  lemma OfferFitsIff(db: Db, p: Purchase)
    ensures OfferFits(db, p) <==> OfferIsFor(db, p)
    ensures OfferIsFor(db, p) ==> (OfferRefusal(db.offers[p.offer], p.at).None? <==> AcceptedInTime(db.offers[p.offer], p.at))
    ensures (exists row <- db.accruals :: Pays(row, p)) <==> PaidBefore(db, p)
  {
    if row :| row in db.accruals && Pays(row, p) {
      assert row.offer == Some(p.offer) || row.tx == p.tx;
    }
    if row :| row in db.accruals && (row.offer == Some(p.offer) || row.tx == p.tx) {
      assert Pays(row, p);
    }
  }

  /** An unpaid purchase conflicts only with a row of the same id. */
  lemma ConflictIff(db: Db, p: Purchase, s: Stamp, k: int)
    requires !PaidBefore(db, p)
    ensures (exists prior <- db.accruals :: Conflict(prior, NewRow(p, s, k))) <==> exists row <- db.accruals :: row.id == s.id
  {
    forall row <- db.accruals ensures Conflict(row, NewRow(p, s, k)) <==> row.id == s.id {
      assert row.offer != Some(p.offer) && row.tx != p.tx;
    }
  }

  lemma DecideIff(db: Db, p: Purchase, s: Stamp, k: int)
    requires p.user in db.clients && ConsentKeys(db.clients[p.user].consents)
    ensures Decide(db, db.clients[p.user], p, s.now) == Accrued(k) <==>
      && p.campaign in db.campaigns
      && CampaignFits(db.campaigns[p.campaign], p) && ClientFits(db.campaigns[p.campaign], db.clients[p.user])
      && k == Cashback(db.campaigns[p.campaign].terms, p.mcc, p.amount)
      && MoneyFor(db.campaigns[p.campaign], SpentInWindow(db, p, s), k)
  {
    if p.campaign in db.campaigns {
      EligibleIff(db.campaigns[p.campaign], db.clients[p.user], p, SpentInWindow(db, p, s));
    }
  }

  /** A purchase is paid k kopecks if and only if every condition holds and k is its cashback. */
  lemma AccruedIff(db: Db, p: Purchase, s: Stamp, k: int)
    requires p.user in db.clients ==> ConsentKeys(db.clients[p.user].consents)
    ensures Accrue(db, p, s).1 == Accrued(k) <==> MayPay(db, p, s, k)
  {
    OfferFitsIff(db, p);
    if OfferIsFor(db, p) && !PaidBefore(db, p) && p.user in db.clients {
      DecideIff(db, p, s, k);
      ConflictIff(db, p, s, k);
    }
  }

  /** A payout writes one PENDING row of the purchase and adds its amount to the campaign; nothing else. */
  lemma AccruedWrites(db: Db, p: Purchase, s: Stamp, k: int)
    requires Accrue(db, p, s).1 == Accrued(k)
    ensures var after := Accrue(db, p, s).0;
      && after.offers == db.offers && after.clients == db.clients
      && after.accruals == db.accruals +
           [Accrual(s.id, p.user, p.campaign, Some(p.offer), p.tx, p.mcc, p.amount, k, PayoutPending, s.accruedAt)]
      && after.campaigns.Keys == db.campaigns.Keys && p.campaign in db.campaigns
      && (forall cid <- db.campaigns :: cid != p.campaign ==> after.campaigns[cid] == db.campaigns[cid])
      && after.campaigns[p.campaign]
           == db.campaigns[p.campaign].(budgetSpent := db.campaigns[p.campaign].budgetSpent + k)
  {
    AccruedMeans(db, p, s);
  }

  /** Why a purchase is not paid. */
  predicate Refused(db: Db, p: Purchase, s: Stamp, outcome: Outcome) {
    match outcome
    case Accrued(_) => false
    case OfferMismatch => !OfferIsFor(db, p)
    case Duplicate(consumed) =>
      && OfferIsFor(db, p)
      && (consumed <==> exists row <- db.accruals :: row.offer == Some(p.offer))
      && (!PaidBefore(db, p) ==>
            && Chosen(db, p, s) && MoneyFor(db.campaigns[p.campaign], SpentInWindow(db, p, s), CashbackOf(db, p))
            && exists row <- db.accruals :: row.id == s.id)
    case OfferNotAccepted => OfferIsFor(db, p) && !PaidBefore(db, p) && db.offers[p.offer].response != Accepted
    case AcceptedAfterPurchase =>
      && OfferIsFor(db, p) && !PaidBefore(db, p)
      && var o := db.offers[p.offer];
         o.response == Accepted && (o.respondedAt.Some? ==> p.at < o.respondedAt.value / 1_000_000 * 1_000_000)
    case OfferExpired =>
      && OfferIsFor(db, p) && !PaidBefore(db, p)
      && var o := db.offers[p.offer];
         && o.response == Accepted && o.respondedAt.Some? && o.respondedAt.value / 1_000_000 * 1_000_000 <= p.at
         && o.expiresAt <= p.at
    case NotEligible =>
      && OfferIsFor(db, p) && !PaidBefore(db, p) && AcceptedInTime(db.offers[p.offer], p.at)
      && (p.campaign in db.campaigns && p.user in db.clients ==>
            var c := db.campaigns[p.campaign];
            || !CampaignFits(c, p) || !ClientFits(c, db.clients[p.user]) || c.budgetTotal <= c.budgetSpent
            || (c.dailyLimit.Some? && c.dailyLimit.value <= SpentInWindow(db, p, s)))
    case ZeroCashback => Chosen(db, p, s) && CashbackOf(db, p) <= 0
    case DailyLimitReached =>
      && Chosen(db, p, s) && 0 < CashbackOf(db, p)
      && var limit := db.campaigns[p.campaign].dailyLimit;
         limit.Some? && limit.value < SpentInWindow(db, p, s) + CashbackOf(db, p)
    case BudgetExhausted =>
      && Chosen(db, p, s) && 0 < CashbackOf(db, p)
      && var c := db.campaigns[p.campaign];
         && c.budgetTotal < c.budgetSpent + CashbackOf(db, p)
         && (c.dailyLimit.Some? ==> SpentInWindow(db, p, s) + CashbackOf(db, p) <= c.dailyLimit.value)
  }

  /** Offer, campaign and client are in order and money is left: only the amount decides. */
  predicate Chosen(db: Db, p: Purchase, s: Stamp) {
    && OfferIsFor(db, p) && !PaidBefore(db, p) && AcceptedInTime(db.offers[p.offer], p.at)
    && p.campaign in db.campaigns && p.user in db.clients
    && var c := db.campaigns[p.campaign];
       && CampaignFits(c, p) && ClientFits(c, db.clients[p.user])
       && c.budgetSpent < c.budgetTotal && (c.dailyLimit.Some? ==> SpentInWindow(db, p, s) < c.dailyLimit.value)
  }

  function CashbackOf(db: Db, p: Purchase): int
    requires p.campaign in db.campaigns
  {
    Cashback(db.campaigns[p.campaign].terms, p.mcc, p.amount)
  }

  lemma ConsumedIff(db: Db, p: Purchase)
    ensures (exists row <- db.accruals :: row.offer == Some(p.offer)) ==> PaidBefore(db, p)
  {
  }

  lemma LockedRefusal(db: Db, p: Purchase, s: Stamp)
    requires p.user in db.clients && ConsentKeys(db.clients[p.user].consents)
    requires OfferIsFor(db, p) && !PaidBefore(db, p) && AcceptedInTime(db.offers[p.offer], p.at)
    ensures var decision := Decide(db, db.clients[p.user], p, s.now);
      !decision.Accrued? ==> Refused(db, p, s, decision)
  {
    if p.campaign in db.campaigns {
      EligibleIff(db.campaigns[p.campaign], db.clients[p.user], p, SpentInWindow(db, p, s));
    }
  }

  /** Every refusal has its own cause: the causes exclude each other, so each outcome is exact. */
  lemma RefusedMeans(db: Db, p: Purchase, s: Stamp)
    requires p.user in db.clients ==> ConsentKeys(db.clients[p.user].consents)
    ensures var outcome := Accrue(db, p, s).1; !outcome.Accrued? ==> Refused(db, p, s, outcome)
  {
    OfferFitsIff(db, p);
    ConsumedIff(db, p);
    if OfferIsFor(db, p) && !PaidBefore(db, p) && AcceptedInTime(db.offers[p.offer], p.at) && p.user in db.clients {
      LockedRefusal(db, p, s);
      var decision := Decide(db, db.clients[p.user], p, s.now);
      if decision.Accrued? {
        DecideIff(db, p, s, decision.amount);
        ConflictIff(db, p, s, decision.amount);
      }
    }
  }

  lemma CausesExcludeEachOther(db: Db, p: Purchase, s: Stamp, a: Outcome, b: Outcome)
    requires Refused(db, p, s, a) && Refused(db, p, s, b)
    ensures a == b
  {
  }

  // ---- the keys --------------------------------------------------------------------------------

  /** In a sound ledger no purchase and no offer is paid twice, whatever the campaign. */
  lemma SoundPaysOnce(db: Db, i: nat, j: nat)
    requires Sound(db) && i < j < |db.accruals|
    ensures var a, b := db.accruals[i], db.accruals[j];
      && a.id != b.id && !(a.tx == b.tx && a.campaign == b.campaign)
      && (a.offer.Some? && b.offer.Some? ==> a.offer != b.offer && a.tx != b.tx)
  {
    assert !Conflict(db.accruals[i], db.accruals[j]);
  }

  // ---- the seeder ---------------------------------------------------------------------------------

  /** The seeder pays a planned purchase exactly under the engine's conditions, offers aside. */
  lemma SeededIff(db: Db, sp: SeedPurchase, now: int, hold: int, row: Accrual)
    requires sp.p.user in db.clients ==> ConsentKeys(db.clients[sp.p.user].consents)
    ensures SeedDecision(db, sp, now, hold) == SeedAccrued(row) <==>
      var p := sp.p;
      && p.campaign in db.campaigns && p.user in db.clients
      && var c := db.campaigns[p.campaign];
         && CampaignFits(c, p) && ClientFits(c, db.clients[p.user])
         && MoneyFor(c, SpentInWindow(db, p, Stamp(0, 0, now)), row.amount)
         && row.amount == Cashback(c.terms, p.mcc, p.amount)
         && row == Accrual(sp.id, p.user, p.campaign, Some(p.offer), p.tx, p.mcc, p.amount, row.amount,
                           if p.at + hold < now then Paid(p.at + hold) else PayoutPending, p.at)
         && forall prior <- db.accruals ::
              prior.id != sp.id && !(prior.tx == p.tx && (prior.campaign == p.campaign || prior.offer.Some?))
              && prior.offer != Some(p.offer)
  {
    var p := sp.p;
    if p.user in db.clients {
      DecideIff(db, p, Stamp(0, 0, now), row.amount);
      var decision := Decide(db, db.clients[p.user], p, now);
      if decision.Accrued? {
        DecideIff(db, p, Stamp(0, 0, now), decision.amount);
        var mine := SeedRow(sp, decision.amount, now, hold);
        forall prior <- db.accruals ensures Conflict(prior, mine) <==>
          prior.id == sp.id || (prior.tx == p.tx && (prior.campaign == p.campaign || prior.offer.Some?))
          || prior.offer == Some(p.offer) {
        }
      }
    }
  }

  // ---- the campaign API -----------------------------------------------------------------------------

  /** Only paused and completed campaigns are archived, only drafts edited, and new ones are unspent drafts. */
  lemma CampaignWrites(db: Db, cid: CampaignId, c: Campaign)
    requires cid in db.campaigns
    ensures var was, archived := db.campaigns[cid], Apply(db, ArchiveCampaign(cid)).campaigns;
      && archived.Keys == db.campaigns.Keys
      && archived[cid] == was.(archived := was.archived || was.status.Paused? || was.status.Completed?)
    ensures var was, edited := db.campaigns[cid], Apply(db, EditDraft(cid, c)).campaigns;
      && edited.Keys == db.campaigns.Keys
      && (edited[cid] == was || (was.status.Draft? && edited[cid] == c))
      && edited[cid].budgetSpent == was.budgetSpent && edited[cid].status == was.status
    ensures Apply(db, CreateCampaign(cid, c)) == db
    ensures forall other <- db.campaigns :: other != cid ==>
      && Apply(db, ArchiveCampaign(cid)).campaigns[other] == db.campaigns[other]
      && Apply(db, EditDraft(cid, c)).campaigns[other] == db.campaigns[other]
  {
  }
}
