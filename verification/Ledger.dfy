/**
 * The Postgres tables of the money path, the rules of migration 009 and the
 * accrual transaction of AccrualEngine.  Times are integer microseconds, money
 * is integer kopecks, purchase amounts are exact reals.
 */
module Ledger {
  import opened Prelude
  import opened RateScale

  type CampaignId = nat
  type OfferId = nat
  type UserId = nat
  type AccrualId = nat
  type TxId = string

  const SECOND := 1_000_000
  const DAY := 86_400 * SECOND

  function DayOf(t: int): int { t / DAY }

  function WholeSecond(t: int): int { t - t % SECOND }

  datatype Status = Draft | Active | Paused | Completed

  datatype Campaign = Campaign(
    status: Status,
    archived: bool,
    startAt: int,
    endAt: int,
    terms: Terms,
    segments: set<int>,
    rfmMin: Option<int>,
    rfmMax: Option<int>,
    budgetTotal: int,
    budgetSpent: int,
    dailyLimit: Option<int>)

  datatype Consent = Consent(granted: bool, createdAt: int, id: nat)

  /** A row of users with the client's personalised_cashback consents. */
  datatype Client = Client(segment: Option<int>, rfm: Option<int>, consents: seq<Consent>)

  datatype Response = Pending | Accepted | Declined | Snoozed | Expired

  datatype Offer = Offer(
    user: UserId,
    campaign: CampaignId,
    mcc: Mcc,
    response: Response,
    respondedAt: Option<int>,
    expiresAt: int)

  datatype Payout = PayoutPending | Paid(at: int)

  datatype Accrual = Accrual(
    id: AccrualId,
    user: UserId,
    campaign: CampaignId,
    offer: Option<OfferId>,
    tx: TxId,
    mcc: Mcc,
    purchase: real,
    amount: int,
    payout: Payout,
    accruedAt: int)

  datatype Db = Db(
    campaigns: map<CampaignId, Campaign>,
    offers: map<OfferId, Offer>,
    clients: map<UserId, Client>,
    accruals: seq<Accrual>)

  // ---- sums over the ledger ---------------------------------------------------------

  function CampaignTotal(rows: seq<Accrual>, cid: CampaignId): int {
    if rows == [] then 0
    else
      var last := rows[|rows| - 1];
      CampaignTotal(rows[..|rows| - 1], cid) + (if last.campaign == cid then last.amount else 0)
  }

  /** spent_today of eligible_campaigns: no upper bound. */
  function SpentSince(rows: seq<Accrual>, cid: CampaignId, from: int): int {
    if rows == [] then 0
    else
      var last := rows[|rows| - 1];
      SpentSince(rows[..|rows| - 1], cid, from)
      + (if last.campaign == cid && from <= last.accruedAt then last.amount else 0)
  }

  function DayTotal(rows: seq<Accrual>, cid: CampaignId, day: int): int {
    if rows == [] then 0
    else
      var last := rows[|rows| - 1];
      DayTotal(rows[..|rows| - 1], cid, day)
      + (if last.campaign == cid && DayOf(last.accruedAt) == day then last.amount else 0)
  }

  // ---- who gets which campaign ---------------------------------------------------------

  /** ORDER BY created_at DESC, consent_id DESC LIMIT 1. */
  function LatestConsent(cs: seq<Consent>): (r: Option<Consent>)
    ensures r.None? <==> cs == []
    ensures r.Some? ==> r.value in cs && forall c <- cs ::
      c.createdAt < r.value.createdAt || (c.createdAt == r.value.createdAt && c.id <= r.value.id)
  {
    if cs == [] then None
    else
      var rest := LatestConsent(cs[1..]);
      if rest.None? || Newer(cs[0], rest.value) then Some(cs[0]) else rest
  }

  predicate Newer(a: Consent, b: Consent) {
    a.createdAt > b.createdAt || (a.createdAt == b.createdAt && a.id > b.id)
  }

  /** UTC midnight of the purchase day, but never later than today's. */
  function WindowStart(at: int, now: int): int {
    DayOf(Min(at, now)) * DAY
  }

  predicate RfmMatches(c: Campaign, rfm: Option<int>) {
    (c.rfmMin.None? && c.rfmMax.None?)
    || (rfm.Some? && (c.rfmMin.Some? ==> rfm.value >= c.rfmMin.value)
                  && (c.rfmMax.Some? ==> rfm.value <= c.rfmMax.value))
  }

  predicate AmountReaches(terms: Terms, mcc: Mcc, amount: real)
    requires mcc in terms.categories
  {
    var floor := EffectiveMin(terms, mcc);
    amount >= (if floor.Some? then floor.value else 0.0)
  }

  /** The WHERE clause of eligible_campaigns for one campaign. */
  predicate Eligible(c: Campaign, client: Client, mcc: Mcc, amount: real, at: int, spentToday: int) {
    && mcc in c.terms.categories
    && c.status == Active
    && !c.archived
    && c.startAt <= at < c.endAt
    && AmountReaches(c.terms, mcc, amount)
    && (c.segments == {} || (client.segment.Some? && client.segment.value in c.segments))
    && LatestConsent(client.consents).Some? && LatestConsent(client.consents).value.granted
    && RfmMatches(c, client.rfm)
    && c.budgetTotal - c.budgetSpent > 0
    && (c.dailyLimit.Some? ==> spentToday < c.dailyLimit.value)
  }

  // ---- the unique keys ------------------------------------------------------------------

  /** The primary key, (transaction, campaign), and for rows with an offer the transaction
      and the offer: two rows that agree on one of them cannot both be stored. */
  predicate Conflict(a: Accrual, b: Accrual) {
    || a.id == b.id
    || (a.tx == b.tx && a.campaign == b.campaign)
    || (a.offer.Some? && b.offer.Some? && (a.tx == b.tx || a.offer == b.offer))
  }

  ghost predicate UniqueKeys(rows: seq<Accrual>) {
    forall i, j :: 0 <= i < j < |rows| ==> !Conflict(rows[i], rows[j])
  }

  // ---- the accrual transaction --------------------------------------------------------------

  datatype Purchase = Purchase(
    user: UserId, campaign: CampaignId, offer: OfferId, tx: TxId, mcc: Mcc, amount: real, at: int)

  /** What the engine takes from outside: a new row id, its own clock before the
      transaction, and now() of the database in it. */
  datatype Stamp = Stamp(id: AccrualId, accruedAt: int, now: int)

  datatype Outcome =
    | Accrued(amount: int)
    | OfferMismatch
    | Duplicate(consumed: bool)
    | OfferNotAccepted
    | AcceptedAfterPurchase
    | OfferExpired
    | NotEligible
    | ZeroCashback
    | DailyLimitReached
    | BudgetExhausted

  /** _PAID_SQL: an accrual of this offer, or of this purchase under any offer or none. */
  predicate Pays(row: Accrual, p: Purchase) {
    row.offer == Some(p.offer) || row.tx == p.tx
  }

  function NewRow(p: Purchase, s: Stamp, cashback: int): Accrual {
    Accrual(s.id, p.user, p.campaign, Some(p.offer), p.tx, p.mcc, p.amount, cashback,
            PayoutPending, s.accruedAt)
  }

  predicate OfferFits(db: Db, p: Purchase) {
    && p.offer in db.offers
    && db.offers[p.offer].user == p.user
    && db.offers[p.offer].campaign == p.campaign
    && db.offers[p.offer].mcc == p.mcc
  }

  /** None when the offer may pay for a purchase at `at`, else why not. */
  function OfferRefusal(o: Offer, at: int): Option<Outcome> {
    if o.response != Accepted then Some(OfferNotAccepted)
    else if o.respondedAt.None? || WholeSecond(o.respondedAt.value) > at then Some(AcceptedAfterPurchase)
    else if o.expiresAt <= at then Some(OfferExpired)
    else None
  }

  /** Steps 3-5: eligibility, cashback, daily limit and budget; Accrued(k) means pay k. */
  function Decide(db: Db, client: Client, p: Purchase, now: int): Outcome {
    if p.campaign !in db.campaigns then NotEligible
    else
      var c := db.campaigns[p.campaign];
      var spentToday := SpentSince(db.accruals, p.campaign, WindowStart(p.at, now));
      if !Eligible(c, client, p.mcc, p.amount, p.at, spentToday) then NotEligible
      else
        var k := Cashback(c.terms, p.mcc, p.amount);
        if k <= 0 then ZeroCashback
        else if c.dailyLimit.Some? && spentToday + k > c.dailyLimit.value then DailyLimitReached
        else if k > c.budgetTotal - c.budgetSpent then BudgetExhausted
        else Accrued(k)
  }

  /** INSERT of the row and UPDATE of the budget. */
  function Book(db: Db, row: Accrual): Db
    requires row.campaign in db.campaigns
  {
    var c := db.campaigns[row.campaign];
    db.(accruals := db.accruals + [row],
        campaigns := db.campaigns[row.campaign := c.(budgetSpent := c.budgetSpent + row.amount)])
  }

  /** One accrual as an atomic step on the tables. */
  function Accrue(db: Db, p: Purchase, s: Stamp): (r: (Db, Outcome)) {
    if !OfferFits(db, p) then (db, OfferMismatch)
    else if exists row <- db.accruals :: Pays(row, p) then
      (db, Duplicate(exists row <- db.accruals :: row.offer == Some(p.offer)))
    else
      var refusal := OfferRefusal(db.offers[p.offer], p.at);
      if refusal.Some? then (db, refusal.value)
      else if p.user !in db.clients then (db, NotEligible)
      else
        var decision := Decide(db, db.clients[p.user], p, s.now);
        if !decision.Accrued? then (db, decision)
        else
          var row := NewRow(p, s, decision.amount);
          if exists prior <- db.accruals :: Conflict(prior, row) then (db, Duplicate(false))
          else (Book(db, row), decision)
  }

  // ---- the seeder ----------------------------------------------------------------------------

  /** A planned purchase of the seeder, with the row id it would get. */
  datatype SeedPurchase = SeedPurchase(id: AccrualId, p: Purchase)

  /** The row the seeder inserts: booked at the purchase, already paid when the hold is over. */
  function SeedRow(sp: SeedPurchase, cashback: int, now: int, hold: int): Accrual {
    var p := sp.p;
    Accrual(sp.id, p.user, p.campaign, Some(p.offer), p.tx, p.mcc, p.amount, cashback,
            if p.at < now - hold then Paid(p.at + hold) else PayoutPending, p.at)
  }

  datatype SeedResult = SeedAccrued(row: Accrual) | SeedRefused | SeedConflict

  function SeedDecision(db: Db, sp: SeedPurchase, now: int, hold: int): SeedResult {
    if sp.p.user !in db.clients then SeedRefused
    else
      var decision := Decide(db, db.clients[sp.p.user], sp.p, now);
      if !decision.Accrued? then SeedRefused
      else
        var row := SeedRow(sp, decision.amount, now, hold);
        if exists prior <- db.accruals :: Conflict(prior, row) then SeedConflict else SeedAccrued(row)
  }

  function SeedOne(db: Db, sp: SeedPurchase, now: int, hold: int): Db {
    var result := SeedDecision(db, sp, now, hold);
    if result.SeedAccrued? && sp.p.campaign in db.campaigns then Book(db, result.row) else db
  }

  // ---- the other writers ---------------------------------------------------------------------

  predicate Allowed(was: Status, next: Status) {
    || (was, next) == (Draft, Active)
    || (was, next) == (Active, Paused)
    || (was, next) == (Active, Completed)
    || (was, next) == (Paused, Active)
    || (was, next) == (Paused, Completed)
  }

  /** trg_campaign_status_guard: an UPDATE of the status either passes or raises. */
  predicate GuardPasses(was: Status, next: Status) {
    was == next || Allowed(was, next)
  }

  predicate IsExpired(c: Campaign, now: int) {
    (c.status == Active || c.status == Paused) && !c.archived && c.endAt <= now
  }

  function CompleteExpired(campaigns: map<CampaignId, Campaign>, now: int): map<CampaignId, Campaign> {
    map cid | cid in campaigns ::
      if IsExpired(campaigns[cid], now) then campaigns[cid].(status := Completed) else campaigns[cid]
  }

  function SettleRow(row: Accrual, now: int, hold: int): Accrual {
    if row.payout == PayoutPending && row.accruedAt < now - hold then row.(payout := Paid(now)) else row
  }

  function Settle(rows: seq<Accrual>, now: int, hold: int): (r: seq<Accrual>)
    ensures |r| == |rows|
    ensures forall i :: 0 <= i < |rows| ==> r[i] == SettleRow(rows[i], now, hold)
  {
    seq(|rows|, i requires 0 <= i < |rows| => SettleRow(rows[i], now, hold))
  }

  /** What the campaign API checks on create and edit (besides the status). */
  predicate ValidDraft(c: Campaign) {
    && c.status == Draft && !c.archived
    && c.budgetSpent <= c.budgetTotal
    && (c.dailyLimit.Some? ==> 0 < c.dailyLimit.value)
  }

  /** Every write the services make to these tables. */
  datatype Event =
    | AccrueEvent(p: Purchase, stamp: Stamp)
    | SetStatus(cid: CampaignId, status: Status)
    | CompleteExpiredEvent(now: int)
    | SettleEvent(now: int, hold: int)
    | ArchiveCampaign(cid: CampaignId)
    | CreateCampaign(cid: CampaignId, campaign: Campaign)
    | EditDraft(cid: CampaignId, campaign: Campaign)
    | WriteClient(user: UserId, client: Client)
    | WriteOffer(offer: OfferId, row: Offer)
    | SeedEvent(sp: SeedPurchase, now: int, hold: int)

  function Apply(db: Db, e: Event): Db {
    match e
    case AccrueEvent(p, stamp) => Accrue(db, p, stamp).0
    case SetStatus(cid, status) =>
      if cid in db.campaigns && GuardPasses(db.campaigns[cid].status, status)
      then db.(campaigns := db.campaigns[cid := db.campaigns[cid].(status := status)])
      else db
    case CompleteExpiredEvent(now) => db.(campaigns := CompleteExpired(db.campaigns, now))
    case SettleEvent(now, hold) => db.(accruals := Settle(db.accruals, now, hold))
    case ArchiveCampaign(cid) =>
      if cid in db.campaigns && db.campaigns[cid].status in {Paused, Completed}
      then db.(campaigns := db.campaigns[cid := db.campaigns[cid].(archived := true)])
      else db
    case CreateCampaign(cid, c) =>
      if cid !in db.campaigns && ValidDraft(c) && c.budgetSpent == 0
      then db.(campaigns := db.campaigns[cid := c])
      else db
    case EditDraft(cid, c) =>
      if cid in db.campaigns && db.campaigns[cid].status == Draft && ValidDraft(c)
         && c.budgetSpent == db.campaigns[cid].budgetSpent
      then db.(campaigns := db.campaigns[cid := c])
      else db
    case WriteClient(user, client) => db.(clients := db.clients[user := client])
    case WriteOffer(offer, row) => db.(offers := db.offers[offer := row])
    case SeedEvent(sp, now, hold) => SeedOne(db, sp, now, hold)
  }

  function Run(db: Db, events: seq<Event>): Db {
    if events == [] then db else Apply(Run(db, events[..|events| - 1]), events[|events| - 1])
  }
}
