/**
 * The backfill of migration 009: which accepted offer each old accrual paid.  It
 * must leave every offer and every purchase with at most one linked accrual, or
 * the unique keys created after it fail.
 */
module OfferBackfill {
  import opened Prelude

  type Id = nat

  datatype Offer = Offer(id: Id, user: Id, campaign: Id, mcc: nat, accepted: bool, respondedAt: Option<int>)

  datatype Accrual = Accrual(id: Id, user: Id, campaign: Id, mcc: nat, tx: Id, at: int, offer: Option<Id>)

  /** Row ids are primary keys, and the new column is empty. */
  ghost predicate Before(accruals: seq<Accrual>, offers: seq<Offer>) {
    && (forall i, j :: 0 <= i < j < |accruals| ==> accruals[i].id != accruals[j].id)
    && (forall i, j :: 0 <= i < j < |offers| ==> offers[i].id != offers[j].id)
    && (forall a <- accruals :: a.offer.None?)
  }

  // ---- the offer of one accrual: the LATERAL subquery -----------------------------------------

  predicate Matches(a: Accrual, r: Offer) {
    && r.user == a.user && r.campaign == a.campaign && r.mcc == a.mcc
    && r.accepted && r.respondedAt.Some? && r.respondedAt.value <= a.at
  }

  /** ORDER BY responded_at DESC, recommendation_id DESC. */
  predicate Later(r: Offer, r': Offer)
    requires r.respondedAt.Some? && r'.respondedAt.Some?
  {
    r.respondedAt.value > r'.respondedAt.value || (r.respondedAt == r'.respondedAt && r.id >= r'.id)
  }

  function LastMatch(a: Accrual, offers: seq<Offer>): (r: Option<Offer>)
    ensures r.Some? ==> r.value in offers && Matches(a, r.value)
    ensures r.None? ==> forall o <- offers :: !Matches(a, o)
    ensures r.Some? ==> forall o <- offers :: Matches(a, o) ==> Later(r.value, o)
  {
    if offers == [] then None
    else
      var rest := LastMatch(a, offers[1..]);
      if Matches(a, offers[0]) && (rest.None? || Later(offers[0], rest.value)) then Some(offers[0]) else rest
  }

  // ---- DISTINCT ON, twice ---------------------------------------------------------------------

  /** ORDER BY accrued_at, accrual_id. */
  predicate Earlier(a: Accrual, b: Accrual) {
    a.at < b.at || (a.at == b.at && a.id <= b.id)
  }

  predicate HasMatch(accruals: seq<Accrual>, offers: seq<Offer>, i: nat)
    requires i < |accruals|
  {
    LastMatch(accruals[i], offers).Some?
  }

  /** `linked`: the first accrual of its purchase among those with an offer. */
  predicate Linked(accruals: seq<Accrual>, offers: seq<Offer>, i: nat)
    requires i < |accruals|
  {
    && HasMatch(accruals, offers, i)
    && forall j :: 0 <= j < |accruals| && HasMatch(accruals, offers, j) && accruals[j].tx == accruals[i].tx ==>
         Earlier(accruals[i], accruals[j])
  }

  function OfferOf(accruals: seq<Accrual>, offers: seq<Offer>, i: nat): Id
    requires i < |accruals| && HasMatch(accruals, offers, i)
  {
    LastMatch(accruals[i], offers).value.id
  }

  /** `first_per_offer`: the first of the linked accruals of its offer. */
  predicate First(accruals: seq<Accrual>, offers: seq<Offer>, i: nat)
    requires i < |accruals|
  {
    && Linked(accruals, offers, i)
    && forall j :: 0 <= j < |accruals| && Linked(accruals, offers, j)
                   && OfferOf(accruals, offers, j) == OfferOf(accruals, offers, i) ==>
         Earlier(accruals[i], accruals[j])
  }

  /** UPDATE cashback_accruals. */
  function Backfilled(accruals: seq<Accrual>, offers: seq<Offer>): (rows: seq<Accrual>)
    ensures |rows| == |accruals|
  {
    seq(|accruals|, i requires 0 <= i < |accruals| =>
      if First(accruals, offers, i) then accruals[i].(offer := Some(OfferOf(accruals, offers, i))) else accruals[i])
  }

  // ---- what it establishes --------------------------------------------------------------------

  lemma EarliestIsUnique(accruals: seq<Accrual>, i: nat, j: nat)
    requires i < |accruals| && j < |accruals|
    requires forall x, y :: 0 <= x < y < |accruals| ==> accruals[x].id != accruals[y].id
    requires Earlier(accruals[i], accruals[j]) && Earlier(accruals[j], accruals[i])
    ensures i == j
  {
  }

  /** Both unique keys can be created: an offer and a purchase are each linked at most once. */
  lemma KeysHold(accruals: seq<Accrual>, offers: seq<Offer>, i: nat, j: nat)
    requires Before(accruals, offers) && i < |accruals| && j < |accruals|
    requires var rows := Backfilled(accruals, offers);
      && rows[i].offer.Some? && rows[j].offer.Some?
      && (rows[i].offer == rows[j].offer || rows[i].tx == rows[j].tx)
    ensures i == j
  {
    assert accruals[i] in accruals && accruals[j] in accruals;
    EarliestIsUnique(accruals, i, j);
  }

  /**
   * A link goes to an offer that its client accepted for the campaign and the
   * category not later than the accrual, and to the last such offer.
   */
  lemma LinkIsLastMatch(accruals: seq<Accrual>, offers: seq<Offer>, i: nat)
    requires Before(accruals, offers) && i < |accruals| && Backfilled(accruals, offers)[i].offer.Some?
    ensures var a := accruals[i];
      exists r <- offers ::
        && Backfilled(accruals, offers)[i].offer == Some(r.id)
        && r.accepted && (r.user, r.campaign, r.mcc) == (a.user, a.campaign, a.mcc)
        && r.respondedAt.Some? && r.respondedAt.value <= a.at
        && forall o <- offers ::
             o.accepted && (o.user, o.campaign, o.mcc) == (a.user, a.campaign, a.mcc)
             && o.respondedAt.Some? && o.respondedAt.value <= a.at ==>
               o.respondedAt.value < r.respondedAt.value || (o.respondedAt == r.respondedAt && o.id <= r.id)
  {
    var a := accruals[i];
    assert a in accruals;
    var r := LastMatch(a, offers).value;
    assert r in offers;
    forall o <- offers | Matches(a, o) ensures Later(r, o) {
    }
  }

  /** The earliest accrual with a property, if any has it. */
  lemma {:induction false} EarliestExists(accruals: seq<Accrual>, n: nat, p: nat -> bool) returns (m: nat)
    requires n <= |accruals| && exists i :: 0 <= i < n && p(i)
    ensures m < n && p(m) && forall j :: 0 <= j < n && p(j) ==> Earlier(accruals[m], accruals[j])
  {
    if exists i :: 0 <= i < n - 1 && p(i) {
      m := EarliestExists(accruals, n - 1, p);
      if p(n - 1) && Earlier(accruals[n - 1], accruals[m]) {
        m := n - 1;
      }
    } else {
      m := n - 1;
    }
  }

  /** Every offer that `linked` chose is marked paid, by exactly one accrual. */
  lemma EveryChosenOfferIsPaidOnce(accruals: seq<Accrual>, offers: seq<Offer>, i: nat) returns (k: nat)
    requires Before(accruals, offers) && i < |accruals| && Linked(accruals, offers, i)
    ensures k < |accruals| && Backfilled(accruals, offers)[k].offer == Some(OfferOf(accruals, offers, i))
    ensures forall j :: 0 <= j < |accruals| && Backfilled(accruals, offers)[j].offer == Some(OfferOf(accruals, offers, i)) ==> j == k
  {
    var offer := OfferOf(accruals, offers, i);
    var p: nat -> bool :=
      (j: nat) => j < |accruals| && Linked(accruals, offers, j) && OfferOf(accruals, offers, j) == offer;
    assert p(i);
    k := EarliestExists(accruals, |accruals|, p);
    forall j | 0 <= j < |accruals| && Linked(accruals, offers, j) && OfferOf(accruals, offers, j) == offer
      ensures Earlier(accruals[k], accruals[j])
    {
      assert p(j);
    }
    assert First(accruals, offers, k);
    forall j | 0 <= j < |accruals| && Backfilled(accruals, offers)[j].offer == Some(offer) ensures j == k {
      KeysHold(accruals, offers, j, k);
    }
  }

  /** A purchase with a matching offer has a linked accrual, so its offer counts as paid afterwards. */
  lemma EveryPaidPurchaseIsLinked(accruals: seq<Accrual>, offers: seq<Offer>, i: nat) returns (k: nat)
    requires i < |accruals| && HasMatch(accruals, offers, i)
    ensures k < |accruals| && accruals[k].tx == accruals[i].tx && Linked(accruals, offers, k)
  {
    var p: nat -> bool := (j: nat) => j < |accruals| && HasMatch(accruals, offers, j) && accruals[j].tx == accruals[i].tx;
    assert p(i);
    k := EarliestExists(accruals, |accruals|, p);
    forall j | 0 <= j < |accruals| && HasMatch(accruals, offers, j) && accruals[j].tx == accruals[k].tx
      ensures Earlier(accruals[k], accruals[j])
    {
      assert p(j);
    }
  }

  /**
   * Whenever a client accepted an offer not later than an accrual for it, the
   * accrual's purchase settles one: the first accrual k of the purchase for which
   * an offer was accepted has a last such offer r, and exactly one row is linked
   * to r, that of k or an earlier one.
   */
  lemma PaidOfferIsMarked(accruals: seq<Accrual>, offers: seq<Offer>, i: nat, o: Offer) returns (k: nat, r: Offer, m: nat)
    requires Before(accruals, offers) && i < |accruals| && o in offers
    requires o.accepted && o.respondedAt.Some? && o.respondedAt.value <= accruals[i].at
    requires (o.user, o.campaign, o.mcc) == (accruals[i].user, accruals[i].campaign, accruals[i].mcc)
    ensures k < |accruals| && accruals[k].tx == accruals[i].tx && accruals[k].at <= accruals[i].at
    ensures accruals[k].at == accruals[i].at ==> accruals[k].id <= accruals[i].id
    ensures r in offers && LastMatch(accruals[k], offers) == Some(r)
    ensures m < |accruals| && Backfilled(accruals, offers)[m].offer == Some(r.id)
    ensures forall j :: 0 <= j < |accruals| && Backfilled(accruals, offers)[j].offer == Some(r.id) ==> j == m
    ensures accruals[m].at < accruals[k].at || (accruals[m].at == accruals[k].at && accruals[m].id <= accruals[k].id)
  {
    assert Matches(accruals[i], o);
    k := EveryPaidPurchaseIsLinked(accruals, offers, i);
    assert Earlier(accruals[k], accruals[i]);
    r := LastMatch(accruals[k], offers).value;
    m := EveryChosenOfferIsPaidOnce(accruals, offers, k);
    assert accruals[m] in accruals;
    assert First(accruals, offers, m) && OfferOf(accruals, offers, m) == OfferOf(accruals, offers, k);
    assert Earlier(accruals[m], accruals[k]);
  }

  /** Nothing but the new column changes, and double payments stay, without an offer. */
  lemma RowsStay(accruals: seq<Accrual>, offers: seq<Offer>, i: nat)
    requires Before(accruals, offers) && i < |accruals|
    ensures Backfilled(accruals, offers)[i].(offer := None) == accruals[i]
    ensures Backfilled(accruals, offers)[i].offer.None? <==> !First(accruals, offers, i)
  {
    assert accruals[i] in accruals;
  }
}
