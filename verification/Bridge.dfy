/** AccrualStreamBridge: accruals are added up per campaign and sent to the streams in batches. */
module Bridge {
  import opened Prelude
  import opened Broker

  /** A parsed message of cashback.accrued; money in kopecks. */
  datatype Accrual = Accrual(campaign: nat, amount: int)

  function AmountOf(accruals: seq<Accrual>, campaign: nat): int {
    if accruals == [] then 0 else
      AmountOf(accruals[..|accruals| - 1], campaign)
      + (var a := accruals[|accruals| - 1]; if a.campaign == campaign then a.amount else 0)
  }

  function CountOf(accruals: seq<Accrual>, campaign: nat): nat {
    if accruals == [] then 0 else
      CountOf(accruals[..|accruals| - 1], campaign) + if accruals[|accruals| - 1].campaign == campaign then 1 else 0
  }

  function SentAmount(events: seq<Event>, campaign: nat): int {
    if events == [] then 0 else
      SentAmount(events[..|events| - 1], campaign)
      + (var e := events[|events| - 1]; if e.campaign == campaign then e.spentDelta else 0)
  }

  function SentCount(events: seq<Event>, campaign: nat): nat {
    if events == [] then 0 else
      SentCount(events[..|events| - 1], campaign)
      + (var e := events[|events| - 1]; if e.campaign == campaign then e.acceptedDelta else 0)
  }

  function Pending<T>(m: map<nat, T>, campaign: nat, zero: T): T {
    if campaign in m then m[campaign] else zero
  }

  lemma AppendedAccrual(accruals: seq<Accrual>, a: Accrual, campaign: nat)
    ensures AmountOf(accruals + [a], campaign) == AmountOf(accruals, campaign) + if a.campaign == campaign then a.amount else 0
    ensures CountOf(accruals + [a], campaign) == CountOf(accruals, campaign) + if a.campaign == campaign then 1 else 0
  {
    assert (accruals + [a])[..|accruals|] == accruals;
  }

  lemma AppendedEvent(events: seq<Event>, e: Event, campaign: nat)
    ensures SentAmount(events + [e], campaign) == SentAmount(events, campaign) + if e.campaign == campaign then e.spentDelta else 0
    ensures SentCount(events + [e], campaign) == SentCount(events, campaign) + if e.campaign == campaign then e.acceptedDelta else 0
  {
    assert (events + [e])[..|events|] == events;
  }

  /** What was ingested is what was sent and what still waits: amounts and numbers, per campaign. */
  ghost predicate Conserved(ingested: seq<Accrual>, sent: seq<Event>, amounts: map<nat, int>, counts: map<nat, nat>) {
    && amounts.Keys == counts.Keys
    && forall c: nat ::
         && AmountOf(ingested, c) == SentAmount(sent, c) + Pending(amounts, c, 0)
         && CountOf(ingested, c) == SentCount(sent, c) + Pending(counts, c, 0)
  }

  lemma IngestConserves(ingested: seq<Accrual>, sent: seq<Event>, amounts: map<nat, int>, counts: map<nat, nat>, a: Accrual)
    requires Conserved(ingested, sent, amounts, counts)
    ensures Conserved(ingested + [a], sent, amounts[a.campaign := Pending(amounts, a.campaign, 0) + a.amount],
                      counts[a.campaign := Pending(counts, a.campaign, 0) + 1])
  {
    forall c: nat {
      AppendedAccrual(ingested, a, c);
    }
  }

  function OfferAll(items: seq<Item>, events: seq<Event>): seq<Item> {
    if events == [] then items else Offer(OfferAll(items, events[..|events| - 1]), Message(events[|events| - 1]))
  }

  function PublishAll(s: State, events: seq<Event>): State {
    if events == [] then s else Publish(PublishAll(s, events[..|events| - 1]), events[|events| - 1])
  }

  /** Each live queue is offered the events in order; nothing else changes. */
  lemma {:induction false} PublishAllOffersAll(s: State, events: seq<Event>)
    ensures PublishAll(s, events) == s.(queues := PublishAll(s, events).queues)
    ensures PublishAll(s, events).queues.Keys == s.queues.Keys
    ensures forall q <- s.queues ::
      PublishAll(s, events).queues[q] == (if q in s.subscribers then OfferAll(s.queues[q], events) else s.queues[q])
  {
    if events != [] {
      PublishAllOffersAll(s, events[..|events| - 1]);
    }
  }

  function Messages(events: seq<Event>): (items: seq<Item>)
    ensures |items| == |events|
  {
    seq(|events|, i requires 0 <= i < |events| => Message(events[i]))
  }

  /** A queue takes the events in order until a hundred items wait in it, and no more. */
  lemma {:induction false} OfferedUntilFull(items: seq<Item>, events: seq<Event>)
    requires |items| <= 100
    ensures |OfferAll(items, events)| == Min(100, |items| + |events|)
    ensures OfferAll(items, events) == items + Messages(events)[..Min(|events|, 100 - |items|)]
  {
    if events != [] {
      OfferedUntilFull(items, events[..|events| - 1]);
    }
  }

  /** The batch has exactly one event for each of these campaigns, with what is pending for it. */
  ghost predicate BatchOf(batch: seq<Event>, campaigns: set<nat>, amounts: map<nat, int>, counts: map<nat, nat>) {
    && campaigns <= amounts.Keys && amounts.Keys == counts.Keys && |batch| == |campaigns|
    && forall c <- campaigns :: Stats(c, amounts[c], counts[c]) in batch
  }

  lemma BatchGrows(batch: seq<Event>, campaigns: set<nat>, amounts: map<nat, int>, counts: map<nat, nat>, c: nat)
    requires BatchOf(batch, campaigns, amounts, counts) && c in amounts && c !in campaigns
    ensures BatchOf(batch + [Stats(c, amounts[c], counts[c])], campaigns + {c}, amounts, counts)
  {
  }

  class AccrualStreamBridge {
    const broker: EventBroker
    var pending: map<nat, int>
    var acceptedDelta: map<nat, nat>
    ghost var ingested: seq<Accrual>
    ghost var sent: seq<Event>

    constructor (broker: EventBroker)
      ensures this.broker == broker && Valid() && ingested == [] && sent == []
    {
      this.broker := broker;
      pending, acceptedDelta, ingested, sent := map[], map[], [], [];
    }

    ghost predicate Valid()
      reads this
    {
      Conserved(ingested, sent, pending, acceptedDelta)
    }

    /** _ingest; None is a message that does not parse. */
    method Ingest(accrual: Option<Accrual>)
      requires Valid()
      modifies this`pending, this`acceptedDelta, this`ingested
      ensures Valid()
      ensures ingested == if accrual.Some? then old(ingested) + [accrual.value] else old(ingested)
      ensures accrual.None? ==> pending == old(pending) && acceptedDelta == old(acceptedDelta)
      ensures accrual.Some? ==>
        var c, amount := accrual.value.campaign, accrual.value.amount;
        && pending == old(pending)[c := if c in old(pending) then old(pending)[c] + amount else amount]
        && acceptedDelta == old(acceptedDelta)[c := if c in old(acceptedDelta) then old(acceptedDelta)[c] + 1 else 1]
    {
      if accrual.None? {
        return;
      }
      var a := accrual.value;
      IngestConserves(ingested, sent, pending, acceptedDelta, a);
      pending := pending[a.campaign := Pending(pending, a.campaign, 0) + a.amount];
      acceptedDelta := acceptedDelta[a.campaign := Pending(acceptedDelta, a.campaign, 0) + 1];
      ingested := ingested + [a];
    }

    /** One turn of _flush_loop: one event per campaign with something pending, and nothing left. */
    method Flush() returns (ghost batch: seq<Event>)
      requires Valid() && broker.Valid()
      modifies this`pending, this`acceptedDelta, this`sent, broker`queues
      ensures Valid() && broker.Valid() && pending == map[] && acceptedDelta == map[]
      ensures BatchOf(batch, old(pending).Keys, old(pending), old(acceptedDelta))
      ensures |batch| == |old(pending)| && forall c <- old(pending) ::
        c in old(acceptedDelta) && Stats(c, old(pending)[c], old(acceptedDelta)[c]) in batch
      ensures sent == old(sent) + batch && ingested == old(ingested)
      ensures broker.View() == PublishAll(old(broker.View()), batch)
    {
      var todo := pending.Keys;
      batch := [];
      FlushStarts(ingested, sent, pending, acceptedDelta);
      while todo != {}
        invariant todo <= pending.Keys && broker.Valid()
        invariant pending == old(pending) && acceptedDelta == old(acceptedDelta)
        invariant Flushing(ingested, old(sent), sent, batch, pending, acceptedDelta, todo)
        invariant broker.View() == PublishAll(old(broker.View()), batch)
        decreases |todo|
      {
        var c :| c in todo;
        var event := Stats(c, pending[c], acceptedDelta[c]);
        broker.PublishEvent(event);
        FlushSends(ingested, old(sent), sent, batch, pending, acceptedDelta, c, todo);
        PublishedOneMore(old(broker.View()), batch, event);
        sent := sent + [event];
        batch := batch + [event];
        todo := todo - {c};
      }
      FlushEnds(ingested, old(sent), sent, batch, pending, acceptedDelta);
      pending := map[];
      acceptedDelta := map[];
    }
  }

  lemma PublishedOneMore(s: State, batch: seq<Event>, event: Event)
    ensures PublishAll(s, batch + [event]) == Publish(PublishAll(s, batch), event)
  {
    assert (batch + [event])[..|batch|] == batch;
  }

  /** In the middle of a flush: `todo` are the campaigns not sent yet. */
  ghost predicate Flushing(ingested: seq<Accrual>, before: seq<Event>, sent: seq<Event>, batch: seq<Event>,
                           amounts: map<nat, int>, counts: map<nat, nat>, todo: set<nat>)
  {
    && sent == before + batch && todo <= amounts.Keys
    && BatchOf(batch, amounts.Keys - todo, amounts, counts)
    && Conserved(ingested, sent, amounts - (amounts.Keys - todo), counts - (counts.Keys - todo))
  }

  lemma FlushStarts(ingested: seq<Accrual>, sent: seq<Event>, amounts: map<nat, int>, counts: map<nat, nat>)
    requires Conserved(ingested, sent, amounts, counts)
    ensures Flushing(ingested, sent, sent, [], amounts, counts, amounts.Keys)
  {
    assert amounts - (amounts.Keys - amounts.Keys) == amounts && counts - (counts.Keys - counts.Keys) == counts;
  }

  lemma FlushSends(ingested: seq<Accrual>, before: seq<Event>, sent: seq<Event>, batch: seq<Event>,
                   amounts: map<nat, int>, counts: map<nat, nat>, c: nat, todo: set<nat>)
    requires Flushing(ingested, before, sent, batch, amounts, counts, todo) && c in todo
    ensures var event := Stats(c, amounts[c], counts[c]);
      Flushing(ingested, before, sent + [event], batch + [event], amounts, counts, todo - {c})
  {
    SendKeepsConserved(ingested, sent, amounts, counts, c, todo);
    BatchGrows(batch, amounts.Keys - todo, amounts, counts, c);
    assert amounts.Keys - (todo - {c}) == amounts.Keys - todo + {c};
  }

  lemma FlushEnds(ingested: seq<Accrual>, before: seq<Event>, sent: seq<Event>, batch: seq<Event>,
                  amounts: map<nat, int>, counts: map<nat, nat>)
    requires Flushing(ingested, before, sent, batch, amounts, counts, {})
    ensures sent == before + batch && BatchOf(batch, amounts.Keys, amounts, counts)
    ensures Conserved(ingested, sent, map[], map[])
  {
    assert amounts.Keys - {} == amounts.Keys;
    assert amounts - amounts.Keys == map[] && counts - counts.Keys == map[];
  }

  lemma SendKeepsConserved(ingested: seq<Accrual>, sent: seq<Event>, amounts: map<nat, int>, counts: map<nat, nat>,
                           c: nat, todo: set<nat>)
    requires c in todo && todo <= amounts.Keys && amounts.Keys == counts.Keys
    requires Conserved(ingested, sent, amounts - (amounts.Keys - todo), counts - (counts.Keys - todo))
    ensures Conserved(ingested, sent + [Stats(c, amounts[c], counts[c])],
                      amounts - (amounts.Keys - (todo - {c})), counts - (counts.Keys - (todo - {c})))
  {
    forall c': nat {
      AppendedEvent(sent, Stats(c, amounts[c], counts[c]), c');
    }
  }
}
