/**
 * EventBroker: one bounded queue per open event stream, limits per process and
 * per user, and the marker that ends every stream when the process stops.
 */
module Broker {
  import opened Prelude

  type Queue = nat
  type Owner = nat

  const MAX_QUEUE := 100

  datatype Event = Stats(campaign: nat, spentDelta: int, acceptedDelta: nat)

  datatype Item = Message(event: Event) | CLOSED

  datatype State = State(
    subscribers: set<Queue>,
    owners: map<Queue, Owner>,
    perUser: map<Owner, nat>,
    queues: map<Queue, seq<Item>>,    // every queue made so far; a reader may outlive its subscription
    closed: bool)

  datatype Limits = Limits(subscribers: Option<nat>, perUser: Option<nat>)

  datatype Answer = Subscribed(q: Queue) | ShuttingDown | TooMany | TooManyForUser

  const EMPTY := State({}, map[], map[], map[], false)

  // ---- what each call does -----------------------------------------------------------------

  function Streams(s: State, owner: Owner): nat {
    if owner in s.perUser then s.perUser[owner] else 0
  }

  function Decide(s: State, limits: Limits, owner: Option<Owner>, q: Queue): Answer {
    if s.closed then ShuttingDown
    else if limits.subscribers.Some? && |s.subscribers| >= limits.subscribers.value then TooMany
    else if owner.Some? && limits.perUser.Some? && Streams(s, owner.value) >= limits.perUser.value then TooManyForUser
    else Subscribed(q)
  }

  /** subscribe with the new queue q. */
  function Subscribe(s: State, limits: Limits, owner: Option<Owner>, q: Queue): State {
    if !Decide(s, limits, owner, q).Subscribed? then s
    else
      var s' := s.(subscribers := s.subscribers + {q}, queues := s.queues[q := []]);
      if owner.None? then s'
      else s'.(owners := s.owners[q := owner.value], perUser := s.perUser[owner.value := Streams(s, owner.value) + 1])
  }

  function Unsubscribe(s: State, q: Queue): State {
    var s' := s.(subscribers := s.subscribers - {q}, owners := s.owners - {q});
    if q !in s.owners then s'
    else
      var owner := s.owners[q];
      var left := Max(0, Streams(s, owner) - 1);
      s'.(perUser := if left == 0 then s.perUser - {owner} else s.perUser[owner := left])
  }

  /** put_nowait, dropping the item when the queue is full. */
  function Offer(items: seq<Item>, item: Item): seq<Item> {
    if |items| < MAX_QUEUE then items + [item] else items
  }

  /** The marker displaces the oldest event of a full queue. */
  function Mark(items: seq<Item>): seq<Item> {
    (if |items| >= MAX_QUEUE then items[1..] else items) + [CLOSED]
  }

  function Publish(s: State, event: Event): State {
    s.(queues := map q | q in s.queues ::
        if q in s.subscribers then Offer(s.queues[q], Message(event)) else s.queues[q])
  }

  function Close(s: State): State {
    if s.closed then s
    else s.(closed := true,
            queues := map q | q in s.queues :: if q in s.subscribers then Mark(s.queues[q]) else s.queues[q])
  }

  /** A reader takes the oldest item of its queue. */
  function Get(s: State, q: Queue): State {
    if q in s.queues && s.queues[q] != [] then s.(queues := s.queues[q := s.queues[q][1..]]) else s
  }

  datatype Call =
    | SubscribeCall(owner: Option<Owner>, q: Queue)
    | UnsubscribeCall(q: Queue)
    | PublishCall(event: Event)
    | CloseCall
    | GetCall(q: Queue)

  /** A queue is made anew for each subscription. */
  predicate Possible(s: State, c: Call) {
    c.SubscribeCall? ==> c.q !in s.queues
  }

  function Do(s: State, limits: Limits, c: Call): State {
    match c
    case SubscribeCall(owner, q) => Subscribe(s, limits, owner, q)
    case UnsubscribeCall(q) => Unsubscribe(s, q)
    case PublishCall(event) => Publish(s, event)
    case CloseCall => Close(s)
    case GetCall(q) => Get(s, q)
  }

  // ---- the invariant ------------------------------------------------------------------------

  function OwnedBy(owners: map<Queue, Owner>, owner: Owner): set<Queue> {
    set q | q in owners && owners[q] == owner
  }

  /** A counter exists exactly for the owners of live queues, and counts them. */
  ghost predicate CountersOk(s: State) {
    && s.owners.Keys <= s.subscribers
    && forall owner ::
         && Streams(s, owner) == |OwnedBy(s.owners, owner)|
         && (owner in s.perUser ==> s.perUser[owner] > 0)
  }

  predicate WithinLimits(s: State, limits: Limits) {
    && (limits.subscribers.Some? ==> |s.subscribers| <= limits.subscribers.value)
    && (limits.perUser.Some? ==> forall owner <- s.perUser :: s.perUser[owner] <= limits.perUser.value)
  }

  predicate QueuesOk(s: State) {
    && s.subscribers <= s.queues.Keys
    && (forall q <- s.queues :: |s.queues[q]| <= MAX_QUEUE)
    && (!s.closed ==> forall q <- s.queues :: CLOSED !in s.queues[q])
  }

  ghost predicate Inv(s: State, limits: Limits) {
    CountersOk(s) && WithinLimits(s, limits) && QueuesOk(s)
  }

  lemma OwnedAfterAdd(owners: map<Queue, Owner>, q: Queue, owner: Owner, o: Owner)
    requires q !in owners
    ensures |OwnedBy(owners[q := owner], o)| == |OwnedBy(owners, o)| + if o == owner then 1 else 0
  {
    if o == owner {
      assert OwnedBy(owners[q := owner], o) == OwnedBy(owners, o) + {q};
    } else {
      assert OwnedBy(owners[q := owner], o) == OwnedBy(owners, o);
    }
  }

  lemma OwnedAfterRemove(owners: map<Queue, Owner>, q: Queue, o: Owner)
    requires q in owners
    ensures |OwnedBy(owners, o)| == |OwnedBy(owners - {q}, o)| + if o == owners[q] then 1 else 0
  {
    if o == owners[q] {
      assert OwnedBy(owners, o) == OwnedBy(owners - {q}, o) + {q};
    } else {
      assert OwnedBy(owners, o) == OwnedBy(owners - {q}, o);
    }
  }

  lemma SubscribeKeepsCounters(s: State, limits: Limits, owner: Option<Owner>, q: Queue)
    requires CountersOk(s) && q !in s.subscribers
    ensures CountersOk(Subscribe(s, limits, owner, q))
  {
    if owner.Some? && Decide(s, limits, owner, q).Subscribed? {
      var s' := Subscribe(s, limits, owner, q);
      forall o ensures Streams(s', o) == |OwnedBy(s'.owners, o)| {
        OwnedAfterAdd(s.owners, q, owner.value, o);
      }
    }
  }

  lemma UnsubscribeKeepsCounters(s: State, q: Queue)
    requires CountersOk(s)
    ensures CountersOk(Unsubscribe(s, q))
  {
    var s' := Unsubscribe(s, q);
    if q in s.owners {
      forall o ensures Streams(s', o) == |OwnedBy(s'.owners, o)| {
        OwnedAfterRemove(s.owners, q, o);
      }
    } else {
      assert s.owners - {q} == s.owners;
    }
  }

  /** The owner of a live queue is counted. */
  lemma OwnerIsCounted(s: State, q: Queue)
    requires CountersOk(s) && q in s.owners
    ensures s.owners[q] in s.perUser && s.perUser[s.owners[q]] > 0
  {
    OwnedAfterRemove(s.owners, q, s.owners[q]);
  }

  lemma SubscribeKeepsInv(s: State, limits: Limits, owner: Option<Owner>, q: Queue)
    requires Inv(s, limits) && q !in s.queues
    ensures Inv(Subscribe(s, limits, owner, q), limits)
  {
    SubscribeKeepsCounters(s, limits, owner, q);
    assert |s.subscribers + {q}| == |s.subscribers| + 1;
  }

  lemma UnsubscribeKeepsInv(s: State, limits: Limits, q: Queue)
    requires Inv(s, limits)
    ensures Inv(Unsubscribe(s, q), limits)
  {
    UnsubscribeKeepsCounters(s, q);
    FewerSubscribers(s.subscribers, q);
  }

  lemma FewerSubscribers(subscribers: set<Queue>, q: Queue)
    ensures |subscribers - {q}| <= |subscribers|
  {
  }

  lemma QueueCallKeepsQueues(s: State, limits: Limits, c: Call)
    requires QueuesOk(s) && (c.PublishCall? || c.CloseCall? || c.GetCall?)
    ensures QueuesOk(Do(s, limits, c))
  {
  }

  lemma SameCounters(s: State, s': State, limits: Limits)
    requires CountersOk(s) && WithinLimits(s, limits)
    requires s'.subscribers == s.subscribers && s'.owners == s.owners && s'.perUser == s.perUser
    ensures CountersOk(s') && WithinLimits(s', limits)
  {
    forall o ensures Streams(s', o) == |OwnedBy(s'.owners, o)| {
      assert Streams(s, o) == |OwnedBy(s.owners, o)|;
    }
  }

  lemma CallKeepsInv(s: State, limits: Limits, c: Call)
    requires Inv(s, limits) && Possible(s, c)
    ensures Inv(Do(s, limits, c), limits)
  {
    match c
    case SubscribeCall(owner, q) => SubscribeKeepsInv(s, limits, owner, q);
    case UnsubscribeCall(q) => UnsubscribeKeepsInv(s, limits, q);
    case _ =>
      QueueCallKeepsQueues(s, limits, c);
      SameCounters(s, Do(s, limits, c), limits);
  }

  ghost predicate Execution(states: seq<State>, calls: seq<Call>, limits: Limits) {
    && |states| == |calls| + 1
    && forall n {:trigger calls[n]} :: 0 <= n < |calls| ==> Possible(states[n], calls[n]) && states[n + 1] == Do(states[n], limits, calls[n])
  }

  /** After any calls: the counters count the live queues of each user, and both limits hold. */
  lemma {:induction false} LimitsHold(states: seq<State>, calls: seq<Call>, limits: Limits, n: nat)
    requires Execution(states, calls, limits) && states[0] == EMPTY && n < |states|
    ensures Inv(states[n], limits)
  {
    if n == 0 {
      assert forall owner :: OwnedBy(EMPTY.owners, owner) == {};
    } else {
      LimitsHold(states, calls, limits, n - 1);
      CallKeepsInv(states[n - 1], limits, calls[n - 1]);
    }
  }

  /** Unsubscribing twice is unsubscribing once, and it undoes a subscription up to the queue itself. */
  lemma UnsubscribeUndoes(s: State, limits: Limits, owner: Option<Owner>, q: Queue)
    requires Inv(s, limits) && q !in s.queues
    ensures Unsubscribe(Unsubscribe(s, q), q) == Unsubscribe(s, q)
    ensures Unsubscribe(Subscribe(s, limits, owner, q), q).(queues := s.queues) == s
  {
    assert q !in s.owners && q !in s.subscribers;
    assert s.owners - {q} == s.owners && s.subscribers - {q} == s.subscribers;
    var s' := Subscribe(s, limits, owner, q);
    if s' != s && owner.Some? {
      assert s'.owners - {q} == s.owners;
      assert s'.perUser - {owner.value} == s.perUser - {owner.value};
      assert Unsubscribe(s', q).perUser == s.perUser;
    }
    assert s'.subscribers - {q} == s.subscribers;
  }

  // ---- the closing marker ---------------------------------------------------------------------

  /** The marker waits in the queue behind k items. */
  predicate MarkedAt(s: State, q: Queue, k: nat) {
    q in s.queues && k < |s.queues[q]| && s.queues[q][k] == CLOSED
  }

  lemma CloseMarksEveryone(s: State, limits: Limits, q: Queue)
    requires Inv(s, limits) && !s.closed && q in s.subscribers
    ensures exists k :: 0 <= k < MAX_QUEUE && MarkedAt(Close(s), q, k)
  {
    var items := Close(s).queues[q];
    assert items[|items| - 1] == CLOSED;
    assert MarkedAt(Close(s), q, |items| - 1);
  }

  function Gets(calls: seq<Call>, q: Queue): nat {
    if calls == [] then 0 else Gets(calls[..|calls| - 1], q) + if calls[|calls| - 1] == GetCall(q) then 1 else 0
  }

  lemma GetsOfOneMore(calls: seq<Call>, m: nat, n: nat, q: Queue)
    requires m < n <= |calls|
    ensures Gets(calls[m..n], q) == Gets(calls[m..n - 1], q) + if calls[n - 1] == GetCall(q) then 1 else 0
  {
    assert calls[m..n][..n - m - 1] == calls[m..n - 1];
  }

  lemma CallKeepsMarker(s: State, limits: Limits, c: Call, q: Queue, k: nat)
    requires s.closed && MarkedAt(s, q, k) && Possible(s, c)
    ensures Do(s, limits, c).closed
    ensures c != GetCall(q) ==> MarkedAt(Do(s, limits, c), q, k)
    ensures c == GetCall(q) && k > 0 ==> MarkedAt(Do(s, limits, c), q, k - 1)
  {
  }

  /**
   * Once the broker is closed the marker stays until its reader takes it: with k
   * items before it, it is there after any calls with at most k reads, and the
   * next read returns it.
   */
  lemma {:induction false} MarkerStays(states: seq<State>, calls: seq<Call>, limits: Limits, m: nat, n: nat, q: Queue, k: nat)
    requires Execution(states, calls, limits) && m <= n < |states|
    requires states[m].closed && MarkedAt(states[m], q, k) && Gets(calls[m..n], q) <= k
    ensures states[n].closed && MarkedAt(states[n], q, k - Gets(calls[m..n], q))
  {
    if m < n {
      GetsOfOneMore(calls, m, n, q);
      MarkerStays(states, calls, limits, m, n - 1, q, k);
      CallKeepsMarker(states[n - 1], limits, calls[n - 1], q, k - Gets(calls[m..n - 1], q));
    }
  }

  // ---- the class --------------------------------------------------------------------------------

  class EventBroker {
    const limits: Limits
    var subscribers: set<Queue>
    var owners: map<Queue, Owner>
    var perUser: map<Owner, nat>
    var queues: map<Queue, seq<Item>>
    var closed: bool
    var made: Queue       // the next queue object

    function View(): State
      reads this
    {
      State(subscribers, owners, perUser, queues, closed)
    }

    ghost predicate Valid()
      reads this
    {
      Inv(View(), limits) && forall q <- queues :: q < made
    }

    constructor (limits: Limits)
      ensures this.limits == limits && View() == EMPTY && Valid()
    {
      this.limits := limits;
      subscribers, owners, perUser, queues, closed, made := {}, map[], map[], map[], false, 0;
      new;
      assert forall owner :: OwnedBy(owners, owner) == {};
    }

    method SubscribeAs(owner: Option<Owner>) returns (answer: Answer)
      requires Valid()
      modifies this
      ensures Valid()
      ensures answer == Decide(old(View()), limits, owner, old(made))
      ensures old(made) !in old(queues) && View() == Subscribe(old(View()), limits, owner, old(made))
      // The first reason that applies, and a subscription when none does.
      ensures answer == ShuttingDown <==> old(closed)
      ensures answer == TooMany <==>
        !old(closed) && limits.subscribers.Some? && |old(subscribers)| >= limits.subscribers.value
      ensures answer == TooManyForUser <==>
        && !old(closed) && (limits.subscribers.Some? ==> |old(subscribers)| < limits.subscribers.value)
        && owner.Some? && limits.perUser.Some? && |OwnedBy(old(owners), owner.value)| >= limits.perUser.value
      ensures !answer.Subscribed? ==> View() == old(View())
      ensures answer.Subscribed? ==>
        && answer.q !in old(queues) && queues == old(queues)[answer.q := []]
        && subscribers == old(subscribers) + {answer.q} && !closed
        && owners == if owner.Some? then old(owners)[answer.q := owner.value] else old(owners)
    {
      CallKeepsInv(View(), limits, SubscribeCall(owner, made));
      answer := AddQueue(owner);
    }

    method AddQueue(owner: Option<Owner>) returns (answer: Answer)
      modifies this
      ensures answer == Decide(old(View()), limits, owner, old(made))
      ensures View() == Subscribe(old(View()), limits, owner, old(made)) && old(made) <= made
      ensures answer.Subscribed? ==> made == old(made) + 1
    {
      if closed {
        return ShuttingDown;
      }
      if limits.subscribers.Some? && |subscribers| >= limits.subscribers.value {
        return TooMany;
      }
      var streams := if owner.Some? && owner.value in perUser then perUser[owner.value] else 0;
      if owner.Some? && limits.perUser.Some? && streams >= limits.perUser.value {
        return TooManyForUser;
      }
      var q := made;
      made := made + 1;
      queues := queues[q := []];
      subscribers := subscribers + {q};
      if owner.Some? {
        owners := owners[q := owner.value];
        perUser := perUser[owner.value := streams + 1];
      }
      answer := Subscribed(q);
    }

    method UnsubscribeQueue(q: Queue)
      requires Valid()
      modifies this
      ensures Valid() && View() == Unsubscribe(old(View()), q)
      ensures subscribers == old(subscribers) - {q} && owners == old(owners) - {q}
      ensures queues == old(queues) && closed == old(closed)
    {
      CallKeepsInv(View(), limits, UnsubscribeCall(q));
      if q in owners {
        OwnerIsCounted(View(), q);
      }
      RemoveQueue(q);
    }

    method RemoveQueue(q: Queue)
      requires q in owners ==> owners[q] in perUser && perUser[owners[q]] > 0
      modifies this`subscribers, this`owners, this`perUser
      ensures View() == Unsubscribe(old(View()), q)
    {
      subscribers := subscribers - {q};
      if q in owners {
        var owner := owners[q];
        owners := owners - {q};
        perUser := perUser[owner := perUser[owner] - 1];
        if perUser[owner] == 0 {
          perUser := perUser - {owner};
          assert perUser == old(perUser) - {owner};
        }
      } else {
        assert owners - {q} == owners;
      }
    }

    method PublishEvent(event: Event)
      requires Valid()
      modifies this`queues
      ensures Valid() && View() == Publish(old(View()), event)
      // Every live queue gets it, unless a hundred items wait there already.
      ensures queues.Keys == old(queues).Keys && forall q <- queues ::
        queues[q] == if q in subscribers && |old(queues)[q]| < 100 then old(queues)[q] + [Message(event)] else old(queues)[q]
    {
      CallKeepsInv(View(), limits, PublishCall(event));
      OfferToAll(event);
    }

    method OfferToAll(event: Event)
      requires subscribers <= queues.Keys
      modifies this`queues
      ensures View() == Publish(old(View()), event) && queues.Keys == old(queues.Keys)
    {
      var todo := subscribers;
      while todo != {}
        invariant todo <= subscribers && queues.Keys == old(queues).Keys
        invariant forall q <- queues ::
          queues[q] == (if q in subscribers - todo then Offer(old(queues)[q], Message(event)) else old(queues)[q])
        decreases |todo|
      {
        var q :| q in todo;
        if |queues[q]| < MAX_QUEUE {
          queues := queues[q := queues[q] + [Message(event)]];
        }
        todo := todo - {q};
      }
      assert queues == Publish(old(View()), event).queues;
    }

    method CloseAll()
      requires Valid()
      modifies this`queues, this`closed
      ensures Valid() && View() == Close(old(View()))
      // The marker comes last; in a full queue it displaces the oldest item.
      ensures closed && queues.Keys == old(queues).Keys && forall q <- queues ::
        queues[q] ==
          if old(closed) || q !in subscribers then old(queues)[q]
          else old(queues)[q][if |old(queues)[q]| < 100 then 0 else 1..] + [CLOSED]
    {
      CallKeepsInv(View(), limits, CloseCall);
      MarkAll();
    }

    method MarkQueue(q: Queue)
      requires q in queues
      modifies this`queues
      ensures queues == old(queues)[q := Mark(old(queues)[q])]
    {
      if |queues[q]| >= MAX_QUEUE {
        queues := queues[q := queues[q][1..]];
      }
      queues := queues[q := queues[q] + [CLOSED]];
    }

    method MarkAll()
      requires subscribers <= queues.Keys
      modifies this`queues, this`closed
      ensures View() == Close(old(View())) && queues.Keys == old(queues.Keys)
    {
      if closed {
        return;
      }
      closed := true;
      var todo := subscribers;
      while todo != {}
        invariant closed && todo <= subscribers && queues.Keys == old(queues).Keys
        invariant forall q <- queues ::
          queues[q] == (if q in subscribers - todo then Mark(old(queues)[q]) else old(queues)[q])
        decreases |todo|
      {
        var q :| q in todo;
        MarkQueue(q);
        todo := todo - {q};
      }
      assert queues == Close(old(View())).queues;
    }

    /** The reader's q.get(); None when the queue is empty and it waits on. */
    method Take(q: Queue) returns (item: Option<Item>)
      requires Valid()
      modifies this`queues
      ensures Valid() && View() == Get(old(View()), q)
      ensures item == if q in old(queues) && old(queues)[q] != [] then Some(old(queues)[q][0]) else None
      ensures queues == if item.Some? then old(queues)[q := old(queues)[q][1..]] else old(queues)
    {
      CallKeepsInv(View(), limits, GetCall(q));
      if q !in queues || queues[q] == [] {
        return None;
      }
      item := Some(queues[q][0]);
      queues := queues[q := queues[q][1..]];
    }
  }
}
