/**
 * TransactionListener as a protocol: any number of listener processes read the
 * partitions of one topic, hand each record to the accrual engine, and commit
 * offsets.  Between any two steps a partition may move to another process, a
 * process may crash, a call may fail before or after its effect, and the other
 * writers of the money tables may run.
 */
module ListenerProtocol {
  import opened Prelude
  import opened RateScale
  import opened Ledger

  type Tp = nat
  type Proc = nat

  /** A record of transactions.raw: a transaction, or bytes that are none. */
  datatype Record =
    | Transaction(tx: TxId, user: UserId, mcc: Mcc, amount: real, at: int)
    | Garbage

  datatype Result = Engine(outcome: Outcome) | SkippedOffer | DeadLettered

  /** One call of _handle, with what the outside world did in it. */
  datatype Attempt =
    | Offerless                                       // no key, a corrupt or a legacy payload
    | AccrueCall(p: Purchase, stamp: Stamp)           // accrue returned an outcome
    | Permanent(published: bool)                      // dead letter, acknowledged or not
    | Transient(p: Purchase, stamp: Stamp, effect: bool)  // raised, perhaps after the commit
    | Told(outcome: Outcome)                          // the answer of a transaction that ended before

  /** Offsets in a partition's log need not be consecutive. */
  datatype Partition = Partition(
    log: map<nat, Record>,
    end: nat,
    committed: nat,
    owner: Option<Proc>,
    pos: nat)

  /** Records of one partition that are still to be handled. */
  datatype Item = Item(tp: Tp, offs: seq<nat>)

  /** The batch of one process; done holds the next offset per partition. */
  datatype Work =
    | Idle
    | Handling(rest: seq<Item>, done: map<Tp, nat>)
    | Rewinding(rest: seq<Item>, done: map<Tp, nat>)
    | Committing(done: map<Tp, nat>)

  datatype State = State(
    parts: map<Tp, Partition>,
    works: map<Proc, Work>,
    results: map<(Tp, nat), Result>,
    db: Db)

  function WorkOf(s: State, i: Proc): Work {
    if i in s.works then s.works[i] else Idle
  }

  function RestOf(w: Work): seq<Item> {
    if w.Handling? || w.Rewinding? then w.rest else []
  }

  function DoneOf(w: Work): map<Tp, nat> {
    if w.Idle? then map[] else w.done
  }

  datatype Action =
    | Append(tp: Tp, offset: nat, record: Record)
    | Assign(tp: Tp, i: Proc)
    | Revoke(tp: Tp)
    | Poll(i: Proc, items: seq<Item>)
    | Handle(i: Proc, attempt: Attempt)
    | Seek(i: Proc)
    | Commit(i: Proc, ok: bool)
    | Crash(i: Proc)
    | Money(e: Event)

  // ---- guards ---------------------------------------------------------------------------

  predicate Increasing(offs: seq<nat>) {
    forall j, k :: 0 <= j < k < |offs| ==> offs[j] < offs[k]
  }

  function Last(offs: seq<nat>): nat
    requires offs != []
  {
    offs[|offs| - 1]
  }

  /** `offs` are all records of the log from offs[0] to its last one. */
  ghost predicate Complete(log: map<nat, Record>, offs: seq<nat>)
    requires offs != []
  {
    && Increasing(offs)
    && (forall k :: 0 <= k < |offs| ==> offs[k] in log)
    && (forall o <- log :: offs[0] <= o <= Last(offs) ==> o in offs)
  }

  /** What getmany may return for one partition. */
  ghost predicate Fetchable(parts: map<Tp, Partition>, i: Proc, item: Item) {
    && item.tp in parts
    && item.offs != []
    && var part := parts[item.tp];
       && part.owner == Some(i)
       && part.pos <= item.offs[0]
       && Complete(part.log, item.offs)
       && (forall o <- part.log :: part.pos <= o ==> item.offs[0] <= o)
  }

  predicate DistinctPartitions(items: seq<Item>) {
    forall j, k :: 0 <= j < k < |items| ==> items[j].tp != items[k].tp
  }

  /** The purchase the listener builds from a record and the offer key it found. */
  predicate PurchaseOf(record: Record, p: Purchase) {
    && record.Transaction?
    && p.tx == record.tx && p.user == record.user && p.mcc == record.mcc
    && p.amount == record.amount && p.at == record.at
  }

  predicate Possible(record: Record, attempt: Attempt) {
    match attempt
    case Offerless => record.Transaction?
    case AccrueCall(p, _) => PurchaseOf(record, p)
    case Permanent(_) => true
    case Transient(p, _, effect) => effect ==> PurchaseOf(record, p)
    case Told(_) => false
  }

  /** The ledger holds an accrual of amount k for this purchase, under some offer. */
  ghost predicate PaidOut(db: Db, tx: TxId, k: int) {
    exists row <- db.accruals :: row.tx == tx && row.offer.Some? && row.amount == k
  }

  /** An answer that comes after its transaction is true of the ledger. */
  ghost predicate Tells(db: Db, record: Record, attempt: Attempt) {
    && attempt.Told? && record.Transaction?
    && (attempt.outcome.Accrued? ==> PaidOut(db, record.tx, attempt.outcome.amount))
  }

  ghost predicate Enabled(s: State, a: Action) {
    match a
    case Append(tp, offset, _) => tp in s.parts && s.parts[tp].end <= offset
    case Assign(tp, _) => tp in s.parts
    case Revoke(tp) => tp in s.parts
    case Poll(i, items) =>
      WorkOf(s, i).Idle? && items != [] && DistinctPartitions(items)
      && forall item <- items :: Fetchable(s.parts, i, item)
    case Handle(i, attempt) =>
      var w := WorkOf(s, i);
      && w.Handling? && w.rest != [] && w.rest[0].offs != [] && w.rest[0].tp in s.parts
      && w.rest[0].offs[0] in s.parts[w.rest[0].tp].log
      && var record := s.parts[w.rest[0].tp].log[w.rest[0].offs[0]];
         Possible(record, attempt) || Tells(s.db, record, attempt)
    case Seek(i) => WorkOf(s, i).Rewinding? && WorkOf(s, i).rest != [] && WorkOf(s, i).rest[0].offs != []
    case Commit(i, ok) =>
      // The broker fences a member: it takes offsets of the member's partitions only.
      WorkOf(s, i).Committing?
      && (ok ==> forall tp <- WorkOf(s, i).done :: tp in s.parts && s.parts[tp].owner == Some(i))
    case Crash(_) => true
    case Money(_) => true
  }

  // ---- effects ---------------------------------------------------------------------------

  function Finish(attempt: Attempt, db: Db): (r: Option<(Result, Db)>) {
    match attempt
    case Offerless => Some((SkippedOffer, db))
    case AccrueCall(p, stamp) => Some((Engine(Accrue(db, p, stamp).1), Accrue(db, p, stamp).0))
    case Permanent(published) => if published then Some((DeadLettered, db)) else None
    case Transient(_, _, _) => None
    case Told(outcome) => Some((Engine(outcome), db))
  }

  /** The tables after a call that raised. */
  function Residue(attempt: Attempt, db: Db): Db {
    if attempt.Transient? && attempt.effect then Accrue(db, attempt.p, attempt.stamp).0 else db
  }

  function DropHead(rest: seq<Item>): seq<Item>
    requires rest != [] && rest[0].offs != []
  {
    if |rest[0].offs| == 1 then rest[1..] else [rest[0].(offs := rest[0].offs[1..])] + rest[1..]
  }

  function DoHandle(s: State, i: Proc, attempt: Attempt): State
    requires WorkOf(s, i).Handling? && WorkOf(s, i).rest != [] && WorkOf(s, i).rest[0].offs != []
  {
    var w := WorkOf(s, i);
    var item := w.rest[0];
    var key := (item.tp, item.offs[0]);
    var finished := Finish(attempt, s.db);
    if finished.None? then s.(works := s.works[i := Rewinding(w.rest, w.done)], db := Residue(attempt, s.db))
    else
      var done := w.done[item.tp := item.offs[0] + 1];
      var rest := DropHead(w.rest);
      State(s.parts,
            s.works[i := if rest == [] then Committing(done) else Handling(rest, done)],
            if key in s.results then s.results else s.results[key := finished.value.0],
            finished.value.1)
  }

  /** seek() works on an assigned partition and raises (is logged) on a lost one. */
  function DoSeek(s: State, i: Proc): State
    requires WorkOf(s, i).Rewinding? && WorkOf(s, i).rest != [] && WorkOf(s, i).rest[0].offs != []
  {
    var w := WorkOf(s, i);
    var item := w.rest[0];
    var next := if |w.rest| == 1 then Committing(w.done) else Rewinding(w.rest[1..], w.done);
    if item.tp in s.parts && s.parts[item.tp].owner == Some(i)
    then s.(parts := s.parts[item.tp := s.parts[item.tp].(pos := item.offs[0])], works := s.works[i := next])
    else s.(works := s.works[i := next])
  }

  function ItemFor(items: seq<Item>, tp: Tp): (r: Option<Item>)
    ensures r.Some? ==> r.value in items && r.value.tp == tp
    ensures r.None? ==> forall item <- items :: item.tp != tp
  {
    if items == [] then None
    else if items[0].tp == tp then Some(items[0])
    else ItemFor(items[1..], tp)
  }

  /** getmany moves the position of each partition past the records it returns. */
  function Advanced(parts: map<Tp, Partition>, items: seq<Item>): map<Tp, Partition> {
    map tp | tp in parts ::
      var item := ItemFor(items, tp);
      if item.Some? && item.value.offs != [] then parts[tp].(pos := Last(item.value.offs) + 1) else parts[tp]
  }

  function DoPoll(s: State, i: Proc, items: seq<Item>): State {
    s.(parts := Advanced(s.parts, items), works := s.works[i := Handling(items, map[])])
  }

  function DoCommit(s: State, i: Proc, ok: bool): State
    requires WorkOf(s, i).Committing?
  {
    var done := WorkOf(s, i).done;
    var parts := map tp | tp in s.parts ::
      if ok && tp in done then s.parts[tp].(committed := done[tp]) else s.parts[tp];
    s.(parts := parts, works := s.works[i := Idle])
  }

  function Do(s: State, a: Action): State
    requires Enabled(s, a)
  {
    match a
    case Append(tp, offset, record) =>
      var part := s.parts[tp];
      s.(parts := s.parts[tp := part.(log := part.log[offset := record], end := offset + 1)])
    case Assign(tp, i) =>
      var part := s.parts[tp];
      s.(parts := s.parts[tp := part.(owner := Some(i), pos := part.committed)])
    case Revoke(tp) => s.(parts := s.parts[tp := s.parts[tp].(owner := None)])
    case Poll(i, items) => DoPoll(s, i, items)
    case Handle(i, attempt) => DoHandle(s, i, attempt)
    case Seek(i) => DoSeek(s, i)
    case Commit(i, ok) => DoCommit(s, i, ok)
    case Crash(i) =>
      var parts := map tp | tp in s.parts ::
        if s.parts[tp].owner == Some(i) then s.parts[tp].(owner := None) else s.parts[tp];
      s.(parts := parts, works := s.works[i := Idle])
    case Money(e) => s.(db := Apply(s.db, e))
  }

  // ---- the invariant -----------------------------------------------------------------------

  /** Every record of the partition below offset n has been dealt with. */
  ghost predicate CoveredBelow(s: State, tp: Tp, n: nat)
    requires tp in s.parts
  {
    forall o <- s.parts[tp].log :: o < n ==> (tp, o) in s.results
  }

  ghost predicate Ahead(part: Partition, item: Item, tp: Tp) {
    item.tp == tp && item.offs != [] && part.pos == Last(item.offs) + 1
  }

  /** An owner may be ahead of its unhandled records only while it still holds them. */
  ghost predicate PositionOk(s: State, tp: Tp, i: Proc)
    requires tp in s.parts
  {
    || CoveredBelow(s, tp, s.parts[tp].pos)
    || exists k :: 0 <= k < |RestOf(WorkOf(s, i))| && Ahead(s.parts[tp], RestOf(WorkOf(s, i))[k], tp)
  }

  ghost predicate PartitionOk(s: State, tp: Tp)
    requires tp in s.parts
  {
    var part := s.parts[tp];
    && part.committed <= part.end && part.pos <= part.end
    && (forall o <- part.log :: o < part.end)
    && CoveredBelow(s, tp, part.committed)
    && (part.owner.Some? ==> PositionOk(s, tp, part.owner.value))
  }

  ghost predicate ItemOk(s: State, item: Item) {
    && item.tp in s.parts && item.offs != []
    && Complete(s.parts[item.tp].log, item.offs)
    && CoveredBelow(s, item.tp, item.offs[0])
  }

  ghost predicate DoneOk(s: State, tp: Tp, next: nat) {
    tp in s.parts && CoveredBelow(s, tp, next) && next <= s.parts[tp].end
  }

  ghost predicate WorkOk(s: State, i: Proc) {
    var w := WorkOf(s, i);
    && (w.Handling? || w.Rewinding? ==> w.rest != [])
    && DistinctPartitions(RestOf(w))
    && (forall item <- RestOf(w) :: ItemOk(s, item))
    && (forall tp <- DoneOf(w) :: DoneOk(s, tp, DoneOf(w)[tp]))
  }

  ghost predicate Inv(s: State) {
    && (forall tp <- s.parts :: PartitionOk(s, tp))
    && (forall i: Proc :: WorkOk(s, i))
  }
}
