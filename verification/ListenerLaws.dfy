/** What the listener protocol keeps in every execution. */
module ListenerLaws {
  import opened Prelude
  import opened Ledger
  import opened LedgerLaws
  import opened ListenerProtocol

  /** s' has every record and result of s. */
  ghost predicate Extends(s: State, s': State) {
    && s.parts.Keys <= s'.parts.Keys
    && s.results.Keys <= s'.results.Keys
    && forall tp <- s.parts ::
         && s.parts[tp].log == s'.parts[tp].log
         && s.parts[tp].end == s'.parts[tp].end
  }

  lemma ExtendsItem(s: State, s': State, item: Item)
    requires Extends(s, s') && ItemOk(s, item)
    ensures ItemOk(s', item)
  {
  }

  lemma ExtendsDone(s: State, s': State, tp: Tp, next: nat)
    requires Extends(s, s') && DoneOk(s, tp, next)
    ensures DoneOk(s', tp, next)
  {
  }

  /** Work that did not change stays in order when the state only grows. */
  lemma ExtendsWork(s: State, s': State, i: Proc)
    requires Extends(s, s') && WorkOk(s, i) && WorkOf(s', i) == WorkOf(s, i)
    ensures WorkOk(s', i)
  {
    var w := WorkOf(s, i);
    forall item <- RestOf(w) ensures ItemOk(s', item) {
      ExtendsItem(s, s', item);
    }
    forall tp <- DoneOf(w) ensures DoneOk(s', tp, DoneOf(w)[tp]) {
      ExtendsDone(s, s', tp, DoneOf(w)[tp]);
    }
  }

  /** A partition whose record is unchanged, read by a process with unchanged work. */
  lemma ExtendsPartition(s: State, s': State, tp: Tp)
    requires Extends(s, s') && tp in s.parts && PartitionOk(s, tp) && s'.parts[tp] == s.parts[tp]
    requires s.parts[tp].owner.Some? ==>
      RestOf(WorkOf(s', s.parts[tp].owner.value)) == RestOf(WorkOf(s, s.parts[tp].owner.value))
    ensures PartitionOk(s', tp)
  {
    if s.parts[tp].owner.Some? {
      PositionKept(s, s', tp, s.parts[tp].owner.value);
    }
  }

  lemma PositionKept(s: State, s': State, tp: Tp, i: Proc)
    requires Extends(s, s') && tp in s.parts && PositionOk(s, tp, i)
    requires s'.parts[tp].pos == s.parts[tp].pos
    requires RestOf(WorkOf(s', i)) == RestOf(WorkOf(s, i))
    ensures PositionOk(s', tp, i)
  {
    var part, rest := s.parts[tp], RestOf(WorkOf(s, i));
    if !CoveredBelow(s, tp, part.pos) {
      var k :| 0 <= k < |rest| && Ahead(part, rest[k], tp);
      assert Ahead(s'.parts[tp], RestOf(WorkOf(s', i))[k], tp);
    } else {
      assert CoveredBelow(s', tp, part.pos);
    }
  }

  // ---- handling a record ---------------------------------------------------------------

  lemma CompleteTail(log: map<nat, Record>, offs: seq<nat>)
    requires |offs| > 1 && Complete(log, offs)
    ensures Complete(log, offs[1..]) && Last(offs[1..]) == Last(offs)
    ensures forall o <- log :: o < offs[1] ==> o <= offs[0]
  {
    forall o <- log | offs[1] <= o <= Last(offs[1..]) ensures o in offs[1..] {
      assert o in offs;
      var k :| 0 <= k < |offs| && offs[k] == o;
      assert k > 0 && offs[1..][k - 1] == o;
    }
    forall o <- log | o < offs[1] ensures o <= offs[0] {
      assert offs[0] <= o ==> o in offs;
    }
  }

  lemma DropHeadKeepsDistinct(rest: seq<Item>)
    requires rest != [] && rest[0].offs != [] && DistinctPartitions(rest)
    ensures DistinctPartitions(DropHead(rest))
  {
  }

  /** The head without its first record, once that record has a result. */
  lemma AdvancedItem(s: State, s': State, head: Item)
    requires Extends(s, s') && ItemOk(s, head) && |head.offs| > 1
    requires (head.tp, head.offs[0]) in s'.results
    ensures ItemOk(s', head.(offs := head.offs[1..]))
  {
    CompleteTail(s.parts[head.tp].log, head.offs);
  }

  lemma DropHeadKeepsItems(s: State, s': State, rest: seq<Item>)
    requires Extends(s, s') && rest != [] && rest[0].offs != []
    requires forall item <- rest :: ItemOk(s, item)
    requires (rest[0].tp, rest[0].offs[0]) in s'.results
    ensures forall item <- DropHead(rest) :: ItemOk(s', item)
  {
    forall item <- rest ensures ItemOk(s', item) {
      ExtendsItem(s, s', item);
    }
    if |rest[0].offs| > 1 {
      AdvancedItem(s, s', rest[0]);
    }
  }

  lemma HandledWork(s: State, s': State, i: Proc, attempt: Attempt)
    requires Inv(s) && Enabled(s, Handle(i, attempt)) && s' == DoHandle(s, i, attempt)
    requires Extends(s, s') && Finish(attempt, s.db).Some?
    ensures WorkOk(s', i)
  {
    var w := WorkOf(s, i);
    var item := w.rest[0];
    assert WorkOk(s, i) && item in RestOf(w) && ItemOk(s, item);
    DropHeadKeepsDistinct(w.rest);
    DropHeadKeepsItems(s, s', w.rest);
    var done := DoneOf(WorkOf(s', i));
    forall tp <- done ensures DoneOk(s', tp, done[tp]) {
      if tp == item.tp {
        assert PartitionOk(s, tp) && item.offs[0] in s.parts[tp].log;
      } else {
        ExtendsDone(s, s', tp, DoneOf(w)[tp]);
      }
    }
  }

  lemma AheadAfterDrop(part: Partition, rest: seq<Item>, k: nat, tp: Tp)
    requires k < |rest| && rest[0].offs != [] && Ahead(part, rest[k], tp)
    requires k > 0 || |rest[0].offs| > 1
    ensures exists k' :: 0 <= k' < |DropHead(rest)| && Ahead(part, DropHead(rest)[k'], tp)
  {
    var k' := if |rest[0].offs| == 1 then k - 1 else k;
    assert Ahead(part, DropHead(rest)[k'], tp);
  }

  /** After its only record is handled, nothing below the position is open. */
  lemma DroppedItemIsCovered(s: State, s': State, item: Item)
    requires Extends(s, s') && ItemOk(s, item) && |item.offs| == 1
    requires (item.tp, item.offs[0]) in s'.results
    ensures CoveredBelow(s', item.tp, item.offs[0] + 1)
  {
  }

  lemma HandledPosition(s: State, s': State, i: Proc, attempt: Attempt, tp: Tp)
    requires WorkOk(s, i) && Enabled(s, Handle(i, attempt)) && s' == DoHandle(s, i, attempt)
    requires Extends(s, s') && tp in s.parts && s'.parts[tp] == s.parts[tp] && PositionOk(s, tp, i)
    ensures PositionOk(s', tp, i)
  {
    var rest := RestOf(WorkOf(s, i));
    var part := s.parts[tp];
    if CoveredBelow(s, tp, part.pos) {
      assert CoveredBelow(s', tp, part.pos);
    } else if Finish(attempt, s.db).None? {
      assert RestOf(WorkOf(s', i)) == rest;
    } else {
      assert RestOf(WorkOf(s', i)) == DropHead(rest);
      var k :| 0 <= k < |rest| && Ahead(part, rest[k], tp);
      if k > 0 || |rest[0].offs| > 1 {
        AheadAfterDrop(part, rest, k, tp);
      } else {
        DroppedItemIsCovered(s, s', rest[0]);
      }
    }
  }

  lemma HandledPartition(s: State, s': State, i: Proc, attempt: Attempt, tp: Tp)
    requires Inv(s) && Enabled(s, Handle(i, attempt)) && s' == DoHandle(s, i, attempt)
    requires Extends(s, s') && tp in s.parts
    ensures PartitionOk(s', tp)
  {
    assert PartitionOk(s, tp) && WorkOk(s, i);
    if s.parts[tp].owner == Some(i) {
      HandledPosition(s, s', i, attempt, tp);
    } else {
      ExtendsPartition(s, s', tp);
    }
  }

  lemma HandleKeepsInv(s: State, i: Proc, attempt: Attempt)
    requires Inv(s) && Enabled(s, Handle(i, attempt))
    ensures Inv(Do(s, Handle(i, attempt)))
  {
    var s' := Do(s, Handle(i, attempt));
    assert Extends(s, s');
    forall tp <- s'.parts ensures PartitionOk(s', tp) {
      HandledPartition(s, s', i, attempt, tp);
    }
    forall j: Proc ensures WorkOk(s', j) {
      assert WorkOk(s, j);
      if j != i {
        ExtendsWork(s, s', j);
      } else if Finish(attempt, s.db).Some? {
        HandledWork(s, s', i, attempt);
      } else {
        forall item <- RestOf(WorkOf(s', j)) ensures ItemOk(s', item) {
          ExtendsItem(s, s', item);
        }
        forall tp <- DoneOf(WorkOf(s', j)) ensures DoneOk(s', tp, DoneOf(WorkOf(s', j))[tp]) {
          ExtendsDone(s, s', tp, DoneOf(WorkOf(s, j))[tp]);
        }
      }
    }
  }

  // ---- rewinding -------------------------------------------------------------------------

  lemma SoughtPosition(s: State, s': State, i: Proc, tp: Tp)
    requires WorkOk(s, i) && Enabled(s, Seek(i)) && s' == DoSeek(s, i)
    requires tp in s.parts && s.parts[tp].owner == Some(i) && PositionOk(s, tp, i)
    ensures PositionOk(s', tp, i)
  {
    var rest := RestOf(WorkOf(s, i));
    assert rest[0] in rest && ItemOk(s, rest[0]);
    if tp == rest[0].tp {
      assert CoveredBelow(s', tp, s'.parts[tp].pos);
    } else if !CoveredBelow(s, tp, s.parts[tp].pos) {
      var k :| 0 <= k < |rest| && Ahead(s.parts[tp], rest[k], tp);
      assert RestOf(WorkOf(s', i))[k - 1] == rest[k];
      assert Ahead(s'.parts[tp], RestOf(WorkOf(s', i))[k - 1], tp);
    }
  }

  lemma SoughtWork(s: State, s': State, i: Proc)
    requires WorkOk(s, i) && Enabled(s, Seek(i)) && s' == DoSeek(s, i) && Extends(s, s')
    ensures WorkOk(s', i)
  {
    var w := WorkOf(s, i);
    forall item <- RestOf(WorkOf(s', i)) ensures ItemOk(s', item) {
      assert item in RestOf(w);
      ExtendsItem(s, s', item);
    }
    forall tp <- DoneOf(WorkOf(s', i)) ensures DoneOk(s', tp, DoneOf(WorkOf(s', i))[tp]) {
      ExtendsDone(s, s', tp, DoneOf(w)[tp]);
    }
  }

  lemma SoughtPartition(s: State, s': State, i: Proc, tp: Tp)
    requires Inv(s) && Enabled(s, Seek(i)) && s' == DoSeek(s, i) && Extends(s, s') && tp in s.parts
    ensures PartitionOk(s', tp)
  {
    var head := WorkOf(s, i).rest[0];
    assert PartitionOk(s, tp) && WorkOk(s, i) && head in RestOf(WorkOf(s, i)) && ItemOk(s, head);
    if s.parts[tp].owner == Some(i) {
      SoughtPosition(s, s', i, tp);
      assert head.tp == tp ==> head.offs[0] in s.parts[tp].log;
    } else {
      ExtendsPartition(s, s', tp);
    }
  }

  lemma SeekKeepsInv(s: State, i: Proc)
    requires Inv(s) && Enabled(s, Seek(i))
    ensures Inv(Do(s, Seek(i)))
  {
    var s' := Do(s, Seek(i));
    assert Extends(s, s');
    forall tp <- s'.parts ensures PartitionOk(s', tp) {
      SoughtPartition(s, s', i, tp);
    }
    forall j: Proc ensures WorkOk(s', j) {
      assert WorkOk(s, j);
      if j != i {
        ExtendsWork(s, s', j);
      } else {
        SoughtWork(s, s', i);
      }
    }
  }

  // ---- polling -----------------------------------------------------------------------------

  lemma FetchedItemIsOk(s: State, i: Proc, item: Item)
    requires Inv(s) && WorkOf(s, i).Idle? && Fetchable(s.parts, i, item)
    ensures ItemOk(s, item) && Last(item.offs) < s.parts[item.tp].end
  {
    assert PartitionOk(s, item.tp);
    assert Last(item.offs) in s.parts[item.tp].log;
    forall o <- s.parts[item.tp].log | o < item.offs[0] ensures (item.tp, o) in s.results {
      assert o < s.parts[item.tp].pos;
    }
  }

  lemma PolledAhead(s: State, i: Proc, items: seq<Item>, tp: Tp)
    requires Inv(s) && Enabled(s, Poll(i, items)) && tp in s.parts && ItemFor(items, tp).Some?
    ensures PartitionOk(DoPoll(s, i, items), tp)
  {
    var s' := DoPoll(s, i, items);
    var item := ItemFor(items, tp).value;
    assert PartitionOk(s, tp);
    FetchedItemIsOk(s, i, item);
    var k :| 0 <= k < |items| && items[k] == item;
    assert RestOf(WorkOf(s', i)) == items;
    assert Ahead(s'.parts[tp], items[k], tp);
    assert PositionOk(s', tp, i);
  }

  lemma PolledPartition(s: State, i: Proc, items: seq<Item>, tp: Tp)
    requires Inv(s) && Enabled(s, Poll(i, items)) && tp in s.parts
    ensures PartitionOk(DoPoll(s, i, items), tp)
  {
    var s' := DoPoll(s, i, items);
    assert PartitionOk(s, tp);
    if ItemFor(items, tp).Some? {
      PolledAhead(s, i, items, tp);
    } else if s.parts[tp].owner == Some(i) {
      assert RestOf(WorkOf(s, i)) == [];
      assert CoveredBelow(s', tp, s'.parts[tp].pos);
    } else {
      ExtendsPartition(s, s', tp);
    }
  }

  lemma PolledWork(s: State, i: Proc, items: seq<Item>)
    requires Inv(s) && Enabled(s, Poll(i, items)) && Extends(s, DoPoll(s, i, items))
    ensures WorkOk(DoPoll(s, i, items), i)
  {
    forall item <- items ensures ItemOk(DoPoll(s, i, items), item) {
      FetchedItemIsOk(s, i, item);
      ExtendsItem(s, DoPoll(s, i, items), item);
    }
  }

  lemma PollKeepsInv(s: State, i: Proc, items: seq<Item>)
    requires Inv(s) && Enabled(s, Poll(i, items))
    ensures Inv(Do(s, Poll(i, items)))
  {
    var s' := DoPoll(s, i, items);
    assert Extends(s, s');
    forall tp <- s'.parts ensures PartitionOk(s', tp) {
      PolledPartition(s, i, items, tp);
    }
    forall j: Proc ensures WorkOk(s', j) {
      assert WorkOk(s, j);
      if j != i {
        ExtendsWork(s, s', j);
      } else {
        PolledWork(s, i, items);
      }
    }
  }

  // ---- committing and the environment ----------------------------------------------------------

  lemma CommitKeepsInv(s: State, i: Proc, ok: bool)
    requires Inv(s) && Enabled(s, Commit(i, ok))
    ensures Inv(Do(s, Commit(i, ok)))
  {
    var s' := Do(s, Commit(i, ok));
    assert WorkOk(s, i);
    assert Extends(s, s');
    forall tp <- s'.parts ensures PartitionOk(s', tp) {
      assert PartitionOk(s, tp);
      if ok && tp in DoneOf(WorkOf(s, i)) {
        assert DoneOk(s, tp, DoneOf(WorkOf(s, i))[tp]);
      }
      if s.parts[tp].owner.Some? {
        PositionKept(s, s', tp, s.parts[tp].owner.value);
      }
    }
    forall j: Proc ensures WorkOk(s', j) {
      assert WorkOk(s, j);
      if j != i {
        ExtendsWork(s, s', j);
      }
    }
  }

  /** A new owner starts at the committed offset. */
  lemma AssignedPartition(s: State, tp: Tp, i: Proc)
    requires tp in s.parts && PartitionOk(s, tp)
    ensures PartitionOk(Do(s, Assign(tp, i)), tp)
  {
    var s' := Do(s, Assign(tp, i));
    assert CoveredBelow(s', tp, s'.parts[tp].pos);
  }

  /** A partition that keeps its owner or loses it. */
  lemma ReleasedPartition(s: State, s': State, tp: Tp)
    requires Extends(s, s') && tp in s.parts && PartitionOk(s, tp)
    requires s'.parts[tp] == s.parts[tp] || s'.parts[tp] == s.parts[tp].(owner := None)
    requires s'.parts[tp].owner.Some? ==>
      RestOf(WorkOf(s', s.parts[tp].owner.value)) == RestOf(WorkOf(s, s.parts[tp].owner.value))
    ensures PartitionOk(s', tp)
  {
    if s'.parts[tp].owner.Some? {
      PositionKept(s, s', tp, s.parts[tp].owner.value);
    }
  }

  lemma OwnershipKeepsPartition(s: State, a: Action, tp: Tp)
    requires Inv(s) && Enabled(s, a) && (a.Assign? || a.Revoke? || a.Crash? || a.Money?)
    requires tp in s.parts
    ensures PartitionOk(Do(s, a), tp)
  {
    var s' := Do(s, a);
    assert PartitionOk(s, tp);
    if a.Assign? && tp == a.tp {
      AssignedPartition(s, tp, a.i);
    } else {
      ReleasedPartition(s, s', tp);
    }
  }

  lemma OwnershipKeepsInv(s: State, a: Action)
    requires Inv(s) && Enabled(s, a) && (a.Assign? || a.Revoke? || a.Crash? || a.Money?)
    ensures Inv(Do(s, a))
  {
    var s' := Do(s, a);
    assert Extends(s, s');
    forall tp <- s'.parts ensures PartitionOk(s', tp) {
      OwnershipKeepsPartition(s, a, tp);
    }
    forall j: Proc ensures WorkOk(s', j) {
      assert WorkOk(s, j);
      if a.Crash? && j == a.i {
        assert WorkOf(s', j).Idle?;
      } else {
        ExtendsWork(s, s', j);
      }
    }
  }

  lemma AppendKeepsItem(s: State, a: Action, item: Item)
    requires Inv(s) && Enabled(s, a) && a.Append? && ItemOk(s, item)
    ensures ItemOk(Do(s, a), item)
  {
    assert PartitionOk(s, item.tp);
    assert Last(item.offs) in s.parts[item.tp].log && item.offs[0] in s.parts[item.tp].log;
  }

  lemma AppendKeepsPartition(s: State, a: Action, tp: Tp)
    requires Inv(s) && Enabled(s, a) && a.Append? && tp in s.parts
    ensures PartitionOk(Do(s, a), tp)
  {
    var s' := Do(s, a);
    var part := s.parts[tp];
    assert PartitionOk(s, tp);
    if part.owner.Some? && !CoveredBelow(s, tp, part.pos) {
      var rest := RestOf(WorkOf(s, part.owner.value));
      assert RestOf(WorkOf(s', part.owner.value)) == rest;
      var k :| 0 <= k < |rest| && Ahead(part, rest[k], tp);
      assert Ahead(s'.parts[tp], rest[k], tp);
    } else {
      assert CoveredBelow(s, tp, part.pos) ==> CoveredBelow(s', tp, part.pos);
    }
  }

  lemma AppendKeepsInv(s: State, a: Action)
    requires Inv(s) && Enabled(s, a) && a.Append?
    ensures Inv(Do(s, a))
  {
    var s' := Do(s, a);
    forall tp <- s'.parts ensures PartitionOk(s', tp) {
      AppendKeepsPartition(s, a, tp);
    }
    forall j: Proc ensures WorkOk(s', j) {
      assert WorkOk(s, j) && WorkOf(s', j) == WorkOf(s, j);
      forall item <- RestOf(WorkOf(s, j)) ensures ItemOk(s', item) {
        AppendKeepsItem(s, a, item);
      }
      forall tp <- DoneOf(WorkOf(s, j)) ensures DoneOk(s', tp, DoneOf(WorkOf(s, j))[tp]) {
        assert DoneOk(s, tp, DoneOf(WorkOf(s, j))[tp]);
      }
    }
  }

  lemma StepKeepsInv(s: State, a: Action)
    requires Inv(s) && Enabled(s, a)
    ensures Inv(Do(s, a))
  {
    match a
    case Append(_, _, _) => AppendKeepsInv(s, a);
    case Poll(i, items) => PollKeepsInv(s, i, items);
    case Handle(i, attempt) => HandleKeepsInv(s, i, attempt);
    case Seek(i) => SeekKeepsInv(s, i);
    case Commit(i, ok) => CommitKeepsInv(s, i, ok);
    case _ => OwnershipKeepsInv(s, a);
  }
}
