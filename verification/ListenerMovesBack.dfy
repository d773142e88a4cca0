/**
 * Exactly when a committed offset can fall: if and only if the work of the
 * partition's present owner is not Forward.  The continuations meant here give
 * the partition to nobody any more or, at most, only where that is safe.
 */
module ListenerMovesBack {
  import opened Prelude
  import opened Ledger
  import opened ListenerProtocol
  import opened ListenerLaws
  import opened ListenerRuns

  /** The step commits an offset of tp below the committed one. */
  ghost predicate Falls(s: State, a: Action, tp: Tp) {
    && Enabled(s, a) && tp in s.parts && tp in Do(s, a).parts
    && Do(s, a).parts[tp].committed < s.parts[tp].committed
  }

  /** The step does not give tp away or, with `back`, gives it away safely. */
  ghost predicate Tame(s: State, a: Action, tp: Tp, back: bool) {
    a.Assign? && a.tp == tp ==> back && SafeReturn(s, a, tp)
  }

  ghost predicate Continues(s: State, actions: seq<Action>, t: State, tp: Tp, back: bool)
    decreases |actions|
  {
    if actions == [] then s == t
    else
      && Enabled(s, actions[0]) && Tame(s, actions[0], tp, back)
      && Continues(Do(s, actions[0]), actions[1..], t, tp, back)
  }

  /** Some continuation ends in a step that commits tp below what is committed. */
  ghost predicate CanFall(s: State, tp: Tp, back: bool) {
    exists actions, t, a :: Continues(s, actions, t, tp, back) && Falls(t, a, tp)
  }

  lemma FallsNow(s: State, a: Action, tp: Tp, back: bool)
    requires Falls(s, a, tp)
    ensures CanFall(s, tp, back)
  {
    assert Continues(s, [], s, tp, back);
  }

  lemma FallsLater(s: State, a: Action, s': State, tp: Tp, back: bool)
    requires Step(s, a, s') && !(a.Assign? && a.tp == tp) && CanFall(s', tp, back)
    ensures CanFall(s, tp, back)
  {
    var actions, t, b :| Continues(s', actions, t, tp, back) && Falls(t, b, tp);
    assert ([a] + actions)[1..] == actions;
    assert Continues(s, [a] + actions, t, tp, back);
  }

  // ---- forward work stays forward ---------------------------------------------------------------

  lemma {:induction false} ContinuesForward(s: State, actions: seq<Action>, t: State, tp: Tp, back: bool)
    requires Inv(s) && ForwardAt(s, tp) && Continues(s, actions, t, tp, back)
    ensures Inv(t) && ForwardAt(t, tp)
    decreases |actions|
  {
    if actions != [] {
      StepKeepsInv(s, actions[0]);
      StepKeepsForward(s, actions[0], tp);
      ContinuesForward(Do(s, actions[0]), actions[1..], t, tp, back);
    }
  }

  lemma NoFallFromForward(s: State, a: Action, tp: Tp)
    requires Inv(s) && ForwardAt(s, tp)
    ensures !Falls(s, a, tp)
  {
    if Enabled(s, a) && tp in s.parts {
      CommittedStays(s, a, tp);
      if SafeReturn(s, a, tp) {
        StepKeepsForward(s, a, tp);
      }
    }
  }

  lemma ForwardNeverFalls(s: State, tp: Tp, back: bool)
    requires Inv(s) && ForwardAt(s, tp)
    ensures !CanFall(s, tp, back)
  {
    forall actions, t, a | Continues(s, actions, t, tp, back) ensures !Falls(t, a, tp) {
      ContinuesForward(s, actions, t, tp, back);
      NoFallFromForward(t, a, tp);
    }
  }

  // ---- the owner reads on from too far back ---------------------------------------------------------

  lemma LeastFrom(xs: set<nat>, x: nat) returns (m: nat)
    requires x in xs
    ensures m in xs && m <= x && forall y <- xs :: m <= y
    decreases x
  {
    if y: nat :| y in xs && y < x {
      m := LeastFrom(xs, y);
    } else {
      m := x;
    }
  }

  /** An idle owner polls one record. */
  lemma PollOne(s: State, i: Proc, tp: Tp, o: nat)
    requires WorkOf(s, i).Idle? && tp in s.parts && o in s.parts[tp].log && s.parts[tp].owner == Some(i)
    requires s.parts[tp].pos <= o && forall x <- s.parts[tp].log :: s.parts[tp].pos <= x ==> o <= x
    ensures var items := [Item(tp, [o])];
      && Step(s, Poll(i, items), DoPoll(s, i, items))
      && DoPoll(s, i, items).parts == s.parts[tp := s.parts[tp].(pos := o + 1)]
  {
    assert Fetchable(s.parts, i, Item(tp, [o]));
    assert DoPoll(s, i, [Item(tp, [o])]).parts == s.parts[tp := s.parts[tp].(pos := o + 1)];
  }

  lemma PolledOneFalls(s: State, i: Proc, tp: Tp, o: nat, back: bool)
    requires tp in s.parts && o in s.parts[tp].log && s.parts[tp].owner == Some(i) && o + 1 < s.parts[tp].committed
    requires WorkOf(s, i) == Handling([Item(tp, [o])], map[])
    ensures CanFall(s, tp, back)
  {
    var a := Handle(i, Permanent(true));
    var s' := DoHandle(s, i, Permanent(true));
    assert DropHead([Item(tp, [o])]) == [];
    assert WorkOf(s', i) == Committing(map[tp := o + 1]);
    FallsNow(s', Commit(i, true), tp, back);
    FallsLater(s, a, s', tp, back);
  }

  lemma IdleFalls(s: State, i: Proc, tp: Tp, back: bool)
    requires WorkOf(s, i).Idle? && tp in s.parts && s.parts[tp].owner == Some(i)
    requires !ReadsPast(s.parts[tp], s.parts[tp].pos, s.parts[tp].committed)
    ensures CanFall(s, tp, back)
  {
    var part := s.parts[tp];
    var low :| low in part.log && part.pos <= low && low + 1 < part.committed;
    var ahead := set x | x in part.log && part.pos <= x;
    var o := LeastFrom(ahead, low);
    forall x <- part.log | part.pos <= x ensures o <= x {
      assert x in ahead;
    }
    PollOne(s, i, tp, o);
    var s' := DoPoll(s, i, [Item(tp, [o])]);
    PolledOneFalls(s', i, tp, o, back);
    FallsLater(s, Poll(i, [Item(tp, [o])]), s', tp, back);
  }

  // ---- the owner ends its batch -----------------------------------------------------------------------

  function Unowned(parts: map<Tp, Partition>, i: Proc, done: map<Tp, nat>): set<Tp> {
    set p | p in done && p in parts && parts[p].owner != Some(i)
  }

  /** It gets the other partitions of the batch and commits. */
  lemma {:induction false} CommittingFalls(s: State, i: Proc, done: map<Tp, nat>, tp: Tp, back: bool)
    requires WorkOf(s, i) == Committing(done) && done.Keys <= s.parts.Keys
    requires tp in s.parts && s.parts[tp].owner == Some(i) && !Forward(s.parts[tp], Committing(done), tp)
    ensures CanFall(s, tp, back)
    decreases |Unowned(s.parts, i, done)|
  {
    if Unowned(s.parts, i, done) == {} {
      OwnedCommitFalls(s, i, done, tp, back);
    } else {
      var p :| p in Unowned(s.parts, i, done);
      var s' := Do(s, Assign(p, i));
      assert Unowned(s'.parts, i, done) == Unowned(s.parts, i, done) - {p};
      CommittingFalls(s', i, done, tp, back);
      FallsLater(s, Assign(p, i), s', tp, back);
    }
  }

  lemma OwnedCommitFalls(s: State, i: Proc, done: map<Tp, nat>, tp: Tp, back: bool)
    requires WorkOf(s, i) == Committing(done) && done.Keys <= s.parts.Keys && Unowned(s.parts, i, done) == {}
    requires tp in s.parts && s.parts[tp].owner == Some(i) && !Forward(s.parts[tp], Committing(done), tp)
    ensures CanFall(s, tp, back)
  {
    forall p <- done ensures p in s.parts && s.parts[p].owner == Some(i) {
      assert p !in Unowned(s.parts, i, done);
    }
    if tp in done && done[tp] < s.parts[tp].committed {
      FallsNow(s, Commit(i, true), tp, back);
    } else {
      var s' := DoCommit(s, i, true);
      assert s'.parts[tp] == s.parts[tp].(committed := NextCommit(s.parts[tp], Committing(done), tp));
      IdleFalls(s', i, tp, back);
      FallsLater(s, Commit(i, true), s', tp, back);
    }
  }

  lemma KnownCommitFalls(s: State, i: Proc, tp: Tp, back: bool)
    requires Inv(s) && WorkOf(s, i).Committing? && tp in s.parts && s.parts[tp].owner == Some(i)
    requires !Forward(s.parts[tp], WorkOf(s, i), tp)
    ensures CanFall(s, tp, back)
  {
    var done := WorkOf(s, i).done;
    assert WorkOk(s, i);
    forall p <- done ensures p in s.parts {
      assert p in DoneOf(WorkOf(s, i)) && DoneOk(s, p, done[p]);
    }
    CommittingFalls(s, i, done, tp, back);
  }

  lemma SeekKeepsBackward(part: Partition, w: Work, w': Work, tp: Tp)
    requires Seeks(w, w') && (w.rest[0].tp == tp ==> w.rest[0].offs[0] in part.log)
    requires Forward(if w.rest[0].tp == tp then part.(pos := w.rest[0].offs[0]) else part, w', tp)
    requires forall item <- w.rest :: item.offs != []
    ensures Forward(part, w, tp)
  {
    forall item <- RestOf(w) | item.tp == tp ensures ItemForward(part, w, tp, item) {
      var k :| 0 <= k < |w.rest| && w.rest[k] == item;
      if k > 0 {
        assert w.rest[1..][k - 1] == item;
      }
    }
    if forall item <- RestOf(w) :: item.tp != tp {
      assert forall item <- RestOf(w') :: item in RestOf(w);
    }
  }

  /** It seeks what it did not handle, then commits. */
  lemma {:induction false} RewindingFalls(s: State, i: Proc, tp: Tp, back: bool)
    requires Inv(s) && WorkOf(s, i).Rewinding? && tp in s.parts && s.parts[tp].owner == Some(i)
    requires !Forward(s.parts[tp], WorkOf(s, i), tp)
    ensures CanFall(s, tp, back)
    decreases |RestOf(WorkOf(s, i))|
  {
    var w := WorkOf(s, i);
    RewindingGoesOn(s, i);
    StepKeepsInv(s, Seek(i));
    var s' := DoSeek(s, i);
    var w' := WorkOf(s', i);
    if Forward(s'.parts[tp], w', tp) {
      SeekKeepsBackward(s.parts[tp], w, w', tp);
      assert false;
    }
    if w'.Committing? {
      KnownCommitFalls(s', i, tp, back);
    } else {
      RewindingFalls(s', i, tp, back);
    }
    FallsLater(s, Seek(i), s', tp, back);
  }

  lemma RewindingGoesOn(s: State, i: Proc)
    requires Inv(s) && WorkOf(s, i).Rewinding?
    ensures Enabled(s, Seek(i)) && Seeks(WorkOf(s, i), WorkOf(DoSeek(s, i), i))
    ensures var w := WorkOf(s, i);
      && (forall item <- w.rest :: item.offs != [])
      && w.rest[0].tp in s.parts && w.rest[0].offs[0] in s.parts[w.rest[0].tp].log
  {
    var w := WorkOf(s, i);
    assert WorkOk(s, i);
    forall item <- w.rest ensures item.offs != [] && item.tp in s.parts && item.offs[0] in s.parts[item.tp].log {
      assert item in RestOf(w) && ItemOk(s, item);
    }
  }

  // ---- the owner goes on handling -----------------------------------------------------------------------

  function Size(rest: seq<Item>): nat {
    if rest == [] then 0 else |rest[0].offs| + Size(rest[1..])
  }

  lemma SizeDrops(rest: seq<Item>)
    requires rest != [] && rest[0].offs != []
    ensures Size(DropHead(rest)) < Size(rest)
  {
    if |rest[0].offs| > 1 {
      assert DropHead(rest)[1..] == rest[1..];
    }
  }

  /** If stopping now is no danger, the danger lies further on in the batch. */
  lemma HandleKeepsBackward(part: Partition, w: Work, w': Work, tp: Tp)
    requires Handles(w, w') && Forward(part, w', tp) && Forward(part, Rewinding(w.rest, w.done), tp)
    ensures Forward(part, w, tp)
  {
    var stopped := Rewinding(w.rest, w.done);
    forall item <- RestOf(w) | item.tp == tp ensures ItemForward(part, w, tp, item) {
      assert item in RestOf(stopped) && ItemForward(part, stopped, tp, item);
      ItemReadsPast(part, w, w', tp, item);
    }
    assert RestOf(stopped) == RestOf(w);
  }

  lemma ItemReadsPast(part: Partition, w: Work, w': Work, tp: Tp, item: Item)
    requires Handles(w, w') && Forward(part, w', tp) && item in w.rest && item.tp == tp && item.offs != []
    ensures ReadsPast(part, part.pos, Last(item.offs) + 1)
  {
    var k :| 0 <= k < |w.rest| && w.rest[k] == item;
    if k > 0 {
      assert w.rest[1..][k - 1] == item;
      assert item in RestOf(w') && ItemForward(part, w', tp, item);
    } else if |item.offs| > 1 {
      var rest := item.(offs := item.offs[1..]);
      assert DropHead(w.rest)[0] == rest;
      assert rest in RestOf(w') && ItemForward(part, w', tp, rest);
    } else {
      forall x <- RestOf(w') ensures x.tp != tp {
        ItemsAfterDrop(w.rest, x);
        var j :| 0 <= j < |w.rest[1..]| && w.rest[1..][j] == x;
        assert w.rest[j + 1] == x;
      }
    }
  }

  lemma HandlingGoesOn(s: State, i: Proc, attempt: Attempt)
    requires Inv(s) && WorkOf(s, i).Handling? && (attempt.Permanent? || (attempt.Transient? && !attempt.effect))
    ensures WorkOk(s, i) && Enabled(s, Handle(i, attempt))
  {
    var w := WorkOf(s, i);
    assert WorkOk(s, i) && w.rest[0] in RestOf(w) && ItemOk(s, w.rest[0]);
  }

  /** A call that fails starts the rewind. */
  lemma FailingFalls(s: State, i: Proc, tp: Tp, back: bool)
    requires Inv(s) && WorkOf(s, i).Handling? && tp in s.parts && s.parts[tp].owner == Some(i)
    requires !Forward(s.parts[tp], Rewinding(WorkOf(s, i).rest, WorkOf(s, i).done), tp)
    ensures CanFall(s, tp, back)
  {
    var a := Handle(i, Permanent(false));
    HandlingGoesOn(s, i, Permanent(false));
    StepKeepsInv(s, a);
    RewindingFalls(DoHandle(s, i, Permanent(false)), i, tp, back);
    FallsLater(s, a, DoHandle(s, i, Permanent(false)), tp, back);
  }

  lemma {:induction false} HandlingFalls(s: State, i: Proc, tp: Tp, back: bool)
    requires Inv(s) && WorkOf(s, i).Handling? && tp in s.parts && s.parts[tp].owner == Some(i)
    requires !Forward(s.parts[tp], WorkOf(s, i), tp)
    ensures CanFall(s, tp, back)
    decreases Size(RestOf(WorkOf(s, i)))
  {
    var w, a := WorkOf(s, i), Handle(i, Permanent(true));
    if !Forward(s.parts[tp], Rewinding(w.rest, w.done), tp) {
      FailingFalls(s, i, tp, back);
    } else {
      HandlingGoesOn(s, i, Permanent(true));
      HandledWorkIs(s, i, Permanent(true));
      StepKeepsInv(s, a);
      var s' := DoHandle(s, i, Permanent(true));
      if Forward(s'.parts[tp], WorkOf(s', i), tp) {
        HandleKeepsBackward(s.parts[tp], w, WorkOf(s', i), tp);
        assert false;
      }
      if WorkOf(s', i).Committing? {
        KnownCommitFalls(s', i, tp, back);
      } else {
        SizeDrops(w.rest);
        HandlingFalls(s', i, tp, back);
      }
      FallsLater(s, a, s', tp, back);
    }
  }

  // ---- the exact condition -------------------------------------------------------------------------------

  lemma BackwardFalls(s: State, tp: Tp, back: bool)
    requires Inv(s) && tp in s.parts && !ForwardAt(s, tp)
    ensures CanFall(s, tp, back)
  {
    var i := s.parts[tp].owner.value;
    match WorkOf(s, i)
    case Idle => IdleFalls(s, i, tp, back);
    case Handling(_, _) => HandlingFalls(s, i, tp, back);
    case Rewinding(_, _) => RewindingFalls(s, i, tp, back);
    case Committing(_) => KnownCommitFalls(s, i, tp, back);
  }

  /**
   * The committed offset of a partition can fall in some continuation if and only
   * if its owner's work is not Forward, whether or not the partition may still be
   * given to processes that it is safe with.
   */
  lemma CanFallIff(s: State, tp: Tp, back: bool)
    requires Inv(s) && tp in s.parts
    ensures CanFall(s, tp, back) <==> !ForwardAt(s, tp)
  {
    if ForwardAt(s, tp) {
      ForwardNeverFalls(s, tp, back);
    } else {
      BackwardFalls(s, tp, back);
    }
  }

  /** The owner's name does not matter to Forward. */
  lemma SameForward(part: Partition, part': Partition, w: Work, tp: Tp)
    requires part' == part.(owner := part'.owner)
    ensures Forward(part, w, tp) ==> Forward(part', w, tp)
  {
    if Forward(part, w, tp) {
      forall item <- RestOf(w) | item.tp == tp ensures ItemForward(part', w, tp, item) {
        assert ItemForward(part, w, tp, item);
      }
    }
  }

  lemma AssignedForward(s: State, tp: Tp, i: Proc)
    requires tp in s.parts
    ensures ForwardAt(Do(s, Assign(tp, i)), tp) <==> SafeReturn(s, Assign(tp, i), tp)
  {
    var moved, given := s.parts[tp].(pos := s.parts[tp].committed), Do(s, Assign(tp, i)).parts[tp];
    SameForward(moved, given, WorkOf(s, i), tp);
    SameForward(given, moved, WorkOf(s, i), tp);
  }

  /** Giving a partition to a process opens the way back if and only if the return is not safe. */
  lemma ReturnCanMoveBackIff(s: State, tp: Tp, i: Proc, back: bool)
    requires Inv(s) && tp in s.parts
    ensures CanFall(Do(s, Assign(tp, i)), tp, back) <==> !SafeReturn(s, Assign(tp, i), tp)
  {
    StepKeepsInv(s, Assign(tp, i));
    AssignedForward(s, tp, i);
    CanFallIff(Do(s, Assign(tp, i)), tp, back);
  }
}
