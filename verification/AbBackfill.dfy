/**
 * The backfills of migration 010: one control variant per experiment, one
 * conversion per assignment.
 */
module AbBackfill {
  import opened Prelude

  type Id = nat
  type Name = nat

  datatype Variant = Variant(id: Id, experiment: Id, name: Name, control: bool)

  /** The names of the creation payload in order; which names are `control` in lower case. */
  datatype Context = Context(payload: map<Id, seq<Name>>, controlNames: set<Name>)

  ghost predicate UniqueIds(variants: seq<Variant>) {
    forall i, j :: 0 <= i < j < |variants| ==> variants[i].id != variants[j].id
  }

  // ---- the control of an experiment ----------------------------------------------------------

  /** min(ord) over the payload's items with this name. */
  function Ordinal(names: seq<Name>, name: Name): (ord: Option<nat>)
    ensures ord.Some? ==> ord.value < |names| && names[ord.value] == name
    ensures ord.Some? ==> forall k :: 0 <= k < ord.value ==> names[k] != name
    ensures ord.None? ==> forall k :: 0 <= k < |names| ==> names[k] != name
  {
    if names == [] then None
    else if names[0] == name then Some(0)
    else
      var rest := Ordinal(names[1..], name);
      assert rest.None? ==> forall k :: 1 <= k < |names| ==> names[k] == names[1..][k - 1];
      if rest.Some? then Some(rest.value + 1) else None
  }

  function OrdinalOf(c: Context, v: Variant): Option<nat> {
    Ordinal(if v.experiment in c.payload then c.payload[v.experiment] else [], v.name)
  }

  /** ORDER BY payload.ord NULLS LAST, (lower(name) = 'control') DESC, variant_id. */
  predicate Precedes(c: Context, v: Variant, w: Variant) {
    var a, b := OrdinalOf(c, v), OrdinalOf(c, w);
    if a != b then a.Some? && (b.None? || a.value < b.value)
    else if (v.name in c.controlNames) != (w.name in c.controlNames) then v.name in c.controlNames
    else v.id <= w.id
  }

  /** DISTINCT ON (experiment_id): the first variant of its experiment in that order. */
  predicate Picked(c: Context, variants: seq<Variant>, i: nat)
    requires i < |variants|
  {
    forall j :: 0 <= j < |variants| && variants[j].experiment == variants[i].experiment ==>
      Precedes(c, variants[i], variants[j])
  }

  /** UPDATE ab_variants. */
  function WithControl(c: Context, variants: seq<Variant>): (rows: seq<Variant>)
    ensures |rows| == |variants|
  {
    seq(|variants|, i requires 0 <= i < |variants| =>
      if Picked(c, variants, i) then variants[i].(control := true) else variants[i])
  }

  lemma PrecedesIsTransitive(c: Context, u: Variant, v: Variant, w: Variant)
    requires Precedes(c, u, v) && Precedes(c, v, w)
    ensures Precedes(c, u, w)
  {
  }

  lemma {:induction false} FirstExists(c: Context, variants: seq<Variant>, n: nat, experiment: Id) returns (m: nat)
    requires n <= |variants| && exists i :: 0 <= i < n && variants[i].experiment == experiment
    ensures m < n && variants[m].experiment == experiment
    ensures forall j :: 0 <= j < n && variants[j].experiment == experiment ==> Precedes(c, variants[m], variants[j])
  {
    if exists i :: 0 <= i < n - 1 && variants[i].experiment == experiment {
      m := FirstExists(c, variants, n - 1, experiment);
      if variants[n - 1].experiment == experiment && !Precedes(c, variants[m], variants[n - 1]) {
        forall j | 0 <= j < n - 1 && variants[j].experiment == experiment
          ensures Precedes(c, variants[n - 1], variants[j])
        {
          PrecedesIsTransitive(c, variants[n - 1], variants[m], variants[j]);
        }
        m := n - 1;
      }
    } else {
      m := n - 1;
    }
  }

  /** Every experiment with a variant ends up with exactly one control, the first in the order. */
  lemma ExactlyOneControl(c: Context, variants: seq<Variant>, experiment: Id) returns (m: nat)
    requires UniqueIds(variants) && forall i :: 0 <= i < |variants| ==> !variants[i].control
    requires exists i :: 0 <= i < |variants| && variants[i].experiment == experiment
    ensures m < |variants| && variants[m].experiment == experiment && WithControl(c, variants)[m].control
    ensures forall j :: 0 <= j < |variants| && variants[j].experiment == experiment ==>
      Precedes(c, variants[m], variants[j]) && WithControl(c, variants)[j] == variants[j].(control := j == m)
  {
    m := FirstExists(c, variants, |variants|, experiment);
    assert Picked(c, variants, m);
    forall j | 0 <= j < |variants| && variants[j].experiment == experiment && WithControl(c, variants)[j].control
      ensures j == m
    {
      assert Picked(c, variants, j);
      assert Precedes(c, variants[j], variants[m]) && Precedes(c, variants[m], variants[j]);
    }
  }

  /** When the payload names a variant of the experiment, the control is the earliest one it names. */
  lemma ControlFollowsPayload(c: Context, variants: seq<Variant>, i: nat, j: nat)
    requires i < |variants| && j < |variants| && variants[i].experiment == variants[j].experiment
    requires Picked(c, variants, i) && OrdinalOf(c, variants[j]).Some?
    ensures OrdinalOf(c, variants[i]).Some? && OrdinalOf(c, variants[i]).value <= OrdinalOf(c, variants[j]).value
  {
    assert Precedes(c, variants[i], variants[j]);
  }

  /**
   * What comes before what, for the control i and any variant j of its experiment:
   * the payload names the control first; where it names neither, a variant called
   * control comes first, and the smaller id decides between equals.
   */
  lemma ControlComesFirst(c: Context, variants: seq<Variant>, i: nat, j: nat, names: seq<Name>)
    requires i < |variants| && j < |variants| && variants[i].experiment == variants[j].experiment
    requires WithControl(c, variants)[i].control && !variants[i].control
    requires names == if variants[i].experiment in c.payload then c.payload[variants[i].experiment] else []
    ensures forall k :: 0 <= k < |names| && names[k] == variants[j].name ==> variants[i].name in names[..k + 1]
    ensures variants[i].name !in names ==>
      || (variants[i].name in c.controlNames && variants[j].name !in c.controlNames)
      || ((variants[i].name in c.controlNames <==> variants[j].name in c.controlNames) && variants[i].id <= variants[j].id)
    ensures variants[i].name == variants[j].name ==> variants[i].id <= variants[j].id
  {
    assert Picked(c, variants, i);
    assert Precedes(c, variants[i], variants[j]);
    var a, b := Ordinal(names, variants[i].name), Ordinal(names, variants[j].name);
    forall k | 0 <= k < |names| && names[k] == variants[j].name ensures variants[i].name in names[..k + 1] {
      assert b.Some? && b.value <= k && a.Some? && a.value <= b.value;
      assert names[..k + 1][a.value] == variants[i].name;
    }
  }

  // ---- duplicate conversions -------------------------------------------------------------------

  datatype Event = Event(id: Id, assignment: Id, conversion: bool, at: int)

  ghost predicate UniqueEvents(events: seq<Event>) {
    forall i, j :: 0 <= i < j < |events| ==> events[i].id != events[j].id
  }

  /** ORDER BY event_at, event_id. */
  predicate NotLater(e: Event, f: Event) {
    e.at < f.at || (e.at == f.at && e.id <= f.id)
  }

  /** row_number() = 1, or not a conversion at all. */
  predicate Stays(events: seq<Event>, e: Event) {
    e.conversion ==> forall f <- events :: f.conversion && f.assignment == e.assignment ==> NotLater(e, f)
  }

  function Kept(events: seq<Event>, all: seq<Event>): seq<Event> {
    if events == [] then [] else (if Stays(all, events[0]) then [events[0]] else []) + Kept(events[1..], all)
  }

  /** DELETE FROM ab_events. */
  function Deduped(events: seq<Event>): seq<Event> {
    Kept(events, events)
  }

  lemma {:induction false} KeptMeans(events: seq<Event>, all: seq<Event>)
    ensures forall e :: e in Kept(events, all) <==> e in events && Stays(all, e)
    ensures UniqueEvents(events) ==> UniqueEvents(Kept(events, all))
  {
    if events != [] {
      KeptMeans(events[1..], all);
      if UniqueEvents(events) {
        forall e <- Kept(events[1..], all) ensures e.id != events[0].id {
          assert e in events[1..];
          var k :| 0 <= k < |events[1..]| && events[1..][k] == e;
          assert events[k + 1] == e;
        }
      }
    }
  }

  lemma {:induction false} EarliestConversion(events: seq<Event>, assignment: Id) returns (e: Event)
    requires exists f <- events :: f.conversion && f.assignment == assignment
    ensures e in events && e.conversion && e.assignment == assignment
    ensures forall f <- events :: f.conversion && f.assignment == assignment ==> NotLater(e, f)
  {
    var rest := events[1..];
    if exists f <- rest :: f.conversion && f.assignment == assignment {
      e := EarliestConversion(rest, assignment);
      if events[0].conversion && events[0].assignment == assignment && NotLater(events[0], e) {
        e := events[0];
      }
      assert events == [events[0]] + rest;
    } else {
      e := events[0];
      assert events == [events[0]] + rest;
    }
  }

  /** The earliest conversion of each assignment is left, alone; every other event is untouched. */
  lemma OneConversionLeft(events: seq<Event>, assignment: Id) returns (e: Event)
    requires UniqueEvents(events) && exists f <- events :: f.conversion && f.assignment == assignment
    ensures e in Deduped(events) && e.conversion && e.assignment == assignment
    ensures forall f <- events :: f.conversion && f.assignment == assignment ==>
      e.at < f.at || (e.at == f.at && e.id <= f.id)
    ensures forall f <- Deduped(events) :: f.conversion && f.assignment == assignment ==> f == e
    ensures forall f <- events :: !f.conversion ==> f in Deduped(events)
    ensures UniqueEvents(Deduped(events)) && forall f <- Deduped(events) :: f in events
  {
    e := EarliestConversion(events, assignment);
    KeptMeans(events, events);
    assert Stays(events, e);
    forall f <- Deduped(events) | f.conversion && f.assignment == assignment ensures f == e {
      assert Stays(events, f) && NotLater(f, e) && NotLater(e, f);
      SameIdSameEvent(events, e, f);
    }
  }

  lemma SameIdSameEvent(events: seq<Event>, e: Event, f: Event)
    requires UniqueEvents(events) && e in events && f in events && e.id == f.id
    ensures e == f
  {
    var i :| 0 <= i < |events| && events[i] == e;
    var j :| 0 <= j < |events| && events[j] == f;
  }
}
