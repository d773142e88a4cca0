/**
 * ClickHouseLoader: the existence query, the insert that bisects around rows the
 * server cannot parse, and the load of one staged file.
 */
module Loader {
  import opened Prelude
  import opened Validator

  /** A cleansed record; `body` stands for the columns the loader does not look at. */
  datatype Row = Row(id: Id, at: int, body: Record)

  const DAY := 86400

  function Day(t: int): int { t / DAY }

  // ---- what a load should do ---------------------------------------------------------------

  /** The rows the server accepts, in order. */
  function Good(rows: seq<Row>, accepts: Row -> bool): seq<Row> {
    if rows == [] then [] else (if accepts(rows[0]) then [rows[0]] else []) + Good(rows[1..], accepts)
  }

  function Refuses(accepts: Row -> bool): Row -> bool {
    (r: Row) => !accepts(r)
  }

  function Bad(rows: seq<Row>, accepts: Row -> bool): seq<Row> {
    Good(rows, Refuses(accepts))
  }

  lemma {:induction false} GoodOfSplit(a: seq<Row>, b: seq<Row>, accepts: Row -> bool)
    ensures Good(a + b, accepts) == Good(a, accepts) + Good(b, accepts)
  {
    if a == [] {
      assert a + b == b;
    } else {
      var head := if accepts(a[0]) then [a[0]] else [];
      assert (a + b)[1..] == a[1..] + b;
      GoodOfSplit(a[1..], b, accepts);
      assert head + (Good(a[1..], accepts) + Good(b, accepts)) == (head + Good(a[1..], accepts)) + Good(b, accepts);
    }
  }

  lemma {:induction false} GoodMeans(rows: seq<Row>, accepts: Row -> bool)
    ensures forall r :: r in Good(rows, accepts) <==> r in rows && accepts(r)
  {
    if rows != [] {
      GoodMeans(rows[1..], accepts);
      assert rows == [rows[0]] + rows[1..];
    }
  }

  lemma {:induction false} GoodAndBad(rows: seq<Row>, accepts: Row -> bool)
    ensures |Good(rows, accepts)| + |Bad(rows, accepts)| == |rows|
    ensures |Bad(rows, accepts)| == 0 ==> Good(rows, accepts) == rows
  {
    if rows != [] {
      GoodAndBad(rows[1..], accepts);
      assert Bad(rows, accepts) == (if accepts(rows[0]) then [] else [rows[0]]) + Bad(rows[1..], accepts);
    }
  }

  lemma {:induction false} GoodOfNone(rows: seq<Row>, accepts: Row -> bool)
    requires forall r <- rows :: !accepts(r)
    ensures Good(rows, accepts) == []
  {
    if rows != [] {
      GoodOfNone(rows[1..], accepts);
    }
  }

  predicate AllAccepted(rows: seq<Row>, accepts: Row -> bool) {
    forall r <- rows :: accepts(r)
  }

  /** The number of insert calls bisection makes when the server stays up. */
  function Calls(rows: seq<Row>, accepts: Row -> bool): (n: nat)
    requires rows != []
    ensures n >= 1
  {
    if AllAccepted(rows, accepts) || |rows| == 1 then 1
    else 1 + Calls(rows[..|rows| / 2], accepts) + Calls(rows[|rows| / 2..], accepts)
  }

  function CeilLog2(n: nat): (k: nat)
    requires n >= 1
    ensures n > 1 ==> k >= 1
  {
    if n == 1 then 0 else 1 + CeilLog2((n + 1) / 2)
  }

  function Power2(k: nat): nat {
    if k == 0 then 1 else 2 * Power2(k - 1)
  }

  /** CeilLog2 is the least k with n <= 2^k. */
  lemma {:induction false} CeilLog2IsLeast(n: nat)
    requires n >= 1
    ensures n <= Power2(CeilLog2(n))
    ensures n > 1 ==> Power2(CeilLog2(n) - 1) < n
  {
    if n > 1 {
      CeilLog2IsLeast((n + 1) / 2);
    }
  }

  lemma {:induction false} CeilLog2Monotone(m: nat, n: nat)
    requires 1 <= m <= n
    ensures CeilLog2(m) <= CeilLog2(n)
  {
    if m > 1 {
      CeilLog2Monotone((m + 1) / 2, (n + 1) / 2);
    }
  }

  lemma HalfIsCheaper(b: nat, small: nat, large: nat)
    requires small <= large
    ensures 2 * b * small <= 2 * b * large
  {
  }

  lemma Distribute(a: nat, b: nat, k: nat)
    ensures 2 * (a + b) * (k + 1) == 2 * a * k + 2 * b * k + 2 * (a + b)
  {
  }

  /** Two halves with a and b bad rows, at least one of them bad. */
  lemma HalvesCost(left: nat, right: nat, a: nat, b: nat, small: nat, k: nat)
    requires left <= 1 + 2 * a * small && right <= 1 + 2 * b * k && small <= k && a + b >= 1
    ensures 1 + left + right <= 1 + 2 * (a + b) * (k + 1)
  {
    HalfIsCheaper(a, small, k);
    Distribute(a, b, k);
  }

  lemma SomeBad(rows: seq<Row>, accepts: Row -> bool)
    requires !AllAccepted(rows, accepts)
    ensures |Bad(rows, accepts)| >= 1
  {
    GoodMeans(rows, Refuses(accepts));
    var r :| r in rows && !accepts(r);
    assert r in Bad(rows, accepts);
  }

  /** b bad rows among n cost at most 1 + 2 b ceil(log2 n) insert calls. */
  lemma {:induction false} BisectionIsLogarithmic(rows: seq<Row>, accepts: Row -> bool)
    requires rows != []
    ensures Calls(rows, accepts) <= 1 + 2 * |Bad(rows, accepts)| * CeilLog2(|rows|)
    decreases |rows|
  {
    var n := |rows|;
    if !AllAccepted(rows, accepts) && n > 1 {
      var left, right := rows[..n / 2], rows[n / 2..];
      assert rows == left + right;
      GoodOfSplit(left, right, Refuses(accepts));
      BisectionIsLogarithmic(left, accepts);
      BisectionIsLogarithmic(right, accepts);
      CeilLog2Monotone(n / 2, (n + 1) / 2);
      assert |right| == (n + 1) / 2;
      SomeBad(rows, accepts);
      HalvesCost(Calls(left, accepts), Calls(right, accepts), |Bad(left, accepts)|, |Bad(right, accepts)|,
                 CeilLog2(n / 2), CeilLog2((n + 1) / 2));
    }
  }

  /** The bound is reached: one bad row in a block of 2^k rows costs 1 + 2k calls. */
  lemma {:induction false} OneBadRowCosts(rows: seq<Row>, accepts: Row -> bool, k: nat, i: nat)
    requires |rows| == Power2(k) && i < |rows|
    requires forall j :: 0 <= j < |rows| ==> (accepts(rows[j]) <==> j != i)
    ensures Calls(rows, accepts) == 1 + 2 * k
  {
    assert !accepts(rows[i]);
    if k > 0 {
      var h := |rows| / 2;
      if i < h {
        OneBadRowCosts(rows[..h], accepts, k - 1, i);
      } else {
        OneBadRowCosts(rows[h..], accepts, k - 1, i - h);
      }
    }
  }

  // ---- idempotence -----------------------------------------------------------------------------

  predicate InWindow(row: Row, lo: int, hi: int, zone: int) {
    lo <= Day(row.at + zone) <= hi
  }

  function MinAt(rows: seq<Row>): (m: int)
    requires rows != []
    ensures forall r <- rows :: m <= r.at
  {
    if |rows| == 1 then rows[0].at else Min(rows[0].at, MinAt(rows[1..]))
  }

  function MaxAt(rows: seq<Row>): (m: int)
    requires rows != []
    ensures forall r <- rows :: r.at <= m
  {
    if |rows| == 1 then rows[0].at else Max(rows[0].at, MaxAt(rows[1..]))
  }

  lemma {:induction false} BoundsAreAttained(rows: seq<Row>)
    requires rows != []
    ensures (exists r <- rows :: r.at == MinAt(rows)) && exists r <- rows :: r.at == MaxAt(rows)
  {
    if |rows| > 1 {
      BoundsAreAttained(rows[1..]);
      assert rows == [rows[0]] + rows[1..];
    }
    assert rows[0] in rows;
  }

  /** A stored row that the existence query for these rows finds; dates are compared in the server's zone. */
  predicate Found(stored: Row, rows: seq<Row>, zone: int)
    requires rows != []
  {
    && (exists r <- rows :: r.id == stored.id)
    && InWindow(stored, Day(MinAt(rows) - DAY), Day(MaxAt(rows) + DAY), zone)
  }

  function ExistingIds(target: seq<Row>, rows: seq<Row>, zone: int): set<Id>
    requires rows != []
  {
    set row | row in target && Found(row, rows, zone) :: row.id
  }

  function NotIn(ids: set<Id>): Row -> bool {
    (r: Row) => r.id !in ids
  }

  function Without(rows: seq<Row>, ids: set<Id>): seq<Row> {
    Good(rows, NotIn(ids))
  }

  /** The rows of a file that a load still has to insert. */
  function Fresh(stored: seq<Row>, rows: seq<Row>, zone: int): seq<Row>
    requires rows != []
  {
    Without(rows, ExistingIds(stored, rows, zone))
  }

  predicate SaneZone(zone: int) {
    -DAY <= zone <= DAY
  }

  /** Dates are days of 86400 seconds, rounded down also before 1970. */
  lemma DayIsADay(t: int)
    ensures Day(t) * 86_400 <= t < Day(t) * 86_400 + 86_400
  {
  }

  /**
   * The ids the query returns are those of stored rows whose date, in the server's
   * zone, lies from the day before the first date of the file to the day after
   * the last.
   */
  lemma ExistingMeans(target: seq<Row>, rows: seq<Row>, zone: int, id: Id, first: Row, last: Row)
    requires first in rows && last in rows && forall r <- rows :: first.at <= r.at <= last.at
    ensures id in ExistingIds(target, rows, zone) <==>
      && (exists r <- rows :: r.id == id)
      && exists t <- target :: t.id == id
           && (first.at - 86_400) / 86_400 <= (t.at + zone) / 86_400 <= (last.at + 86_400) / 86_400
  {
    BoundsAreAttained(rows);
    assert MinAt(rows) == first.at && MaxAt(rows) == last.at;
    if t :| t in target && t.id == id
            && (first.at - 86_400) / 86_400 <= (t.at + zone) / 86_400 <= (last.at + 86_400) / 86_400 {
      assert InWindow(t, Day(MinAt(rows) - DAY), Day(MaxAt(rows) + DAY), zone);
      if exists r <- rows :: r.id == id {
        assert Found(t, rows, zone);
      }
    }
  }

  /**
   * What a complete load stores: exactly the rows that the server accepts and
   * whose id the query does not return, in the order of the file.
   */
  lemma LoadedMeans(stored: seq<Row>, rows: seq<Row>, accepts: Row -> bool, zone: int, r: Row)
    requires rows != []
    ensures r in Good(Fresh(stored, rows, zone), accepts) <==>
      r in rows && accepts(r) && r.id !in ExistingIds(stored, rows, zone)
    ensures r in Bad(Fresh(stored, rows, zone), accepts) <==>
      r in rows && !accepts(r) && r.id !in ExistingIds(stored, rows, zone)
  {
    GoodMeans(rows, NotIn(ExistingIds(stored, rows, zone)));
    GoodMeans(Fresh(stored, rows, zone), accepts);
    GoodMeans(Fresh(stored, rows, zone), Refuses(accepts));
  }

  /** Filtering keeps the order and the number of what it keeps. */
  lemma GoodKeepsOrder(rows: seq<Row>, r: Row, accepts: Row -> bool)
    ensures Good(rows + [r], accepts) == Good(rows, accepts) + if accepts(r) then [r] else []
  {
    GoodOfSplit(rows, [r], accepts);
    assert Good([r], accepts) == if accepts(r) then [r] else [];
  }

  /** One day of slack covers every server time zone: a copy with the same date is found. */
  lemma CopiesAreFound(stored: Row, copy: Row, rows: seq<Row>, zone: int)
    requires SaneZone(zone) && rows != [] && copy in rows
    requires stored.id == copy.id && stored.at == copy.at
    ensures Found(stored, rows, zone)
  {
  }

  predicate SameEvent(a: Row, b: Row) {
    a.id == b.id && a.at == b.at
  }

  /** No event (id and date) is in the sequence twice. */
  predicate NoCopies(rows: seq<Row>) {
    forall j, k :: 0 <= j < k < |rows| ==> !SameEvent(rows[j], rows[k])
  }

  predicate UniqueIds(rows: seq<Row>) {
    forall j, k :: 0 <= j < k < |rows| ==> rows[j].id != rows[k].id
  }

  lemma {:induction false} GoodKeepsUniqueIds(rows: seq<Row>, accepts: Row -> bool)
    requires UniqueIds(rows)
    ensures UniqueIds(Good(rows, accepts))
  {
    if rows != [] {
      GoodKeepsUniqueIds(rows[1..], accepts);
      GoodMeans(rows[1..], accepts);
      forall r <- Good(rows[1..], accepts) ensures r.id != rows[0].id {
        var k :| 0 <= k < |rows[1..]| && rows[1..][k] == r;
        assert rows[k + 1] == r;
      }
    }
  }

  /**
   * However much of a load is carried out, no event is stored twice: `added` is
   * any prefix of the acceptable rows that were not stored yet.
   */
  lemma LoadKeepsNoCopies(stored: seq<Row>, rows: seq<Row>, accepts: Row -> bool, zone: int, added: seq<Row>)
    requires SaneZone(zone) && rows != [] && UniqueIds(rows) && NoCopies(stored)
    requires added <= Good(Fresh(stored, rows, zone), accepts)
    ensures NoCopies(stored + added)
  {
    var ids := ExistingIds(stored, rows, zone);
    var novel := Fresh(stored, rows, zone);
    GoodKeepsUniqueIds(rows, NotIn(ids));
    GoodKeepsUniqueIds(novel, accepts);
    forall a <- stored, b <- added ensures !SameEvent(a, b) {
      assert b in Good(novel, accepts);
      GoodMeans(novel, accepts);
      GoodMeans(rows, NotIn(ids));
      if SameEvent(a, b) {
        CopiesAreFound(a, b, rows, zone);
      }
    }
  }

  predicate HasId(stored: seq<Row>, id: Id) {
    exists t <- stored :: t.id == id
  }

  /** The existence query would find the id of this row. */
  predicate IdInWindow(stored: seq<Row>, rows: seq<Row>, r: Row, zone: int)
    requires rows != []
  {
    exists t <- stored :: t.id == r.id && InWindow(t, Day(MinAt(rows) - DAY), Day(MaxAt(rows) + DAY), zone)
  }

  /**
   * A load adds no id that is already stored exactly when each acceptable row
   * whose id is stored has a stored row of that id within the file's window of
   * days: the existence query asks for ids within the window only.
   */
  lemma LoadAddsNoStoredIdIff(stored: seq<Row>, rows: seq<Row>, accepts: Row -> bool, zone: int)
    requires rows != []
    ensures (forall r <- Good(Fresh(stored, rows, zone), accepts) :: !HasId(stored, r.id))
       <==> (forall r <- rows :: accepts(r) && HasId(stored, r.id) ==> IdInWindow(stored, rows, r, zone))
  {
    var ids := ExistingIds(stored, rows, zone);
    GoodMeans(rows, NotIn(ids));
    GoodMeans(Without(rows, ids), accepts);
    forall r <- rows ensures r.id in ids <==> IdInWindow(stored, rows, r, zone) {
    }
  }

  /** One redated copy is loaded again exactly when the stored day lies outside the file's window of days. */
  lemma RedatedCopyIsLoadedAgainIff(early: Row, late: Row, zone: int)
    requires early.id == late.id
    ensures Fresh([early], [late], zone) == [late] <==>
      !(Day(late.at - DAY) <= Day(early.at + zone) <= Day(late.at + DAY))
    ensures Fresh([early], [late], zone) == [late] || Fresh([early], [late], zone) == []
  {
    var ids := ExistingIds([early], [late], zone);
    assert Found(early, [late], zone) <==> late.id in ids;
    assert Good([late][1..], NotIn(ids)) == [];
  }

  /** A copy with another date can escape the query, and is then stored a second time. */
  lemma RedatedCopyIsLoadedAgain(id: Id, body: Record)
    ensures var early, late := Row(id, 0, body), Row(id, 10 * DAY, body);
      Fresh([early], [late], 0) == [late]
  {
    var late := Row(id, 10 * DAY, body);
    assert [late][1..] == [];
    assert ExistingIds([Row(id, 0, body)], [late], 0) == {};
    assert Good([late][1..], NotIn({})) == [];
  }

  /** After a complete load the existence query finds every acceptable row of the file. */
  lemma LoadedIdsExist(stored: seq<Row>, rows: seq<Row>, accepts: Row -> bool, zone: int, r: Row)
    requires SaneZone(zone) && r in rows && accepts(r)
    ensures r.id in ExistingIds(stored + Good(Fresh(stored, rows, zone), accepts), rows, zone)
  {
    var ids, novel := ExistingIds(stored, rows, zone), Fresh(stored, rows, zone);
    var after := stored + Good(novel, accepts);
    if r.id in ids {
      var row :| row in stored && Found(row, rows, zone) && row.id == r.id;
      assert row in after;
    } else {
      GoodMeans(rows, NotIn(ids));
      GoodMeans(novel, accepts);
      assert r in after;
      CopiesAreFound(r, r, rows, zone);
    }
  }

  /** Loading a file again after a complete load adds nothing: only rejected rows are tried. */
  lemma SecondLoadAddsNothing(stored: seq<Row>, rows: seq<Row>, accepts: Row -> bool, zone: int)
    requires SaneZone(zone) && rows != []
    ensures var after := stored + Good(Fresh(stored, rows, zone), accepts);
      Good(Fresh(after, rows, zone), accepts) == []
  {
    var after := stored + Good(Fresh(stored, rows, zone), accepts);
    var again := Fresh(after, rows, zone);
    GoodMeans(rows, NotIn(ExistingIds(after, rows, zone)));
    forall r <- again ensures !accepts(r) {
      if accepts(r) {
        LoadedIdsExist(stored, rows, accepts, zone, r);
      }
    }
    GoodOfNone(again, accepts);
  }
}
