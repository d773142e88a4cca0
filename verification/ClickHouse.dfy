/** The loader at work on a ClickHouse server whose calls may fail at any point. */
module ClickHouse {
  import opened Prelude
  import opened Validator
  import opened Loader

  type Path = nat

  datatype Reply = Inserted | ValueError | Unavailable

  /** No call from number `from` on, for n calls, meets an outage. */
  predicate Up(outage: map<nat, bool>, from: nat, n: nat) {
    forall c :: from <= c < from + n ==> c !in outage
  }

  class Server {
    const accepts: Row -> bool
    const zone: int
    /** The calls that raise a connection error, and whether they took effect first. */
    const outage: map<nat, bool>
    var target: seq<Row>
    var buffer: seq<Row>
    var calls: nat

    constructor (accepts: Row -> bool, zone: int, outage: map<nat, bool>, target: seq<Row>, buffer: seq<Row>)
      ensures this.accepts == accepts && this.zone == zone && this.outage == outage
      ensures this.target == target && this.buffer == buffer && calls == 0
    {
      this.accepts, this.zone, this.outage := accepts, zone, outage;
      this.target, this.buffer, calls := target, buffer, 0;
    }

    /** What has been inserted: in the table or still in the Buffer engine. */
    function Stored(): seq<Row>
      reads this
    {
      target + buffer
    }

    /** One INSERT of one block: all rows or none. */
    method InsertArrow(rows: seq<Row>) returns (reply: Reply)
      modifies this`buffer, this`calls
      ensures calls == old(calls) + 1
      ensures reply.Unavailable? <==> old(calls) in outage
      ensures !reply.Unavailable? ==> (reply.Inserted? <==> AllAccepted(rows, accepts))
      ensures reply.Inserted? ==> buffer == old(buffer) + rows
      ensures reply.ValueError? ==> buffer == old(buffer)
      ensures reply.Unavailable? ==>
        buffer == old(buffer) || (AllAccepted(rows, accepts) && buffer == old(buffer) + rows)
    {
      var call := calls;
      calls := calls + 1;
      var written := AllAccepted(rows, accepts) && (call in outage ==> outage[call]);
      if written {
        buffer := buffer + rows;
      }
      reply := if call in outage then Unavailable else if written then Inserted else ValueError;
    }

    /** OPTIMIZE TABLE transactions_buffer. */
    method Flush() returns (ok: bool)
      modifies this`target, this`buffer, this`calls
      ensures calls == old(calls) + 1
      ensures ok <==> old(calls) !in outage
      ensures ok ==> target == old(target) + old(buffer) && buffer == []
      ensures Stored() == old(Stored()) && old(target) <= target
    {
      ok := calls !in outage;
      if ok || outage[calls] {
        target, buffer := target + buffer, [];
      }
      calls := calls + 1;
    }

    /** The existence query for one chunk of ids, over the rows flushed to the table. */
    method QueryIds(lo: int, hi: int, ids: set<Id>) returns (answer: Option<set<Id>>)
      modifies this`calls
      ensures calls == old(calls) + 1
      ensures answer.Some? <==> old(calls) !in outage
      ensures answer.Some? ==>
        answer.value == set row | row in target && row.id in ids && InWindow(row, lo, hi, zone) :: row.id
    {
      answer := if calls in outage then None
                else Some(set row | row in target && row.id in ids && InWindow(row, lo, hi, zone) :: row.id);
      calls := calls + 1;
    }
  }

  function IdsOf(rows: seq<Row>): set<Id> {
    set r | r in rows :: r.id
  }

  /** pc.unique: each id once, in order of first appearance. */
  function UniqueIdList(rows: seq<Row>): (ids: seq<Id>)
    ensures forall id :: id in ids <==> id in IdsOf(rows)
    ensures forall j, k :: 0 <= j < k < |ids| ==> ids[j] != ids[k]
  {
    if rows == [] then [] else
      var earlier := UniqueIdList(rows[..|rows| - 1]);
      var last := rows[|rows| - 1];
      assert rows == rows[..|rows| - 1] + [last];
      if last.id in earlier then earlier else earlier + [last.id]
  }

  lemma {:induction false} DistinctIdsCount(ids: seq<Id>, all: set<Id>)
    requires forall j, k :: 0 <= j < k < |ids| ==> ids[j] != ids[k]
    requires forall id :: id in ids <==> id in all
    ensures |ids| == |all|
  {
    if ids == [] {
      assert all == {};
    } else {
      var last := ids[|ids| - 1];
      assert ids == ids[..|ids| - 1] + [last];
      DistinctIdsCount(ids[..|ids| - 1], all - {last});
    }
  }

  /** The stored ids among the first n of a list, within the window. */
  function StoredAmong(target: seq<Row>, ids: seq<Id>, lo: int, hi: int, zone: int): set<Id> {
    set row | row in target && row.id in ids && InWindow(row, lo, hi, zone) :: row.id
  }

  lemma StoredAmongGrows(target: seq<Row>, ids: seq<Id>, i: nat, next: nat, lo: int, hi: int, zone: int)
    requires i <= next <= |ids|
    ensures StoredAmong(target, ids[..next], lo, hi, zone) == StoredAmong(target, ids[..i], lo, hi, zone)
         + set row | row in target && row.id in (set id | id in ids[i..next]) && InWindow(row, lo, hi, zone) :: row.id
    ensures next == |ids| ==> ids[..next] == ids
  {
    assert ids[..next] == ids[..i] + ids[i..next];
  }

  lemma StoredAmongIsExisting(target: seq<Row>, rows: seq<Row>, zone: int)
    requires rows != []
    ensures StoredAmong(target, UniqueIdList(rows), Day(MinAt(rows) - DAY), Day(MaxAt(rows) + DAY), zone)
         == ExistingIds(target, rows, zone)
  {
    forall row <- target
      ensures (row.id in UniqueIdList(rows)) <==> exists r <- rows :: r.id == row.id
    {
    }
  }

  // ---- what _insert does -----------------------------------------------------------------------

  /** Calls made and rows counted. */
  predicate Bisected(rows: seq<Row>, accepts: Row -> bool, outage: map<nat, bool>, from: nat, to: nat,
                     count: Option<nat>)
    requires rows != []
  {
    && from <= to && (count.Some? <==> Up(outage, from, to - from))
    && (count.Some? <==> Up(outage, from, Calls(rows, accepts)))
    && (count.Some? ==> count.value == |Good(rows, accepts)| && to == from + Calls(rows, accepts))
  }

  /** Rows written and rows set aside, both in order. */
  predicate Written(rows: seq<Row>, accepts: Row -> bool, before: seq<Row>, after: seq<Row>,
                    rejected: seq<Row>, rejected': seq<Row>, count: Option<nat>)
  {
    && before <= after <= before + Good(rows, accepts)
    && (count.Some? ==> after == before + Good(rows, accepts) && rejected' == rejected + Bad(rows, accepts))
  }

  lemma WholeBlock(rows: seq<Row>, accepts: Row -> bool)
    requires AllAccepted(rows, accepts)
    ensures Good(rows, accepts) == rows && Bad(rows, accepts) == []
  {
    GoodOfNone(rows, Refuses(accepts));
    GoodAndBad(rows, accepts);
  }

  lemma SingleBadRow(rows: seq<Row>, accepts: Row -> bool)
    requires |rows| == 1 && !accepts(rows[0])
    ensures Good(rows, accepts) == [] && Bad(rows, accepts) == [rows[0]]
  {
    assert Good(rows[1..], Refuses(accepts)) == [];
  }

  /** The first insert of _insert, when it decides. */
  lemma BlockIsInsert(rows: seq<Row>, accepts: Row -> bool, outage: map<nat, bool>, call: nat, reply: Reply,
                      before: seq<Row>, after: seq<Row>, rejected: seq<Row>)
    requires rows != []
    requires reply.Unavailable? <==> call in outage
    requires !reply.Unavailable? ==> (reply.Inserted? <==> AllAccepted(rows, accepts))
    requires reply.Inserted? ==> after == before + rows
    requires reply.Unavailable? ==> after == before || (AllAccepted(rows, accepts) && after == before + rows)
    requires reply.ValueError? ==> after == before
    ensures reply.Inserted? ==>
      Bisected(rows, accepts, outage, call, call + 1, Some(|rows|)) && Written(rows, accepts, before, after, rejected, rejected, Some(|rows|))
    ensures reply.Unavailable? ==>
      Bisected(rows, accepts, outage, call, call + 1, None) && Written(rows, accepts, before, after, rejected, rejected, None)
    ensures reply.ValueError? && |rows| == 1 ==>
      && Bisected(rows, accepts, outage, call, call + 1, Some(0))
      && Written(rows, accepts, before, after, rejected, rejected + [rows[0]], Some(0))
  {
    if AllAccepted(rows, accepts) {
      WholeBlock(rows, accepts);
    } else if |rows| == 1 {
      SingleBadRow(rows, accepts);
    }
  }

  lemma Halves(rows: seq<Row>, accepts: Row -> bool)
    requires |rows| > 1 && !AllAccepted(rows, accepts)
    ensures var left, right := rows[..|rows| / 2], rows[|rows| / 2..];
      && Good(rows, accepts) == Good(left, accepts) + Good(right, accepts)
      && Bad(rows, accepts) == Bad(left, accepts) + Bad(right, accepts)
      && Calls(rows, accepts) == 1 + Calls(left, accepts) + Calls(right, accepts)
  {
    var left, right := rows[..|rows| / 2], rows[|rows| / 2..];
    assert rows == left + right;
    GoodOfSplit(left, right, accepts);
    GoodOfSplit(left, right, Refuses(accepts));
  }

  lemma FirstHalfFails(rows: seq<Row>, accepts: Row -> bool, outage: map<nat, bool>, from: nat, to: nat,
                       before: seq<Row>, after: seq<Row>, rejected: seq<Row>, rejected': seq<Row>)
    requires |rows| > 1 && !AllAccepted(rows, accepts)
    requires Bisected(rows[..|rows| / 2], accepts, outage, from + 1, to, None)
    requires Written(rows[..|rows| / 2], accepts, before, after, rejected, rejected', None)
    ensures Bisected(rows, accepts, outage, from, to, None)
    ensures Written(rows, accepts, before, after, rejected, rejected', None)
  {
    Halves(rows, accepts);
    var a, b := Good(rows[..|rows| / 2], accepts), Good(rows[|rows| / 2..], accepts);
    assert before + (a + b) == (before + a) + b;
  }

  lemma UpSplits(outage: map<nat, bool>, from: nat, m: nat, n: nat)
    ensures Up(outage, from, 1 + m + n) <==>
      from !in outage && Up(outage, from + 1, m) && Up(outage, from + 1 + m, n)
  {
  }

  lemma HalvesCount(rows: seq<Row>, accepts: Row -> bool, outage: map<nat, bool>, from: nat, middle: nat, to: nat,
                    first: Option<nat>, second: Option<nat>)
    requires |rows| > 1 && !AllAccepted(rows, accepts) && from !in outage && first.Some?
    requires Bisected(rows[..|rows| / 2], accepts, outage, from + 1, middle, first)
    requires Bisected(rows[|rows| / 2..], accepts, outage, middle, to, second)
    ensures Bisected(rows, accepts, outage, from, to,
                     if second.None? then None else Some(first.value + second.value))
  {
    Halves(rows, accepts);
    UpSplits(outage, from, Calls(rows[..|rows| / 2], accepts), Calls(rows[|rows| / 2..], accepts));
  }

  lemma HalvesWrite(rows: seq<Row>, accepts: Row -> bool, before: seq<Row>, middle: seq<Row>, after: seq<Row>,
                    r0: seq<Row>, r1: seq<Row>, r2: seq<Row>, first: Option<nat>, second: Option<nat>)
    requires |rows| > 1 && !AllAccepted(rows, accepts) && first.Some?
    requires Written(rows[..|rows| / 2], accepts, before, middle, r0, r1, first)
    requires Written(rows[|rows| / 2..], accepts, middle, after, r1, r2, second)
    ensures Written(rows, accepts, before, after, r0, r2,
                    if second.None? then None else Some(first.value + second.value))
  {
    Halves(rows, accepts);
    var a, b := Good(rows[..|rows| / 2], accepts), Good(rows[|rows| / 2..], accepts);
    assert before + (a + b) == (before + a) + b;
    assert r0 + (Bad(rows[..|rows| / 2], accepts) + Bad(rows[|rows| / 2..], accepts)) == r1 + Bad(rows[|rows| / 2..], accepts) || second.None?;
  }

  class ClickHouseLoader {
    const ID_CHUNK: nat := 1000
    const db: Server
    var quarantinedRows: nat
    var quarantine: map<Path, seq<Row>>

    constructor (db: Server, files: map<Path, seq<Row>>)
      ensures this.db == db && quarantinedRows == 0 && quarantine == files
    {
      this.db, quarantinedRows, quarantine := db, 0, files;
    }

    /** The loop of _existing_ids: one query for every thousand ids. */
    method QueryInChunks(ids: seq<Id>, lo: int, hi: int) returns (found: Option<set<Id>>)
      modifies db`calls
      ensures old(db.calls) <= db.calls
      ensures found.Some? <==> Up(db.outage, old(db.calls), db.calls - old(db.calls))
      ensures found.Some? ==> found.value == StoredAmong(db.target, ids, lo, hi, db.zone)
      ensures found.Some? ==> |ids| <= 1000 * (db.calls - old(db.calls)) < |ids| + 1000
    {
      var all: set<Id> := {};
      var i := 0;
      while i < |ids|
        invariant 0 <= i && old(db.calls) <= db.calls && Up(db.outage, old(db.calls), db.calls - old(db.calls))
        invariant i == 1000 * (db.calls - old(db.calls)) && i < |ids| + 1000
        invariant i < |ids| ==> all == StoredAmong(db.target, ids[..i], lo, hi, db.zone)
        invariant |ids| <= i ==> all == StoredAmong(db.target, ids, lo, hi, db.zone)
      {
        var next := Min(i + ID_CHUNK, |ids|);
        var answer := db.QueryIds(lo, hi, set id | id in ids[i..next]);
        if answer.None? {
          return None;
        }
        all := all + answer.value;
        StoredAmongGrows(db.target, ids, i, next, lo, hi, db.zone);
        i := i + ID_CHUNK;
      }
      found := Some(all);
    }

    /** _existing_ids: the query in chunks of ids. */
    method ExistingIdsOf(rows: seq<Row>) returns (existing: Option<set<Id>>)
      requires rows != []
      modifies db`calls
      ensures existing.Some? ==> existing.value == ExistingIds(db.target, rows, db.zone)
      ensures old(db.calls) <= db.calls
      ensures existing.Some? <==> Up(db.outage, old(db.calls), db.calls - old(db.calls))
      // As many queries as it takes for a thousand different ids of the file each.
      ensures existing.Some? ==> |IdsOf(rows)| <= 1000 * (db.calls - old(db.calls)) < |IdsOf(rows)| + 1000
    {
      var ids := UniqueIdList(rows);
      existing := QueryInChunks(ids, Day(MinAt(rows) - DAY), Day(MaxAt(rows) + DAY));
      StoredAmongIsExisting(db.target, rows, db.zone);
      DistinctIdsCount(ids, IdsOf(rows));
    }

    /**
     * _insert.  None is an exception that is not about a value: it may strike in
     * any call, and then a prefix of the good rows has been written.
     */
    method InsertBisecting(rows: seq<Row>, rejected: seq<Row>) returns (count: Option<nat>, rejected': seq<Row>)
      requires rows != []
      modifies db`buffer, db`calls
      ensures Bisected(rows, db.accepts, db.outage, old(db.calls), db.calls, count)
      ensures Written(rows, db.accepts, old(db.buffer), db.buffer, rejected, rejected', count)
      decreases |rows|
    {
      var reply := db.InsertArrow(rows);
      BlockIsInsert(rows, db.accepts, db.outage, old(db.calls), reply, old(db.buffer), db.buffer, rejected);
      if reply.Inserted? {
        return Some(|rows|), rejected;
      }
      if reply.Unavailable? {
        return None, rejected;
      }
      if |rows| == 1 {
        return Some(0), rejected + [rows[0]];
      }
      var half := |rows| / 2;
      var first, middle := InsertBisecting(rows[..half], rejected);
      ghost var c, b := db.calls, db.buffer;
      if first.None? {
        FirstHalfFails(rows, db.accepts, db.outage, old(db.calls), c, old(db.buffer), b, rejected, middle);
        return None, middle;
      }
      var second;
      second, rejected' := InsertBisecting(rows[half..], middle);
      count := if second.None? then None else Some(first.value + second.value);
      HalvesCount(rows, db.accepts, db.outage, old(db.calls), c, db.calls, first, second);
      HalvesWrite(rows, db.accepts, old(db.buffer), b, db.buffer, rejected, middle, rejected', first, second);
    }

    /** The part of load_parquet that writes: insert, flush, set the rejected rows aside. */
    method InsertNovel(path: Path, novel: seq<Row>) returns (loaded: Option<nat>)
      requires novel != [] && db.buffer == []
      modifies this`quarantinedRows, this`quarantine
      modifies db`target, db`buffer, db`calls
      ensures old(db.target) <= db.target && old(db.calls) <= db.calls
      ensures loaded.Some? <==> Up(db.outage, old(db.calls), db.calls - old(db.calls))
      ensures old(db.target) <= db.Stored() <= old(db.target) + Good(novel, db.accepts)
      ensures loaded.Some? ==>
        && loaded.value == |Good(novel, db.accepts)|
        && db.target == old(db.target) + Good(novel, db.accepts) && db.buffer == []
        && quarantinedRows == old(quarantinedRows) + |Bad(novel, db.accepts)|
        && quarantine == if Bad(novel, db.accepts) == [] then old(quarantine)
                         else old(quarantine)[path := Bad(novel, db.accepts)]
      ensures loaded.None? ==> quarantine == old(quarantine) && quarantinedRows == old(quarantinedRows)
    {
      var count, rejected := InsertBisecting(novel, []);
      assert db.buffer <= Good(novel, db.accepts);
      if count.None? {
        return None;
      }
      var flushed := db.Flush();
      if !flushed {
        return None;
      }
      assert rejected == Bad(novel, db.accepts);
      if rejected != [] {
        quarantine := quarantine[path := rejected];
        quarantinedRows := quarantinedRows + |rejected|;
      }
      loaded := count;
    }

    /**
     * load_parquet on a file whose rows have been read and projected.  A load
     * that raises may have added a prefix of the rows it should add.
     */
    method LoadParquet(path: Path, rows: seq<Row>) returns (loaded: Option<nat>)
      modifies this`quarantinedRows, this`quarantine
      modifies db`target, db`buffer, db`calls
      ensures old(db.target) <= db.target && old(db.calls) <= db.calls
      ensures loaded.Some? <==> Up(db.outage, old(db.calls), db.calls - old(db.calls))
      ensures rows == [] ==> loaded == Some(0) && db.Stored() == old(db.Stored()) && quarantine == old(quarantine)
      ensures rows != [] ==>
        var novel := Fresh(old(db.Stored()), rows, db.zone);
        && old(db.Stored()) <= db.Stored() <= old(db.Stored()) + Good(novel, db.accepts)
        && (loaded.Some? ==>
              && loaded.value == |Good(novel, db.accepts)|
              && db.target == old(db.Stored()) + Good(novel, db.accepts) && db.buffer == []
              && quarantinedRows == old(quarantinedRows) + |Bad(novel, db.accepts)|
              && quarantine == if Bad(novel, db.accepts) == [] then old(quarantine)
                               else old(quarantine)[path := Bad(novel, db.accepts)])
      ensures loaded.None? ==> quarantine == old(quarantine) && quarantinedRows == old(quarantinedRows)
    {
      if rows == [] {
        return Some(0);
      }
      var flushed := db.Flush();
      if !flushed {
        return None;
      }
      assert db.target == old(db.Stored()) && db.Stored() == db.target;
      var existing := ExistingIdsOf(rows);
      if existing.None? {
        return None;
      }
      var novel := Without(rows, existing.value);
      if novel == [] {
        return Some(0);
      }
      loaded := InsertNovel(path, novel);
    }
  }
}
