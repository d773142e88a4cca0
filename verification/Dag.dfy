/**
 * The tasks of cashback_daily_etl as code.  Each works on the state of
 * Pipeline through the validator and the loader; every state it passes through
 * is reached by steps of that machine, so its laws hold of the tasks.
 */
module Dag {
  import opened Prelude
  import opened Validator
  import opened Loader
  import opened Extract
  import opened Pipeline
  import opened PipelineLaws
  import CH = ClickHouse

  /** A set of states that no step of the machine leaves. */
  ghost predicate Closed(reached: iset<State>) {
    forall s, a :: s in reached && Enabled(s, a) ==> Do(s, a) in reached
  }

  lemma StepStays(reached: iset<State>, s: State, a: Action, s': State)
    requires Closed(reached) && s in reached && Enabled(s, a) && s' == Do(s, a)
    ensures s' in reached
  {
  }

  /** What one file met in validation: clock readings and the recent ids, if the query answered. */
  datatype Reading = Reading(clock: seq<int>, answer: Option<set<Id>>)

  function Fetched(answer: Option<set<Id>>): set<Id> {
    if answer.Some? then answer.value else {}
  }

  /** The readings fit the staged files. */
  predicate Fits(files: seq<seq<Record>>, readings: seq<Reading>) {
    |readings| == |files| && forall k :: 0 <= k < |files| ==> |readings[k].clock| == |files[k]|
  }

  function BatchAt(files: seq<seq<Record>>, readings: seq<Reading>, registry: Registry, k: nat): (b: Batch)
    requires Fits(files, readings) && k < |files|
    ensures Timed(b)
  {
    Batch(files[k], readings[k].clock, registry, Fetched(readings[k].answer))
  }

  /** The two files that validation leaves for a staged file, and its place among the paths to load. */
  predicate SplitInTwo(r: Run, k: nat, b: Batch)
    requires Timed(b) && (r.stage.Validating? || r.stage.Loading?)
  {
    var valid, errors := ValidOf(b, |b.records|), RecordsOf(ErrorsOf(b, |b.records|));
    && (errors != [] ==> k in r.rejected && r.rejected[k] == errors)
    && (valid != [] ==> k in r.clean && r.clean[k] == Cleansed(valid))
    && (k in r.stage.paths <==> valid != [])
  }

  /** The first n files are split, and the paths are of these files. */
  predicate SplitUpTo(r: Run, readings: seq<Reading>, registry: Registry, n: nat)
    requires Fits(r.manifest.files, readings) && n <= |readings| && (r.stage.Validating? || r.stage.Loading?)
  {
    && (forall k <- r.stage.paths :: k < n && k in r.clean && r.clean[k] != [])
    && forall k :: 0 <= k < n ==> SplitInTwo(r, k, BatchAt(r.manifest.files, readings, registry, k))
  }

  /** What validating one more file makes of a run. */
  function AfterFile(r: Run, b: Batch): Run
    requires Timed(b) && r.stage.Validating?
  {
    var valid, errors := ValidOf(b, |b.records|), RecordsOf(ErrorsOf(b, |b.records|));
    var k := r.stage.next;
    r.(rejected := if errors == [] then r.rejected else r.rejected[k := errors],
       clean := if valid == [] then r.clean else r.clean[k := Cleansed(valid)],
       stage := Validating(if valid == [] then r.stage.paths else r.stage.paths + [k], k + 1))
  }

  lemma SplitGrows(r: Run, readings: seq<Reading>, registry: Registry)
    requires r.stage.Validating? && Fits(r.manifest.files, readings) && r.stage.next < |readings|
    requires SplitUpTo(r, readings, registry, r.stage.next)
    ensures var r' := AfterFile(r, BatchAt(r.manifest.files, readings, registry, r.stage.next));
      SplitUpTo(r', readings, registry, r.stage.next + 1)
  {
    var k := r.stage.next;
    var b := BatchAt(r.manifest.files, readings, registry, k);
    var r' := AfterFile(r, b);
    assert SplitInTwo(r', k, b) by {
      if ValidOf(b, |b.records|) != [] {
        assert r'.stage.paths[|r.stage.paths|] == k;
      }
    }
    forall j | 0 <= j < k ensures SplitInTwo(r', j, BatchAt(r.manifest.files, readings, registry, j)) {
      assert SplitInTwo(r, j, BatchAt(r.manifest.files, readings, registry, j));
    }
  }

  lemma ValidatedShape(s: State, i: nat, clock: seq<int>, registry: Registry, fetched: set<Id>)
    requires Validates(s, i, clock)
    ensures var a := ValidateFile(i, clock, registry, fetched);
      && Enabled(s, a) && |Do(s, a).runs| == |s.runs| && Do(s, a).target == s.target
      && Do(s, a).runs[i].manifest == s.runs[i].manifest
      && Do(s, a).runs[i].stage.Validating? && Do(s, a).runs[i].stage.next == s.runs[i].stage.next + 1
  {
  }

  /** Every file that is to be loaded was written by validation. */
  predicate PathsWritten(r: Run) {
    r.stage.Loading? && forall k <- r.stage.paths :: k in r.clean && r.clean[k] != []
  }

  lemma LoadedShape(s: State, i: nat, server: Server)
    requires Enabled(s, LoadFile(i, server)) && PathsWritten(s.runs[i])
    ensures var r, s' := s.runs[i], Do(s, LoadFile(i, server));
      && |s'.runs| == |s.runs| && PathsWritten(s'.runs[i]) && s'.runs[i].manifest == r.manifest
      && s'.runs[i].stage == Loading(r.stage.paths, r.stage.next + 1)
  {
  }

  /** The files of the first n paths are stored, but for what is quarantined. */
  ghost predicate StoredUpTo(s: State, r: Run, n: nat)
    requires r.stage.Loading? && n <= |r.stage.paths|
  {
    forall j :: 0 <= j < n ==> FileStored(s, r, r.stage.paths[j])
  }

  lemma StoredGrows(s: State, i: nat, server: Server)
    requires Enabled(s, LoadFile(i, server)) && StoredUpTo(s, s.runs[i], s.runs[i].stage.next)
    ensures var s' := Do(s, LoadFile(i, server));
      s'.runs[i].clean == s.runs[i].clean && StoredUpTo(s', s'.runs[i], s'.runs[i].stage.next)
  {
    var r, s' := s.runs[i], Do(s, LoadFile(i, server));
    var r', k := s'.runs[i], r.stage.paths[r.stage.next];
    forall row <- r'.clean[k] ensures StoredId(s', row.id) || (k in r'.quarantine && row in r'.quarantine[k]) {
      LoadedRowSettled(Stored(s), r.clean[k], server, row);
    }
    forall j | 0 <= j < r.stage.next ensures FileStored(s', r', r.stage.paths[j]) {
      if r.stage.paths[j] != k {
        FileStaysStored(s, s', r, r.stage.paths[j]);
      }
    }
  }

  /** A load that died part-way is a step of the machine: what it added is a prefix. */
  lemma DeadLoad(s: State, s': State, i: nat, server: Server) returns (added: seq<Row>)
    requires Loads(s, i) && SaneZone(server.zone)
    requires s' == SetRun(s, i, s.runs[i].(stage := Restarted(s.runs[i].stage))).(target := s'.target, buffer := s'.buffer)
    requires s.target <= s'.target
    requires Stored(s) <= Stored(s') <= Stored(s) + Good(Fresh(Stored(s), LoadedRows(s, i), server.zone), server.accepts)
    ensures Enabled(s, LoadDies(i, server, added, s'.target)) && s' == Do(s, LoadDies(i, server, added, s'.target))
  {
    added := Stored(s')[|Stored(s)|..];
    assert Stored(s) + added == Stored(s');
    assert (Stored(s) + added)[|s'.target|..] == s'.buffer;
  }

  class DailyEtl {
    const registry: Registry
    var s: State

    constructor (registry: Registry, s: State)
      ensures this.registry == registry && this.s == s
    {
      this.registry, this.s := registry, s;
    }

    /**
     * extract_transactions: a new run with the manifest of what the broker handed
     * out, in its order and from the committed offsets on; nothing on a failure.
     */
    method ExtractTask(consumer: TransactionConsumer, ghost reached: iset<State>) returns (ok: bool)
      requires consumer.Valid() && consumer.polled == [] && consumer.BATCH_SIZE > 0
      requires HandedOut(s.log, s.committed, All(consumer.coming))
      requires Closed(reached) && s in reached
      modifies this`s, consumer
      ensures s in reached && (Steady(old(consumer.coming)) ==> ok)
      ensures !ok ==> s == old(s)
      ensures ok ==>
        && |s.runs| == |old(s).runs| + 1
        && var manifest := s.runs[|old(s).runs|].manifest;
           && Enabled(old(s), ExtractDone(consumer.polled, manifest))
           && s == Do(old(s), ExtractDone(consumer.polled, manifest))
      ensures ok ==> s.runs[|old(s).runs|].stage == Validating([], 0)
      ensures ok ==> var files := s.runs[|old(s).runs|].manifest.files;
        |files| <= 200 && (|files| == 200 || LastEmpty(consumer.answers, 3))
    {
      ghost var before := s;
      assert [] + All(consumer.coming) == All(consumer.coming);
      var manifest := consumer.Drain(200, 3);
      if manifest.None? {
        return false;
      }
      PolledIsReadInOrder(s.log, s.committed, consumer.polled, All(consumer.coming));
      s := s.(runs := s.runs + [Run(manifest.value, map[], map[], map[], Validating([], 0))]);
      StepStays(reached, before, ExtractDone(consumer.polled, manifest.value), s);
      ok := true;
    }

    /** One turn of the loop in validate_and_cleanse: validate, write both files, append the path. */
    method ValidateOne(i: nat, validator: DataValidator, reading: Reading, ghost reached: iset<State>)
      requires validator.registry == registry && Closed(reached) && s in reached
      requires Validates(s, i, reading.clock)
      modifies this`s, validator`recentIds
      ensures s in reached
      ensures Enabled(old(s), ValidateFile(i, reading.clock, registry, Fetched(reading.answer)))
      ensures s == Do(old(s), ValidateFile(i, reading.clock, registry, Fetched(reading.answer)))
      ensures var r := old(s).runs[i];
        s == SetRun(old(s), i, AfterFile(r, Batch(r.manifest.files[r.stage.next], reading.clock, registry,
                                                  if reading.answer.Some? then reading.answer.value else {})))
    {
      var r, k := s.runs[i], s.runs[i].stage.next;
      var valid, errors := validator.ValidateBatch(r.manifest.files[k], reading.clock, reading.answer);
      if errors != [] {
        r := r.(rejected := r.rejected[k := RecordsOf(errors)]);
      }
      var paths := r.stage.paths;
      if valid != [] {
        r := r.(clean := r.clean[k := Cleansed(valid)]);
        paths := paths + [k];
      }
      r := r.(stage := Validating(paths, k + 1));
      s := SetRun(s, i, r);
      StepStays(reached, old(s), ValidateFile(i, reading.clock, registry, Fetched(reading.answer)), s);
    }

    /** validate_and_cleanse. */
    method ValidateTask(i: nat, readings: seq<Reading>, ghost reached: iset<State>)
      requires i < |s.runs| && s.runs[i].stage == Validating([], 0) && Fits(s.runs[i].manifest.files, readings)
      requires Closed(reached) && s in reached
      modifies this`s
      ensures s in reached
      ensures |s.runs| == |old(s).runs| && s.runs[i].stage.Loading? && s.runs[i].stage.next == 0
      ensures s.runs[i].manifest == old(s).runs[i].manifest && s.target == old(s).target
      ensures PathsWritten(s.runs[i]) && SplitUpTo(s.runs[i], readings, registry, |readings|)
    {
      var validator := new DataValidator(registry);
      var files := s.runs[i].manifest.files;
      var k := 0;
      while k < |files|
        invariant 0 <= k <= |files| && s in reached && |s.runs| == |old(s).runs|
        invariant s.runs[i].manifest == old(s).runs[i].manifest && s.target == old(s).target
        invariant s.runs[i].stage.Validating? && s.runs[i].stage.next == k
        invariant SplitUpTo(s.runs[i], readings, registry, k)
      {
        ghost var before := s;
        SplitGrows(before.runs[i], readings, registry);
        ValidateOne(i, validator, readings[k], reached);
        ValidatedShape(before, i, readings[k].clock, registry, Fetched(readings[k].answer));
        k := k + 1;
      }
      ghost var before := s;
      s := SetRun(s, i, s.runs[i].(stage := Loading(s.runs[i].stage.paths, 0)));
      StepStays(reached, before, ValidateDone(i), s);
    }

    /** One turn of load_paths: the file is loaded, or the task dies somewhere in it. */
    method LoadOne(i: nat, loader: CH.ClickHouseLoader, ghost reached: iset<State>) returns (ok: bool)
      requires Closed(reached) && s in reached && Loads(s, i) && SaneZone(loader.db.zone)
      requires InStep(i, loader)
      modifies this`s, loader`quarantine, loader`quarantinedRows
      modifies loader.db`target, loader.db`buffer, loader.db`calls
      ensures s in reached && InStep(i, loader)
      ensures old(loader.db.calls) <= loader.db.calls
      ensures ok <==> CH.Up(loader.db.outage, old(loader.db.calls), loader.db.calls - old(loader.db.calls))
      ensures var server := Server(loader.db.accepts, loader.db.zone);
        if ok then Enabled(old(s), LoadFile(i, server)) && s == Do(old(s), LoadFile(i, server))
        else exists added, target :: Enabled(old(s), LoadDies(i, server, added, target))
                                     && s == Do(old(s), LoadDies(i, server, added, target))
    {
      var r := s.runs[i];
      var k := r.stage.paths[r.stage.next];
      ghost var before := s;
      var loaded := loader.LoadParquet(k, LoadedRows(s, i));
      ok := loaded.Some?;
      if ok {
        r := r.(quarantine := loader.quarantine, stage := Loading(r.stage.paths, r.stage.next + 1));
      } else {
        r := r.(stage := Restarted(r.stage));
      }
      s := SetRun(s, i, r).(target := loader.db.target, buffer := loader.db.buffer);
      ghost var server := Server(loader.db.accepts, loader.db.zone);
      if ok {
        StepStays(reached, before, LoadFile(i, server), s);
      } else {
        ghost var added := DeadLoad(before, s, i, server);
        StepStays(reached, before, LoadDies(i, server, added, s.target), s);
      }
    }

    /** load_to_clickhouse: load_paths over the cleansed files. */
    method LoadTask(i: nat, loader: CH.ClickHouseLoader, ghost reached: iset<State>) returns (ok: bool)
      requires Closed(reached) && s in reached && SaneZone(loader.db.zone) && InStep(i, loader)
      requires PathsWritten(s.runs[i]) && s.runs[i].stage.next == 0
      modifies this`s, loader`quarantine, loader`quarantinedRows
      modifies loader.db`target, loader.db`buffer, loader.db`calls
      ensures s in reached && InStep(i, loader)
      ensures ok ==> s.runs[i].stage == Committing
      ensures ok ==> s.runs[i].clean == old(s).runs[i].clean
      // Every row of every file is in the table, by id, or in a quarantine file.
      ensures ok ==> forall k <- old(s).runs[i].stage.paths, row <- s.runs[i].clean[k] ::
        || (exists t <- s.target :: t.id == row.id)
        || (k in s.runs[i].quarantine && row in s.runs[i].quarantine[k])
      ensures old(loader.db.calls) <= loader.db.calls
      ensures ok <==> CH.Up(loader.db.outage, old(loader.db.calls), loader.db.calls - old(loader.db.calls))
    {
      var paths := s.runs[i].stage.paths;
      var n := |paths|;
      var k := 0;
      while k < n
        invariant 0 <= k <= n && s in reached && InStep(i, loader)
        invariant old(loader.db.calls) <= loader.db.calls
        invariant CH.Up(loader.db.outage, old(loader.db.calls), loader.db.calls - old(loader.db.calls))
        invariant PathsWritten(s.runs[i]) && s.runs[i].stage == Loading(paths, k)
        invariant s.runs[i].clean == old(s).runs[i].clean && StoredUpTo(s, s.runs[i], k)
      {
        ghost var before := s;
        var loaded := LoadOne(i, loader, reached);
        if !loaded {
          return false;
        }
        LoadedShape(before, i, Server(loader.db.accepts, loader.db.zone));
        StoredGrows(before, i, Server(loader.db.accepts, loader.db.zone));
        k := k + 1;
      }
      ghost var before := s;
      s := SetRun(s, i, s.runs[i].(stage := Committing));
      StepStays(reached, before, LoadDone(i), s);
      forall k <- paths, row <- s.runs[i].clean[k]
        ensures (exists t <- s.target :: t.id == row.id) || (k in s.runs[i].quarantine && row in s.runs[i].quarantine[k])
      {
        var j :| 0 <= j < n && paths[j] == k;
        assert FileStored(before, before.runs[i], paths[j]);
      }
      ok := true;
    }

    /** commit_offsets: the loop over the partitions, then one commit request that may fail. */
    method CommitTask(i: nat, accepted: bool, ghost reached: iset<State>) returns (moved: Option<map<Part, nat>>)
      requires i < |s.runs| && s.runs[i].stage.Committing? && Closed(reached) && s in reached
      modifies this`s
      ensures s in reached && |s.runs| == |old(s).runs|
      ensures moved.Some? ==>
        && s.committed == Raised(old(s.committed), s.runs[i].manifest.offsets) && s.runs[i].stage.Finished?
        && forall p :: p in moved.value <==>
             p in s.committed && (p in old(s.committed) ==> old(s.committed)[p] != s.committed[p])
      ensures moved.None? ==> s == old(s) && !accepted
      // The group now is at the manifest's offsets, or past them already; nothing else moves.
      ensures moved.Some? ==> forall p <- s.runs[i].manifest.offsets ::
        p in s.committed && s.runs[i].manifest.offsets[p] <= s.committed[p]
      ensures moved.Some? ==> forall p ::
        p in moved.value <==>
          && p in s.runs[i].manifest.offsets
          && (p !in old(s.committed) || old(s.committed)[p] < s.runs[i].manifest.offsets[p])
      ensures moved.Some? ==> forall p <- moved.value ::
        moved.value[p] == s.runs[i].manifest.offsets[p] && p in s.committed && s.committed[p] == moved.value[p]
      ensures moved.Some? ==> forall p :: p !in moved.value ==>
        (p in s.committed <==> p in old(s.committed)) && (p in s.committed ==> s.committed[p] == old(s.committed)[p])
      ensures moved.Some? ==> s.runs[i] == old(s.runs[i]).(stage := Finished)
      ensures accepted ==> moved.Some?
    {
      var wanted := s.runs[i].manifest.offsets;
      var toCommit := OffsetsToCommit(wanted);
      if toCommit != map[] && !accepted {
        return None;
      }
      ghost var before := s;
      s := SetRun(s, i, s.runs[i].(stage := Finished)).(committed := s.committed + toCommit);
      assert Only(wanted, wanted.Keys) == wanted;
      assert s.committed == Raised(before.committed, wanted);
      StepStays(reached, before, Commit(i, wanted.Keys), s);
      moved := Some(toCommit);
    }

    /** The loop over the partitions: those at or past the manifest's offset are left alone. */
    method OffsetsToCommit(wanted: map<Part, nat>) returns (toCommit: map<Part, nat>)
      ensures forall p :: p in toCommit <==> p in wanted && (p !in s.committed || s.committed[p] < wanted[p])
      ensures forall p <- toCommit :: toCommit[p] == wanted[p]
    {
      var todo := wanted.Keys;
      toCommit := map[];
      while todo != {}
        invariant todo <= wanted.Keys
        invariant forall p :: p in toCommit <==>
          p in wanted && p !in todo && (p in s.committed ==> s.committed[p] < wanted[p])
        invariant forall p <- toCommit :: toCommit[p] == wanted[p]
      {
        var p :| p in todo;
        if !(p in s.committed && s.committed[p] >= wanted[p]) {
          toCommit := toCommit[p := wanted[p]];
        }
        todo := todo - {p};
      }
    }

    /** The loader works on the tables and quarantine files of the state. */
    ghost predicate InStep(i: nat, loader: CH.ClickHouseLoader)
      reads this, loader, loader.db
    {
      && i < |s.runs|
      && loader.db.target == s.target && loader.db.buffer == s.buffer
      && loader.quarantine == s.runs[i].quarantine
    }
  }
}
