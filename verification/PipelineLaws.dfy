/** What every run of the ETL keeps: nothing lost, nothing stored twice, commits only forward. */
module PipelineLaws {
  import opened Validator
  import opened Loader
  import opened Extract
  import opened Pipeline

  // ---- growth: what no step takes back ------------------------------------------------------

  ghost predicate RunGrows(r: Run, r': Run) {
    && r'.manifest == r.manifest
    && (Concluded(r) ==> Concluded(r') && r'.rejected == r.rejected && r'.quarantine == r.quarantine)
  }

  ghost predicate Grows(s: State, s': State) {
    && (forall key <- s.log :: key in s'.log && s'.log[key] == s.log[key])
    && (forall p :: End(s, p) <= End(s', p))
    && s.target <= s'.target
    && |s.runs| <= |s'.runs|
    && (forall i :: 0 <= i < |s.runs| ==> RunGrows(s.runs[i], s'.runs[i]))
    && s'.earlier == s.earlier
  }

  lemma StepGrowsRuns(s: State, a: Action)
    requires Enabled(s, a)
    ensures |s.runs| <= |Do(s, a).runs|
    ensures forall i :: 0 <= i < |s.runs| ==> RunGrows(s.runs[i], Do(s, a).runs[i])
  {
  }

  lemma StepGrowsLog(s: State, a: Action)
    requires Inv(s) && Enabled(s, a)
    ensures forall key <- s.log :: key in Do(s, a).log && Do(s, a).log[key] == s.log[key]
    ensures forall p :: End(s, p) <= End(Do(s, a), p)
  {
    match a
    case Append(p, o, _) => assert (p, o) in s.log ==> o < End(s, p);
    case _ =>
  }

  lemma StepGrowsTables(s: State, a: Action)
    requires Enabled(s, a)
    ensures s.target <= Do(s, a).target && Do(s, a).earlier == s.earlier
  {
  }

  lemma StepGrows(s: State, a: Action)
    requires Inv(s) && Enabled(s, a)
    ensures Grows(s, Do(s, a))
  {
    StepGrowsLog(s, a);
    StepGrowsTables(s, a);
    StepGrowsRuns(s, a);
  }

  lemma StoredIdStays(s: State, s': State, id: Id)
    requires s.target <= s'.target && StoredId(s, id)
    ensures StoredId(s', id)
  {
    var row :| row in s.target && row.id == id;
    assert row in s'.target;
  }

  lemma RecordStaysSettled(s: State, s': State, rec: Record)
    requires Grows(s, s') && RecordSettled(s, rec)
    ensures RecordSettled(s', rec)
  {
    if rec.id.Is? && StoredId(s, rec.id.value) {
      StoredIdStays(s, s', rec.id.value);
    } else {
      var r :| r in s.runs && Concluded(r) && SetAside(r, rec);
      var i :| 0 <= i < |s.runs| && s.runs[i] == r;
      assert RunGrows(s.runs[i], s'.runs[i]);
      assert s'.runs[i] in s'.runs && SetAside(s'.runs[i], rec);
    }
  }

  lemma StaysSettled(s: State, s': State, p: Part, o: nat)
    requires Grows(s, s') && (p, o) in s.log && Settled(s, p, o)
    ensures (p, o) in s'.log && Settled(s', p, o)
  {
    match s.log[(p, o)]
    case Decodes(rec) => RecordStaysSettled(s, s', rec);
    case Undecodable =>
      var r :| r in s.runs && DeadLettered(r, At(s.log, p, o));
      var i :| 0 <= i < |s.runs| && s.runs[i] == r;
      assert RunGrows(s.runs[i], s'.runs[i]);
      assert s'.runs[i] in s'.runs && DeadLettered(s'.runs[i], At(s'.log, p, o));
  }

  lemma StaysFromLog(s: State, s': State, row: Row)
    requires Grows(s, s') && FromLog(s, row)
    ensures FromLog(s', row)
  {
    var key :| key in s.log && s.log[key] == Decodes(row.body);
    assert s'.log[key] == Decodes(row.body);
  }

  lemma StaysLogged(s: State, s': State, rec: Record)
    requires Grows(s, s') && Logged(s.log, rec)
    ensures Logged(s'.log, rec)
  {
    var key :| key in s.log && s.log[key] == Decodes(rec);
    assert s'.log[key] == Decodes(rec);
  }

  /** No new message appears below an offset that is at most the end of its partition. */
  ghost predicate NewAtEnd(s: State, s': State) {
    forall p, o :: (p, o) in s'.log && (p, o) !in s.log ==> End(s, p) <= o
  }

  lemma ManifestStaysOk(s: State, s': State, r: Run, r': Run)
    requires Grows(s, s') && NewAtEnd(s, s') && ManifestOk(s, r) && r'.manifest == r.manifest
    ensures ManifestOk(s', r')
  {
    forall p, o | (p, o) in s'.log && p in r.manifest.offsets && o < r.manifest.offsets[p]
      ensures Settled(s', p, o) || InFiles(s', r', p, o)
    {
      if Settled(s, p, o) {
        StaysSettled(s, s', p, o);
      } else {
        assert InFiles(s, r, p, o);
      }
    }
  }

  lemma FileStaysStored(s: State, s': State, r: Run, k: nat)
    requires s.target <= s'.target && FileStored(s, r, k)
    ensures FileStored(s', r, k)
  {
    forall row <- r.clean[k] | StoredId(s, row.id) ensures StoredId(s', row.id) {
      StoredIdStays(s, s', row.id);
    }
  }

  lemma StageStaysOk(s: State, s': State, r: Run)
    requires Grows(s, s') && StageOk(s, r)
    ensures StageOk(s', r)
  {
    if r.stage.Loading? {
      forall j | 0 <= j < r.stage.next ensures FileStored(s', r, r.stage.paths[j]) {
        FileStaysStored(s, s', r, r.stage.paths[j]);
      }
    } else if !r.stage.Validating? {
      forall rec | InFile(r, rec) ensures RecordSettled(s', rec) {
        RecordStaysSettled(s, s', rec);
      }
    }
  }

  lemma CleanStaysOk(s: State, s': State, r: Run, r': Run)
    requires Grows(s, s') && CleanOk(s, r) && r'.manifest == r.manifest && r'.clean == r.clean
    ensures CleanOk(s', r')
  {
    forall rec | InFile(r', rec) ensures Logged(s'.log, rec) {
      assert InFile(r, rec);
      StaysLogged(s, s', rec);
    }
    forall k <- r'.clean, row <- r'.clean[k] ensures FromLog(s', row) {
      StaysFromLog(s, s', row);
    }
  }

  lemma RunStaysOk(s: State, s': State, r: Run)
    requires Grows(s, s') && NewAtEnd(s, s') && RunOk(s, r)
    ensures RunOk(s', r)
  {
    ManifestStaysOk(s, s', r, r);
    StageStaysOk(s, s', r);
    CleanStaysOk(s, s', r, r);
  }

  lemma SameFiles(s: State, a: Action)
    requires Enabled(s, a) && !a.Append? && !a.FlushBuffer? && !a.ExtractDone? && !a.ValidateFile?
    ensures a.i < |s.runs| <= |Do(s, a).runs|
    ensures Do(s, a).runs[a.i].manifest == s.runs[a.i].manifest && Do(s, a).runs[a.i].clean == s.runs[a.i].clean
  {
  }

  /** Only validation changes a run's cleansed files, and nothing its manifest. */
  lemma FixedPartsOk(s: State, a: Action)
    requires Inv(s) && Enabled(s, a)
    requires !a.Append? && !a.FlushBuffer? && !a.ExtractDone? && !a.ValidateFile?
    ensures ManifestOk(Do(s, a), Do(s, a).runs[a.i]) && CleanOk(Do(s, a), Do(s, a).runs[a.i])
  {
    var s' := Do(s, a);
    SameFiles(s, a);
    StepGrows(s, a);
    NewMessagesAtEnd(s, a);
    var r, r' := s.runs[a.i], s'.runs[a.i];
    assert r in s.runs && RunOk(s, r);
    ManifestStaysOk(s, s', r, r');
    CleanStaysOk(s, s', r, r');
  }

  // ---- the run that moves ---------------------------------------------------------------------

  lemma NewRunOk(s: State, a: Action)
    requires Inv(s) && Enabled(s, a) && a.ExtractDone?
    ensures RunOk(s, Do(s, a).runs[|s.runs|])
  {
    var r := Do(s, a).runs[|s.runs|];
    NextIsPastLargest(a.polled);
    forall p <- r.manifest.offsets ensures r.manifest.offsets[p] <= End(s, p) {
      var m :| m in a.polled && m.part == p && m.offset + 1 == r.manifest.offsets[p];
    }
    forall p, o | (p, o) in s.log && p in r.manifest.offsets && o < r.manifest.offsets[p]
      ensures Settled(s, p, o) || InFiles(s, r, p, o)
    {
      if Start(s.committed, p) <= o {
        ManifestCoversExactly(s.log, s.committed, a.polled, a.manifest, p, o);
      }
    }
    forall rec | InFile(r, rec) ensures Logged(s.log, rec) {
      InFlattened(a.manifest.files, rec);
      var m := StagedComesFrom(a.polled, rec);
      assert s.log[(m.part, m.offset)] == Decodes(rec);
    }
  }

  /** Validation puts every record of the file into one of its two files. */
  lemma ValidatedFileSorted(r: Run, b: Batch, j: nat)
    requires r.stage.Validating? && r.stage.next < |r.manifest.files| && Timed(b)
    requires b.records == r.manifest.files[r.stage.next]
    requires j < |b.records|
    ensures var r', k := WriteClean(WriteRejected(r, b), b), r.stage.next;
      || (k in r'.rejected && b.records[j] in r'.rejected[k])
      || (k in r'.stage.paths && k in r'.clean && b.records[j].id.Is? && CleanRow(b.records[j]) in r'.clean[k])
  {
    RecordIsReported(b, |b.records|, j);
    var valid := ValidOf(b, |b.records|);
    if Valid(b, j) {
      ValidMarks(b, j);
      var m :| 0 <= m < |valid| && valid[m] == b.records[j];
      assert Cleansed(valid)[m] == CleanRow(b.records[j]);
      assert (r.stage.paths + [r.stage.next])[|r.stage.paths|] == r.stage.next;
    }
  }

  /** A cleansed row carries the id and the time of its record, and the record itself. */
  lemma CleansedKeepsValues(b: Batch, k: nat)
    requires Timed(b) && k < |ValidOf(b, |b.records|)|
    ensures var rec, row := ValidOf(b, |b.records|)[k], Cleansed(ValidOf(b, |b.records|))[k];
      rec.id == Is(row.id) && rec.at == Is(row.at) && row.body == rec
  {
    var i := ValidRecordsAt(b, |b.records|, ValidOf(b, |b.records|)[k]);
    assert Passes(b, i, Deduplication) && Passes(b, i, Timestamp);
  }

  lemma CleansedOk(s: State, b: Batch)
    requires Timed(b) && forall rec <- b.records :: Logged(s.log, rec)
    ensures var rows := Cleansed(ValidOf(b, |b.records|));
      UniqueIds(rows) && forall row <- rows :: FromLog(s, row)
  {
    var valid := ValidOf(b, |b.records|);
    ValidIdsAreNew(b, |b.records|);
    forall row <- Cleansed(valid) ensures FromLog(s, row) {
      var k :| 0 <= k < |valid| && Cleansed(valid)[k] == row;
      var i := ValidRecordsAt(b, |b.records|, valid[k]);
    }
  }

  lemma ValidatedRunOk(s: State, s': State, r: Run, b: Batch)
    requires RunOk(s, r) && r.stage.Validating? && r.stage.next < |r.manifest.files| && Timed(b)
    requires b.records == r.manifest.files[r.stage.next]
    requires Grows(s, s') && NewAtEnd(s, s')
    ensures RunOk(s', WriteClean(WriteRejected(r, b), b))
  {
    var r', k := WriteClean(WriteRejected(r, b), b), r.stage.next;
    ManifestStaysOk(s, s', r, r');
    forall rec <- r.manifest.files[k] ensures
      || (k in r'.rejected && rec in r'.rejected[k])
      || (k in r'.stage.paths && k in r'.clean && rec.id.Is? && CleanRow(rec) in r'.clean[k])
    {
      var j :| 0 <= j < |b.records| && b.records[j] == rec;
      ValidatedFileSorted(r, b, j);
    }
    assert FileSorted(r', k, r'.stage.paths);
    forall j | 0 <= j < k ensures FileSorted(r', j, r'.stage.paths) {
      assert FileSorted(r, j, r.stage.paths);
    }
    ValidatedCleanOk(s, s', r, b);
  }

  lemma ValidatedCleanOk(s: State, s': State, r: Run, b: Batch)
    requires CleanOk(s, r) && r.stage.Validating? && r.stage.next < |r.manifest.files| && Timed(b)
    requires b.records == r.manifest.files[r.stage.next] && Grows(s, s')
    ensures CleanOk(s', WriteClean(WriteRejected(r, b), b))
  {
    var r' := WriteClean(WriteRejected(r, b), b);
    CleanStaysOk(s, s', r, r);
    forall rec <- b.records ensures Logged(s'.log, rec) {
      assert InFile(r, rec);
    }
    CleansedOk(s', b);
    forall rec | InFile(r', rec) ensures Logged(s'.log, rec) {
      assert InFile(r, rec);
    }
  }

  /** After a complete load every row of the file is stored or quarantined. */
  lemma LoadedRowSettled(stored: seq<Row>, rows: seq<Row>, server: Server, row: Row)
    requires rows != [] && row in rows
    ensures var novel := Fresh(stored, rows, server.zone);
      || (exists t <- stored + Good(novel, server.accepts) :: t.id == row.id)
      || row in Bad(novel, server.accepts)
  {
    var ids, novel := ExistingIds(stored, rows, server.zone), Fresh(stored, rows, server.zone);
    GoodMeans(rows, NotIn(ids));
    GoodMeans(novel, server.accepts);
    GoodMeans(novel, Refuses(server.accepts));
    if row.id in ids {
      var t :| t in stored && t.id == row.id;
      assert t in stored + Good(novel, server.accepts);
    } else if server.accepts(row) {
      assert row in stored + Good(novel, server.accepts);
    }
  }

  lemma LoadedStageOk(s: State, s': State, r: Run, server: Server)
    requires StageOk(s, r) && r.stage.Loading? && r.stage.next < |r.stage.paths|
    requires var k := r.stage.paths[r.stage.next];
      && k in r.clean && r.clean[k] != []
      && s'.target == Stored(s) + Good(Fresh(Stored(s), r.clean[k], server.zone), server.accepts)
    ensures var k := r.stage.paths[r.stage.next];
      var bad := Bad(Fresh(Stored(s), r.clean[k], server.zone), server.accepts);
      StageOk(s', Quarantine(r, k, bad).(stage := Loading(r.stage.paths, r.stage.next + 1)))
  {
    var k := r.stage.paths[r.stage.next];
    var bad := Bad(Fresh(Stored(s), r.clean[k], server.zone), server.accepts);
    var r' := Quarantine(r, k, bad).(stage := Loading(r.stage.paths, r.stage.next + 1));
    forall row <- r'.clean[k] ensures StoredId(s', row.id) || (k in r'.quarantine && row in r'.quarantine[k]) {
      LoadedRowSettled(Stored(s), r.clean[k], server, row);
    }
    assert FileStored(s', r', k);
    forall j | 0 <= j < r.stage.next ensures FileStored(s', r', r.stage.paths[j]) {
      if r.stage.paths[j] != k {
        FileStaysStored(s, s', r, r.stage.paths[j]);
      }
    }
    forall j | 0 <= j < |r.manifest.files| ensures FileSorted(r', j, r.stage.paths) {
      assert FileSorted(r, j, r.stage.paths);
    }
  }

  lemma LoadedRunOk(s: State, a: Action)
    requires Inv(s) && Enabled(s, a) && a.LoadFile?
    ensures RunOk(Do(s, a), Do(s, a).runs[a.i])
  {
    FixedPartsOk(s, a);
    assert RunOk(s, s.runs[a.i]);
    LoadedStageOk(s, Do(s, a), s.runs[a.i], a.server);
  }

  /** When all files are loaded every staged record is settled. */
  lemma LoadDoneSettles(s: State, s': State, r: Run, r': Run, rec: Record)
    requires RunOk(s, r) && r.stage.Loading? && r.stage.next == |r.stage.paths|
    requires r' == r.(stage := Committing) && r' in s'.runs && s'.target == s.target
    requires InFile(r, rec)
    ensures RecordSettled(s', rec)
  {
    var k :| 0 <= k < |r.manifest.files| && rec in r.manifest.files[k];
    assert FileSorted(r, k, r.stage.paths);
    if k in r.rejected && rec in r.rejected[k] {
      assert SetAside(r', rec);
    } else {
      var j :| 0 <= j < |r.stage.paths| && r.stage.paths[j] == k;
      assert FileStored(s, r, r.stage.paths[j]);
      if StoredId(s, rec.id.value) {
        StoredIdStays(s, s', rec.id.value);
      } else {
        assert SetAside(r', rec);
      }
    }
  }

  lemma LoadDoneRunOk(s: State, a: Action)
    requires Inv(s) && Enabled(s, a) && a.LoadDone?
    ensures RunOk(Do(s, a), Do(s, a).runs[a.i])
  {
    var s', r, r' := Do(s, a), s.runs[a.i], Do(s, a).runs[a.i];
    FixedPartsOk(s, a);
    assert RunOk(s, r);
    forall rec | InFile(r', rec) ensures RecordSettled(s', rec) {
      assert InFile(r, rec);
      LoadDoneSettles(s, s', r, r', rec);
    }
  }

  lemma RestartedStageOk(s: State, r: Run)
    requires StageOk(s, r)
    ensures StageOk(s, r.(stage := Restarted(r.stage)))
  {
    var r' := r.(stage := Restarted(r.stage));
    if r.stage.Loading? {
      forall j | 0 <= j < |r.manifest.files| ensures FileSorted(r', j, r'.stage.paths) {
        assert FileSorted(r, j, r.stage.paths);
      }
    } else if Concluded(r) {
      assert r' == r;
    }
  }

  lemma ValidateDoneStageOk(s: State, r: Run)
    requires StageOk(s, r) && r.stage.Validating? && r.stage.next == |r.manifest.files|
    ensures StageOk(s, r.(stage := Loading(r.stage.paths, 0)))
  {
    var r' := r.(stage := Loading(r.stage.paths, 0));
    forall j | 0 <= j < |r.manifest.files| ensures FileSorted(r', j, r.stage.paths) {
      assert FileSorted(r, j, r.stage.paths);
    }
  }

  lemma FinishedStageOk(s: State, r: Run)
    requires StageOk(s, r) && r.stage.Committing?
    ensures StageOk(s, r.(stage := Finished))
  {
    forall rec | InFile(r.(stage := Finished), rec) ensures RecordSettled(s, rec) {
      assert InFile(r, rec);
    }
  }

  lemma MovedStage(s: State, a: Action)
    requires Enabled(s, a) && (a.ValidateDone? || a.LoadDies? || a.Restart? || a.Commit?)
    ensures a.i < |s.runs| <= |Do(s, a).runs|
    ensures var r, r' := s.runs[a.i], Do(s, a).runs[a.i];
      match a
      case ValidateDone(_) => r' == r.(stage := Loading(r.stage.paths, 0))
      case Commit(_, _) => r' == r || r' == r.(stage := Finished)
      case _ => r' == r.(stage := Restarted(r.stage))
  {
  }

  /** Steps that only move a run between stages, or restart a task. */
  lemma MovedRunOk(s: State, a: Action)
    requires Inv(s) && Enabled(s, a)
    requires a.ValidateDone? || a.LoadDies? || a.Restart? || a.Commit?
    ensures RunOk(Do(s, a), Do(s, a).runs[a.i])
  {
    var s', r := Do(s, a), s.runs[a.i];
    FixedPartsOk(s, a);
    MovedStage(s, a);
    assert r in s.runs && StageOk(s, r) by {
      assert RunOk(s, r);
    }
    StepGrows(s, a);
    StageStaysOk(s, s', r);
    match a
    case ValidateDone(_) => ValidateDoneStageOk(s', r);
    case Commit(_, _) => FinishedStageOk(s', r);
    case _ => RestartedStageOk(s', r);
  }

  lemma MovedRun(s: State, a: Action)
    requires Inv(s) && Enabled(s, a) && !a.Append? && !a.FlushBuffer? && !a.ExtractDone?
    ensures RunOk(Do(s, a), Do(s, a).runs[a.i])
  {
    if a.ValidateFile? {
      var r := s.runs[a.i];
      assert RunOk(s, r);
      StepGrows(s, a);
      ValidatedRunOk(s, Do(s, a), r, BatchOf(r.manifest.files, r.stage.next, a.clock, a.registry, a.fetched));
    } else if a.LoadFile? {
      LoadedRunOk(s, a);
    } else if a.LoadDone? {
      LoadDoneRunOk(s, a);
    } else if a.ValidateDies? {
      FixedPartsOk(s, a);
    } else {
      MovedRunOk(s, a);
    }
  }

  // ---- the whole state --------------------------------------------------------------------------

  lemma NewMessagesAtEnd(s: State, a: Action)
    requires Enabled(s, a)
    ensures NewAtEnd(s, Do(s, a))
  {
  }

  lemma StepKeepsRuns(s: State, a: Action)
    requires Inv(s) && Enabled(s, a)
    ensures forall r <- Do(s, a).runs :: RunOk(Do(s, a), r)
  {
    var s' := Do(s, a);
    StepGrows(s, a);
    NewMessagesAtEnd(s, a);
    forall r <- s'.runs ensures RunOk(s', r) {
      var i :| 0 <= i < |s'.runs| && s'.runs[i] == r;
      if a.ExtractDone? && i == |s.runs| {
        NewRunOk(s, a);
        RunStaysOk(s, s', r);
      } else if !a.Append? && !a.FlushBuffer? && !a.ExtractDone? && i == a.i {
        MovedRun(s, a);
      } else {
        assert s.runs[i] == r;
        RunStaysOk(s, s', r);
      }
    }
  }

  /** The rows a step adds are cleansed rows of a run; the rest stay where they are. */
  lemma StepKeepsRows(s: State, a: Action)
    requires Inv(s) && Enabled(s, a)
    ensures var s' := Do(s, a);
      NoCopies(Stored(s')) && forall row <- Stored(s') :: row in s'.earlier || FromLog(s', row)
  {
    var s' := Do(s, a);
    StepGrows(s, a);
    if a.LoadFile? || a.LoadDies? {
      var rows := LoadedRows(s, a.i);
      var novel := Fresh(Stored(s), rows, a.server.zone);
      var added := if a.LoadFile? then Good(novel, a.server.accepts) else a.added;
      assert RunOk(s, s.runs[a.i]);
      LoadKeepsNoCopies(Stored(s), rows, a.server.accepts, a.server.zone, added);
      assert Stored(s') == Stored(s) + added;
      forall row <- added ensures FromLog(s', row) {
        assert row in Good(novel, a.server.accepts);
        GoodMeans(novel, a.server.accepts);
        GoodMeans(rows, NotIn(ExistingIds(Stored(s), rows, a.server.zone)));
        StaysFromLog(s, s', row);
      }
    } else {
      assert Stored(s') == Stored(s);
    }
    forall row <- Stored(s) | FromLog(s, row) ensures FromLog(s', row) {
      StaysFromLog(s, s', row);
    }
  }

  lemma StepKeepsCommitted(s: State, a: Action)
    requires Inv(s) && Enabled(s, a)
    ensures var s' := Do(s, a);
      && (forall p <- s'.committed :: s'.committed[p] <= End(s', p))
      && forall p, o :: (p, o) in s'.log && o < Start(s'.committed, p) ==> Settled(s', p, o)
  {
    var s' := Do(s, a);
    StepGrows(s, a);
    NewMessagesAtEnd(s, a);
    if a.Commit? {
      assert RunOk(s, s.runs[a.i]);
    }
    forall p, o | (p, o) in s'.log && o < Start(s'.committed, p) ensures Settled(s', p, o) {
      if o < Start(s.committed, p) {
        StaysSettled(s, s', p, o);
      } else {
        CommittedIsSettled(s, a, p, o);
      }
    }
  }

  /** What a commit newly covers was settled before it: its run had loaded everything. */
  lemma CommittedIsSettled(s: State, a: Action, p: Part, o: nat)
    requires Inv(s) && Enabled(s, a)
    requires (p, o) in Do(s, a).log && Start(s.committed, p) <= o < Start(Do(s, a).committed, p)
    ensures Settled(Do(s, a), p, o)
  {
    var s', r := Do(s, a), s.runs[a.i];
    StepGrows(s, a);
    assert RunOk(s, r) && (p, o) in s.log;
    assert Settled(s, p, o);
    StaysSettled(s, s', p, o);
  }

  lemma StepKeepsInv(s: State, a: Action)
    requires Inv(s) && Enabled(s, a)
    ensures Inv(Do(s, a))
  {
    StepKeepsRuns(s, a);
    StepKeepsRows(s, a);
    StepKeepsCommitted(s, a);
  }

  /** A commit never moves a group back, whatever run it belongs to. */
  lemma StepNeverRewinds(s: State, a: Action, p: Part)
    requires Enabled(s, a) && p in s.committed
    ensures p in Do(s, a).committed && s.committed[p] <= Do(s, a).committed[p]
  {
  }

  /** A commit takes each of its partitions to the manifest's offset, unless the group is past it; no other moves. */
  lemma CommitReachesManifest(s: State, i: nat, parts: set<Part>, p: Part)
    requires Enabled(s, Commit(i, parts))
    ensures var s', offsets := Do(s, Commit(i, parts)), s.runs[i].manifest.offsets;
      && (p in offsets && p in parts ==>
            && p in s'.committed && offsets[p] <= s'.committed[p]
            && (s'.committed[p] == offsets[p] || (p in s.committed && s'.committed[p] == s.committed[p])))
      && (p !in offsets || p !in parts ==>
            (p in s'.committed <==> p in s.committed) && (p in s.committed ==> s'.committed[p] == s.committed[p]))
      && (offsets.Keys <= parts ==> s'.runs[i].stage.Finished?)
      && s'.log == s.log && s'.target == s.target && s'.buffer == s.buffer
  {
  }

  // ---- executions ----------------------------------------------------------------------------------

  ghost predicate Execution(states: seq<State>, actions: seq<Action>) {
    && |states| == |actions| + 1
    && forall n {:trigger actions[n]} :: 0 <= n < |actions| ==>
         Enabled(states[n], actions[n]) && states[n + 1] == Do(states[n], actions[n])
  }

  lemma {:induction false} ExecutionKeepsInv(states: seq<State>, actions: seq<Action>, n: nat)
    requires Execution(states, actions) && Initial(states[0]) && n < |states|
    ensures Inv(states[n])
  {
    if n > 0 {
      ExecutionKeepsInv(states, actions, n - 1);
      StepKeepsInv(states[n - 1], actions[n - 1]);
    }
  }

  /**
   * Whatever fails and is retried: every message below the committed offset is in
   * transactions_raw by id or in a dead-letter, rejected or quarantine file; no
   * event is stored twice; every stored row was there before or comes from a
   * logged message.
   */
  lemma NothingIsLost(states: seq<State>, actions: seq<Action>, n: nat)
    requires Execution(states, actions) && Initial(states[0]) && n < |states|
    ensures var s := states[n];
      && (forall p, o :: (p, o) in s.log && o < Start(s.committed, p) ==> Settled(s, p, o))
      && NoCopies(s.target + s.buffer)
      && (forall row <- s.target :: row in s.earlier || FromLog(s, row))
  {
    ExecutionKeepsInv(states, actions, n);
    assert forall row <- states[n].target :: row in Stored(states[n]);
  }

  lemma {:induction false} CommitsNeverRewind(states: seq<State>, actions: seq<Action>, m: nat, n: nat, p: Part)
    requires Execution(states, actions) && m <= n < |states| && p in states[m].committed
    ensures p in states[n].committed && states[m].committed[p] <= states[n].committed[p]
  {
    if m < n {
      CommitsNeverRewind(states, actions, m, n - 1, p);
      StepNeverRewinds(states[n - 1], actions[n - 1], p);
    }
  }
}
