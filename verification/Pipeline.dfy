/**
 * The daily ETL as a state machine: extract, validate, load and commit run as
 * separate tasks, any of which may fail part-way, be retried or never finish,
 * in any number of runs.
 */
module Pipeline {
  import opened Validator
  import opened Loader
  import opened Extract

  /** Where a run is; `paths` are the staged files that have a cleansed file to load. */
  datatype Stage =
    | Validating(paths: seq<nat>, next: nat)
    | Loading(paths: seq<nat>, next: nat)
    | Committing
    | Finished

  /** One run and its files, by the index of the staged file they belong to. */
  datatype Run = Run(
    manifest: Manifest,
    clean: map<nat, seq<Row>>,
    rejected: map<nat, seq<Record>>,
    quarantine: map<nat, seq<Row>>,
    stage: Stage)

  datatype State = State(
    log: Log,
    ends: map<Part, nat>,
    committed: map<Part, nat>,
    runs: seq<Run>,
    target: seq<Row>,       // transactions_raw
    buffer: seq<Row>,       // rows of the Buffer engine not flushed yet
    earlier: set<Row>)      // rows that were there before the pipeline

  function Stored(s: State): seq<Row> { s.target + s.buffer }

  function End(s: State, p: Part): nat {
    if p in s.ends then s.ends[p] else 0
  }

  /** What one attempt at loading met: the values the server accepts and its time zone. */
  datatype Server = Server(accepts: Row -> bool, zone: int)

  datatype Action =
    | Append(p: Part, o: nat, payload: Payload)
    | ExtractDone(polled: seq<Message>, manifest: Manifest)
    | ValidateFile(i: nat, clock: seq<int>, registry: Registry, fetched: set<Id>)
    | ValidateDies(i: nat, clock: seq<int>, registry: Registry, fetched: set<Id>)
    | ValidateDone(i: nat)
    | LoadFile(i: nat, server: Server)
    | LoadDies(i: nat, server: Server, added: seq<Row>, target: seq<Row>)
    | LoadDone(i: nat)
    | Restart(i: nat)
    | Commit(i: nat, parts: set<Part>)
    | FlushBuffer

  function BatchOf(files: seq<seq<Record>>, k: nat, clock: seq<int>, registry: Registry, fetched: set<Id>): Batch
    requires k < |files|
  {
    Batch(files[k], clock, registry, fetched)
  }

  // ---- guards ---------------------------------------------------------------------------------

  predicate Validates(s: State, i: nat, clock: seq<int>) {
    && i < |s.runs| && s.runs[i].stage.Validating?
    && s.runs[i].stage.next < |s.runs[i].manifest.files|
    && |clock| == |s.runs[i].manifest.files[s.runs[i].stage.next]|
  }

  predicate Loads(s: State, i: nat) {
    && i < |s.runs| && s.runs[i].stage.Loading?
    && s.runs[i].stage.next < |s.runs[i].stage.paths|
    && s.runs[i].stage.paths[s.runs[i].stage.next] in s.runs[i].clean
    && s.runs[i].clean[s.runs[i].stage.paths[s.runs[i].stage.next]] != []
  }

  function LoadedRows(s: State, i: nat): seq<Row>
    requires Loads(s, i)
  {
    s.runs[i].clean[s.runs[i].stage.paths[s.runs[i].stage.next]]
  }

  ghost predicate Enabled(s: State, a: Action) {
    match a
    case Append(p, o, _) => End(s, p) <= o
    case ExtractDone(polled, manifest) => ReadInOrder(s.log, s.committed, polled) && Describes(manifest, polled)
    case ValidateFile(i, clock, _, _) => Validates(s, i, clock)
    case ValidateDies(i, clock, _, _) => Validates(s, i, clock)
    case ValidateDone(i) =>
      i < |s.runs| && s.runs[i].stage.Validating? && s.runs[i].stage.next == |s.runs[i].manifest.files|
    case LoadFile(i, server) => Loads(s, i) && SaneZone(server.zone)
    case LoadDies(i, server, added, target) =>
      && Loads(s, i) && SaneZone(server.zone)
      && added <= Good(Fresh(Stored(s), LoadedRows(s, i), server.zone), server.accepts)
      && s.target <= target <= Stored(s) + added
    case LoadDone(i) =>
      i < |s.runs| && s.runs[i].stage.Loading? && s.runs[i].stage.next == |s.runs[i].stage.paths|
    case Restart(i) => i < |s.runs|
    case Commit(i, _) => i < |s.runs| && s.runs[i].stage.Committing?
    case FlushBuffer => true
  }

  // ---- effects --------------------------------------------------------------------------------

  function CleanRow(r: Record): Row {
    Row(if r.id.Is? then r.id.value else 0, if r.at.Is? then r.at.value else 0, r)
  }

  function Cleansed(rs: seq<Record>): (rows: seq<Row>)
    ensures |rows| == |rs|
  {
    seq(|rs|, k requires 0 <= k < |rs| => CleanRow(rs[k]))
  }

  /** rejected_*.jsonl of one file is written, unless nothing was rejected. */
  function WriteRejected(r: Run, b: Batch): Run
    requires Timed(b) && r.stage.Validating?
  {
    var errors := RecordsOf(ErrorsOf(b, |b.records|));
    if errors == [] then r else r.(rejected := r.rejected[r.stage.next := errors])
  }

  /** Then *.clean.parquet, unless nothing was valid. */
  function WriteClean(r: Run, b: Batch): Run
    requires Timed(b) && r.stage.Validating?
  {
    var valid := ValidOf(b, |b.records|);
    if valid == [] then r.(stage := Validating(r.stage.paths, r.stage.next + 1))
    else r.(clean := r.clean[r.stage.next := Cleansed(valid)],
            stage := Validating(r.stage.paths + [r.stage.next], r.stage.next + 1))
  }

  function Quarantine(r: Run, k: nat, bad: seq<Row>): Run {
    if bad == [] then r else r.(quarantine := r.quarantine[k := bad])
  }

  /** commit_offsets: partitions already at or past the manifest's offset are left alone. */
  function Raised(committed: map<Part, nat>, offsets: map<Part, nat>): map<Part, nat> {
    map p | p in committed.Keys + offsets.Keys ::
      if p in offsets && (p in committed ==> committed[p] < offsets[p]) then offsets[p] else committed[p]
  }

  function Only(offsets: map<Part, nat>, parts: set<Part>): map<Part, nat> {
    map p | p in offsets && p in parts :: offsets[p]
  }

  function SetRun(s: State, i: nat, r: Run): State
    requires i < |s.runs|
  {
    s.(runs := s.runs[i := r])
  }

  function Restarted(stage: Stage): Stage {
    match stage
    case Validating(_, _) => Validating([], 0)
    case Loading(paths, _) => Loading(paths, 0)
    case _ => stage
  }

  function Do(s: State, a: Action): State
    requires Enabled(s, a)
  {
    match a
    case Append(p, o, payload) => s.(log := s.log[(p, o) := payload], ends := s.ends[p := o + 1])
    case ExtractDone(_, manifest) =>
      s.(runs := s.runs + [Run(manifest, map[], map[], map[], Validating([], 0))])
    case ValidateFile(i, clock, registry, fetched) =>
      var r := s.runs[i];
      var b := BatchOf(r.manifest.files, r.stage.next, clock, registry, fetched);
      SetRun(s, i, WriteClean(WriteRejected(r, b), b))
    case ValidateDies(i, clock, registry, fetched) =>
      var r := s.runs[i];
      var b := BatchOf(r.manifest.files, r.stage.next, clock, registry, fetched);
      SetRun(s, i, WriteRejected(r, b).(stage := Validating([], 0)))
    case ValidateDone(i) => SetRun(s, i, s.runs[i].(stage := Loading(s.runs[i].stage.paths, 0)))
    case LoadFile(i, server) =>
      var r, rows := s.runs[i], LoadedRows(s, i);
      var novel := Fresh(Stored(s), rows, server.zone);
      var k := r.stage.paths[r.stage.next];
      SetRun(s, i, Quarantine(r, k, Bad(novel, server.accepts)).(stage := Loading(r.stage.paths, r.stage.next + 1)))
        .(target := Stored(s) + Good(novel, server.accepts), buffer := [])
    case LoadDies(i, server, added, target) =>
      SetRun(s, i, s.runs[i].(stage := Restarted(s.runs[i].stage)))
        .(target := target, buffer := (Stored(s) + added)[|target|..])
    case LoadDone(i) => SetRun(s, i, s.runs[i].(stage := Committing))
    case Restart(i) => SetRun(s, i, s.runs[i].(stage := Restarted(s.runs[i].stage)))
    case Commit(i, parts) =>
      var r := s.runs[i];
      SetRun(s, i, if r.manifest.offsets.Keys <= parts then r.(stage := Finished) else r)
        .(committed := Raised(s.committed, Only(r.manifest.offsets, parts)))
    case FlushBuffer => s.(target := Stored(s), buffer := [])
  }

  // ---- the invariant --------------------------------------------------------------------------

  predicate Concluded(r: Run) {
    r.stage.Committing? || r.stage.Finished?
  }

  ghost predicate StoredId(s: State, id: Id) {
    exists row <- s.target :: row.id == id
  }

  /** The record is in a rejected or a quarantine file of the run. */
  ghost predicate SetAside(r: Run, rec: Record) {
    || (exists k <- r.rejected :: rec in r.rejected[k])
    || (exists k <- r.quarantine :: CleanRow(rec) in r.quarantine[k])
  }

  ghost predicate RecordSettled(s: State, rec: Record) {
    || (rec.id.Is? && StoredId(s, rec.id.value))
    || exists r <- s.runs :: Concluded(r) && SetAside(r, rec)
  }

  ghost predicate DeadLettered(r: Run, m: Message) {
    exists k :: 0 <= k < |r.manifest.deadLetterFiles| && m in r.manifest.deadLetterFiles[k]
  }

  /** In transactions_raw by id, or in a dead-letter, rejected or quarantine file. */
  ghost predicate Settled(s: State, p: Part, o: nat)
    requires (p, o) in s.log
  {
    match s.log[(p, o)]
    case Decodes(rec) => RecordSettled(s, rec)
    case Undecodable => exists r <- s.runs :: DeadLettered(r, At(s.log, p, o))
  }

  predicate InFile(r: Run, rec: Record) {
    exists k :: 0 <= k < |r.manifest.files| && rec in r.manifest.files[k]
  }

  ghost predicate InFiles(s: State, r: Run, p: Part, o: nat)
    requires (p, o) in s.log
  {
    match s.log[(p, o)]
    case Decodes(rec) => InFile(r, rec)
    case Undecodable => DeadLettered(r, At(s.log, p, o))
  }

  /** Below its offsets, everything is settled or in the run's files. */
  ghost predicate ManifestOk(s: State, r: Run) {
    && (forall p <- r.manifest.offsets :: r.manifest.offsets[p] <= End(s, p))
    && (forall p, o :: (p, o) in s.log && p in r.manifest.offsets && o < r.manifest.offsets[p] ==>
          Settled(s, p, o) || InFiles(s, r, p, o))
  }

  /** Every record of a validated file is in its cleansed or its rejected file. */
  predicate FileSorted(r: Run, k: nat, paths: seq<nat>)
    requires k < |r.manifest.files|
  {
    forall rec <- r.manifest.files[k] ::
      || (k in r.rejected && rec in r.rejected[k])
      || (k in paths && k in r.clean && rec.id.Is? && CleanRow(rec) in r.clean[k])
  }

  /** Every row of a loaded file is stored, by id, or in its quarantine file. */
  ghost predicate FileStored(s: State, r: Run, k: nat) {
    && k in r.clean
    && forall row <- r.clean[k] :: StoredId(s, row.id) || (k in r.quarantine && row in r.quarantine[k])
  }

  ghost predicate StageOk(s: State, r: Run) {
    match r.stage
    case Validating(paths, next) =>
      && next <= |r.manifest.files|
      && (forall k <- paths :: k in r.clean)
      && (forall k :: 0 <= k < next ==> FileSorted(r, k, paths))
    case Loading(paths, next) =>
      && next <= |paths|
      && (forall k <- paths :: k in r.clean)
      && (forall k :: 0 <= k < |r.manifest.files| ==> FileSorted(r, k, paths))
      && (forall j :: 0 <= j < next ==> FileStored(s, r, paths[j]))
    case _ => forall rec :: InFile(r, rec) ==> RecordSettled(s, rec)
  }

  ghost predicate Logged(log: Log, rec: Record) {
    exists key <- log :: log[key] == Decodes(rec)
  }

  /** A row that the pipeline made from a logged message. */
  ghost predicate FromLog(s: State, row: Row) {
    row == CleanRow(row.body) && Logged(s.log, row.body)
  }

  ghost predicate CleanOk(s: State, r: Run) {
    && (forall rec :: InFile(r, rec) ==> Logged(s.log, rec))
    && (forall k <- r.clean :: r.clean[k] != [] && UniqueIds(r.clean[k]))
    && (forall k <- r.clean, row <- r.clean[k] :: FromLog(s, row))
  }

  ghost predicate RunOk(s: State, r: Run) {
    ManifestOk(s, r) && StageOk(s, r) && CleanOk(s, r)
  }

  ghost predicate Inv(s: State) {
    && (forall p, o :: (p, o) in s.log ==> o < End(s, p))
    && (forall p <- s.committed :: s.committed[p] <= End(s, p))
    && (forall p, o :: (p, o) in s.log && o < Start(s.committed, p) ==> Settled(s, p, o))
    && (forall r <- s.runs :: RunOk(s, r))
    && NoCopies(Stored(s))
    && (forall row <- Stored(s) :: row in s.earlier || FromLog(s, row))
  }

  ghost predicate Initial(s: State) {
    && s.committed == map[] && s.runs == [] && NoCopies(Stored(s))
    && (forall row <- Stored(s) :: row in s.earlier)
    && (forall p, o :: (p, o) in s.log ==> o < End(s, p))
  }
}
