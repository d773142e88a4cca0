/**
 * TransactionConsumer: the polling loops of one extract and the manifest that
 * says which offsets its files cover.
 */
module Extract {
  import opened Prelude
  import opened Validator

  type Part = nat

  /** A message either decodes to a record or can never be decoded. */
  datatype Payload = Decodes(record: Record) | Undecodable

  datatype Message = Message(part: Part, offset: nat, payload: Payload)

  /** A message as polled: `transient` says that decoding it raises this time. */
  datatype Polled = Polled(message: Message, transient: bool)

  datatype Manifest = Manifest(
    offsets: map<Part, nat>,
    files: seq<seq<Record>>,
    records: nat,
    deadLetterFiles: seq<seq<Message>>,
    deadLetterCount: nat)

  function Flatten<T>(xss: seq<seq<T>>): seq<T> {
    if xss == [] then [] else Flatten(xss[..|xss| - 1]) + xss[|xss| - 1]
  }

  lemma FlattenAppended<T>(xss: seq<seq<T>>, xs: seq<T>)
    ensures Flatten(xss + [xs]) == Flatten(xss) + xs
  {
    assert (xss + [xs])[..|xss|] == xss;
  }

  lemma {:induction false} InFlattened<T>(xss: seq<seq<T>>, x: T)
    ensures x in Flatten(xss) <==> exists k :: 0 <= k < |xss| && x in xss[k]
  {
    if xss != [] {
      InFlattened(xss[..|xss| - 1], x);
    }
  }

  // ---- what the loops collect -------------------------------------------------------------

  function Staged(ms: seq<Message>): seq<Record> {
    if ms == [] then [] else
      Staged(ms[..|ms| - 1]) + (var m := ms[|ms| - 1]; if m.payload.Decodes? then [m.payload.record] else [])
  }

  function Dead(ms: seq<Message>): seq<Message> {
    if ms == [] then [] else
      Dead(ms[..|ms| - 1]) + (var m := ms[|ms| - 1]; if m.payload.Decodes? then [] else [m])
  }

  function Next(offsets: map<Part, nat>, m: Message): map<Part, nat> {
    offsets[m.part := Max(if m.part in offsets then offsets[m.part] else 0, m.offset + 1)]
  }

  function NextOffsets(ms: seq<Message>): map<Part, nat> {
    if ms == [] then map[] else Next(NextOffsets(ms[..|ms| - 1]), ms[|ms| - 1])
  }

  lemma Appended(ms: seq<Message>, m: Message)
    ensures Staged(ms + [m]) == Staged(ms) + if m.payload.Decodes? then [m.payload.record] else []
    ensures Dead(ms + [m]) == Dead(ms) + if m.payload.Decodes? then [] else [m]
    ensures NextOffsets(ms + [m]) == Next(NextOffsets(ms), m)
  {
    assert (ms + [m])[..|ms|] == ms;
  }

  /** The next offset of a partition is one past its largest polled offset. */
  lemma {:induction false} NextIsPastLargest(ms: seq<Message>)
    ensures forall m <- ms :: m.part in NextOffsets(ms) && m.offset < NextOffsets(ms)[m.part]
    ensures forall p <- NextOffsets(ms) :: exists m <- ms :: m.part == p && m.offset + 1 == NextOffsets(ms)[p]
  {
    if ms != [] {
      var front, last := ms[..|ms| - 1], ms[|ms| - 1];
      NextIsPastLargest(front);
      forall p <- NextOffsets(ms) ensures exists m <- ms :: m.part == p && m.offset + 1 == NextOffsets(ms)[p] {
        if p != last.part || (p in NextOffsets(front) && last.offset + 1 < NextOffsets(front)[p]) {
          var m :| m in front && m.part == p && m.offset + 1 == NextOffsets(front)[p];
          assert m in ms;
        } else {
          assert last in ms;
        }
      }
    }
  }

  lemma {:induction false} StagedOrDead(ms: seq<Message>, m: Message)
    requires m in ms
    ensures if m.payload.Decodes? then m.payload.record in Staged(ms) else m in Dead(ms)
  {
    if m != ms[|ms| - 1] {
      StagedOrDead(ms[..|ms| - 1], m);
    }
  }

  lemma {:induction false} StagedComesFrom(ms: seq<Message>, r: Record) returns (m: Message)
    requires r in Staged(ms)
    ensures m in ms && m.payload == Decodes(r)
  {
    if ms[|ms| - 1].payload == Decodes(r) {
      m := ms[|ms| - 1];
    } else {
      m := StagedComesFrom(ms[..|ms| - 1], r);
    }
  }

  ghost predicate Describes(manifest: Manifest, ms: seq<Message>) {
    && manifest.offsets == NextOffsets(ms)
    && Flatten(manifest.files) == Staged(ms) && manifest.records == |Staged(ms)|
    && Flatten(manifest.deadLetterFiles) == Dead(ms) && manifest.deadLetterCount == |Dead(ms)|
  }

  // ---- what the manifest covers --------------------------------------------------------------

  type Log = map<(Part, nat), Payload>

  function Start(committed: map<Part, nat>, p: Part): nat {
    if p in committed then committed[p] else 0
  }

  function At(log: Log, p: Part, o: nat): Message
    requires (p, o) in log
  {
    Message(p, o, log[(p, o)])
  }

  /** Polled from the committed offsets on, perhaps more than once, and never past a gap. */
  ghost predicate ReadInOrder(log: Log, committed: map<Part, nat>, ms: seq<Message>) {
    && (forall m <- ms :: (m.part, m.offset) in log && At(log, m.part, m.offset) == m)
    && (forall m <- ms :: Start(committed, m.part) <= m.offset)
    && (forall m <- ms, o: nat :: Start(committed, m.part) <= o < m.offset && (m.part, o) in log ==>
          At(log, m.part, o) in ms)
  }

  /** The message is logged, past the committed offset, and everything between the two came before it. */
  ghost predicate InTurn(log: Log, committed: map<Part, nat>, before: seq<Message>, m: Message) {
    && (m.part, m.offset) in log && At(log, m.part, m.offset) == m && Start(committed, m.part) <= m.offset
    && forall o: nat :: Start(committed, m.part) <= o < m.offset && (m.part, o) in log ==> At(log, m.part, o) in before
  }

  /** What a broker hands out: each partition in the order of its log, from the committed offset on. */
  ghost predicate HandedOut(log: Log, committed: map<Part, nat>, ms: seq<Message>) {
    forall k :: 0 <= k < |ms| ==> InTurn(log, committed, ms[..k], ms[k])
  }

  /** Stopping early is no gap: whatever part of it was polled was read in order. */
  lemma PolledIsReadInOrder(log: Log, committed: map<Part, nat>, polled: seq<Message>, rest: seq<Message>)
    requires HandedOut(log, committed, polled + rest)
    ensures ReadInOrder(log, committed, polled)
  {
    forall k | 0 <= k < |polled| ensures InTurn(log, committed, polled[..k], polled[k]) {
      assert (polled + rest)[k] == polled[k] && (polled + rest)[..k] == polled[..k];
    }
    forall m <- polled ensures InTurn(log, committed, polled, m) {
      var k :| 0 <= k < |polled| && polled[k] == m;
      assert InTurn(log, committed, polled[..k], m);
      assert forall x <- polled[..k] :: x in polled;
    }
  }

  /**
   * The manifest's offsets cover exactly what was staged or dead-lettered: a
   * logged message from the committed offset on lies below the partition's next
   * offset if and only if it was polled, and then it is in a file.
   */
  lemma ManifestCoversExactly(log: Log, committed: map<Part, nat>, ms: seq<Message>, manifest: Manifest,
                              p: Part, o: nat)
    requires ReadInOrder(log, committed, ms) && Describes(manifest, ms)
    requires (p, o) in log && Start(committed, p) <= o
    ensures p in manifest.offsets && o < manifest.offsets[p] <==> At(log, p, o) in ms
    ensures At(log, p, o) in ms ==>
      match log[(p, o)]
      case Decodes(r) => exists k :: 0 <= k < |manifest.files| && r in manifest.files[k]
      case Undecodable => exists k :: 0 <= k < |manifest.deadLetterFiles| && At(log, p, o) in manifest.deadLetterFiles[k]
  {
    NextIsPastLargest(ms);
    var m := At(log, p, o);
    if m in ms {
      StagedOrDead(ms, m);
      if m.payload.Decodes? {
        InFlattened(manifest.files, m.payload.record);
      } else {
        InFlattened(manifest.deadLetterFiles, m);
      }
    }
  }

  // ---- the consumer --------------------------------------------------------------------------

  function Messages(batch: seq<Polled>): (ms: seq<Message>)
    ensures |ms| == |batch|
  {
    seq(|batch|, k requires 0 <= k < |batch| => batch[k].message)
  }

  /** Everything the broker would hand out. */
  function All(coming: seq<seq<Polled>>): seq<Message> {
    if coming == [] then [] else Messages(coming[0]) + All(coming[1..])
  }

  /** No decode failure is coming. */
  predicate Steady(coming: seq<seq<Polled>>) {
    forall k, j :: 0 <= k < |coming| && 0 <= j < |coming[k]| ==> !coming[k][j].transient
  }

  /** The last k answers of the broker were empty. */
  predicate LastEmpty(answers: seq<nat>, k: nat) {
    k <= |answers| && forall j :: |answers| - k <= j < |answers| ==> answers[j] == 0
  }

  /**
   * The polls of one batch: all but the last were full, the last was not or
   * enough records were there, and they were not before it.
   */
  predicate GoesOnWhileFull(before: seq<nat>, after: seq<nat>, size: nat, records: nat) {
    && before < after
    && (forall j :: |before| <= j < |after| - 1 ==> after[j] >= size)
    && (after[|after| - 1] < size || records >= size)
    && records < size + after[|after| - 1]
  }

  /** What was polled since, as records and dead letters. */
  ghost predicate Collected(before: seq<Message>, after: seq<Message>, records: seq<Record>, dead: seq<Message>) {
    Staged(after) == Staged(before) + records && Dead(after) == Dead(before) + dead
  }

  lemma CollectedMore(a: seq<Message>, b: seq<Message>, c: seq<Message>, r: seq<Record>, d: seq<Message>,
                      r': seq<Record>, d': seq<Message>)
    requires Collected(a, b, r, d) && Collected(b, c, r', d')
    ensures Collected(a, c, r + r', d + d')
  {
    assert Staged(a) + r + r' == Staged(a) + (r + r');
    assert Dead(a) + d + d' == Dead(a) + (d + d');
  }

  /** In the middle of it: every poll was full. */
  predicate AllFull(before: seq<nat>, after: seq<nat>, size: nat) {
    before <= after && forall j :: |before| <= j < |after| ==> after[j] >= size
  }

  lemma AllFullStops(before: seq<nat>, after: seq<nat>, size: nat, records: nat, n: nat, more: nat)
    requires AllFull(before, after, size) && records < size && more <= n
    ensures n < size || records + more >= size ==> GoesOnWhileFull(before, after + [n], size, records + more)
    ensures n >= size ==> AllFull(before, after + [n], size)
  {
  }

  class TransactionConsumer {
    const BATCH_SIZE: nat
    var nextOffsets: map<Part, nat>
    var lastPolled: nat
    var deadLetterCount: nat
    var deadLetterFiles: seq<seq<Message>>
    /** What getmany will return: the behaviour of the broker. */
    var coming: seq<seq<Polled>>
    ghost var polled: seq<Message>
    ghost var answers: seq<nat>      // how many messages each getmany returned

    constructor (batchSize: nat, broker: seq<seq<Polled>>)
      ensures BATCH_SIZE == batchSize && coming == broker
      ensures Valid() && polled == [] && lastPolled == 0
    {
      BATCH_SIZE, coming := batchSize, broker;
      nextOffsets, lastPolled, deadLetterCount, deadLetterFiles := map[], 0, 0, [];
      polled, answers := [], [];
    }

    ghost predicate Tracks(ms: seq<Message>)
      reads this
    {
      nextOffsets == NextOffsets(ms) && deadLetterCount == |Dead(ms)|
    }

    /** The bookkeeping agrees with what has been polled. */
    ghost predicate Valid()
      reads this
    {
      Tracks(polled) && Flatten(deadLetterFiles) == Dead(polled)
    }

    /** getmany; `polled` records everything the broker handed out. */
    method PollOnce() returns (batch: seq<Polled>)
      modifies this`coming, this`polled, this`answers
      ensures if old(coming) == [] then batch == [] && coming == []
              else batch == old(coming)[0] && coming == old(coming)[1..]
      ensures polled == old(polled) + Messages(batch) && answers == old(answers) + [|batch|]
      ensures polled + All(coming) == old(polled) + All(old(coming))
    {
      if coming == [] {
        batch := [];
      } else {
        batch := coming[0];
        coming := coming[1..];
      }
      polled := polled + Messages(batch);
      answers := answers + [|batch|];
    }

    method Advance(m: Message)
      modifies this`nextOffsets
      ensures nextOffsets == Next(old(nextOffsets), m)
      ensures m.part in nextOffsets && m.offset < nextOffsets[m.part]
      ensures forall p <- old(nextOffsets) :: p in nextOffsets && old(nextOffsets)[p] <= nextOffsets[p]
    {
      var next := if m.part in nextOffsets then nextOffsets[m.part] else 0;
      nextOffsets := nextOffsets[m.part := Max(next, m.offset + 1)];
    }

    /** _decode_all; not ok is a transient failure, which fails the extract. */
    method DecodeAll(batch: seq<Polled>, ghost before: seq<Message>)
      returns (records: seq<Record>, dead: seq<Message>, ok: bool)
      requires Tracks(before)
      modifies this`nextOffsets, this`deadLetterCount
      ensures ok ==> Tracks(before + Messages(batch))
      ensures ok ==> Staged(before + Messages(batch)) == Staged(before) + records
      ensures ok ==> Dead(before + Messages(batch)) == Dead(before) + dead
      ensures ok ==> |records| + |dead| == |batch|
      ensures ok <==> forall k :: 0 <= k < |batch| ==> !batch[k].transient
    {
      records, dead := [], [];
      ghost var seen := before;
      var k := 0;
      while k < |batch|
        invariant 0 <= k <= |batch|
        invariant seen == before + Messages(batch[..k]) && Tracks(seen)
        invariant Staged(seen) == Staged(before) + records && Dead(seen) == Dead(before) + dead
        invariant |records| + |dead| == k && forall j :: 0 <= j < k ==> !batch[j].transient
      {
        var m := batch[k].message;
        if batch[k].transient {
          ok := false;
          return;
        }
        Appended(seen, m);
        if m.payload.Decodes? {
          records := records + [m.payload.record];
        } else {
          deadLetterCount := deadLetterCount + 1;
          dead := dead + [m];
        }
        Advance(m);
        seen := seen + [m];
        assert Messages(batch[..k + 1]) == Messages(batch[..k]) + [m];
        k := k + 1;
      }
      assert batch[..k] == batch;
      ok := true;
    }

    /** One poll and its decoding; n is the number of messages polled. */
    method PollAndDecode() returns (n: nat, records: seq<Record>, dead: seq<Message>, ok: bool)
      requires Tracks(polled)
      modifies this`nextOffsets, this`deadLetterCount, this`coming, this`polled, this`answers
      ensures answers == old(answers) + [n]
      ensures Steady(old(coming)) ==> ok && Steady(coming)
      ensures n == |polled| - |old(polled)| && old(polled) <= polled
      ensures ok ==> Tracks(polled) && |records| <= n
      ensures ok ==> Staged(polled) == Staged(old(polled)) + records
      ensures ok ==> Dead(polled) == Dead(old(polled)) + dead
      ensures n == 0 ==> ok && records == []
      ensures |coming| == if old(coming) == [] then 0 else |old(coming)| - 1
      ensures old(coming) == [] ==> n == 0
      ensures polled + All(coming) == old(polled) + All(old(coming))
    {
      ghost var before := polled;
      var batch := PollOnce();
      n := |batch|;
      if batch == [] {
        assert polled == before;
        return 0, [], [], true;
      }
      records, dead, ok := DecodeAll(batch, before);
    }

    /** consume_batch: returns the records of the new file, none when nothing was decoded. */
    method ConsumeBatch() returns (file: Option<seq<Record>>, ok: bool)
      requires Valid()
      requires BATCH_SIZE > 0
      modifies this`nextOffsets, this`lastPolled, this`deadLetterCount, this`deadLetterFiles, this`coming, this`polled,
        this`answers
      ensures ok && lastPolled == 0 ==> answers == old(answers) + [0]
      ensures Steady(old(coming)) ==> ok && Steady(coming)
      ensures ok ==> Valid() && lastPolled == |polled| - |old(polled)|
      ensures ok ==> Staged(polled) == Staged(old(polled)) + if file.Some? then file.value else []
      ensures file.Some? ==> file.value != []
      ensures old(polled) <= polled
      ensures |coming| <= |old(coming)| && (BATCH_SIZE > 0 && old(coming) != [] ==> |coming| < |old(coming)|)
      ensures ok && old(coming) == [] ==> lastPolled == 0
      ensures polled + All(coming) == old(polled) + All(old(coming))
    {
      var records, dead, decodedAll := PollBatch();
      if !decodedAll {
        return None, false;
      }
      if dead != [] {
        FlattenAppended(deadLetterFiles, dead);
        deadLetterFiles := deadLetterFiles + [dead];
      }
      file := if records == [] then None else Some(records);
      ok := true;
    }

    /** The polling loop of consume_batch. */
    method PollBatch() returns (records: seq<Record>, dead: seq<Message>, ok: bool)
      requires Tracks(polled) && BATCH_SIZE > 0
      modifies this`nextOffsets, this`lastPolled, this`deadLetterCount, this`coming, this`polled, this`answers
      ensures ok && lastPolled == 0 ==> answers == old(answers) + [0]
      ensures Steady(old(coming)) ==> ok && Steady(coming)
      ensures ok ==> Tracks(polled) && lastPolled == |polled| - |old(polled)|
      ensures ok ==> Staged(polled) == Staged(old(polled)) + records && Dead(polled) == Dead(old(polled)) + dead
      ensures old(polled) <= polled
      ensures |coming| <= |old(coming)| && (BATCH_SIZE > 0 && old(coming) != [] ==> |coming| < |old(coming)|)
      ensures ok && old(coming) == [] ==> lastPolled == 0
      ensures polled + All(coming) == old(polled) + All(old(coming))
      // It goes on after full polls only, while records are missing.
      ensures ok ==> GoesOnWhileFull(old(answers), answers, BATCH_SIZE, |records|)
    {
      records, dead := [], [];
      lastPolled := 0;
      var more := true;
      while more && |records| < BATCH_SIZE
        invariant Tracks(polled)
        invariant Collected(old(polled), polled, records, dead)
        invariant old(polled) <= polled && lastPolled == |polled| - |old(polled)|
        invariant Steady(old(coming)) ==> Steady(coming)
        invariant lastPolled == 0 ==> if more then answers == old(answers) else answers == old(answers) + [0]
        invariant records != [] ==> lastPolled > 0
        invariant |coming| <= |old(coming)|
        invariant old(coming) == [] ==> lastPolled == 0
        invariant polled + All(coming) == old(polled) + All(old(coming))
        invariant |coming| == |old(coming)| ==> records == [] && (more || old(coming) == [])
        invariant more && |records| < BATCH_SIZE ==> AllFull(old(answers), answers, BATCH_SIZE)
        invariant !more || |records| >= BATCH_SIZE ==> GoesOnWhileFull(old(answers), answers, BATCH_SIZE, |records|)
        decreases if more then 1 else 0, |coming|
      {
        ghost var before, seen := answers, polled;
        var n, decoded, undecodable, decodedAll := PollAndDecode();
        if !decodedAll {
          ok := false;
          return;
        }
        CollectedMore(old(polled), seen, polled, records, dead, decoded, undecodable);
        AllFullStops(old(answers), before, BATCH_SIZE, |records|, n, |decoded|);
        lastPolled := lastPolled + n;
        records := records + decoded;
        dead := dead + undecodable;
        more := n != 0 && n >= BATCH_SIZE;
      }
      ok := true;
    }

    /** drain: batches until enough polls in a row found nothing, or enough files. */
    method Drain(maxBatches: nat, maxEmptyPolls: nat) returns (manifest: Option<Manifest>)
      requires Valid() && polled == [] && BATCH_SIZE > 0
      modifies this`nextOffsets, this`lastPolled, this`deadLetterCount, this`deadLetterFiles, this`coming, this`polled,
        this`answers
      ensures manifest.Some? ==> Describes(manifest.value, polled)
      ensures manifest.Some? ==> |manifest.value.files| == maxBatches || LastEmpty(answers, maxEmptyPolls)
      ensures Steady(old(coming)) ==> manifest.Some?
      ensures polled + All(coming) == old(polled) + All(old(coming))
      ensures manifest.Some? ==> |manifest.value.files| <= maxBatches && forall f <- manifest.value.files :: f != []
    {
      var files: seq<seq<Record>> := [];
      var records, emptyPolls := 0, 0;
      while emptyPolls < maxEmptyPolls && |files| < maxBatches
        invariant Valid()
        invariant Flatten(files) == Staged(polled) && records == |Staged(polled)|
        invariant emptyPolls <= maxEmptyPolls && |files| <= maxBatches && LastEmpty(answers, emptyPolls)
        invariant Steady(old(coming)) ==> Steady(coming)
        invariant forall f <- files :: f != []
        invariant polled + All(coming) == old(polled) + All(old(coming))
        decreases |coming|, maxEmptyPolls - emptyPolls
      {
        ghost var before := polled;
        var file, ok := ConsumeBatch();
        if !ok {
          return None;
        }
        if lastPolled == 0 {
          assert polled == before;
          emptyPolls := emptyPolls + 1;
        } else {
          emptyPolls := 0;
          if file.Some? {
            FlattenAppended(files, file.value);
            files := files + [file.value];
            records := records + |file.value|;
          }
        }
      }
      manifest := Some(Manifest(nextOffsets, files, records, deadLetterFiles, deadLetterCount));
    }
  }
}
