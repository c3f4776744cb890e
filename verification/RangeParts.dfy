/** Ranged download: split a large file into parts, fetch the parts concurrently, and merge them. */
module RangeParts {
  import opened Options
  import opened DownloadTypes
  import opened ResumeDownload

  /** The bytes first to last of the file, both included. */
  datatype Part = Part(first: nat, last: nat) {
    function Expected(): int { last - first + 1 }
  }

  // ---- Splitting --------------------------------------------------------------------------------------------

  /** Non-empty parts, each starting where the one before it ends, from 0 up to the size. */
  predicate Tiles(parts: seq<Part>, size: nat) {
    if parts == [] then size == 0
    else
      var part := parts[|parts| - 1];
      part.first <= part.last && part.last + 1 == size && Tiles(parts[..|parts| - 1], part.first)
  }

  /** Every byte of the file is in exactly one part, and the parts are in order. */
  lemma {:induction false} TilesCoverOnce(parts: seq<Part>, size: nat, position: nat)
    requires Tiles(parts, size)
    ensures position < size <==> exists i :: 0 <= i < |parts| && parts[i].first <= position <= parts[i].last
    ensures forall i | 0 <= i < |parts| :: parts[i].first <= parts[i].last < size
    ensures forall i, j | 0 <= i < j < |parts| :: parts[i].last < parts[j].first
  {
    if parts != [] {
      var n := |parts| - 1;
      TilesCoverOnce(parts[..n], parts[n].first, position);
      if position < parts[n].first {
        var i :| 0 <= i < n && parts[..n][i].first <= position <= parts[..n][i].last;
        assert parts[i].first <= position <= parts[i].last;
      } else if position < size {
        assert parts[n].first <= position <= parts[n].last;
      }
    }
  }

  lemma TilesSnoc(parts: seq<Part>, size: nat, last: nat)
    requires Tiles(parts, size) && size <= last
    ensures Tiles(parts + [Part(size, last)], last + 1)
  {
    assert (parts + [Part(size, last)])[..|parts|] == parts;
  }

  /** n times d, by addition. */
  function Times(n: nat, d: nat): nat {
    if n == 0 then 0 else Times(n - 1, d) + d
  }

  lemma {:induction false} TimesIsProduct(n: nat, d: nat)
    ensures Times(n, d) == n * d
  {
    if n > 0 {
      TimesIsProduct(n - 1, d);
      assert n * d == (n - 1) * d + d;
    }
  }

  /** Part i of a file of the given size. */
  function PartAt(i: nat, partSize: nat, size: nat): Part
    requires partSize > 0 && Times(i, partSize) < size
  {
    var next := Times(i, partSize) + partSize;
    Part(Times(i, partSize), if next <= size then next - 1 else size - 1)
  }

  lemma {:induction false} TimesMonotone(m: nat, n: nat, d: nat)
    requires m <= n
    ensures Times(m, d) <= Times(n, d)
  {
    if m < n {
      TimesMonotone(m, n - 1, d);
    }
  }

  /** What full parts leave over is less than one part. */
  lemma FullPartsFit(size: nat, d: nat)
    requires d > 0
    ensures 0 <= size - Times(size / d, d) < d
  {
    TimesIsProduct(size / d, d);
  }

  /** The first n full parts. */
  function FullParts(n: nat, partSize: nat): (parts: seq<Part>)
    requires partSize > 0
    ensures |parts| == n && Tiles(parts, Times(n, partSize))
  {
    if n == 0 then []
    else
      var before := FullParts(n - 1, partSize);
      var first := Times(n - 1, partSize);
      TilesSnoc(before, first, first + partSize - 1);
      before + [Part(first, first + partSize - 1)]
  }

  lemma {:induction false} FullPartAt(n: nat, partSize: nat, i: nat)
    requires partSize > 0 && i < n
    ensures FullParts(n, partSize)[i] == Part(Times(i, partSize), Times(i, partSize) + partSize - 1)
  {
    if i < n - 1 {
      FullPartAt(n - 1, partSize, i);
    }
  }

  /** Full parts first, then the remainder if there is one. */
  function AllParts(size: nat, partSize: nat): (parts: seq<Part>)
    requires partSize > 0
    ensures Tiles(parts, size)
  {
    var full := FullParts(size / partSize, partSize);
    var end := Times(size / partSize, partSize);
    FullPartsFit(size, partSize);
    if end == size then full
    else
      TilesSnoc(full, end, size - 1);
      full + [Part(end, size - 1)]
  }

  /** Every part but the last is full, none is larger, and part i starts at i times the part size. */
  lemma PartIsEven(size: nat, partSize: nat, i: nat)
    requires partSize > 0 && i < |AllParts(size, partSize)|
    ensures var parts := AllParts(size, partSize);
      && Times(i, partSize) < size && parts[i] == PartAt(i, partSize, size)
      && parts[i].Expected() <= partSize && (i < |parts| - 1 ==> parts[i].Expected() == partSize)
  {
    var full := size / partSize;
    FullPartsFit(size, partSize);
    if i < full {
      FullPartAt(full, partSize, i);
      TimesMonotone(i + 1, full, partSize);
    }
  }

  method SplitParts(size: nat, partSize: nat) returns (parts: seq<Part>)
    requires partSize > 0
    ensures parts == AllParts(size, partSize) && Tiles(parts, size)
  {
    FullPartsFit(size, partSize);
    var full := size / partSize;
    var start := 0;
    parts := [];
    for i := 0 to full
      invariant parts == FullParts(i, partSize) && start == Times(i, partSize)
    {
      parts := parts + [Part(start, start + partSize - 1)];
      start := start + partSize;
    }
    if start < size {
      parts := parts + [Part(start, size - 1)];
    }
  }

  // ---- Workers ----------------------------------------------------------------------------------------------

  /** A worker is at the head of its loop, waits for an answer to a request from some byte, receives a body that the
      server has sent up to `cursor`, or has ended. */
  datatype Phase = Ready | Asked(from: nat) | Receiving(cursor: nat) | Finished | Lost(error: Error)

  datatype Worker = Worker(phase: Phase, left: nat)

  /** Worker i fetches part i into file i; `stop` is the cancellation flag the group shares. */
  datatype State = State(files: seq<Option<Bytes>>, workers: seq<Worker>, stop: bool)

  datatype Step =
    | Begin(i: nat)
    | Accept(i: nat, field: RangeField)
    | Refuse(i: nat, reply: Reply, granted: bool)
    | Chunk(i: nat, bytes: Bytes)
    | Close(i: nat, granted: bool)
    | Break(i: nat, error: RequestError, granted: bool)
    | StopGroup(i: nat)

  function Size(file: Option<Bytes>): nat {
    if file.Some? then |file.value| else 0
  }

  predicate Shaped(parts: seq<Part>, s: State) {
    |s.files| == |parts| && |s.workers| == |parts|
  }

  predicate Able(worker: Worker, step: Step) {
    match step
    case Begin(_) => worker.phase.Ready?
    case Accept(_, _) => worker.phase.Asked?
    case Refuse(_, reply, _) => worker.phase.Asked? && !reply.Response?
    case Chunk(_, _) => worker.phase.Receiving?
    case Close(_, _) => worker.phase.Receiving?
    case Break(_, _, _) => worker.phase.Receiving?
    case StopGroup(_) => worker.phase.Lost?
  }

  predicate Enabled(parts: seq<Part>, s: State, step: Step) {
    Shaped(parts, s) && step.i < |parts| && Able(s.workers[step.i], step)
  }

  /** A failed attempt goes back to the head of the loop or ends the worker. */
  function Retry(worker: Worker, error: Error, stop: bool, granted: bool): Worker {
    var final := if error.RangeIgnored? then Some(error) else AfterFailure(error, worker.left, stop, granted);
    if final.Some? then worker.(phase := Lost(final.value)) else Worker(Ready, worker.left - 1)
  }

  /** What a response to a request for bytes from..last means: exactly this range, another range, or another object. */
  function Admit(part: Part, size: nat, from: nat, field: RangeField): Phase {
    var range := ParseContentRange(field);
    if range.Some? && range.value.total.Some? && range.value.total.value != size then Lost(SizeMismatch)
    else if range == None || range.value.first != from || range.value.last != part.last then Lost(RangeIgnored)
    else Receiving(from)
  }

  /** What a step does to the worker that takes it and to its part file. */
  function Act(part: Part, size: nat, stop: bool, worker: Worker, file: Option<Bytes>, step: Step)
    : (r: (Worker, Option<Bytes>))
    requires Able(worker, step)
  {
    match step
    case Begin(_) =>
      if stop then (worker.(phase := Lost(Stopped)), file)
      else
        var kept := if Size(file) > part.Expected() then None else file;
        if part.first + Size(kept) > part.last then (worker.(phase := Finished), kept)
        else (worker.(phase := Asked(part.first + Size(kept))), kept)
    case Accept(_, field) =>
      (worker.(phase := if stop then Lost(Stopped) else Admit(part, size, worker.phase.from, field)), file)
    case Refuse(_, reply, granted) =>
      (Retry(worker, if reply.Unsatisfiable? then SizeMismatch else reply.error, stop, granted), file)
    case Chunk(_, bytes) =>
      if Size(file) + |bytes| > part.Expected() then (worker.(phase := Lost(SizeMismatch)), file)
      else (worker.(phase := Receiving(worker.phase.cursor + |bytes|)),
            Some((if file.Some? then file.value else []) + bytes))
    case Close(_, granted) =>
      (if Size(file) == part.Expected() then worker.(phase := Finished) else Retry(worker, Incomplete, stop, granted),
       file)
    case Break(_, error, granted) => (Retry(worker, error, stop, granted), file)
    case StopGroup(_) => (worker, file)
  }

  function Apply(parts: seq<Part>, size: nat, s: State, step: Step): (next: State)
    requires Enabled(parts, s, step)
    ensures Shaped(parts, next)
  {
    var i := step.i;
    var (worker, file) := Act(parts[i], size, s.stop, s.workers[i], s.files[i], step);
    State(s.files[i := file], s.workers[i := worker], s.stop || step.StopGroup?)
  }

  /** Every worker starts at the head of its loop, over whatever files earlier runs left behind. */
  predicate Initial(parts: seq<Part>, s: State, retries: nat) {
    Shaped(parts, s) && !s.stop && forall w | w in s.workers :: w == Worker(Ready, retries)
  }

  predicate IsRun(parts: seq<Part>, size: nat, s: State, steps: seq<Step>)
    decreases |steps|
  {
    if steps == [] then true
    else Enabled(parts, s, steps[0]) && IsRun(parts, size, Apply(parts, size, s, steps[0]), steps[1..])
  }

  function After(parts: seq<Part>, size: nat, s: State, steps: seq<Step>): State
    requires IsRun(parts, size, s, steps)
    decreases |steps|
  {
    if steps == [] then s else After(parts, size, Apply(parts, size, s, steps[0]), steps[1..])
  }

  // ---- What holds against any server -------------------------------------------------------------------------

  predicate WorkerInv(part: Part, worker: Worker, file: Option<Bytes>) {
    match worker.phase
    case Asked(from) => from == part.first + Size(file) && from <= part.last
    case Receiving(cursor) => cursor == part.first + Size(file) && cursor <= part.last + 1
    case Finished => file.Some? && |file.value| == part.Expected()
    case _ => true
  }

  ghost predicate Inv(parts: seq<Part>, s: State) {
    Shaped(parts, s) && forall i | 0 <= i < |parts| :: WorkerInv(parts[i], s.workers[i], s.files[i])
  }

  /** Received bytes are never given up, whatever breaks: a file only grows, unless it is longer than its part and
      so belongs to another split. */
  predicate Grown(part: Part, before: Option<Bytes>, after: Option<Bytes>) {
    before.Some? && |before.value| <= part.Expected() ==> after.Some? && before.value <= after.value
  }

  lemma ActKeepsInv(part: Part, size: nat, stop: bool, worker: Worker, file: Option<Bytes>, step: Step)
    requires part.first <= part.last && Able(worker, step) && WorkerInv(part, worker, file)
    ensures var (worker', file') := Act(part, size, stop, worker, file, step);
      WorkerInv(part, worker', file') && Grown(part, file, file')
  {
  }

  predicate Positive(parts: seq<Part>) {
    forall i | 0 <= i < |parts| :: parts[i].first <= parts[i].last
  }

  lemma StepKeepsInv(parts: seq<Part>, size: nat, s: State, step: Step)
    requires Positive(parts) && Enabled(parts, s, step) && Inv(parts, s)
    ensures Inv(parts, Apply(parts, size, s, step))
    ensures var next := Apply(parts, size, s, step);
      forall i | 0 <= i < |parts| :: Grown(parts[i], s.files[i], next.files[i])
  {
    var i := step.i;
    assert WorkerInv(parts[i], s.workers[i], s.files[i]);
    ActKeepsInv(parts[i], size, s.stop, s.workers[i], s.files[i], step);
  }

  // ---- What holds against an honest server -------------------------------------------------------------------

  /** The honest server may refuse, break off, or ignore ranges, but a body it sends under a range is that range of
      the object. */
  predicate HonestAct(whole: Bytes, worker: Worker, step: Step) {
    match step
    case Accept(_, field) =>
      var range := ParseContentRange(field);
      range.Some? ==> range.value.last < |whole| && (range.value.total.Some? ==> range.value.total.value == |whole|)
    case Chunk(_, bytes) =>
      worker.phase.Receiving? ==>
        var cursor := worker.phase.cursor;
        cursor + |bytes| <= |whole| && bytes == whole[cursor..cursor + |bytes|]
    case _ => true
  }

  predicate HonestStep(whole: Bytes, s: State, step: Step)
    requires step.i < |s.workers|
  {
    HonestAct(whole, s.workers[step.i], step)
  }

  predicate HonestRun(parts: seq<Part>, size: nat, whole: Bytes, s: State, steps: seq<Step>)
    requires IsRun(parts, size, s, steps)
    decreases |steps|
  {
    steps == []
    || (HonestStep(whole, s, steps[0])
        && HonestRun(parts, size, whole, Apply(parts, size, s, steps[0]), steps[1..]))
  }

  /** The content of a part file is what the object holds from the start of the part. */
  predicate SliceOf(whole: Bytes, part: Part, file: Option<Bytes>) {
    Size(file) == 0 || (part.first + Size(file) <= |whole| && file.value == whole[part.first..part.first + Size(file)])
  }

  /** A part file holds its slice of the object, or is about to be dropped for being too long. */
  predicate Usable(whole: Bytes, part: Part, worker: Worker, file: Option<Bytes>) {
    SliceOf(whole, part, file) || (Size(file) > part.Expected() && (worker.phase.Ready? || worker.phase.Lost?))
  }

  ghost predicate AllUsable(parts: seq<Part>, whole: Bytes, s: State)
    requires Shaped(parts, s)
  {
    forall i | 0 <= i < |parts| :: Usable(whole, parts[i], s.workers[i], s.files[i])
  }

  lemma ActKeepsUsable(whole: Bytes, part: Part, size: nat, stop: bool, worker: Worker, file: Option<Bytes>,
                       step: Step)
    requires part.first <= part.last && Able(worker, step) && WorkerInv(part, worker, file)
    requires HonestAct(whole, worker, step) && Usable(whole, part, worker, file)
    ensures var (worker', file') := Act(part, size, stop, worker, file, step);
      Usable(whole, part, worker', file')
  {
    if step.Chunk? && Size(file) + |step.bytes| <= part.Expected() {
      var cursor := worker.phase.cursor;
      var end := cursor + |step.bytes|;
      assert whole[part.first..end] == whole[part.first..cursor] + whole[cursor..end];
    }
  }

  lemma HonestStepKeepsUsable(parts: seq<Part>, size: nat, whole: Bytes, s: State, step: Step)
    requires Positive(parts) && Enabled(parts, s, step) && Inv(parts, s)
    requires HonestStep(whole, s, step) && AllUsable(parts, whole, s)
    ensures AllUsable(parts, whole, Apply(parts, size, s, step))
  {
    var i := step.i;
    assert WorkerInv(parts[i], s.workers[i], s.files[i]) && Usable(whole, parts[i], s.workers[i], s.files[i]);
    ActKeepsUsable(whole, parts[i], size, s.stop, s.workers[i], s.files[i], step);
  }

  lemma {:induction false} RunKeepsInv(parts: seq<Part>, size: nat, s: State, steps: seq<Step>)
    requires Positive(parts) && Inv(parts, s) && IsRun(parts, size, s, steps)
    ensures Inv(parts, After(parts, size, s, steps))
    decreases |steps|
  {
    if steps != [] {
      StepKeepsInv(parts, size, s, steps[0]);
      RunKeepsInv(parts, size, Apply(parts, size, s, steps[0]), steps[1..]);
    }
  }

  lemma {:induction false} HonestRunKeepsUsable(parts: seq<Part>, size: nat, whole: Bytes, s: State, steps: seq<Step>)
    requires Positive(parts) && Inv(parts, s) && IsRun(parts, size, s, steps)
    requires HonestRun(parts, size, whole, s, steps) && AllUsable(parts, whole, s)
    ensures Inv(parts, After(parts, size, s, steps)) && AllUsable(parts, whole, After(parts, size, s, steps))
    decreases |steps|
  {
    if steps != [] {
      StepKeepsInv(parts, size, s, steps[0]);
      HonestStepKeepsUsable(parts, size, whole, s, steps[0]);
      HonestRunKeepsUsable(parts, size, whole, Apply(parts, size, s, steps[0]), steps[1..]);
    }
  }

  // ---- Progress ----------------------------------------------------------------------------------------------------

  /** The requests that worker i makes in a run: passes of its loop that find something missing. */
  function Requests(parts: seq<Part>, size: nat, s: State, steps: seq<Step>, i: nat): nat
    requires IsRun(parts, size, s, steps) && i < |parts|
    decreases |steps|
  {
    if steps == [] then 0
    else
      var next := Apply(parts, size, s, steps[0]);
      (if steps[0] == Begin(i) && next.workers[i].phase.Asked? then 1 else 0)
      + Requests(parts, size, next, steps[1..], i)
  }

  function MayAsk(worker: Worker): nat {
    worker.left + if worker.phase.Ready? then 1 else 0
  }

  /** Against any server a worker makes at most retries + 1 requests. */
  lemma {:induction false} RequestsAreBounded(parts: seq<Part>, size: nat, s: State, steps: seq<Step>, i: nat)
    requires IsRun(parts, size, s, steps) && i < |parts| && Shaped(parts, s)
    ensures Requests(parts, size, s, steps, i) <= MayAsk(s.workers[i])
    decreases |steps|
  {
    if steps != [] {
      RequestsAreBounded(parts, size, Apply(parts, size, s, steps[0]), steps[1..], i);
    }
  }

  /** The worker that asked for the bytes from `from` on is answered with exactly them, in one piece. */
  function Answered(whole: Bytes, part: Part, asked: Worker, file: Option<Bytes>, from: nat)
    : (r: Option<(Worker, Option<Bytes>)>)
    requires asked.phase.Asked? && from <= part.last + 1 <= |whole|
  {
    var (w, f) := Act(part, |whole|, false, asked, file, Accept(0, Field(from, part.last, Some(|whole|))));
    if !w.phase.Receiving? then None
    else
      var (w', f') := Act(part, |whole|, false, w, f, Chunk(0, whole[from..part.last + 1]));
      if !w'.phase.Receiving? then None else Some(Act(part, |whole|, false, w', f', Close(0, true)))
  }

  /** One answer with exactly the range that is missing completes a part from whatever usable bytes are there. */
  lemma DeliveringAnswerFinishes(whole: Bytes, part: Part, worker: Worker, file: Option<Bytes>)
    returns (asked: Worker, kept: Option<Bytes>)
    requires part.first <= part.last < |whole| && worker.phase.Ready?
    requires SliceOf(whole, part, file) || Size(file) > part.Expected()
    ensures (asked, kept) == Act(part, |whole|, false, worker, file, Begin(0))
    ensures asked.phase.Finished? ==> kept == Some(whole[part.first..part.last + 1])
    ensures !asked.phase.Finished? ==> asked.phase.Asked? && part.first <= asked.phase.from <= part.last
    ensures !asked.phase.Finished? ==>
      Answered(whole, part, asked, kept, asked.phase.from)
        == Some((asked.(phase := Finished), Some(whole[part.first..part.last + 1])))
  {
    var r := Act(part, |whole|, false, worker, file, Begin(0));
    asked, kept := r.0, r.1;
    var from := part.first + Size(kept);
    if from <= part.last {
      assert whole[part.first..part.last + 1] == whole[part.first..from] + whole[from..part.last + 1];
      assert Size(kept) == 0 ==> whole[part.first..from] == [];
    }
  }

  // ---- Merging -------------------------------------------------------------------------------------------------

  function Merged(files: seq<Option<Bytes>>): Bytes {
    if files == [] then []
    else Merged(files[..|files| - 1]) + (if files[|files| - 1].Some? then files[|files| - 1].value else [])
  }

  predicate AllFinished(s: State) {
    forall w | w in s.workers :: w.phase.Finished?
  }

  lemma {:induction false} MergedHasSize(parts: seq<Part>, size: nat, files: seq<Option<Bytes>>)
    requires Tiles(parts, size) && |files| == |parts|
    requires forall i | 0 <= i < |parts| :: Size(files[i]) == parts[i].Expected()
    ensures |Merged(files)| == size
  {
    if parts != [] {
      var n := |parts| - 1;
      MergedHasSize(parts[..n], parts[n].first, files[..n]);
    }
  }

  lemma {:induction false} MergedIsPrefix(parts: seq<Part>, size: nat, whole: Bytes, files: seq<Option<Bytes>>)
    requires Tiles(parts, size) && |files| == |parts|
    requires forall i | 0 <= i < |parts| ::
      Size(files[i]) == parts[i].Expected() && SliceOf(whole, parts[i], files[i])
    ensures size <= |whole| && Merged(files) == whole[..size]
  {
    if parts != [] {
      var n := |parts| - 1;
      var first := parts[n].first;
      MergedIsPrefix(parts[..n], first, whole, files[..n]);
      assert Size(files[n]) == parts[n].Expected() && SliceOf(whole, parts[n], files[n]);
      assert whole[..size] == whole[..first] + whole[first..size];
    }
  }

  lemma FinishedFiles(parts: seq<Part>, s: State, i: nat)
    requires Inv(parts, s) && AllFinished(s) && i < |parts|
    ensures s.files[i].Some? && Size(s.files[i]) == parts[i].Expected()
  {
    assert WorkerInv(parts[i], s.workers[i], s.files[i]);
    assert s.workers[i] in s.workers;
  }

  /** However the workers interleave, break off and resume against any server: when all of them finish, every part
      file is there and the merged file has exactly the listed size. */
  lemma FinishedRunHasSize(parts: seq<Part>, size: nat, s: State, retries: nat, steps: seq<Step>)
    requires Tiles(parts, size) && Initial(parts, s, retries) && IsRun(parts, size, s, steps)
    requires AllFinished(After(parts, size, s, steps))
    ensures var files := After(parts, size, s, steps).files;
      |Merged(files)| == size && forall file | file in files :: file.Some?
  {
    TilesCoverOnce(parts, size, 0);
    StartKeepsInv(parts, s, retries);
    RunKeepsInv(parts, size, s, steps);
    AllFinishedHaveSize(parts, size, After(parts, size, s, steps));
  }

  lemma AllFinishedHaveSize(parts: seq<Part>, size: nat, s: State)
    requires Tiles(parts, size) && Inv(parts, s) && AllFinished(s)
    ensures |Merged(s.files)| == size && forall file | file in s.files :: file.Some?
  {
    forall i | 0 <= i < |parts| ensures s.files[i].Some? && Size(s.files[i]) == parts[i].Expected() {
      FinishedFiles(parts, s, i);
    }
    MergedHasSize(parts, size, s.files);
  }

  lemma StartKeepsInv(parts: seq<Part>, s: State, retries: nat)
    requires Initial(parts, s, retries)
    ensures Inv(parts, s)
  {
    forall i | 0 <= i < |parts| ensures WorkerInv(parts[i], s.workers[i], s.files[i]) {
      assert s.workers[i] in s.workers;
    }
  }

  /** Against an honest server the merged file is the object's prefix of the listed size, so the object itself, which
      is also all that the single stream can publish, when the listing is right.  Earlier runs may have left slices
      of the object, or files that are too long for their part. */
  lemma HonestRunMergesToObject(parts: seq<Part>, size: nat, whole: Bytes, s: State, retries: nat, steps: seq<Step>)
    requires Tiles(parts, size) && Initial(parts, s, retries) && IsRun(parts, size, s, steps)
    requires AllFinished(After(parts, size, s, steps))
    requires HonestRun(parts, size, whole, s, steps) && AllUsable(parts, whole, s)
    ensures var merged := Merged(After(parts, size, s, steps).files);
      && size <= |whole| && merged == whole[..size]
      && (size == |whole| ==> merged == whole)
  {
    TilesCoverOnce(parts, size, 0);
    StartKeepsInv(parts, s, retries);
    HonestRunKeepsUsable(parts, size, whole, s, steps);
    UsableMergeToObject(parts, size, whole, After(parts, size, s, steps));
    assert whole[..|whole|] == whole;
  }

  lemma UsableMergeToObject(parts: seq<Part>, size: nat, whole: Bytes, s: State)
    requires Tiles(parts, size) && Inv(parts, s) && AllFinished(s) && AllUsable(parts, whole, s)
    ensures size <= |whole| && Merged(s.files) == whole[..size]
  {
    forall i | 0 <= i < |parts|
      ensures Size(s.files[i]) == parts[i].Expected() && SliceOf(whole, parts[i], s.files[i])
    {
      FinishedFiles(parts, s, i);
      assert Usable(whole, parts[i], s.workers[i], s.files[i]);
    }
    MergedIsPrefix(parts, size, whole, s.files);
  }

  // ---- The pool ----------------------------------------------------------------------------------------------------

  /** Who moves next and what happens to it, which may depend on all that has happened so far; a step that the worker
      cannot take is passed over.  After so many moves the pool is given up. */
  datatype Pool = Pool(next: (nat, State) -> Step, moves: nat)

  /** Whatever the workers ask for, the answers are those of an honest server. */
  ghost predicate HonestPool(pool: Pool, whole: Bytes) {
    forall k: nat, s: State :: pool.next(k, s).i < |s.workers| ==> HonestStep(whole, s, pool.next(k, s))
  }

  /** The part files that are there under the names of n parts. */
  function Found(files: seq<Option<Bytes>>, n: nat): (found: seq<Option<Bytes>>)
    ensures |found| == n && forall i | 0 <= i < n :: found[i] == if i < |files| then files[i] else None
  {
    if n == 0 then [] else Found(files, n - 1) + [if n <= |files| then files[n - 1] else None]
  }

  function Fresh(n: nat, retries: nat): (workers: seq<Worker>)
    ensures |workers| == n && forall w | w in workers :: w == Worker(Ready, retries)
  {
    if n == 0 then [] else Fresh(n - 1, retries) + [Worker(Ready, retries)]
  }

  /** The pool before its first move, over the part files that are there. */
  function Opening(parts: seq<Part>, files: seq<Option<Bytes>>, retries: nat): (s: State)
    ensures Initial(parts, s, retries)
  {
    State(Found(files, |parts|), Fresh(|parts|, retries), false)
  }

  /** The pool after its first n moves. */
  function Moved(parts: seq<Part>, size: nat, s: State, pool: Pool, n: nat): (after: State)
    requires Shaped(parts, s)
    ensures Shaped(parts, after)
  {
    if n == 0 then s
    else
      var before := Moved(parts, size, s, pool, n - 1);
      var step := pool.next(n - 1, before);
      if Enabled(parts, before, step) then Apply(parts, size, before, step) else before
  }

  /** The error of the first worker lost in the first n moves. */
  function FirstLoss(parts: seq<Part>, size: nat, s: State, pool: Pool, n: nat): Option<Error>
    requires Shaped(parts, s)
  {
    if n == 0 then None
    else
      var earlier := FirstLoss(parts, size, s, pool, n - 1);
      var before := Moved(parts, size, s, pool, n - 1);
      var step := pool.next(n - 1, before);
      if earlier.Some? || !Enabled(parts, before, step) then earlier
      else
        var worker := Moved(parts, size, s, pool, n).workers[step.i];
        if worker.phase.Lost? then Some(worker.phase.error) else None
  }

  /** How the pool ends that starts over these part files: None when every part is complete. */
  function PoolFailure(parts: seq<Part>, size: nat, files: seq<Option<Bytes>>, retries: nat, pool: Pool): Option<Error>
  {
    var start := Opening(parts, files, retries);
    var loss := FirstLoss(parts, size, start, pool, pool.moves);
    if loss == None && !AllFinished(Moved(parts, size, start, pool, pool.moves)) then Some(Stopped) else loss
  }

  predicate NobodyLost(s: State) {
    forall w | w in s.workers :: !w.phase.Lost?
  }

  predicate LostWith(s: State, error: Error) {
    exists w | w in s.workers :: w.phase == Lost(error)
  }

  /** A step changes the worker that takes it and no other, and who is lost stays lost. */
  lemma StepLoses(parts: seq<Part>, size: nat, s: State, step: Step)
    requires Enabled(parts, s, step)
    ensures var next := Apply(parts, size, s, step);
      && (NobodyLost(next) <==> NobodyLost(s) && !next.workers[step.i].phase.Lost?)
      && (next.workers[step.i].phase.Lost? ==> LostWith(next, next.workers[step.i].phase.error))
  {
    var next := Apply(parts, size, s, step);
    assert next.workers[step.i] in next.workers && s.workers[step.i] in s.workers;
    if NobodyLost(next) {
      forall w | w in s.workers ensures !w.phase.Lost? {
        var j :| 0 <= j < |s.workers| && s.workers[j] == w;
        assert next.workers[j] in next.workers;
      }
    }
  }

  lemma {:induction false} LossIsFirst(parts: seq<Part>, size: nat, s: State, pool: Pool, n: nat)
    requires Shaped(parts, s) && NobodyLost(s)
    ensures FirstLoss(parts, size, s, pool, n) == None <==> NobodyLost(Moved(parts, size, s, pool, n))
    ensures var loss := FirstLoss(parts, size, s, pool, n);
      loss.Some? ==> exists k: nat | k < n :: FirstLost(parts, size, s, pool, k, loss.value)
  {
    if n > 0 {
      LossIsFirst(parts, size, s, pool, n - 1);
      var before := Moved(parts, size, s, pool, n - 1);
      var step := pool.next(n - 1, before);
      if Enabled(parts, before, step) {
        StepLoses(parts, size, before, step);
        var loss := FirstLoss(parts, size, s, pool, n);
        if NobodyLost(before) && loss.Some? {
          assert FirstLost(parts, size, s, pool, n - 1, loss.value);
        }
      }
    }
  }

  /** Move k loses the first worker that is lost, with this error. */
  predicate FirstLost(parts: seq<Part>, size: nat, s: State, pool: Pool, k: nat, error: Error)
    requires Shaped(parts, s)
  {
    NobodyLost(Moved(parts, size, s, pool, k)) && LostWith(Moved(parts, size, s, pool, k + 1), error)
  }

  /** The pool succeeds exactly when all workers finish.  It fails with the error of the worker that is lost first, and
      as stopped when it is given up with nobody lost. */
  lemma PoolFailsExactly(parts: seq<Part>, size: nat, files: seq<Option<Bytes>>, retries: nat, pool: Pool)
    ensures var start := Opening(parts, files, retries);
      var failure := PoolFailure(parts, size, files, retries, pool);
      var end := Moved(parts, size, start, pool, pool.moves);
      && (failure == None <==> AllFinished(end))
      && (failure.Some? && !NobodyLost(end) ==>
            exists k: nat | k < pool.moves :: FirstLost(parts, size, start, pool, k, failure.value))
      && (failure.Some? && NobodyLost(end) ==> failure.value == Stopped)
  {
    LossIsFirst(parts, size, Opening(parts, files, retries), pool, pool.moves);
  }

  lemma {:induction false} RunSnoc(parts: seq<Part>, size: nat, s: State, steps: seq<Step>, step: Step)
    requires IsRun(parts, size, s, steps) && Enabled(parts, After(parts, size, s, steps), step)
    ensures IsRun(parts, size, s, steps + [step])
    ensures After(parts, size, s, steps + [step]) == Apply(parts, size, After(parts, size, s, steps), step)
    decreases |steps|
  {
    if steps != [] {
      RunSnoc(parts, size, Apply(parts, size, s, steps[0]), steps[1..], step);
      assert (steps + [step])[1..] == steps[1..] + [step];
    }
  }

  /** What the pool does is a run of the workers, so whatever holds of every run holds of it. */
  lemma {:induction false} PoolIsARun(parts: seq<Part>, size: nat, s: State, pool: Pool, n: nat)
    returns (steps: seq<Step>)
    requires Shaped(parts, s)
    ensures |steps| <= n && IsRun(parts, size, s, steps)
    ensures After(parts, size, s, steps) == Moved(parts, size, s, pool, n)
  {
    steps := [];
    if n > 0 {
      steps := PoolIsARun(parts, size, s, pool, n - 1);
      var before := Moved(parts, size, s, pool, n - 1);
      if Enabled(parts, before, pool.next(n - 1, before)) {
        RunSnoc(parts, size, s, steps, pool.next(n - 1, before));
        steps := steps + [pool.next(n - 1, before)];
      }
    }
  }

  /** The file holds its slice of the object, or is too long for its part. */
  predicate Fit(whole: Bytes, part: Part, file: Option<Bytes>) {
    SliceOf(whole, part, file) || Size(file) > part.Expected()
  }

  lemma {:induction false} MovedKeepsInv(parts: seq<Part>, size: nat, s: State, pool: Pool, n: nat, whole: Bytes)
    requires Positive(parts) && Inv(parts, s)
    ensures Inv(parts, Moved(parts, size, s, pool, n))
    ensures HonestPool(pool, whole) && AllUsable(parts, whole, s) ==>
      AllUsable(parts, whole, Moved(parts, size, s, pool, n))
  {
    if n > 0 {
      MovedKeepsInv(parts, size, s, pool, n - 1, whole);
      var before := Moved(parts, size, s, pool, n - 1);
      var step := pool.next(n - 1, before);
      if Enabled(parts, before, step) {
        StepKeepsInv(parts, size, before, step);
        if HonestPool(pool, whole) && AllUsable(parts, whole, s) {
          HonestStepKeepsUsable(parts, size, whole, before, step);
        }
      }
    }
  }

  lemma EndIsUsable(parts: seq<Part>, size: nat, files: seq<Option<Bytes>>, retries: nat, pool: Pool, whole: Bytes)
    returns (end: State)
    requires Tiles(parts, size)
    ensures end == Moved(parts, size, Opening(parts, files, retries), pool, pool.moves) && Inv(parts, end)
    ensures HonestPool(pool, whole)
            && (forall i | 0 <= i < |parts| && i < |files| :: Fit(whole, parts[i], files[i])) ==>
      AllUsable(parts, whole, end)
  {
    TilesCoverOnce(parts, size, 0);
    var start := Opening(parts, files, retries);
    StartKeepsInv(parts, start, retries);
    MovedKeepsInv(parts, size, start, pool, pool.moves, whole);
    end := Moved(parts, size, start, pool, pool.moves);
    if forall i | 0 <= i < |parts| && i < |files| :: Fit(whole, parts[i], files[i]) {
      forall i | 0 <= i < |parts| ensures Usable(whole, parts[i], start.workers[i], start.files[i]) {
        assert start.workers[i] in start.workers;
      }
    }
  }

  /** What the workers leave in the part files. */
  lemma EndLeavesSlices(parts: seq<Part>, size: nat, whole: Bytes, end: State)
    requires Tiles(parts, size) && Inv(parts, end)
    ensures AllFinished(end) ==> |Merged(end.files)| == size && forall part | part in end.files :: part.Some?
    ensures AllUsable(parts, whole, end) ==>
      && (forall i | 0 <= i < |parts| :: Fit(whole, parts[i], end.files[i]))
      && (AllFinished(end) ==> size <= |whole| && Merged(end.files) == whole[..size])
  {
    if AllFinished(end) {
      AllFinishedHaveSize(parts, size, end);
      if AllUsable(parts, whole, end) {
        UsableMergeToObject(parts, size, whole, end);
      }
    }
  }

  /** The workers move until nobody can or the pool is given up.  It ends with the first error of a worker, or with all
      part files complete; against an honest server every part file keeps its slice of the object. */
  method RunPool(file: FileSlot, parts: seq<Part>, size: nat, retries: nat, pool: Pool, ghost whole: Bytes)
    returns (failure: Option<Error>)
    requires Tiles(parts, size)
    modifies file`parts
    ensures failure == PoolFailure(parts, size, old(file.parts), retries, pool)
    ensures file.parts == Moved(parts, size, Opening(parts, old(file.parts), retries), pool, pool.moves).files
    ensures |file.parts| == |parts|
    ensures failure == None ==> |Merged(file.parts)| == size && forall part | part in file.parts :: part.Some?
    ensures HonestPool(pool, whole) && (forall i | 0 <= i < |parts| && i < |old(file.parts)| ::
                                          Fit(whole, parts[i], old(file.parts)[i])) ==>
      && (forall i | 0 <= i < |parts| :: Fit(whole, parts[i], file.parts[i]))
      && (failure == None ==> size <= |whole| && Merged(file.parts) == whole[..size])
  {
    var s := State(Found(file.parts, |parts|), Fresh(|parts|, retries), false);
    ghost var start := s;
    failure := None;
    for k := 0 to pool.moves
      invariant Shaped(parts, s) && s == Moved(parts, size, start, pool, k)
      invariant failure == FirstLoss(parts, size, start, pool, k)
    {
      var step := pool.next(k, s);
      if Enabled(parts, s, step) {
        s := Apply(parts, size, s, step);
        if failure == None && s.workers[step.i].phase.Lost? {
          failure := Some(s.workers[step.i].phase.error);
        }
      }
    }
    if failure == None && !AllFinished(s) {
      failure := Some(Stopped);
    }
    PoolFailsExactly(parts, size, file.parts, retries, pool);
    ghost var end := EndIsUsable(parts, size, file.parts, retries, pool, whole);
    EndLeavesSlices(parts, size, whole, end);
    file.parts := s.files;
  }

  // ---- The end of the pool --------------------------------------------------------------------------------------

  predicate Ended(worker: Worker) {
    worker.phase.Finished? || worker.phase.Lost?
  }

  predicate AllEnded(s: State) {
    forall w | w in s.workers :: Ended(w)
  }

  /** Chunks are not empty, and the group is stopped once. */
  predicate Moves(s: State, step: Step) {
    !(step.Chunk? && step.bytes == []) && !(step.StopGroup? && s.stop)
  }

  /** As long as a worker has not ended, some worker moves on. */
  ghost predicate Busy(parts: seq<Part>, pool: Pool) {
    forall k: nat, s: State :: Shaped(parts, s) && !AllEnded(s) ==>
      Enabled(parts, s, pool.next(k, s)) && Moves(s, pool.next(k, s))
  }

  /** The bytes of a part. */
  function Span(part: Part): nat {
    if part.first <= part.last then part.last + 1 - part.first else 0
  }

  /** A bound on the moves a worker can still make: one a byte, and four to open, ask, accept and close, a request. */
  function Work(part: Part, worker: Worker): int {
    match worker.phase
    case Ready => Times(worker.left + 1, Span(part) + 4) - 1
    case Asked(from) => Times(worker.left, Span(part) + 4) + part.last + 1 - from + 2
    case Receiving(cursor) => Times(worker.left, Span(part) + 4) + part.last + 1 - cursor + 1
    case _ => 0
  }

  lemma ActTakesWork(part: Part, size: nat, stop: bool, worker: Worker, file: Option<Bytes>, step: Step)
    requires part.first <= part.last && Able(worker, step) && WorkerInv(part, worker, file)
    requires !(step.Chunk? && step.bytes == []) && !step.StopGroup?
    ensures 0 <= Work(part, Act(part, size, stop, worker, file, step).0) < Work(part, worker)
  {
    if step.Refuse? || step.Close? || step.Break? {
      assert worker.left > 0 ==> Times(worker.left - 1 + 1, Span(part) + 4) == Times(worker.left, Span(part) + 4);
    }
  }

  function TotalWork(parts: seq<Part>, workers: seq<Worker>): int
    requires |workers| == |parts|
  {
    if parts == [] then 0
    else
      var n := |parts| - 1;
      TotalWork(parts[..n], workers[..n]) + Work(parts[n], workers[n])
  }

  lemma {:induction false} WorkOfOne(parts: seq<Part>, workers: seq<Worker>, i: nat, worker: Worker)
    requires |workers| == |parts| && i < |parts|
    ensures TotalWork(parts, workers[i := worker])
         == TotalWork(parts, workers) - Work(parts[i], workers[i]) + Work(parts[i], worker)
  {
    var n := |parts| - 1;
    if i < n {
      WorkOfOne(parts[..n], workers[..n], i, worker);
      assert workers[i := worker][..n] == workers[..n][i := worker];
    } else {
      assert workers[i := worker][..n] == workers[..n];
    }
  }

  lemma {:induction false} WorkIsNatural(parts: seq<Part>, s: State)
    requires Positive(parts) && Inv(parts, s)
    ensures TotalWork(parts, s.workers) >= 0
  {
    if parts != [] {
      var n := |parts| - 1;
      var rest := State(s.files[..n], s.workers[..n], s.stop);
      forall i | 0 <= i < n ensures WorkerInv(parts[..n][i], rest.workers[i], rest.files[i]) {
        assert WorkerInv(parts[i], s.workers[i], s.files[i]);
      }
      WorkIsNatural(parts[..n], rest);
      assert WorkerInv(parts[n], s.workers[n], s.files[n]);
    }
  }

  function Effort(parts: seq<Part>, s: State): int
    requires Shaped(parts, s)
  {
    TotalWork(parts, s.workers) + if s.stop then 0 else 1
  }

  lemma StepTakesEffort(parts: seq<Part>, size: nat, s: State, step: Step)
    requires Positive(parts) && Enabled(parts, s, step) && Inv(parts, s) && Moves(s, step)
    ensures Effort(parts, Apply(parts, size, s, step)) < Effort(parts, s)
  {
    var i := step.i;
    var worker := Apply(parts, size, s, step).workers[i];
    WorkOfOne(parts, s.workers, i, worker);
    if !step.StopGroup? {
      assert WorkerInv(parts[i], s.workers[i], s.files[i]);
      ActTakesWork(parts[i], size, s.stop, s.workers[i], s.files[i], step);
    }
  }

  lemma EndedStay(parts: seq<Part>, size: nat, s: State, step: Step)
    requires Enabled(parts, s, step) && AllEnded(s)
    ensures AllEnded(Apply(parts, size, s, step))
  {
    assert s.workers[step.i] in s.workers;
  }

  lemma {:induction false} MovesTakeEffort(parts: seq<Part>, size: nat, s: State, pool: Pool, n: nat)
    requires Positive(parts) && Inv(parts, s) && Busy(parts, pool)
    ensures AllEnded(Moved(parts, size, s, pool, n))
         || Effort(parts, Moved(parts, size, s, pool, n)) <= Effort(parts, s) - n
  {
    if n > 0 {
      MovesTakeEffort(parts, size, s, pool, n - 1);
      MovedKeepsInv(parts, size, s, pool, n - 1, []);
      var before := Moved(parts, size, s, pool, n - 1);
      var step := pool.next(n - 1, before);
      if AllEnded(before) {
        if Enabled(parts, before, step) {
          EndedStay(parts, size, before, step);
        }
      } else {
        StepTakesEffort(parts, size, before, step);
      }
    }
  }

  lemma {:induction false} TimesAdds(n: nat, d: nat, e: nat)
    ensures Times(n, d + e) == Times(n, d) + Times(n, e)
  {
    if n > 0 {
      TimesAdds(n - 1, d, e);
    }
  }

  lemma {:induction false} OpeningWork(parts: seq<Part>, size: nat, workers: seq<Worker>, retries: nat)
    requires Tiles(parts, size) && |workers| == |parts| && forall w | w in workers :: w == Worker(Ready, retries)
    ensures TotalWork(parts, workers) <= Times(retries + 1, size + 4 * |parts|)
  {
    if parts != [] {
      var n := |parts| - 1;
      assert forall w | w in workers[..n] :: w in workers;
      OpeningWork(parts[..n], parts[n].first, workers[..n], retries);
      assert workers[n] in workers;
      TimesAdds(retries + 1, parts[n].first + 4 * n, Span(parts[n]) + 4);
      assert size + 4 * |parts| == (parts[n].first + 4 * n) + (Span(parts[n]) + 4);
    }
  }

  /** Whatever is answered and in whatever order the workers move, after (retries + 1) * (size + 4 * parts) + 1 moves
      every worker has ended, so the pool has succeeded or failed with the error of a worker. */
  lemma BusyPoolEnds(parts: seq<Part>, size: nat, files: seq<Option<Bytes>>, retries: nat, pool: Pool)
    requires Tiles(parts, size) && Busy(parts, pool)
    requires pool.moves > Times(retries + 1, size + 4 * |parts|) + 1
    ensures var end := Moved(parts, size, Opening(parts, files, retries), pool, pool.moves);
      AllEnded(end) && (PoolFailure(parts, size, files, retries, pool) == None <==> NobodyLost(end))
  {
    TilesCoverOnce(parts, size, 0);
    var start := Opening(parts, files, retries);
    StartKeepsInv(parts, start, retries);
    MovesTakeEffort(parts, size, start, pool, pool.moves);
    MovedKeepsInv(parts, size, start, pool, pool.moves, []);
    WorkIsNatural(parts, Moved(parts, size, start, pool, pool.moves));
    OpeningWork(parts, size, start.workers, retries);
    PoolFailsExactly(parts, size, files, retries, pool);
  }

  /** The step of a worker whose server sends exactly the range that was asked for, in any chunks, or fails in a way
      that another request can repair, as long as there is one left. */
  predicate Supplies(whole: Bytes, part: Part, worker: Worker, step: Step) {
    match step
    case Begin(_) => true
    case Accept(_, field) =>
      worker.phase.Asked? && field == Field(worker.phase.from, part.last, Some(|whole|))
    case Refuse(_, reply, granted) =>
      reply.Refused? && reply.error.IsTransient() && worker.left > 0 && granted
    case Chunk(_, bytes) =>
      worker.phase.Receiving? && worker.phase.cursor + |bytes| <= part.last + 1
    case Close(_, granted) =>
      worker.phase.Receiving? && (worker.phase.cursor == part.last + 1 || (worker.left > 0 && granted))
    case Break(_, error, granted) => error.IsTransient() && worker.left > 0 && granted
    case StopGroup(_) => true
  }

  predicate SuppliedAt(parts: seq<Part>, pool: Pool, whole: Bytes, k: nat, s: State) {
    var step := pool.next(k, s);
    Enabled(parts, s, step) ==> Supplies(whole, parts[step.i], s.workers[step.i], step)
  }

  ghost predicate Supplied(parts: seq<Part>, pool: Pool, whole: Bytes) {
    forall k: nat, s: State {:trigger SuppliedAt(parts, pool, whole, k, s)} :: SuppliedAt(parts, pool, whole, k, s)
  }

  lemma SuppliedWorkerStays(whole: Bytes, part: Part, worker: Worker, file: Option<Bytes>, step: Step)
    requires part.first <= part.last < |whole| && Able(worker, step) && WorkerInv(part, worker, file)
    requires !worker.phase.Lost? && Supplies(whole, part, worker, step)
    ensures !step.StopGroup? && !Act(part, |whole|, false, worker, file, step).0.phase.Lost?
  {
  }

  predicate Going(s: State) {
    NobodyLost(s) && !s.stop
  }

  lemma {:induction false} SuppliedStepLosesNobody(parts: seq<Part>, whole: Bytes, s: State, step: Step)
    requires Tiles(parts, |whole|) && Inv(parts, s) && Enabled(parts, s, step) && Going(s)
    requires Supplies(whole, parts[step.i], s.workers[step.i], step)
    ensures Going(Apply(parts, |whole|, s, step))
  {
    var i := step.i;
    var next := Apply(parts, |whole|, s, step);
    TilesCoverOnce(parts, |whole|, 0);
    assert s.workers[i] in s.workers;
    assert !step.StopGroup? && !next.workers[i].phase.Lost? by {
      assert WorkerInv(parts[i], s.workers[i], s.files[i]);
      SuppliedWorkerStays(whole, parts[i], s.workers[i], s.files[i], step);
    }
    forall j | 0 <= j < |next.workers| ensures !next.workers[j].phase.Lost? {
      assert j != i ==> next.workers[j] == s.workers[j] && s.workers[j] in s.workers;
    }
  }

  lemma {:induction false} SuppliedPoolLosesNobody(parts: seq<Part>, whole: Bytes, s: State, pool: Pool, n: nat)
    requires Tiles(parts, |whole|) && Positive(parts) && Inv(parts, s) && Going(s) && Supplied(parts, pool, whole)
    ensures Going(Moved(parts, |whole|, s, pool, n))
  {
    if n > 0 {
      SuppliedPoolLosesNobody(parts, whole, s, pool, n - 1);
      MovedKeepsInv(parts, |whole|, s, pool, n - 1, whole);
      var before := Moved(parts, |whole|, s, pool, n - 1);
      var step := pool.next(n - 1, before);
      if Enabled(parts, before, step) {
        assert SuppliedAt(parts, pool, whole, n - 1, before);
        SuppliedStepLosesNobody(parts, whole, before, step);
      }
    }
  }

  /** A pool whose requests are answered with what they ask for, or fail in ways that its retries repair, succeeds, in
      every order of the workers' moves and from whatever part files are there. */
  lemma SuppliedPoolSucceeds(parts: seq<Part>, whole: Bytes, files: seq<Option<Bytes>>, retries: nat, pool: Pool)
    requires Tiles(parts, |whole|) && Busy(parts, pool) && Supplied(parts, pool, whole)
    requires pool.moves > Times(retries + 1, |whole| + 4 * |parts|) + 1
    ensures PoolFailure(parts, |whole|, files, retries, pool) == None
  {
    TilesCoverOnce(parts, |whole|, 0);
    var start := Opening(parts, files, retries);
    StartKeepsInv(parts, start, retries);
    SuppliedPoolLosesNobody(parts, whole, start, pool, pool.moves);
    BusyPoolEnds(parts, |whole|, files, retries, pool);
  }

  // ---- The parallel download ---------------------------------------------------------------------------------

  function Dropped(files: seq<Option<Bytes>>): (dropped: seq<Option<Bytes>>)
    ensures |dropped| == |files| && forall file | file in dropped :: file == None
  {
    if files == [] then [] else Dropped(files[1..]) + [None]
  }

  lemma DroppedAreNone(files: seq<Option<Bytes>>)
    ensures forall k | 0 <= k < |files| :: Dropped(files)[k] == None
  {
    forall k | 0 <= k < |files| ensures Dropped(files)[k] == None {
      assert Dropped(files)[k] in Dropped(files);
    }
  }

  predicate OnlyRemoved(before: seq<Option<Bytes>>, after: seq<Option<Bytes>>) {
    |after| == |before| && forall k | 0 <= k < |after| :: after[k] == None || after[k] == before[k]
  }

  /** Copying a part is stopped where there is something to copy. */
  predicate StopsAtPart(parts: seq<Option<Bytes>>, stops: nat -> bool, i: nat) {
    i < |parts| && Size(parts[i]) > 0 && stops(i)
  }

  predicate StopsCopy(parts: seq<Option<Bytes>>, stops: nat -> bool) {
    exists i: nat :: i < |parts| && StopsAtPart(parts, stops, i)
  }

  /** Appends the part files in order to the merged file, feeding the digest, and removes each when it is copied. */
  method CopyParts(file: FileSlot, stops: nat -> bool) returns (merged: Bytes, digest: Bytes, stopped: bool)
    requires forall part | part in file.parts :: part.Some?
    modifies file`parts
    ensures stopped <==> StopsCopy(old(file.parts), stops)
    ensures OnlyRemoved(old(file.parts), file.parts)
    ensures !stopped ==> merged == digest == Merged(old(file.parts)) && file.parts == Dropped(old(file.parts))
    ensures stopped ==> exists i :: 0 <= i < |old(file.parts)| && merged == Merged(old(file.parts)[..i])
  {
    ghost var parts := file.parts;
    merged, digest, stopped := [], [], false;
    for i := 0 to |file.parts|
      invariant merged == digest == Merged(parts[..i]) && |file.parts| == |parts|
      invariant forall k | 0 <= k < |parts| :: file.parts[k] == if k < i then None else parts[k]
      invariant forall k: nat | k < i :: !StopsAtPart(parts, stops, k)
    {
      assert parts[..i + 1][..i] == parts[..i] && parts[i] in parts;
      var content := file.parts[i].value;
      if content != [] && stops(i) {
        assert StopsAtPart(parts, stops, i);
        stopped := true;
        return;
      }
      merged, digest := merged + content, digest + content;
      file.parts := file.parts[i := None];
    }
    assert parts[..|parts|] == parts;
    forall k | 0 <= k < |parts| ensures file.parts[k] == Dropped(parts)[k] {
      assert Dropped(parts)[k] in Dropped(parts);
    }
  }

  /** What becomes of the merge: `stops(i)` is the cancellation seen while part i is copied, and `stops(|parts|)` the
      one before the rename. */
  function MergeVerdict(sha: Bytes -> Hash, parts: seq<Option<Bytes>>, size: nat, hash: Option<Hash>,
                        stops: nat -> bool): (verdict: Verdict)
    ensures verdict == Published <==>
      !StopsCopy(parts, stops) && !stops(|parts|) && Accepts(sha, Merged(parts), Some(size), hash)
  {
    if StopsCopy(parts, stops) then Failed(Stopped)
    else if |Merged(parts)| != size then Failed(SizeMismatch)
    else if hash.Some? && hash.value != sha(Merged(parts)) then Failed(HashMismatch)
    else if stops(|parts|) then Failed(Stopped)
    else Published
  }

  /** Merges the part files, which are all there, and checks the result.  What a stopped merge leaves is a prefix of
      it, and nothing is left of a rejected one. */
  method MergeParts(file: FileSlot, sha: Bytes -> Hash, size: nat, hash: Option<Hash>, stops: nat -> bool)
    returns (verdict: Verdict)
    requires forall part | part in file.parts :: part.Some?
    modifies file`target, file`parts, file`merging
    ensures verdict == MergeVerdict(sha, old(file.parts), size, hash, stops)
    ensures verdict.Failed? ==> file.target == old(file.target)
    ensures verdict == Published ==> file.target == Some(Merged(old(file.parts))) && file.merging == None
    ensures OnlyRemoved(old(file.parts), file.parts)
    ensures verdict == Published || verdict.error.IsIntegrity() ==> file.parts == Dropped(old(file.parts))
    ensures verdict.Failed? && verdict.error.IsIntegrity() ==> file.merging == None
    ensures verdict == Failed(Stopped) ==>
      exists i :: 0 <= i <= |old(file.parts)| && file.merging == Some(Merged(old(file.parts)[..i]))
  {
    ghost var parts := file.parts;
    var merged, digest, stopped := CopyParts(file, stops);
    file.merging := Some(merged);
    if stopped {
      return Failed(Stopped);
    }
    assert parts[..|parts|] == parts;
    if |merged| != size {
      file.merging := None;
      return Failed(SizeMismatch);
    }
    if hash.Some? && sha(digest) != hash.value {
      file.merging := None;
      return Failed(HashMismatch);
    }
    if stops(|file.parts|) {
      return Failed(Stopped);
    }
    file.target, file.merging := Some(merged), None;
    verdict := Published;
  }

  /** What follows the pool of workers, which ended with the error that stopped the group or with all part files there.
      A body that ignored the range, and parts of another object, are removed; other failures keep the parts for
      the next run. */
  method ParallelDownload(file: FileSlot, pool: Option<Error>, sha: Bytes -> Hash, size: nat, hash: Option<Hash>,
                          stops: nat -> bool)
    returns (verdict: Verdict)
    requires pool == None ==> forall part | part in file.parts :: part.Some?
    modifies file`target, file`parts, file`merging
    ensures verdict.Failed? ==> file.target == old(file.target)
    ensures pool.Some? ==>
      && verdict == Failed(pool.value)
      && file.parts == (if pool.value.RangeIgnored? || pool.value.IsIntegrity() then Dropped(old(file.parts))
                        else old(file.parts))
    ensures verdict == Published ==>
      && file.target == Some(Merged(old(file.parts))) && Accepts(sha, file.target.value, Some(size), hash)
      && file.merging == None
    ensures OnlyRemoved(old(file.parts), file.parts)
    ensures verdict.Failed? && (verdict.error.RangeIgnored? || verdict.error.IsIntegrity()) ==>
      file.parts == Dropped(old(file.parts))
    ensures pool == None ==> verdict == MergeVerdict(sha, old(file.parts), size, hash, stops)
  {
    if pool.Some? {
      if pool.value.RangeIgnored? || pool.value.IsIntegrity() {
        DroppedAreNone(file.parts);
        file.parts := Dropped(file.parts);
      }
      return Failed(pool.value);
    }
    verdict := MergeParts(file, sha, size, hash, stops);
  }
}
