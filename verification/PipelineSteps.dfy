/** What the steps of the executed pipeline do: to the run of the protocol, to what is handed over to recovery, and to
    the books of server and tracker. */
module PipelineSteps {
  import opened UploadTypes
  import opened HubServing
  import opened UploadTracking
  import opened CommitRecovery
  import opened ReuploadRecovery
  import opened BatchTracking
  import opened CommitPlanner
  import Pipe = UploadPipeline

  // ---- Files by index ----------------------------------------------------------------------------------------------

  predicate Within(idx: seq<nat>, n: nat) {
    forall k | 0 <= k < |idx| :: idx[k] < n
  }

  /** The files at the given indexes, in that order. */
  function FilesAt(files: seq<FileItem>, idx: seq<nat>): seq<FileItem>
    requires Within(idx, |files|)
  {
    if idx == [] then [] else FilesAt(files, idx[..|idx| - 1]) + [files[idx[|idx| - 1]]]
  }

  /** Same files, counted; the order of indexes does not matter. */
  function FilesIn(files: seq<FileItem>, idx: multiset<nat>, n: nat): multiset<FileItem>
    requires n <= |files|
  {
    if n == 0 then multiset{} else FilesIn(files, idx, n - 1) + multiset{}[files[n - 1] := idx[n - 1]]
  }

  lemma {:induction false} FilesInPlus(files: seq<FileItem>, a: multiset<nat>, b: multiset<nat>, n: nat)
    requires n <= |files|
    ensures FilesIn(files, a + b, n) == FilesIn(files, a, n) + FilesIn(files, b, n)
  {
    if n > 0 {
      FilesInPlus(files, a, b, n - 1);
      assert (a + b)[n - 1] == a[n - 1] + b[n - 1];
    }
  }

  lemma {:induction false} FilesInOne(files: seq<FileItem>, i: nat, n: nat)
    requires n <= |files|
    ensures FilesIn(files, multiset{i}, n) == if i < n then multiset{files[i]} else multiset{}
  {
    if n > 0 {
      FilesInOne(files, i, n - 1);
    }
  }

  lemma {:induction false} FilesAtIsFilesIn(files: seq<FileItem>, idx: seq<nat>)
    requires Within(idx, |files|)
    ensures multiset(FilesAt(files, idx)) == FilesIn(files, multiset(idx), |files|)
  {
    if idx == [] {
      FilesInNone(files, |files|);
    } else {
      var init, last := idx[..|idx| - 1], idx[|idx| - 1];
      FilesAtIsFilesIn(files, init);
      FilesInOne(files, last, |files|);
      FilesInPlus(files, multiset(init), multiset{last}, |files|);
      assert idx == init + [last];
      assert multiset(idx) == multiset(init) + multiset{last};
    }
  }

  lemma {:induction false} FilesInNone(files: seq<FileItem>, n: nat)
    requires n <= |files|
    ensures FilesIn(files, multiset{}, n) == multiset{}
  {
    if n > 0 {
      FilesInNone(files, n - 1);
    }
  }

  lemma {:induction false} FilesInAll(files: seq<FileItem>, m: nat, n: nat)
    requires n <= |files| && n <= m
    ensures FilesIn(files, multiset(Range(0, m)), n) == multiset(files[..n])
  {
    if n > 0 {
      FilesInAll(files, m, n - 1);
      assert files[..n] == files[..n - 1] + [files[n - 1]];
    }
  }

  lemma {:induction false} FilesAtConcat(files: seq<FileItem>, a: seq<nat>, b: seq<nat>)
    requires Within(a, |files|)
    requires Within(b, |files|)
    ensures Within(a + b, |files|)
    ensures FilesAt(files, a + b) == FilesAt(files, a) + FilesAt(files, b)
  {
    if b == [] {
      assert a + b == a;
    } else {
      FilesAtConcat(files, a, b[..|b| - 1]);
      assert (a + b)[..|a + b| - 1] == a + b[..|b| - 1];
    }
  }

  // ---- What the pipeline hands over --------------------------------------------------------------------------------

  /** What the pipeline hands over to recovery, with the error of every entry. */
  datatype Handover = Handover(
    committed: seq<FileItem>, terminal: Failures, retryCommit: seq<(seq<FileItem>, Error)>, retryUpload: Failures)

  function HandoverBag(h: Handover): multiset<FileItem> {
    multiset(h.committed) + Bag(h.terminal) + (multiset(FilesOfBatches(h.retryCommit)) + Bag(h.retryUpload))
  }

  /** The handover carries exactly what the pipeline left in its four lists. */
  ghost predicate Matches(cfg: Pipe.Config, s: Pipe.State, h: Handover) {
    && Within(s.committed, |cfg.files|)
    && Within(s.terminal, |cfg.files|)
    && Within(s.retryUpload, |cfg.files|)
    && Within(Pipe.Flatten(s.retryCommit), |cfg.files|)
    && h.committed == FilesAt(cfg.files, s.committed)
    && FilesOf(h.terminal) == FilesAt(cfg.files, s.terminal)
    && FilesOf(h.retryUpload) == FilesAt(cfg.files, s.retryUpload)
    && FilesOfBatches(h.retryCommit) == FilesAt(cfg.files, Pipe.Flatten(s.retryCommit))
  }

  lemma FourFilesIn(files: seq<FileItem>, a: multiset<nat>, b: multiset<nat>, c: multiset<nat>, d: multiset<nat>)
    ensures var n := |files|;
      FilesIn(files, a + b + c + d, n)
        == FilesIn(files, a, n) + FilesIn(files, b, n) + FilesIn(files, c, n) + FilesIn(files, d, n)
  {
    FilesInPlus(files, a, b, |files|);
    FilesInPlus(files, a + b, c, |files|);
    FilesInPlus(files, a + b + c, d, |files|);
  }

  /** When the pipeline is over, its handover holds each pending file once. */
  lemma HandoverHoldsAll(cfg: Pipe.Config, s: Pipe.State, h: Handover)
    requires Pipe.WellFormed(cfg) && Pipe.Inv(cfg, s) && Pipe.Done(cfg, s) && Matches(cfg, s, h)
    ensures HandoverBag(h) == multiset(cfg.files)
  {
    var n := |cfg.files|;
    Pipe.DoneStateSettles(cfg, s);
    var c, u := multiset(s.committed), multiset(s.retryUpload);
    var r, t := multiset(Pipe.Flatten(s.retryCommit)), multiset(s.terminal);
    FilesInAll(cfg.files, n, n);
    assert cfg.files[..n] == cfg.files;
    FourFilesIn(cfg.files, c, u, r, t);
    FilesAtIsFilesIn(cfg.files, s.committed);
    FilesAtIsFilesIn(cfg.files, s.retryUpload);
    FilesAtIsFilesIn(cfg.files, s.terminal);
    FilesAtIsFilesIn(cfg.files, Pipe.Flatten(s.retryCommit));
    BagOfFiles(h.terminal);
    BagOfFiles(h.retryUpload);
    Reorder(multiset(h.committed), Bag(h.retryUpload), multiset(FilesOfBatches(h.retryCommit)), Bag(h.terminal));
  }

  lemma Reorder<T>(c: multiset<T>, u: multiset<T>, r: multiset<T>, t: multiset<T>)
    ensures c + u + r + t == c + t + (r + u)
  {
  }

  /** The commits set aside for commit-only recovery have all their blobs in the store. */
  lemma HandoverIsBacked(cfg: Pipe.Config, s: Pipe.State, h: Handover)
    requires Pipe.Inv(cfg, s) && Matches(cfg, s, h)
    ensures Backed(FilesOfBatches(h.retryCommit), s.store)
  {
    FlattenBacked(cfg, s.retryCommit, s.store);
    FilesAtBacked(cfg, Pipe.Flatten(s.retryCommit), s.store);
  }

  lemma {:induction false} FlattenBacked(cfg: Pipe.Config, lists: seq<seq<nat>>, store: set<Oid>)
    requires forall ops | ops in lists :: Pipe.Backed(cfg, ops, store)
    ensures Pipe.Backed(cfg, Pipe.Flatten(lists), store)
  {
    if lists != [] {
      FlattenBacked(cfg, lists[..|lists| - 1], store);
      assert lists[|lists| - 1] in lists;
    }
  }

  lemma {:induction false} FilesAtBacked(cfg: Pipe.Config, idx: seq<nat>, store: set<Oid>)
    requires Pipe.Backed(cfg, idx, store) && Within(idx, |cfg.files|)
    ensures Backed(FilesAt(cfg.files, idx), store)
  {
    if idx != [] {
      var init, last := idx[..|idx| - 1], idx[|idx| - 1];
      assert last in idx;
      assert forall i | i in init :: i in idx;
      FilesAtBacked(cfg, init, store);
    }
  }

  /** Failures with the error each file met. */
  function Blamed(files: seq<FileItem>, errors: FileItem -> Error): (failed: Failures)
    ensures |failed| == |files| && FilesOf(failed) == files
  {
    if files == [] then []
    else
      var n := |files| - 1;
      var rest := Blamed(files[..n], errors);
      assert (rest + [(files[n], errors(files[n]))])[..n] == rest;
      rest + [(files[n], errors(files[n]))]
  }

  // ---- The parts of the committer ----------------------------------------------------------------------------------

  /** Set the copies aside whose owner has not published success. */
  method SetAside(cfg: Pipe.Config, owners: map<Oid, nat>, ready: map<Oid, bool>, results: seq<nat>)
    returns (committable: seq<nat>, orphaned: seq<nat>)
    requires |cfg.hashed| == |cfg.files| && owners == Pipe.Owners(cfg)
    requires Within(results, |cfg.files|)
    ensures committable == Pipe.Pick(cfg, ready, results, false) && orphaned == Pipe.Pick(cfg, ready, results, true)
    ensures Within(orphaned, |cfg.files|)
  {
    committable, orphaned := [], [];
    for k := 0 to |results|
      invariant committable == Pipe.Pick(cfg, ready, results[..k], false)
      invariant orphaned == Pipe.Pick(cfg, ready, results[..k], true)
    {
      assert results[..k + 1][..k] == results[..k];
      var f := cfg.files[results[k]];
      if f.IsLfs() && f.oid in owners && !(f.oid in ready && ready[f.oid]) {
        orphaned := orphaned + [results[k]];
      } else {
        committable := committable + [results[k]];
      }
    }
    assert results[..|results|] == results;
    PickWithin(cfg, ready, results, true);
  }

  /** What the committer finds in batch b: failures, files for the commit, and copies to hold back. */
  method TakeBatch(
    batches: BatchTracker, cfg: Pipe.Config, owners: map<Oid, nat>, ready: map<Oid, bool>, b: nat)
    returns (failed: seq<nat>, committable: seq<nat>, orphaned: seq<nat>)
    requires batches.Valid() && batches.sizes == cfg.sizes && b < |cfg.sizes| && batches.events[b]
    requires |cfg.hashed| == |cfg.files| == |batches.ownerOf| && owners == Pipe.Owners(cfg)
    ensures Complete(batches.log, cfg.sizes, b) && failed == Received(batches.log, cfg.sizes, b, false)
    ensures Within(failed, |cfg.files|) && Within(orphaned, |cfg.files|)
    ensures var results := Received(batches.log, cfg.sizes, b, true);
      && Within(results, |cfg.files|)
      && committable == Pipe.Pick(cfg, ready, results, false) && orphaned == Pipe.Pick(cfg, ready, results, true)
  {
    Pipe.ReceivedInRange(batches.log, cfg.sizes, b, true, |cfg.files|);
    Pipe.ReceivedInRange(batches.log, cfg.sizes, b, false, |cfg.files|);
    var results: seq<nat>;
    results, failed := batches.WaitForBatch(b);
    committable, orphaned := SetAside(cfg, owners, ready, results);
  }

  ghost predicate SameStatus(e: Entries, e': Entries) {
    e.Keys <= e'.Keys && forall k | k in e :: e'[k].status == e[k].status
  }

  /** The transfer of a worker: the tracker learns the digest, and the blob may arrive. */
  method MoveBlob(server: HubServer, tracker: UploadTracker, cfg: Pipe.Config, i: nat, ok: bool, stored: bool)
    requires i < |cfg.files| == |cfg.hashed| && Sound(server, tracker)
    modifies server`store, tracker
    ensures Sound(server, tracker) && server.store == Pipe.StoreAfter(cfg, old(server.store), i, ok, stored)
    ensures Spares(old(tracker.entries), tracker.entries, multiset{cfg.files[i]})
    ensures SameStatus(old(tracker.entries), tracker.entries) && cfg.files[i].TrackedAs() in tracker.entries
  {
    var f := cfg.files[i];
    Learn(tracker, f);
    if f.IsLfs() && Pipe.TicketOf(cfg, i) in {Pipe.PutToUrl, Pipe.Negotiate} && (ok || stored) {
      server.StoreBlob(f.oid);
    }
  }

  // ---- The size of the commits -------------------------------------------------------------------------------------

  predicate PlannedAt(cfg: Pipe.Config, b: nat, limits: Limits)
    requires b < |cfg.sizes|
  {
    var lo := Start(cfg.sizes, b);
    lo + cfg.sizes[b] <= |cfg.files| && Allowed(cfg.files[lo..lo + cfg.sizes[b]], limits)
  }

  /** Every batch of the plan may go out in one commit. */
  ghost predicate Planned(cfg: Pipe.Config, limits: Limits) {
    forall b: nat {:trigger PlannedAt(cfg, b, limits)} | b < |cfg.sizes| :: PlannedAt(cfg, b, limits)
  }

  /** The commit that is about to go out is of one batch. */
  ghost predicate OfBatch(cfg: Pipe.Config, c: Pipe.Committer) {
    c.Sending? ==> c.batch < |cfg.sizes| && forall i | i in c.ops :: InBatch(cfg.sizes, c.batch, i)
  }

  lemma StepKeepsBatch(cfg: Pipe.Config, s: Pipe.State, step: Pipe.Step)
    requires Pipe.Sized(cfg, s) && Pipe.Enabled(cfg, s, step) && OfBatch(cfg, s.committer)
    ensures OfBatch(cfg, Pipe.Apply(cfg, s, step).committer)
  {
    if step.Collect? {
      Pipe.ReceivedInLog(s.log, cfg.sizes, s.committer.batch);
    }
  }

  lemma {:induction false} OpsAreOfBatch(cfg: Pipe.Config, ready: map<Oid, bool>, states: seq<Pipe.State>,
                                         steps: seq<Pipe.Step>, k: nat)
    requires Pipe.IsRun(cfg, ready, states, steps) && k < |states|
    ensures OfBatch(cfg, states[k].committer)
  {
    if k > 0 {
      OpsAreOfBatch(cfg, ready, states, steps, k - 1);
      StepKeepsBatch(cfg, states[k - 1], steps[k - 1]);
    }
  }

  predicate NoneTwice(ops: seq<nat>) {
    forall i, j | 0 <= i < j < |ops| :: ops[i] != ops[j]
  }

  lemma CountedOnce(ops: seq<nat>)
    requires forall i: nat :: multiset(ops)[i] <= 1
    ensures NoneTwice(ops)
  {
    forall i, j | 0 <= i < j < |ops| ensures ops[i] != ops[j] {
      var a, b := ops[..j], ops[j..];
      assert ops == a + b && a[i] in multiset(a) && b[0] in multiset(b);
      assert multiset(ops)[ops[i]] == multiset(a)[ops[i]] + multiset(b)[ops[i]];
    }
  }

  predicate Between(ops: seq<nat>, lo: nat, hi: nat) {
    forall k | 0 <= k < |ops| :: lo <= ops[k] < hi
  }

  lemma {:induction false} SumAtConcat(w: seq<nat>, a: seq<nat>, b: seq<nat>)
    requires Within(a, |w|) && Within(b, |w|)
    ensures SumAt(w, a + b) == SumAt(w, a) + SumAt(w, b)
  {
    if b == [] {
      assert a + b == a;
    } else {
      SumAtConcat(w, a, b[..|b| - 1]);
      assert (a + b)[..|a + b| - 1] == a + b[..|b| - 1];
    }
  }

  lemma OneLess(w: seq<nat>, ops: seq<nat>, p: nat, lo: nat) returns (rest: seq<nat>)
    requires Within(ops, |w|) && p < |ops| && NoneTwice(ops) && Between(ops, lo, ops[p] + 1)
    ensures |rest| == |ops| - 1 && Within(rest, |w|) && NoneTwice(rest) && Between(rest, lo, ops[p])
    ensures SumAt(w, ops) == SumAt(w, rest) + w[ops[p]]
  {
    var a, last, b := ops[..p], [ops[p]], ops[p + 1..];
    assert ops == (a + last) + b;
    SumAtConcat(w, a, last);
    SumAtConcat(w, a + last, b);
    SumAtConcat(w, a, b);
    rest := a + b;
    forall k | 0 <= k < |rest| ensures rest[k] == ops[if k < p then k else k + 1] {
    }
  }

  /** Different files of a range are no more, and no heavier together, than the range. */
  lemma {:induction false} FewerAndLighter(w: seq<nat>, lo: nat, hi: nat, ops: seq<nat>)
    requires lo <= hi <= |w| && Within(ops, |w|) && NoneTwice(ops) && Between(ops, lo, hi)
    ensures |ops| <= hi - lo && SumAt(w, ops) <= Total(w, lo, hi)
    decreases hi - lo
  {
    if ops != [] {
      assert lo <= ops[0] < hi;
      if Between(ops, lo, hi - 1) {
        FewerAndLighter(w, lo, hi - 1, ops);
      } else {
        var p :| 0 <= p < |ops| && ops[p] >= hi - 1;
        var rest := OneLess(w, ops, p, lo);
        FewerAndLighter(w, lo, hi - 1, rest);
      }
    }
  }

  lemma {:induction false} BytesAreSums(files: seq<FileItem>, ops: seq<nat>)
    requires Within(ops, |files|)
    ensures Bytes(FilesAt(files, ops)) == SumAt(Weights(files), ops) && |FilesAt(files, ops)| == |ops|
  {
    if ops != [] {
      BytesAreSums(files, ops[..|ops| - 1]);
    }
  }

  /** Different files of a batch that may go out in one commit may do so themselves. */
  lemma PartAllowed(files: seq<FileItem>, lo: nat, hi: nat, ops: seq<nat>, limits: Limits)
    requires lo <= hi <= |files| && Within(ops, |files|) && NoneTwice(ops) && Between(ops, lo, hi)
    requires Allowed(files[lo..hi], limits)
    ensures Allowed(FilesAt(files, ops), limits)
  {
    var w := Weights(files);
    FewerAndLighter(w, lo, hi, ops);
    TotalIsBytes(files, lo, hi);
    BytesAreSums(files, ops);
  }

  /** In every run, the commit that is about to go out may go out in one commit. */
  lemma OpsAllowed(cfg: Pipe.Config, ready: map<Oid, bool>, tr: Trace, limits: Limits)
    requires Ran(cfg, ready, tr) && tr.now.committer.Sending? && Planned(cfg, limits)
    requires Within(tr.now.committer.ops, |cfg.files|)
    ensures Allowed(FilesAt(cfg.files, tr.now.committer.ops), limits)
  {
    var ops, b := tr.now.committer.ops, tr.now.committer.batch;
    OpsAreOfBatch(cfg, ready, tr.states, tr.steps, |tr.steps|);
    assert PlannedAt(cfg, b, limits);
    var lo := Start(cfg.sizes, b);
    forall i: nat ensures multiset(ops)[i] <= 1 {
      OpsAreNew(cfg, ready, tr, i);
    }
    CountedOnce(ops);
    forall k | 0 <= k < |ops| ensures lo <= ops[k] < lo + cfg.sizes[b] {
      assert ops[k] in ops && InBatch(cfg.sizes, b, ops[k]);
    }
    PartAllowed(cfg.files, lo, lo + cfg.sizes[b], ops, limits);
  }

  /** Sends one commit and marks in the tracker what landed or failed for good. */
  method CommitFiles(server: HubServer, tracker: UploadTracker, files: seq<FileItem>) returns (reply: CommitReply)
    requires Sound(server, tracker) && server.Sendable(files)
    modifies server`commitCalls, server`landed, server`sent, tracker
    ensures Sound(server, tracker) && server.store == old(server.store) && old(server.landed) <= server.landed
    ensures reply == server.commits(old(server.commitCalls), files) && server.commitCalls == old(server.commitCalls) + 1
    ensures reply.Landed? ==> forall f | f in files :: f in server.landed
    ensures reply.Refused? && reply.error.retryable ==>
      tracker.entries == Restated(old(tracker.entries), KeysOf(multiset(files)), InStorage)
    ensures reply.Refused? && !reply.error.retryable ==> forall f | f in files ::
      f.TrackedAs() in tracker.entries && tracker.entries[f.TrackedAs()].status == Unfinished
    ensures Keeps(old(BooksOf(server, tracker)), BooksOf(server, tracker), multiset(files),
                  if reply.Landed? then files else [])
  {
    ghost var b0 := BooksOf(server, tracker);
    tracker.MarkUploaded(files);
    ghost var b1 := BooksOf(server, tracker);
    reply := SendAndMark(server, tracker, files);
    ghost var b2 := BooksOf(server, tracker);
    if reply.Refused? {
      if !reply.error.retryable {
        FailAll(tracker, files);
      }
      NothingKeeps(b2, multiset(files));
      LandedFirst(b1, b2, BooksOf(server, tracker), multiset(files), []);
    }
    FirstKeeps(b0, b1, BooksOf(server, tracker), multiset(files), multiset{}, multiset(files),
               if reply.Landed? then files else []);
  }

  method FailAll(tracker: UploadTracker, files: seq<FileItem>)
    modifies tracker
    ensures tracker.CommittedKeys() <= old(tracker.CommittedKeys())
    ensures forall f | f in files ::
      f.TrackedAs() in tracker.entries && tracker.entries[f.TrackedAs()].status == Unfinished
    ensures Spares(old(tracker.entries), tracker.entries, multiset(files))
  {
    for k := 0 to |files|
      invariant forall f | f in files[..k] ::
        f.TrackedAs() in tracker.entries && tracker.entries[f.TrackedAs()].status == Unfinished
      invariant tracker.CommittedKeys() <= old(tracker.CommittedKeys())
      invariant Spares(old(tracker.entries), tracker.entries, multiset(files))
    {
      ghost var entries := tracker.entries;
      tracker.MarkFailed(files[k]);
      assert files[k] in multiset(files);
      SparesOne(old(tracker.entries), entries, tracker.entries, multiset(files), files[k]);
    }
  }

  // ---- What one step does to the handover --------------------------------------------------------------------------

  lemma CollectMatches(cfg: Pipe.Config, s: Pipe.State, h: Handover, lost: seq<nat>, held: seq<nat>,
                       lostErrors: Failures, heldErrors: Failures, t: Pipe.State)
    requires Matches(cfg, s, h)
    requires Within(lost, |cfg.files|) && Within(held, |cfg.files|)
    requires FilesOf(lostErrors) == FilesAt(cfg.files, lost) && FilesOf(heldErrors) == FilesAt(cfg.files, held)
    requires t.committed == s.committed && t.terminal == s.terminal && t.retryCommit == s.retryCommit
    requires t.retryUpload == s.retryUpload + lost + held
    ensures Matches(cfg, t, h.(retryUpload := h.retryUpload + lostErrors + heldErrors))
  {
    FilesAtConcat(cfg.files, s.retryUpload, lost);
    FilesAtConcat(cfg.files, s.retryUpload + lost, held);
    FilesOfConcat(h.retryUpload, lostErrors);
    FilesOfConcat(h.retryUpload + lostErrors, heldErrors);
  }

  /** What the committer keeps of a batch for another upload. */
  function HeldAndLost(
    cfg: Pipe.Config, h: Handover, failed: seq<nat>, held: seq<nat>, errors: FileItem -> Error): Handover
    requires Within(failed, |cfg.files|) && Within(held, |cfg.files|)
  {
    h.(retryUpload := h.retryUpload + Blamed(FilesAt(cfg.files, failed), errors)
      + Blamed(FilesAt(cfg.files, held), SharedBlobFailed))
  }

  /** A storage error, which counts as transient. */
  function SharedBlobFailed(f: FileItem): Error {
    Error(false, true)
  }

  lemma HeldMatches(cfg: Pipe.Config, s: Pipe.State, h: Handover, failed: seq<nat>, held: seq<nat>,
                    errors: FileItem -> Error, t: Pipe.State)
    requires Matches(cfg, s, h) && Within(failed, |cfg.files|) && Within(held, |cfg.files|)
    requires t.committed == s.committed && t.terminal == s.terminal && t.retryCommit == s.retryCommit
    requires t.retryUpload == s.retryUpload + failed + held
    ensures Matches(cfg, t, HeldAndLost(cfg, h, failed, held, errors))
  {
    CollectMatches(cfg, s, h, failed, held, Blamed(FilesAt(cfg.files, failed), errors),
                   Blamed(FilesAt(cfg.files, held), SharedBlobFailed), t);
  }

  lemma PickWithin(cfg: Pipe.Config, ready: map<Oid, bool>, results: seq<nat>, held: bool)
    requires |cfg.files| == |cfg.hashed| && Within(results, |cfg.files|)
    ensures Within(Pipe.Pick(cfg, ready, results, held), |cfg.files|)
  {
    var picked := Pipe.Pick(cfg, ready, results, held);
    forall k | 0 <= k < |picked| ensures picked[k] < |cfg.files| {
      assert picked[k] in picked;
    }
  }

  /** What the committer keeps of a commit, by the reply. */
  function Noted(h: Handover, files: seq<FileItem>, reply: CommitReply): Handover {
    match reply
    case Landed => h.(committed := h.committed + files)
    case Refused(e, _) =>
      if e.retryable then h.(retryCommit := h.retryCommit + [(files, e)])
      else h.(terminal := h.terminal + Blame(files, e))
  }

  /** Commits refused for good are final failures, and those refused for now are kept for commit-only recovery. */
  ghost predicate Graded(h: Handover) {
    && (forall k | 0 <= k < |h.terminal| :: !h.terminal[k].1.retryable)
    && (forall k | 0 <= k < |h.retryCommit| :: h.retryCommit[k].1.retryable)
  }

  lemma NotedIsGraded(h: Handover, files: seq<FileItem>, reply: CommitReply)
    requires Graded(h)
    ensures Graded(Noted(h, files, reply))
    ensures reply.Landed? || reply.error.retryable ==> Noted(h, files, reply).terminal == h.terminal
  {
  }

  lemma LandedMatches(cfg: Pipe.Config, s: Pipe.State, h: Handover, ops: seq<nat>, t: Pipe.State)
    requires Matches(cfg, s, h) && Within(ops, |cfg.files|)
    requires t.committed == s.committed + ops && t.terminal == s.terminal && t.retryCommit == s.retryCommit
    requires t.retryUpload == s.retryUpload
    ensures Matches(cfg, t, h.(committed := h.committed + FilesAt(cfg.files, ops)))
  {
    FilesAtConcat(cfg.files, s.committed, ops);
  }

  lemma TerminalMatches(cfg: Pipe.Config, s: Pipe.State, h: Handover, ops: seq<nat>, e: Error, t: Pipe.State)
    requires Matches(cfg, s, h) && Within(ops, |cfg.files|)
    requires t.committed == s.committed && t.terminal == s.terminal + ops && t.retryCommit == s.retryCommit
    requires t.retryUpload == s.retryUpload
    ensures Matches(cfg, t, h.(terminal := h.terminal + Blame(FilesAt(cfg.files, ops), e)))
  {
    FilesAtConcat(cfg.files, s.terminal, ops);
    BlameFiles(FilesAt(cfg.files, ops), e);
    FilesOfConcat(h.terminal, Blame(FilesAt(cfg.files, ops), e));
  }

  lemma RetainedMatches(cfg: Pipe.Config, s: Pipe.State, h: Handover, ops: seq<nat>, e: Error, t: Pipe.State)
    requires Matches(cfg, s, h) && Within(ops, |cfg.files|)
    requires t.committed == s.committed && t.terminal == s.terminal && t.retryCommit == s.retryCommit + [ops]
    requires t.retryUpload == s.retryUpload
    ensures Matches(cfg, t, h.(retryCommit := h.retryCommit + [(FilesAt(cfg.files, ops), e)]))
  {
    Pipe.FlattenSnoc(s.retryCommit, ops);
    FilesAtConcat(cfg.files, Pipe.Flatten(s.retryCommit), ops);
    assert (h.retryCommit + [(FilesAt(cfg.files, ops), e)])[..|h.retryCommit|] == h.retryCommit;
  }

  lemma SendMatches(cfg: Pipe.Config, s: Pipe.State, h: Handover, reply: CommitReply)
    requires Pipe.Sized(cfg, s) && Pipe.Enabled(cfg, s, Pipe.Send(reply)) && Matches(cfg, s, h)
    requires Within(s.committer.ops, |cfg.files|)
    ensures Matches(cfg, Pipe.Apply(cfg, s, Pipe.Send(reply)), Noted(h, FilesAt(cfg.files, s.committer.ops), reply))
  {
    var t, ops := Pipe.Apply(cfg, s, Pipe.Send(reply)), s.committer.ops;
    match reply
    case Landed => LandedMatches(cfg, s, h, ops, t);
    case Refused(e, _) =>
      if e.retryable {
        RetainedMatches(cfg, s, h, ops, e, t);
      } else {
        TerminalMatches(cfg, s, h, ops, e, t);
      }
  }

  lemma {:induction false} BlamedRetryable(files: seq<FileItem>, errors: FileItem -> Error)
    requires forall f :: errors(f).retryable
    ensures AllRetryable(Blamed(files, errors))
  {
    if files != [] {
      BlamedRetryable(files[..|files| - 1], errors);
    }
  }

  /** The states and steps of a run so far, and the state it is in. */
  datatype Trace = Trace(states: seq<Pipe.State>, steps: seq<Pipe.Step>, now: Pipe.State)

  ghost predicate Ran(cfg: Pipe.Config, ready: map<Oid, bool>, tr: Trace) {
    && Pipe.WellFormed(cfg) && Pipe.InitialReady(cfg, ready) && Pipe.IsRun(cfg, ready, tr.states, tr.steps)
    && tr.states[|tr.steps|] == tr.now && Pipe.Sized(cfg, tr.now)
  }

  /** The commit that is about to go out is backed, in every run. */
  lemma OpsBacked(cfg: Pipe.Config, ready: map<Oid, bool>, tr: Trace)
    requires Ran(cfg, ready, tr) && tr.now.committer.Sending?
    ensures Within(tr.now.committer.ops, |cfg.files|) && Pipe.Backed(cfg, tr.now.committer.ops, tr.now.store)
  {
    Pipe.RunKeepsInv(cfg, ready, tr.states, tr.steps, |tr.steps|);
    var ops := tr.now.committer.ops;
    assert Pipe.Backed(cfg, Pipe.InFlight(tr.now.committer), tr.now.store);
    forall k | 0 <= k < |ops| ensures ops[k] < |cfg.files| {
      assert ops[k] in ops;
    }
  }

  /** The run goes on by one step, and stays a run. */
  lemma Extend(cfg: Pipe.Config, ready: map<Oid, bool>, tr: Trace, step: Pipe.Step) returns (tr': Trace)
    requires Ran(cfg, ready, tr) && Pipe.Enabled(cfg, tr.now, step)
    ensures Ran(cfg, ready, tr') && tr'.steps == tr.steps + [step]
    ensures tr'.now == Pipe.Apply(cfg, tr.now, step)
  {
    Pipe.RunSnoc(cfg, ready, tr.states, tr.steps, step);
    var next := Pipe.Apply(cfg, tr.now, step);
    tr' := Trace(tr.states + [next], tr.steps + [step], next);
    Pipe.RunKeepsInv(cfg, ready, tr'.states, tr'.steps, |tr'.steps|);
  }

  lemma NoteTransfer(cfg: Pipe.Config, ready: map<Oid, bool>, tr: Trace, h: Handover, i: nat, ok: bool, stored: bool)
    returns (tr': Trace)
    requires Ran(cfg, ready, tr) && Matches(cfg, tr.now, h) && i < |tr.now.workers| && tr.now.workers[i].Queued?
    ensures Ran(cfg, ready, tr') && tr'.steps == tr.steps + [Pipe.Transfer(i, ok, stored)]
    ensures tr'.now.workers == tr.now.workers[i := Pipe.Moved(ok)]
    ensures tr'.now.store == Pipe.StoreAfter(cfg, tr.now.store, i, ok, stored)
    ensures tr'.now.ready == tr.now.ready && tr'.now.log == tr.now.log && tr'.now.committer == tr.now.committer
    ensures Matches(cfg, tr'.now, h)
  {
    tr' := Extend(cfg, ready, tr, Pipe.Transfer(i, ok, stored));
  }

  lemma NotePublish(cfg: Pipe.Config, ready: map<Oid, bool>, tr: Trace, h: Handover, i: nat) returns (tr': Trace)
    requires Ran(cfg, ready, tr) && Matches(cfg, tr.now, h) && i < |tr.now.workers| && tr.now.workers[i].Moved?
    ensures Ran(cfg, ready, tr') && tr'.steps == tr.steps + [Pipe.Publish(i)]
    ensures tr'.now.workers == tr.now.workers[i := Pipe.Published(tr.now.workers[i].ok)]
    ensures tr'.now.ready == Pipe.ReadyAfter(cfg, tr.now.ready, i, tr.now.workers[i].ok)
    ensures tr'.now.store == tr.now.store && tr'.now.log == tr.now.log && tr'.now.committer == tr.now.committer
    ensures Matches(cfg, tr'.now, h)
  {
    tr' := Extend(cfg, ready, tr, Pipe.Publish(i));
  }

  lemma NoteReport(cfg: Pipe.Config, ready: map<Oid, bool>, tr: Trace, h: Handover, i: nat) returns (tr': Trace)
    requires Ran(cfg, ready, tr) && Matches(cfg, tr.now, h) && i < |tr.now.workers| && tr.now.workers[i].Published?
    ensures Ran(cfg, ready, tr') && tr'.steps == tr.steps + [Pipe.Report(i)]
    ensures tr'.now.workers == tr.now.workers[i := Pipe.Finished(tr.now.workers[i].ok)]
    ensures tr'.now.log == tr.now.log + [Record(i, tr.now.workers[i].ok)]
    ensures tr'.now.store == tr.now.store && tr'.now.ready == tr.now.ready && tr'.now.committer == tr.now.committer
    ensures Matches(cfg, tr'.now, h)
  {
    tr' := Extend(cfg, ready, tr, Pipe.Report(i));
  }

  lemma NoteCollect(cfg: Pipe.Config, ready: map<Oid, bool>, tr: Trace, h: Handover, errors: FileItem -> Error,
                    failed: seq<nat>, ops: seq<nat>, held: seq<nat>)
    returns (tr': Trace)
    requires Ran(cfg, ready, tr) && Matches(cfg, tr.now, h)
    requires Pipe.Enabled(cfg, tr.now, Pipe.Collect) && Within(failed, |cfg.files|) && Within(held, |cfg.files|)
    requires failed == Received(tr.now.log, cfg.sizes, tr.now.committer.batch, false)
    requires var results := Received(tr.now.log, cfg.sizes, tr.now.committer.batch, true);
      && Within(results, |cfg.files|)
      && ops == Pipe.Pick(cfg, tr.now.ready, results, false) && held == Pipe.Pick(cfg, tr.now.ready, results, true)
    ensures Ran(cfg, ready, tr') && tr'.steps == tr.steps + [Pipe.Collect]
    ensures tr'.now.store == tr.now.store && tr'.now.workers == tr.now.workers && tr'.now.ready == tr.now.ready
    ensures tr'.now.log == tr.now.log && tr'.now.committer == AfterCollect(tr.now.committer.batch, ops)
    ensures Matches(cfg, tr'.now, HeldAndLost(cfg, h, failed, held, errors))
  {
    tr' := Extend(cfg, ready, tr, Pipe.Collect);
    HeldMatches(cfg, tr.now, h, failed, held, errors, tr'.now);
  }

  function AfterCollect(b: nat, ops: seq<nat>): Pipe.Committer {
    if ops == [] then Pipe.Waiting(b + 1) else Pipe.Sending(b, ops)
  }

  lemma NoteSend(cfg: Pipe.Config, ready: map<Oid, bool>, tr: Trace, h: Handover, reply: CommitReply)
    returns (tr': Trace)
    requires Ran(cfg, ready, tr) && Matches(cfg, tr.now, h) && tr.now.committer.Sending?
    requires Within(tr.now.committer.ops, |cfg.files|)
    ensures Ran(cfg, ready, tr') && tr'.steps == tr.steps + [Pipe.Send(reply)]
    ensures tr'.now.store == tr.now.store && tr'.now.workers == tr.now.workers && tr'.now.ready == tr.now.ready
    ensures tr'.now.log == tr.now.log && tr'.now.committer == Pipe.Waiting(tr.now.committer.batch + 1)
    ensures Matches(cfg, tr'.now, Noted(h, FilesAt(cfg.files, tr.now.committer.ops), reply))
  {
    SendMatches(cfg, tr.now, h, reply);
    tr' := Extend(cfg, ready, tr, Pipe.Send(reply));
  }

  lemma StepsAreBounded(cfg: Pipe.Config, ready: map<Oid, bool>, tr: Trace)
    requires Ran(cfg, ready, tr)
    ensures |tr.steps| <= 3 * |cfg.files| + 2 * |cfg.sizes|
  {
    Pipe.RunsAreBounded(cfg, ready, tr.states, tr.steps);
  }

  /** When all workers have finished, every batch is complete. */
  lemma AllDoneIsComplete(cfg: Pipe.Config, ready: map<Oid, bool>, tr: Trace, b: nat)
    requires Ran(cfg, ready, tr) && b < |cfg.sizes|
    requires forall k | 0 <= k < |tr.now.workers| :: tr.now.workers[k].Finished?
    ensures Complete(tr.now.log, cfg.sizes, b)
  {
    Pipe.RunKeepsInv(cfg, ready, tr.states, tr.steps, |tr.steps|);
    StartStep(cfg.sizes, b);
    CompleteIffAllReported(tr.now.log, cfg.sizes, b);
  }

  lemma HeldAndLostRetryable(cfg: Pipe.Config, h: Handover, failed: seq<nat>, held: seq<nat>,
                             errors: FileItem -> Error)
    requires Within(failed, |cfg.files|) && Within(held, |cfg.files|)
    ensures AllRetryable(h.retryUpload) && (forall f :: errors(f).retryable)
      ==> AllRetryable(HeldAndLost(cfg, h, failed, held, errors).retryUpload)
  {
    if AllRetryable(h.retryUpload) && forall f :: errors(f).retryable {
      BlamedRetryable(FilesAt(cfg.files, failed), errors);
      BlamedRetryable(FilesAt(cfg.files, held), SharedBlobFailed);
    }
  }

  /** The committer takes batch b: failures and held back copies go to recovery, the rest to a commit. */
  method ConsumeBatch(
    batches: BatchTracker, cfg: Pipe.Config, owners: map<Oid, nat>, ready: map<Oid, bool>, b: nat, h: Handover,
    errors: FileItem -> Error, ghost first: map<Oid, bool>, ghost tr: Trace)
    returns (committable: seq<nat>, h': Handover, ghost tr': Trace)
    requires batches.Valid() && batches.sizes == cfg.sizes && b < |cfg.sizes| && batches.events[b]
    requires |cfg.hashed| == |cfg.files| == |batches.ownerOf| && owners == Pipe.Owners(cfg)
    requires Ran(cfg, first, tr) && Matches(cfg, tr.now, h)
    requires tr.now.committer == Pipe.Waiting(b) && tr.now.log == batches.log && tr.now.ready == ready
    ensures Ran(cfg, first, tr') && Matches(cfg, tr'.now, h') && tr'.steps == tr.steps + [Pipe.Collect]
    ensures tr'.now.store == tr.now.store && tr'.now.workers == tr.now.workers && tr'.now.ready == tr.now.ready
    ensures tr'.now.log == tr.now.log && tr'.now.committer == AfterCollect(b, committable)
    ensures h' == h.(retryUpload := h'.retryUpload)
    ensures AllRetryable(h.retryUpload) && (forall f :: errors(f).retryable) ==> AllRetryable(h'.retryUpload)
  {
    var failed, held;
    failed, committable, held := TakeBatch(batches, cfg, owners, ready, b);
    HeldAndLostRetryable(cfg, h, failed, held, errors);
    h' := HeldAndLost(cfg, h, failed, held, errors);
    tr' := NoteCollect(cfg, first, tr, h, errors, failed, committable, held);
  }

  /** Sends the files of a commit and notes them by the reply. */
  method CommitOps(
    server: HubServer, tracker: UploadTracker, cfg: Pipe.Config, ops: seq<nat>, h: Handover,
    ghost first: map<Oid, bool>, ghost tr: Trace, ghost b0: Books)
    returns (reply: CommitReply, h': Handover)
    requires Sound(server, tracker) && forall f | f in h.committed :: f in server.landed
    requires Ran(cfg, first, tr) && Matches(cfg, tr.now, h)
    requires Follows(cfg, b0, BooksOf(server, tracker), tr.now.workers, h.committed)
    requires tr.now.committer.Sending? && tr.now.committer.ops == ops && tr.now.store == server.store
    requires Within(ops, |cfg.files|) && Pipe.Backed(cfg, ops, tr.now.store)
    requires Allowed(FilesAt(cfg.files, ops), server.limits)
    modifies server`commitCalls, server`landed, server`sent, tracker
    ensures Sound(server, tracker) && server.store == old(server.store) && old(server.landed) <= server.landed
    ensures h' == Noted(h, FilesAt(cfg.files, ops), reply) && forall f | f in h'.committed :: f in server.landed
    ensures reply == server.commits(old(server.commitCalls), FilesAt(cfg.files, ops))
    ensures server.commitCalls == old(server.commitCalls) + 1
    ensures Follows(cfg, b0, BooksOf(server, tracker), tr.now.workers, h'.committed)
  {
    ghost var b := BooksOf(server, tracker);
    FilesAtBacked(cfg, ops, tr.now.store);
    var files := FilesAt(cfg.files, ops);
    reply := CommitFiles(server, tracker, files);
    h' := Noted(h, files, reply);
    SendFollows(cfg, first, tr, h, b0, b, BooksOf(server, tracker), files, reply);
  }

  /** The commit goes out as one step of the run. */
  method CommitBatchOf(
    server: HubServer, tracker: UploadTracker, cfg: Pipe.Config, committer: Pipe.Committer, h: Handover,
    ghost first: map<Oid, bool>, ghost tr: Trace, ghost b0: Books)
    returns (reply: CommitReply, h': Handover, ghost tr': Trace)
    requires Sound(server, tracker) && forall f | f in h.committed :: f in server.landed
    requires Ran(cfg, first, tr) && Matches(cfg, tr.now, h)
    requires committer.Sending? && tr.now.committer == committer && tr.now.store == server.store
    requires Planned(cfg, server.limits)
    requires Follows(cfg, b0, BooksOf(server, tracker), tr.now.workers, h.committed)
    modifies server`commitCalls, server`landed, server`sent, tracker
    ensures Sound(server, tracker) && server.store == old(server.store) && old(server.landed) <= server.landed
    ensures forall f | f in h'.committed :: f in server.landed
    ensures Ran(cfg, first, tr') && Matches(cfg, tr'.now, h') && tr'.steps == tr.steps + [Pipe.Send(reply)]
    ensures tr'.now.store == tr.now.store && tr'.now.workers == tr.now.workers && tr'.now.ready == tr.now.ready
    ensures tr'.now.log == tr.now.log && tr'.now.committer == Pipe.Waiting(committer.batch + 1)
    ensures h'.retryUpload == h.retryUpload
    ensures server.commitCalls == old(server.commitCalls) + 1
    ensures reply.Refused? ==> MayRefuse(server.commits, old(server.commitCalls), reply.error.retryable)
    ensures Graded(h) ==> Graded(h')
    ensures reply.Landed? || reply.error.retryable ==> h'.terminal == h.terminal
    ensures Follows(cfg, b0, BooksOf(server, tracker), tr'.now.workers, h'.committed)
  {
    OpsBacked(cfg, first, tr);
    OpsAllowed(cfg, first, tr, server.limits);
    reply, h' := CommitOps(server, tracker, cfg, committer.ops, h, first, tr, b0);
    if Graded(h) {
      NotedIsGraded(h, FilesAt(cfg.files, committer.ops), reply);
    }
    tr' := NoteSend(cfg, first, tr, h, reply);
  }

  // ---- The tracker during the run ----------------------------------------------------------------------------------

  /** The tracker knows every file whose worker has begun, keys of other scans keep their status, only files of this
      scan land, and, paths being distinct, whatever the handover calls committed is remembered as committed. */
  ghost predicate Follows(cfg: Pipe.Config, b0: Books, b: Books, workers: seq<Pipe.Worker>, committed: seq<FileItem>) {
    && Spares(b0.entries, b.entries, multiset(cfg.files))
    && (forall f | f in b.landed :: f in b0.landed || f in cfg.files)
    && BegunAreKnown(cfg, b.entries, workers)
    && (forall f | f in committed :: f in cfg.files)
    && (Distinct(cfg.files) ==> Remembered(b.entries, committed))
  }

  ghost predicate BegunAreKnown(cfg: Pipe.Config, e: Entries, workers: seq<Pipe.Worker>) {
    forall i | 0 <= i < |workers| && i < |cfg.files| && !workers[i].Queued? :: cfg.files[i].TrackedAs() in e
  }

  lemma TransferFollows(cfg: Pipe.Config, b0: Books, b: Books, b': Books, workers: seq<Pipe.Worker>, i: nat,
                        w: Pipe.Worker, committed: seq<FileItem>)
    requires Follows(cfg, b0, b, workers, committed) && i < |workers| == |cfg.files| && b'.landed == b.landed
    requires Spares(b.entries, b'.entries, multiset{cfg.files[i]}) && SameStatus(b.entries, b'.entries)
    requires cfg.files[i].TrackedAs() in b'.entries
    ensures Follows(cfg, b0, b', workers[i := w], committed)
  {
    SparesOne(b0.entries, b.entries, b'.entries, multiset(cfg.files), cfg.files[i]);
    forall f | f in committed && Distinct(cfg.files) ensures Remembers(b'.entries, f) {
      assert Remembers(b.entries, f);
    }
  }

  /** A worker that has begun may move on. */
  lemma WorkerFollows(cfg: Pipe.Config, b0: Books, b: Books, workers: seq<Pipe.Worker>, i: nat, w: Pipe.Worker,
                      committed: seq<FileItem>)
    requires Follows(cfg, b0, b, workers, committed) && i < |workers| == |cfg.files| && !workers[i].Queued?
    ensures Follows(cfg, b0, b, workers[i := w], committed)
  {
  }

  lemma {:induction false} FromFiles(files: seq<FileItem>, idx: seq<nat>, f: FileItem) returns (i: nat)
    requires Within(idx, |files|) && f in FilesAt(files, idx)
    ensures i < |files| && i in idx && files[i] == f
  {
    var n := |idx| - 1;
    if f == files[idx[n]] {
      i := idx[n];
    } else {
      i := FromFiles(files, idx[..n], f);
    }
  }

  /** With distinct paths, a file occurs as often as its index. */
  lemma {:induction false} CountAt(files: seq<FileItem>, idx: seq<nat>, i: nat)
    requires Distinct(files) && Within(idx, |files|) && i < |files|
    ensures multiset(FilesAt(files, idx))[files[i]] == multiset(idx)[i]
  {
    if idx != [] {
      var init, last := idx[..|idx| - 1], idx[|idx| - 1];
      CountAt(files, init, i);
      assert idx == init + [last];
      assert files[last] == files[i] ==> last == i;
    }
  }

  /** The files of a commit that goes out are known, none of them twice, and none was committed before in this run. */
  lemma OpsAreNew(cfg: Pipe.Config, ready: map<Oid, bool>, tr: Trace, i: nat)
    requires Ran(cfg, ready, tr) && tr.now.committer.Sending?
    ensures multiset(tr.now.committed)[i] + multiset(tr.now.committer.ops)[i] <= 1
    ensures i in tr.now.committer.ops ==> i < |tr.now.workers| && tr.now.workers[i].Finished?
  {
    Pipe.RunKeepsInv(cfg, ready, tr.states, tr.steps, |tr.steps|);
    var s := tr.now;
    var whole := Range(0, Start(cfg.sizes, Pipe.Taken(s.committer)));
    assert Pipe.Places(s) == multiset(whole);
    assert Pipe.Places(s)[i] == multiset(s.committed)[i] + multiset(s.retryUpload)[i]
      + multiset(Pipe.Flatten(s.retryCommit))[i] + multiset(s.terminal)[i] + multiset(s.committer.ops)[i];
    if i in s.committer.ops {
      assert i in multiset(s.committer.ops);
      assert i in whole;
    }
  }

  /** The files of the commit, seen from the tracker. */
  lemma CommitIsNew(cfg: Pipe.Config, ready: map<Oid, bool>, tr: Trace, e: Entries, f: FileItem)
    requires Ran(cfg, ready, tr) && tr.now.committer.Sending? && Distinct(cfg.files)
    requires BegunAreKnown(cfg, e, tr.now.workers)
    requires Within(tr.now.committer.ops, |cfg.files|) && Within(tr.now.committed, |cfg.files|)
    ensures multiset(FilesAt(cfg.files, tr.now.committer.ops))[f] <= 1
    ensures f in FilesAt(cfg.files, tr.now.committer.ops) ==>
      f.TrackedAs() in e && f !in FilesAt(cfg.files, tr.now.committed)
  {
    var ops, done := tr.now.committer.ops, tr.now.committed;
    if f in FilesAt(cfg.files, ops) {
      var i := FromFiles(cfg.files, ops, f);
      OpsAreNew(cfg, ready, tr, i);
      CountAt(cfg.files, ops, i);
      CountAt(cfg.files, done, i);
      assert i in multiset(ops);
      assert f !in multiset(FilesAt(cfg.files, done));
    }
  }

  lemma {:induction false} FilesAtAreFiles(files: seq<FileItem>, idx: seq<nat>)
    requires Within(idx, |files|)
    ensures forall f | f in FilesAt(files, idx) :: f in files
  {
    if idx != [] {
      FilesAtAreFiles(files, idx[..|idx| - 1]);
    }
  }

  /** With distinct paths, each key belongs to one file. */
  lemma DistinctKeys(files: seq<FileItem>, f: FileItem, g: FileItem)
    requires Distinct(files) && f in files && g in files && f.TrackedAs() == g.TrackedAs()
    ensures f == g
  {
    var i :| 0 <= i < |files| && files[i] == f;
    var j :| 0 <= j < |files| && files[j] == g;
    assert files[i].path == files[j].path;
  }

  lemma OnceAmong(all: seq<FileItem>, files: seq<FileItem>)
    requires Distinct(all) && (forall f | f in files :: f in all) && forall f :: multiset(files)[f] <= 1
    ensures Once(multiset(files))
  {
    forall f, g | f in multiset(files) && g in multiset(files) && f.TrackedAs() == g.TrackedAs() ensures f == g {
      assert f in files && g in files;
      DistinctKeys(all, f, g);
    }
  }

  /** The files are new: known to the tracker, each once, none of them committed before. */
  ghost predicate AreNew(e: Entries, committed: seq<FileItem>, files: seq<FileItem>) {
    forall f :: multiset(files)[f] <= 1 && (f in files ==> f.TrackedAs() in e && f !in committed)
  }

  /** The commit of new files leaves the earlier ones remembered. */
  lemma NotedFollows(cfg: Pipe.Config, b0: Books, b: Books, b': Books, workers: seq<Pipe.Worker>,
                     committed: seq<FileItem>, files: seq<FileItem>, more: seq<FileItem>)
    requires Follows(cfg, b0, b, workers, committed) && Keeps(b, b', multiset(files), more)
    requires (forall f | f in files :: f in cfg.files) && forall f | f in more :: f in files
    requires Distinct(cfg.files) ==> AreNew(b.entries, committed, files)
    ensures Follows(cfg, b0, b', workers, committed + more)
  {
    forall f | f in multiset(files) ensures f in multiset(cfg.files) {
      assert f in files;
    }
    SparesMore(b.entries, b'.entries, multiset(files), multiset(cfg.files));
    SparesTogether(b0.entries, b.entries, b'.entries, multiset(cfg.files));
    if Distinct(cfg.files) {
      OnceAmong(cfg.files, files);
      forall f | f in multiset(files) ensures f.TrackedAs() in b.entries {
        assert f in files;
      }
      forall f, g | f in committed && g in multiset(files) ensures f.TrackedAs() != g.TrackedAs() {
        assert g in files;
        if f.TrackedAs() == g.TrackedAs() {
          DistinctKeys(cfg.files, f, g);
        }
      }
      StillRemembered(b.entries, b'.entries, multiset(files), committed);
      RememberedBoth(b'.entries, committed, more);
    }
  }

  lemma SendFollows(cfg: Pipe.Config, ready: map<Oid, bool>, tr: Trace, h: Handover, b0: Books, b: Books,
                    b': Books, files: seq<FileItem>, reply: CommitReply)
    requires Ran(cfg, ready, tr) && Matches(cfg, tr.now, h) && tr.now.committer.Sending?
    requires Within(tr.now.committer.ops, |cfg.files|) && files == FilesAt(cfg.files, tr.now.committer.ops)
    requires Follows(cfg, b0, b, tr.now.workers, h.committed)
    requires Keeps(b, b', multiset(files), if reply.Landed? then files else [])
    ensures Follows(cfg, b0, b', tr.now.workers, Noted(h, files, reply).committed)
  {
    FilesAtAreFiles(cfg.files, tr.now.committer.ops);
    if Distinct(cfg.files) {
      forall f ensures multiset(files)[f] <= 1 && (f in files ==> f.TrackedAs() in b.entries && f !in h.committed) {
        CommitIsNew(cfg, ready, tr, b.entries, f);
      }
      assert AreNew(b.entries, h.committed, files);
    }
    var more := if reply.Landed? then files else [];
    NotedFollows(cfg, b0, b, b', tr.now.workers, h.committed, files, more);
    assert Noted(h, files, reply).committed == h.committed + more;
  }

  lemma DoneMeansFinished(cfg: Pipe.Config, ready: map<Oid, bool>, tr: Trace)
    requires Ran(cfg, ready, tr) && Pipe.Done(cfg, tr.now)
    ensures |tr.now.workers| == |cfg.files| && forall i | 0 <= i < |cfg.files| :: tr.now.workers[i].Finished?
  {
    Pipe.RunKeepsInv(cfg, ready, tr.states, tr.steps, |tr.steps|);
    assert cfg.sizes[..|cfg.sizes|] == cfg.sizes;
  }

  lemma BegunKnown(cfg: Pipe.Config, e: Entries, workers: seq<Pipe.Worker>)
    requires BegunAreKnown(cfg, e, workers)
    requires |workers| == |cfg.files| && forall i | 0 <= i < |cfg.files| :: workers[i].Finished?
    ensures Known(e, multiset(cfg.files))
  {
    forall f | f in multiset(cfg.files) ensures f.TrackedAs() in e {
      var i :| 0 <= i < |cfg.files| && cfg.files[i] == f;
      assert workers[i].Finished?;
    }
  }

  /** When the pipeline is over, the tracker knows all files. */
  lemma AllKnown(cfg: Pipe.Config, ready: map<Oid, bool>, tr: Trace, b0: Books, b: Books, committed: seq<FileItem>)
    requires Ran(cfg, ready, tr) && Pipe.Done(cfg, tr.now) && Follows(cfg, b0, b, tr.now.workers, committed)
    ensures Known(b.entries, multiset(cfg.files))
  {
    DoneMeansFinished(cfg, ready, tr);
    BegunKnown(cfg, b.entries, tr.now.workers);
  }
}
