/** One folder upload from the scan to the report: what is skipped, what the pipeline hands over, what recovery
    makes of it, and how the run ends. */
module FolderUpload {
  import opened UploadTypes
  import opened Options
  import opened HubServing
  import opened UploadTracking
  import opened CommitRecovery
  import opened ReuploadRecovery
  import opened BatchTracking
  import opened CommitPlanner
  import opened PipelineSteps
  import opened PipelineRun
  import Pipe = UploadPipeline

  /** The run returns normally, raises with the files that failed, or ends without a report: after too many failed
      commits in a row, or because there is nothing to upload. */
  datatype Verdict =
    | Returned(skipped: seq<FileItem>, committed: seq<FileItem>)
    | Raised(skipped: seq<FileItem>, committed: seq<FileItem>, failed: Failures)
    | Aborted(skipped: seq<FileItem>, committed: seq<FileItem>)

  function FailedOf(v: Verdict): Failures {
    if v.Raised? then v.failed else []
  }

  /** Each file of the scan is in one of the three groups, as often as it occurs. */
  ghost predicate AddsUp(v: Verdict, seen: seq<FileItem>) {
    multiset(v.skipped) + (multiset(v.committed) + Bag(FailedOf(v))) == multiset(seen)
  }

  function VerdictOf(skipped: seq<FileItem>, committed: seq<FileItem>, failures: Failures): (v: Verdict)
    ensures v.skipped == skipped && v.committed == committed && FailedOf(v) == failures
    ensures !v.Aborted? && (v.Returned? <==> failures == [])
  {
    if failures == [] then Returned(skipped, committed) else Raised(skipped, committed, failures)
  }

  lemma {:induction false} ChooseSplits(files: seq<FileItem>, from: set<FileItem>)
    ensures multiset(Choose(files, from, true)) + multiset(Choose(files, from, false)) == multiset(files)
  {
    if files != [] {
      ChooseSplits(files[..|files| - 1], from);
      assert files == files[..|files| - 1] + [files[|files| - 1]];
    }
  }

  /** The scan as the run handles it, by the digests that the tracker file has. */
  function SeenFiles(entries: Entries, files: seq<FileItem>): (seen: seq<FileItem>)
    ensures |seen| == |files| && forall i | 0 <= i < |files| :: seen[i] == SeenAs(entries, files[i])
  {
    if files == [] then []
    else SeenFiles(entries, files[..|files| - 1]) + [SeenAs(entries, files[|files| - 1])]
  }

  method ReadDigests(tracker: UploadTracker, files: seq<FileItem>) returns (seen: seq<FileItem>)
    ensures seen == SeenFiles(tracker.entries, files)
  {
    seen := [];
    for i := 0 to |files|
      invariant seen == SeenFiles(tracker.entries, files[..i])
    {
      assert files[..i + 1][..i] == files[..i];
      var digest := tracker.GetHash(files[i]);
      seen := seen + [if files[i].IsLfs() && digest.Some? then files[i].(oid := digest.value) else files[i]];
    }
    assert files[..|files|] == files;
  }

  /** The files whose keys are among these. */
  function KeyedIn(files: seq<FileItem>, keys: set<Key>): set<FileItem> {
    set f | f in files && f.TrackedAs() in keys
  }

  /** A file is left out before planning if and only if the tracker calls its key committed. */
  method SplitPending(tracker: UploadTracker, files: seq<FileItem>)
    returns (pending: seq<FileItem>, skipped: seq<FileItem>)
    modifies tracker
    ensures tracker.CommittedKeys() == old(tracker.CommittedKeys())
    ensures pending == Choose(files, KeyedIn(files, old(tracker.CommittedKeys())), false)
    ensures skipped == Choose(files, KeyedIn(files, old(tracker.CommittedKeys())), true)
    ensures forall f :: f in skipped <==> f in files && f.TrackedAs() in old(tracker.CommittedKeys())
    ensures forall f :: f in pending <==> f in files && f.TrackedAs() !in old(tracker.CommittedKeys())
    ensures Spares(old(tracker.entries), tracker.entries, multiset(pending))
  {
    ghost var keys := tracker.CommittedKeys();
    ghost var done := KeyedIn(files, keys);
    pending, skipped := [], [];
    for i := 0 to |files|
      invariant Spares(old(tracker.entries), tracker.entries, multiset(pending))
      invariant tracker.CommittedKeys() == keys
      invariant pending == Choose(files[..i], done, false) && skipped == Choose(files[..i], done, true)
    {
      assert files[..i + 1][..i] == files[..i];
      var committed := tracker.IsCommitted(files[i]);
      if committed {
        skipped := skipped + [files[i]];
      } else {
        ghost var entries := tracker.entries;
        tracker.BeginAttempt(files[i]);
        JoinBags(pending, [files[i]]);
        OneMorePending(old(tracker.entries), entries, tracker.entries, pending, files[i]);
        pending := pending + [files[i]];
      }
    }
    assert files[..|files|] == files;
    ChooseMembers(files, done, true);
    ChooseMembers(files, done, false);
  }

  lemma OneMorePending(e0: Entries, e1: Entries, e2: Entries, pending: seq<FileItem>, f: FileItem)
    requires Spares(e0, e1, multiset(pending)) && Spares(e1, e2, multiset{f})
    ensures Spares(e0, e2, multiset(pending + [f]))
  {
    var all := multiset(pending + [f]);
    assert f in pending + [f];
    forall g | g in multiset(pending) ensures g in all {
      assert g in pending && g in pending + [f];
    }
    SparesMore(e0, e1, multiset(pending), all);
    SparesOne(e0, e1, e2, all, f);
  }

  /** The distinct contents of the hashed files, in order of first occurrence. */
  method DistinctBlobs(files: seq<FileItem>, hashed: seq<bool>) returns (objects: seq<Oid>)
    requires |hashed| == |files|
    ensures forall i, j | 0 <= i < j < |objects| :: objects[i] != objects[j]
    ensures forall i | 0 <= i < |files| && hashed[i] :: files[i].oid in objects
  {
    objects := [];
    for i := 0 to |files|
      invariant forall a, b | 0 <= a < b < |objects| :: objects[a] != objects[b]
      invariant forall k | 0 <= k < i && hashed[k] :: files[k].oid in objects
    {
      if hashed[i] && files[i].oid !in objects {
        objects := objects + [files[i].oid];
      }
    }
  }

  /** No division of the files into consecutive commits within the cap and the byte budget has fewer of them. */
  ghost predicate FewestBatches(plan: seq<nat>, files: seq<FileItem>, limits: Limits) {
    forall p: seq<seq<nat>> | ValidPlan(p, Weights(files), PlannedCap(|files|, limits), limits.inlineBytes) ::
      |plan| <= |p|
  }

  lemma FittingIsPlanned(cfg: Pipe.Config, limits: Limits)
    requires CountsFit(cfg.sizes, cfg.files, PlannedCap(|cfg.files|, limits), limits.inlineBytes)
    ensures Planned(cfg, limits)
  {
    forall b: nat | b < |cfg.sizes| ensures PlannedAt(cfg, b, limits) {
      var lo := Start(cfg.sizes, b);
      assert cfg.sizes[b] >= 0;
      PlannedIsAllowed(cfg.files[lo..lo + cfg.sizes[b]], |cfg.files|, limits);
    }
  }

  /** Planning, pre-validation and election set the pipeline up so that its safety argument applies, whatever the
      files, the limits and the answers of a truthful server. */
  method PreparePipeline(
    pending: seq<FileItem>, hashed: seq<bool>, limits: Limits, validator: Pipe.Validator, groupSize: nat,
    ghost store: set<Oid>)
    returns (plan: seq<nat>, objects: seq<Oid>, answers: map<Oid, Pipe.Answer>, ready: map<Oid, bool>,
             owners: map<Oid, nat>)
    requires |hashed| == |pending| && forall i | 0 <= i < |hashed| && hashed[i] :: pending[i].IsLfs()
    requires groupSize >= 1 && Pipe.Truthful(validator, store)
    ensures var cfg := Pipe.Config(pending, plan, hashed, answers, store);
      Pipe.WellFormed(cfg) && Pipe.InitialReady(cfg, ready) && owners == Pipe.Owners(cfg)
    ensures Planned(Pipe.Config(pending, plan, hashed, answers, store), limits)
    ensures FewestBatches(plan, pending, limits)
    ensures answers == Pipe.Answers(validator, groupSize, objects, 0)
    ensures forall i | 0 <= i < |pending| && hashed[i] :: pending[i].oid in objects
    ensures forall i, j | 0 <= i < j < |objects| :: objects[i] != objects[j]
  {
    var operations := AdaptiveBatchSize(|pending|, limits.maxOperations, limits.ceiling);
    plan := PlanCommitBatches(pending, operations, limits.inlineBytes, limits.ceiling);
    ghost var w, cap := Weights(pending), EffectiveCap(operations, |pending|, limits.ceiling);
    ghost var batches :| CountsOf(plan, batches) && ValidPlan(batches, w, cap, limits.inlineBytes);
    CountsTile(plan, batches, w, cap, limits.inlineBytes);
    PlanFits(plan, batches, pending, cap, limits.inlineBytes);
    objects := DistinctBlobs(pending, hashed);
    answers := Pipe.ValidateBlobs(validator, groupSize, objects);
    forall oid | oid in answers && answers[oid] == Pipe.Exists ensures oid in store {
      Pipe.ExistsIsStored(validator, groupSize, objects, 0, store, oid);
    }
    var known := Pipe.Config(pending, plan, hashed, answers, {});
    owners, ready := Pipe.ElectOwners(known);
    Pipe.OwnersIgnoreStore(known, store, |pending|);
    FittingIsPlanned(Pipe.Config(pending, plan, hashed, answers, store), limits);
  }

  // ---- Recovery and report ---------------------------------------------------------------------------------

  datatype Settings = Settings(
    recovery: bool, maxRounds: nat, maxAttempts: nat, maxFailedInRow: int, groupSize: nat, limits: Limits)
  {
    /** Some recovery of failed files is switched on. */
    predicate Retries() {
      recovery || maxRounds > 0
    }
  }

  lemma FinishParts<T>(c: multiset<T>, t: multiset<T>, rc: multiset<T>, ru: multiset<T>,
                       c1: multiset<T>, f1: multiset<T>, c2: multiset<T>, f2: multiset<T>)
    requires c1 + f1 == rc && c2 + f2 == ru
    ensures ((c + c1) + c2) + ((t + f1) + f2) == c + t + (rc + ru)
  {
  }

  /** Commit-only recovery of the batches the pipeline set aside. */
  method RecoverCommits(server: HubServer, tracker: UploadTracker, failed: seq<(seq<FileItem>, Error)>, limits: Limits)
    returns (lost: Failures, committed: seq<FileItem>)
    requires Sound(server, tracker) && Backed(FilesOfBatches(failed), server.store) && server.limits == limits
    modifies server`commitCalls, server`landed, server`sent, tracker
    ensures Sound(server, tracker) && old(server.landed) <= server.landed
    ensures forall f | f in committed :: f in server.landed
    ensures multiset(committed) + Bag(lost) == multiset(FilesOfBatches(failed))
    ensures old(server.commitCalls) <= server.commitCalls
    ensures LandsFrom(server.commits, old(server.commitCalls)) ==> lost == []
    ensures AllWereRefused(server.commits, old(server.commitCalls), server.commitCalls, lost)
    ensures Keeps(old(BooksOf(server, tracker)), BooksOf(server, tracker), multiset(FilesOfBatches(failed)), committed)
  {
    ghost var parts;
    lost, committed, parts := RetryFailedCommits(server, tracker, failed, limits);
    BagOfFiles(lost);
  }

  /** The recovery that is switched on. */
  method RecoverUploads(server: HubServer, tracker: UploadTracker, failed: Failures, settings: Settings)
    returns (left: Failures, committed: seq<FileItem>)
    requires Sound(server, tracker) && server.limits == settings.limits && settings.maxAttempts >= 1
    modifies server, tracker
    ensures Sound(server, tracker) && old(server.landed) <= server.landed
    ensures forall f | f in committed :: f in server.landed
    ensures multiset(committed) + Bag(left) == Bag(failed)
    ensures old(server.commitCalls) <= server.commitCalls
    ensures FineFrom(server.uploads, old(server.uploadCalls)) && LandsFrom(server.commits, old(server.commitCalls)) ==>
      settings.Retries() ==> left == (if settings.recovery then WithFlag(failed, false) else [])
    ensures FineFrom(server.uploads, old(server.uploadCalls)) && settings.Retries() && AllRetryable(failed) ==>
      AllWereRefused(server.commits, old(server.commitCalls), server.commitCalls, left)
    ensures Keeps(old(BooksOf(server, tracker)), BooksOf(server, tracker), Bag(failed), committed)
  {
    if settings.recovery {
      left, committed := RetryFailedFilesReact(server, tracker, failed, settings.maxAttempts, settings.limits);
    } else {
      left, committed :=
        RetryFailedSimple(server, tracker, failed, settings.maxRounds, settings.maxAttempts, settings.limits);
    }
  }

  /** The failures of the report, and the files it calls committed. */
  lemma FinishedBags(h: Handover, more: seq<FileItem>, lost: Failures, late: seq<FileItem>, left: Failures)
    requires multiset(more) + Bag(lost) == multiset(FilesOfBatches(h.retryCommit))
    requires multiset(late) + Bag(left) == Bag(h.retryUpload)
    ensures multiset(h.committed + more + late) + Bag(h.terminal + lost + left) == HandoverBag(h)
  {
    BagConcat(h.terminal, lost);
    BagConcat(h.terminal + lost, left);
    JoinBags(h.committed, more);
    JoinBags(h.committed + more, late);
    FinishParts(multiset(h.committed), Bag(h.terminal), multiset(FilesOfBatches(h.retryCommit)), Bag(h.retryUpload),
                multiset(more), Bag(lost), multiset(late), Bag(left));
  }

  /** Work on the rest of the files, after some of them were committed. */
  lemma EarlierKept(b0: Books, b1: Books, all: multiset<FileItem>, committed: seq<FileItem>,
                    rest: multiset<FileItem>, work: multiset<FileItem>, more: seq<FileItem>)
    requires Keeps(b0, b1, work, more) && multiset(committed) + rest + work == all
    ensures Spares(b0.entries, b1.entries, all) && forall f | f in b1.landed :: f in b0.landed || f in all
    ensures Remembered(b0.entries, committed) ==> Keeps(b0, b1, all, committed + more)
  {
    SparesMore(b0.entries, b1.entries, work, all);
    if Remembered(b0.entries, committed) {
      NothingSpares(b0.entries, all);
      assert Keeps(b0, b0, all, committed);
      KeepsPart(b0, b0, b1, all, committed, rest, work, more);
    }
  }

  /** Recovery forgets none of the commits of the pipeline, and its own are remembered too. */
  lemma FinishKeeps(h: Handover, b0: Books, b1: Books, b2: Books, more: seq<FileItem>, lost: Failures,
                    late: seq<FileItem>)
    requires Keeps(b0, b1, multiset(FilesOfBatches(h.retryCommit)), more)
    requires Keeps(b1, b2, Bag(h.retryUpload), late)
    requires multiset(more) + Bag(lost) == multiset(FilesOfBatches(h.retryCommit))
    ensures Spares(b0.entries, b2.entries, HandoverBag(h))
    ensures forall f | f in b2.landed :: f in b0.landed || f in HandoverBag(h)
    ensures Remembered(b0.entries, h.committed) ==> Keeps(b0, b2, HandoverBag(h), h.committed + more + late)
  {
    var c, d := multiset(FilesOfBatches(h.retryCommit)), Bag(h.retryUpload);
    SmallerPart(multiset(more), Bag(lost), c);
    KeepsTogether(b0, b1, b2, c, more, d, late);
    EarlierKept(b0, b2, HandoverBag(h), h.committed, Bag(h.terminal), c + d, more + late);
    TwoAppends(h.committed, more, late);
  }

  lemma NothingInBetween(a: Failures, b: Failures, c: Failures)
    ensures b == [] ==> a + b + c == a + c
  {
  }

  lemma AllRefusedTogether(commits: CommitOracle, lo: nat, mid: nat, hi: nat, a: Failures, b: Failures, c: Failures)
    requires lo <= mid <= hi && AllWereRefused(commits, lo, mid, b)
    ensures a == [] && AllWereRefused(commits, mid, hi, c) ==> AllWereRefused(commits, lo, hi, a + b + c)
  {
    if a == [] && AllWereRefused(commits, mid, hi, c) {
      RefusedTogether(commits, lo, mid, hi, b, c);
      assert a + b + c == b + c;
    }
  }

  /** Recovery and report.  Whichever recovery ran, each file of the handover ends committed or failed, once; the
      run raises exactly when some file failed; every file reported as committed is in a commit that landed; and the
      tracker calls nothing committed that did not land.  When uploads and commits succeed, only the failures that
      were final before are left. */
  method FinishUpload(
    server: HubServer, tracker: UploadTracker, skipped: seq<FileItem>, h: Handover, settings: Settings)
    returns (verdict: Verdict)
    requires Sound(server, tracker) && server.limits == settings.limits && settings.maxAttempts >= 1
    requires Backed(FilesOfBatches(h.retryCommit), server.store)
    requires forall f | f in h.committed :: f in server.landed
    modifies server, tracker
    ensures Sound(server, tracker) && old(server.landed) <= server.landed
    ensures multiset(verdict.committed) + Bag(FailedOf(verdict)) == HandoverBag(h)
    ensures forall f | f in verdict.committed :: f in server.landed
    ensures !verdict.Aborted? && (verdict.Returned? <==> FailedOf(verdict) == [])
    ensures verdict.skipped == skipped
    ensures old(server.commitCalls) <= server.commitCalls
    ensures FineFrom(server.uploads, old(server.uploadCalls)) && LandsFrom(server.commits, old(server.commitCalls)) ==>
      settings.Retries() ==>
      FailedOf(verdict) == h.terminal + (if settings.recovery then WithFlag(h.retryUpload, false) else [])
    ensures FineFrom(server.uploads, old(server.uploadCalls)) && settings.Retries() && AllRetryable(h.retryUpload)
            && h.terminal == [] ==>
      AllWereRefused(server.commits, old(server.commitCalls), server.commitCalls, FailedOf(verdict))
    ensures forall f | f in server.landed :: f in old(server.landed) || f in HandoverBag(h)
    ensures Spares(old(tracker.entries), tracker.entries, HandoverBag(h))
    ensures Remembered(old(tracker.entries), h.committed) ==>
      Keeps(old(BooksOf(server, tracker)), BooksOf(server, tracker), HandoverBag(h), verdict.committed)
  {
    ghost var b0 := BooksOf(server, tracker);
    var lost, more := RecoverCommits(server, tracker, h.retryCommit, settings.limits);
    ghost var b1, calls := BooksOf(server, tracker), server.commitCalls;
    var left, late := RecoverUploads(server, tracker, h.retryUpload, settings);
    FinishKeeps(h, b0, b1, BooksOf(server, tracker), more, lost, late);
    var failures := h.terminal + lost + left;
    var results := h.committed + more + late;
    NothingInBetween(h.terminal, lost, left);
    AllRefusedTogether(server.commits, old(server.commitCalls), calls, server.commitCalls, h.terminal, lost, left);
    FinishedBags(h, more, lost, late, left);
    verdict := VerdictOf(skipped, results, failures);
    assert forall f | f in results :: f in h.committed || f in more || f in late;
  }

  // ---- The whole run ---------------------------------------------------------------------------------------

  /** What a run does not control: which files can be hashed ahead, the answers of the server about blobs, the order
      in which workers and committer get their turns with the outcome of every transfer, and the errors of failed
      workers. */
  datatype Circumstances = Circumstances(
    hashable: FileItem -> bool, validator: set<Oid> -> Pipe.Validator, schedule: nat -> Pipe.Step,
    errors: FileItem -> Error)

  /** The server never calls a blob stored that it does not store. */
  ghost predicate Honest(world: Circumstances) {
    forall store: set<Oid> :: Pipe.Truthful(world.validator(store), store)
  }

  /** Nothing fails for good: every commit lands, a failed transfer may be tried again, and then it succeeds. */
  ghost predicate GoodDay(commits: CommitOracle, uploads: UploadOracle, world: Circumstances, settings: Settings) {
    LandsFrom(commits, 0) && FineFrom(uploads, 0) && settings.Retries() && OnlyPassing(world)
  }

  /** The workers fail in ways that may be tried again. */
  ghost predicate OnlyPassing(world: Circumstances) {
    forall f :: world.errors(f).retryable
  }

  /** The run was given up after at least `max` commits in a row that may all have been refused. */
  ghost predicate TooMany(commits: CommitOracle, from: nat, hi: nat, max: int) {
    exists n: nat :: 0 < n && n >= max && from + n <= hi && InARow(commits, hi, n)
  }

  /** Uploads succeed, and what the pipeline may have left, it left for recovery. */
  ghost predicate Treatable(commits: CommitOracle, uploads: UploadOracle, world: Circumstances, settings: Settings,
                            attempt: nat, first: nat, piped: nat)
  {
    FineFrom(uploads, attempt) && settings.Retries() && OnlyPassing(world) && OnlyTransient(commits, first, piped)
  }

  /** And the commits of recovery land. */
  ghost predicate Curable(commits: CommitOracle, uploads: UploadOracle, world: Circumstances, settings: Settings,
                          attempt: nat, first: nat, piped: nat)
  {
    Treatable(commits, uploads, world, settings, attempt, first, piped) && LandsFrom(commits, piped)
  }

  /** A server that rejects, by policy, exactly the commits with a bad file, and applies none that it rejects. */
  ghost predicate Rejects(commits: CommitOracle, bad: set<FileItem>) {
    Bans(commits, bad) && forall k: nat, files | commits(k, files).Refused? :: !commits(k, files).applied
  }

  /** The files that failed are bad, and those called committed are not. */
  ghost predicate Separates(verdict: Verdict, bad: set<FileItem>) {
    && (forall entry | entry in FailedOf(verdict) :: entry.0 in bad)
    && (forall f | f in verdict.committed :: f !in bad)
  }

  /** What was refused alone is bad, and what has landed is not. */
  lemma RejectionSeparates(server: HubServer, verdict: Verdict, lo: nat, hi: nat, bad: set<FileItem>)
    requires server.LandsByReply() && forall f | f in verdict.committed :: f in server.landed
    requires AllWereRefused(server.commits, lo, hi, FailedOf(verdict)) && Rejects(server.commits, bad)
    ensures Separates(verdict, bad)
  {
    forall entry | entry in FailedOf(verdict) ensures entry.0 in bad {
      assert WasRefused(server.commits, lo, hi, entry);
      var q: nat, batch :| lo <= q < hi && RefusedFor(server.commits, q, batch, entry.0, entry.1);
      assert Bad(batch, bad);
    }
    forall f | f in verdict.committed ensures f !in bad {
      assert MayLand(server.commits, f);
      var k: nat, files :| f in files && (server.commits(k, files).Landed? || server.commits(k, files).applied);
      assert f in bad ==> Bad(files, bad);
    }
  }

  lemma RejectionsSeparate(server: HubServer, verdict: Verdict, lo: nat, hi: nat)
    requires server.LandsByReply() && forall f | f in verdict.committed :: f in server.landed
    ensures AllWereRefused(server.commits, lo, hi, FailedOf(verdict)) ==>
      forall bad: set<FileItem> | Rejects(server.commits, bad) :: Separates(verdict, bad)
  {
    if AllWereRefused(server.commits, lo, hi, FailedOf(verdict)) {
      forall bad: set<FileItem> | Rejects(server.commits, bad) ensures Separates(verdict, bad) {
        RejectionSeparates(server, verdict, lo, hi, bad);
      }
    }
  }

  /** On a good day no run is given up, and whatever is left can be cured. */
  lemma GoodDayIsCurable(commits: CommitOracle, uploads: UploadOracle, world: Circumstances, settings: Settings,
                         attempt: nat, first: nat, piped: nat, hi: nat)
    requires GoodDay(commits, uploads, world, settings)
    ensures Curable(commits, uploads, world, settings, attempt, first, piped)
    ensures !TooMany(commits, first, hi, settings.maxFailedInRow)
  {
    forall n: nat | 0 < n && n >= settings.maxFailedInRow && first + n <= hi ensures !InARow(commits, hi, n) {
      assert !Refusable(commits, hi - 1);
    }
  }

  lemma HashedOne(e0: Entries, e1: Entries, e2: Entries, pending: seq<FileItem>, f: FileItem)
    requires Spares(e0, e1, multiset(pending)) && (e1 == e2 || Spares(e1, e2, multiset{f})) && f in pending
    ensures Spares(e0, e2, multiset(pending))
  {
    if e1 != e2 {
      SparesOne(e0, e1, e2, multiset(pending), f);
    }
  }

  /** Digests that the tracker file does not have yet are computed where that is possible, and remembered. */
  method HashAhead(tracker: UploadTracker, pending: seq<FileItem>, hashable: FileItem -> bool)
    returns (hashed: seq<bool>)
    modifies tracker
    ensures tracker.CommittedKeys() == old(tracker.CommittedKeys())
    ensures Spares(old(tracker.entries), tracker.entries, multiset(pending))
    ensures |hashed| == |pending| && forall i | 0 <= i < |hashed| && hashed[i] :: pending[i].IsLfs()
    ensures forall i | 0 <= i < |pending| && pending[i].IsLfs() ::
      hashed[i] || (!hashable(pending[i]) && DigestIn(old(tracker.entries), pending[i].TrackedAs()) == None)
    ensures forall i | 0 <= i < |hashed| && hashed[i] :: DigestIn(tracker.entries, pending[i].TrackedAs()).Some?
  {
    hashed := [];
    for i := 0 to |pending|
      invariant tracker.CommittedKeys() == old(tracker.CommittedKeys())
      invariant Spares(old(tracker.entries), tracker.entries, multiset(pending))
      invariant |hashed| == i && forall k | 0 <= k < i && hashed[k] :: pending[k].IsLfs()
      invariant forall k | 0 <= k < i && pending[k].IsLfs() ::
        hashed[k] || (!hashable(pending[k]) && DigestIn(old(tracker.entries), pending[k].TrackedAs()) == None)
      invariant forall k | 0 <= k < i && hashed[k] :: DigestIn(tracker.entries, pending[k].TrackedAs()).Some?
    {
      var f := pending[i];
      var digest := tracker.GetHash(f);
      var known := f.IsLfs() && (digest.Some? || hashable(f));
      ghost var entries := tracker.entries;
      assert LearntFrom(old(tracker.entries), entries, multiset(pending), f.TrackedAs());
      if known {
        Learn(tracker, f);
      }
      forall k | 0 <= k < i && hashed[k] ensures DigestIn(tracker.entries, pending[k].TrackedAs()).Some? {
        assert entries == tracker.entries || LearntFrom(entries, tracker.entries, multiset{f}, pending[k].TrackedAs());
      }
      HashedOne(old(tracker.entries), entries, tracker.entries, pending, f);
      hashed := hashed + [known];
    }
  }

  /** The plan of the planner has no empty batch and covers the files, so the batch tracker follows it as it is. */
  lemma PlanIsEffective(total: nat, plan: seq<nat>)
    requires Sum(plan) == total && forall b | 0 <= b < |plan| :: plan[b] > 0
    ensures Effective(total, plan) == plan
  {
    PositivePlan(plan);
    assert (plan + [0])[..|plan|] == plan;
  }

  lemma {:induction false} PositivePlan(plan: seq<nat>)
    requires forall b | 0 <= b < |plan| :: plan[b] > 0
    ensures Positive(plan) == plan
  {
    if plan != [] {
      PositivePlan(plan[..|plan| - 1]);
    }
  }

  /** What the pipeline of a run leaves for recovery. */
  lemma HandedOver(run: Pipeline)
    requires run.Valid() && Pipe.Done(run.cfg, run.trace.now)
    ensures HandoverBag(run.handover) == multiset(run.cfg.files)
    ensures Backed(FilesOfBatches(run.handover.retryCommit), run.server.store)
    ensures Known(run.tracker.entries, multiset(run.cfg.files))
  {
    var tr := run.trace;
    Pipe.RunKeepsInv(run.cfg, run.firstReady, tr.states, tr.steps, |tr.steps|);
    HandoverHoldsAll(run.cfg, tr.now, run.handover);
    HandoverIsBacked(run.cfg, tr.now, run.handover);
    AllKnown(run.cfg, run.firstReady, tr, run.firstBooks, BooksOf(run.server, run.tracker), run.handover.committed);
  }

  lemma GivenUp(run: Pipeline, max: int)
    requires run.Scored() && run.failedInRow > 0 && run.failedInRow >= max
    ensures TooMany(run.server.commits, run.firstCommit, run.server.commitCalls, max)
  {
  }

  /** Plan, pre-validate, elect, and let workers and committer run. */
  method RunPipeline(server: HubServer, tracker: UploadTracker, pending: seq<FileItem>, settings: Settings,
                     world: Circumstances)
    returns (aborted: bool, h: Handover)
    requires Sound(server, tracker) && server.limits == settings.limits && settings.groupSize >= 1 && Honest(world)
    modifies server`store, server`commitCalls, server`landed, server`sent, tracker
    ensures Sound(server, tracker) && old(server.landed) <= server.landed
    ensures forall f | f in h.committed :: f in server.landed
    ensures !aborted ==> HandoverBag(h) == multiset(pending)
    ensures !aborted ==> Backed(FilesOfBatches(h.retryCommit), server.store)
    ensures Graded(h) && old(server.commitCalls) <= server.commitCalls
    ensures aborted ==>
      TooMany(server.commits, old(server.commitCalls), server.commitCalls, settings.maxFailedInRow)
    ensures OnlyTransient(server.commits, old(server.commitCalls), server.commitCalls) ==> h.terminal == []
    ensures OnlyPassing(world) ==> AllRetryable(h.retryUpload)
    ensures forall f | f in server.landed :: f in old(server.landed) || f in pending
    ensures Spares(old(tracker.entries), tracker.entries, multiset(pending))
    ensures Distinct(pending) ==> Remembered(tracker.entries, h.committed)
    ensures !aborted ==> Known(tracker.entries, multiset(pending))
  {
    ghost var e0 := tracker.entries;
    var hashed := HashAhead(tracker, pending, world.hashable);
    ghost var e1 := tracker.entries;
    var validator := world.validator(server.store);
    var plan, objects, answers, ready, owners :=
      PreparePipeline(pending, hashed, settings.limits, validator, settings.groupSize, server.store);
    var batches := new BatchTracker(|pending|, plan);
    var cfg := Pipe.Config(pending, plan, hashed, answers, server.store);
    PlanIsEffective(|pending|, plan);
    var run := new Pipeline(server, tracker, batches, cfg, owners, ready);
    aborted := run.Run(world.schedule, world.errors, settings.maxFailedInRow);
    h := run.handover;
    SparesTogether(e0, e1, tracker.entries, multiset(pending));
    if aborted {
      GivenUp(run, settings.maxFailedInRow);
    } else {
      HandedOver(run);
    }
  }

  lemma {:induction false} ChooseDistinct(files: seq<FileItem>, from: set<FileItem>)
    ensures Distinct(files) ==> Distinct(Choose(files, from, false))
  {
    if files != [] && Distinct(files) {
      var init := files[..|files| - 1];
      ChooseDistinct(init, from);
      ChooseMembers(init, from, false);
      var rest := Choose(init, from, false);
      forall i | 0 <= i < |rest| ensures rest[i].path != files[|files| - 1].path {
        assert rest[i] in init;
      }
    }
  }

  /** A whole run over the files of a folder.  Whatever the files, the limits, the server, the schedule and the state
      left by earlier runs: exactly the files whose keys the tracker calls committed are skipped, and of each such key
      some file was committed before; every other file of the scan is committed or failed, once; nothing else lands;
      the run returns normally exactly when nothing failed; what it calls committed has landed and is remembered by the
      tracker, which forgets no commit; and no commit it sent named a blob that was not stored or went beyond the
      limits.  Of its commits the first `piped` are those of the pipeline.  A run is given up only after too many
      refusals in a row.  Otherwise, if uploads succeed and the pipeline met only refusals that may be retried, a file
      fails only if a later commit with it was refused: no file does if those commits land, and against a server that
      rejects bad files exactly the bad files do. */
  method CompleteRun(server: HubServer, tracker: UploadTracker, files: seq<FileItem>, settings: Settings,
                     world: Circumstances)
    returns (verdict: Verdict, ghost piped: nat)
    requires Sound(server, tracker) && settings.maxAttempts >= 1 && settings.groupSize >= 1 && Honest(world)
    requires server.limits == settings.limits
    modifies server, tracker
    ensures Sound(server, tracker) && old(server.landed) <= server.landed
    ensures var seen := SeenFiles(old(tracker.entries), files);
      && verdict.skipped == Choose(seen, KeyedIn(seen, old(tracker.CommittedKeys())), true)
      && (forall f | f in server.landed :: f in old(server.landed) || Pending(seen, old(tracker.CommittedKeys()), f))
      && (!verdict.Aborted? ==> AddsUp(verdict, seen))
      && Spares(old(tracker.entries), tracker.entries, multiset(seen))
      && (Distinct(files) ==> Remembered(tracker.entries, verdict.committed))
    ensures forall f | f in verdict.skipped :: f.TrackedAs() in old(server.Covered())
    ensures forall f | f in verdict.committed :: f in server.landed
    ensures verdict.Returned? <==> !verdict.Aborted? && FailedOf(verdict) == []
    ensures old(server.commitCalls) <= piped <= server.commitCalls
    ensures verdict.Aborted? && files != [] ==>
      TooMany(server.commits, old(server.commitCalls), server.commitCalls, settings.maxFailedInRow)
    ensures verdict.Raised? ==>
      !Curable(server.commits, server.uploads, world, settings, old(server.uploadCalls), old(server.commitCalls), piped)
    ensures !verdict.Aborted? && Treatable(server.commits, server.uploads, world, settings, old(server.uploadCalls),
                                           old(server.commitCalls), piped) ==>
      && AllWereRefused(server.commits, piped, server.commitCalls, FailedOf(verdict))
      && forall bad: set<FileItem> | Rejects(server.commits, bad) :: Separates(verdict, bad)
    ensures old(tracker.CommittedKeys()) <= tracker.CommittedKeys()
  {
    ghost var e0, keys := tracker.entries, tracker.CommittedKeys();
    var seen := ReadDigests(tracker, files);
    if files == [] {
      NothingSpares(tracker.entries, multiset(seen));
      return Aborted([], []), server.commitCalls;
    }
    SeenDistinct(e0, files);
    var pending, skipped := SplitPending(tracker, seen);
    ghost var e1 := tracker.entries;
    verdict, piped := UploadPending(server, tracker, pending, skipped, settings, world);
    SparesTogether(e0, e1, tracker.entries, multiset(pending));
    PendingPart(seen, keys, pending, skipped, e0, tracker.entries);
    StillCommitted(e0, tracker.entries, seen, pending);
    RejectionsSeparate(server, verdict, piped, server.commitCalls);
  }

  /** A file of the scan that is not skipped. */
  predicate Pending(seen: seq<FileItem>, keys: set<Key>, f: FileItem) {
    f in seen && f.TrackedAs() !in keys
  }

  lemma SeenDistinct(entries: Entries, files: seq<FileItem>)
    ensures Distinct(files) ==> Distinct(SeenFiles(entries, files))
  {
    var seen := SeenFiles(entries, files);
    forall i, j | 0 <= i < j < |seen| && Distinct(files) ensures seen[i].path != seen[j].path {
      assert seen[i] == SeenAs(entries, files[i]) && seen[j] == SeenAs(entries, files[j]);
    }
  }

  /** The pending files are a part of the scan. */
  lemma PendingPart(seen: seq<FileItem>, keys: set<Key>, pending: seq<FileItem>, skipped: seq<FileItem>,
                    e0: Entries, e1: Entries)
    requires pending == Choose(seen, KeyedIn(seen, keys), false) && skipped == Choose(seen, KeyedIn(seen, keys), true)
    requires Spares(e0, e1, multiset(pending))
    ensures multiset(skipped) + multiset(pending) == multiset(seen)
    ensures Spares(e0, e1, multiset(seen))
    ensures Distinct(seen) ==> Distinct(pending)
  {
    ChooseDistinct(seen, KeyedIn(seen, keys));
    ChooseSplits(seen, KeyedIn(seen, keys));
    PartOfWhole(multiset(skipped), multiset(pending), multiset(seen));
    SparesMore(e0, e1, multiset(pending), multiset(seen));
  }

  /** What was committed before is committed still: only pending files may have a new status. */
  lemma StillCommitted(e0: Entries, e1: Entries, seen: seq<FileItem>, pending: seq<FileItem>)
    requires Spares(e0, e1, multiset(pending)) && forall f | f in pending :: f.TrackedAs() !in CommittedIn(e0)
    ensures CommittedIn(e0) <= CommittedIn(e1)
  {
    forall k | k in CommittedIn(e0) ensures k in CommittedIn(e1) {
      assert k !in KeysOf(multiset(pending));
    }
  }

  /** The pipeline and what follows it, for the files that are not skipped. */
  method UploadPending(server: HubServer, tracker: UploadTracker, pending: seq<FileItem>, skipped: seq<FileItem>,
                       settings: Settings, world: Circumstances)
    returns (verdict: Verdict, ghost piped: nat)
    requires Sound(server, tracker) && settings.maxAttempts >= 1 && settings.groupSize >= 1 && Honest(world)
    requires server.limits == settings.limits
    modifies server, tracker
    ensures Sound(server, tracker) && old(server.landed) <= server.landed && verdict.skipped == skipped
    ensures forall f | f in server.landed :: f in old(server.landed) || f in pending
    ensures forall f | f in verdict.committed :: f in server.landed
    ensures !verdict.Aborted? ==> multiset(verdict.committed) + Bag(FailedOf(verdict)) == multiset(pending)
    ensures verdict.Returned? <==> !verdict.Aborted? && FailedOf(verdict) == []
    ensures old(server.commitCalls) <= piped <= server.commitCalls
    ensures verdict.Aborted? ==>
      TooMany(server.commits, old(server.commitCalls), server.commitCalls, settings.maxFailedInRow)
    ensures verdict.Raised? ==>
      !Curable(server.commits, server.uploads, world, settings, old(server.uploadCalls), old(server.commitCalls), piped)
    ensures !verdict.Aborted? && Treatable(server.commits, server.uploads, world, settings, old(server.uploadCalls),
                                           old(server.commitCalls), piped) ==>
      AllWereRefused(server.commits, piped, server.commitCalls, FailedOf(verdict))
    ensures Spares(old(tracker.entries), tracker.entries, multiset(pending))
    ensures Distinct(pending) ==> Remembered(tracker.entries, verdict.committed)
  {
    ghost var e0 := tracker.entries;
    var aborted, h := RunPipeline(server, tracker, pending, settings, world);
    ghost var e1 := tracker.entries;
    piped := server.commitCalls;
    if aborted {
      return Aborted(skipped, h.committed), piped;
    }
    NothingPermanent(h.retryUpload);
    verdict := FinishUpload(server, tracker, skipped, h, settings);
    SparesTogether(e0, e1, tracker.entries, multiset(pending));
    if Distinct(pending) {
      OnceAmong(pending, pending) by {
        forall f ensures multiset(pending)[f] <= 1 {
          CountPath(pending, f);
        }
      }
    }
  }

  lemma {:induction false} CountPath(files: seq<FileItem>, f: FileItem)
    requires Distinct(files)
    ensures multiset(files)[f] <= 1
  {
    if files != [] {
      var init, last := files[..|files| - 1], files[|files| - 1];
      assert files == init + [last];
      CountPath(init, f);
      assert last !in init;
    }
  }

  /** With distinct paths, the three groups of the report are disjoint and cover the scan. */
  lemma ReportIsAPartition(seen: seq<FileItem>, verdict: Verdict, f: FileItem)
    requires Distinct(seen)
    requires AddsUp(verdict, seen)
    ensures f in seen <==> f in verdict.skipped || f in verdict.committed || f in Bag(FailedOf(verdict))
    ensures !(f in verdict.skipped && f in verdict.committed)
    ensures !(f in verdict.skipped && f in Bag(FailedOf(verdict)))
    ensures !(f in verdict.committed && f in Bag(FailedOf(verdict)))
  {
    CountPath(seen, f);
    var a, b, c := multiset(verdict.skipped), multiset(verdict.committed), Bag(FailedOf(verdict));
    assert multiset(seen)[f] == a[f] + (b[f] + c[f]);
    assert f in seen <==> f in multiset(seen);
  }
}
