/** One folder uploaded again and again with one tracker file: what later runs skip, and what the Hub holds. */
module FolderHistory {
  import opened CommitPlanner
  import opened Options
  import opened UploadTypes
  import opened HubServing
  import opened UploadTracking
  import opened CommitRecovery
  import opened PipelineSteps
  import opened FolderUpload
  import Pipe = UploadPipeline

  /** What a run is asked to do: the files of the scan, where they go (the branch of the repository, which the tracker
      file does not record), and, if the remote side is to be synchronized, the folder of the repository in which files
      are deleted that have no local counterpart. */
  datatype Visit = Visit(files: seq<FileItem>, target: string, sync: bool, scope: string, local: set<string>)
  {
    /** Paths are unique in a scan, and its files are local files. */
    ghost predicate Valid() {
      Distinct(files) && forall f | f in files :: f.path in local
    }

    predicate Sweeps(path: string) {
      sync && files != [] && path !in local && (scope == "" || scope + "/" <= path)
    }
  }

  /** What a run does not control: the server, the circumstances, and whether the deletion of orphans lands. */
  datatype Day = Day(commits: CommitOracle, uploads: UploadOracle, world: Circumstances, sweepLands: bool)
  {
    ghost predicate Good(settings: Settings) {
      GoodDay(commits, uploads, world, settings)
    }
  }

  /** What came of a run: the files as it handled them, what has landed, and whether orphans were deleted. */
  datatype Run = Run(seen: seq<FileItem>, verdict: Verdict, landed: set<FileItem>, swept: bool)

  // ---- One run -----------------------------------------------------------------------------------------------------

  /** Nothing of a file is taken from the tracker file but its digest. */
  ghost predicate SameButDigests(files: seq<FileItem>, seen: seq<FileItem>) {
    |seen| == |files| && forall i | 0 <= i < |seen| :: seen[i] == files[i].(oid := seen[i].oid)
  }

  /** The effect of a run, by the keys called committed before and after it. */
  ghost predicate Effect(v: Visit, run: Run, known: set<Key>, next: set<Key>) {
    && SameButDigests(v.files, run.seen)
    && run.verdict.skipped == Choose(run.seen, KeyedIn(run.seen, known), true)
    && (forall f | f in run.landed :: Pending(run.seen, known, f))
    && (forall f | f in run.verdict.committed :: f in run.landed && f.TrackedAs() in next)
    && known <= next <= known + KeysOf(multiset(run.landed))
    && (!run.verdict.Aborted? ==> AddsUp(run.verdict, run.seen))
    && (run.verdict.Returned? <==> !run.verdict.Aborted? && FailedOf(run.verdict) == [])
    && (run.swept ==> run.verdict.Returned? && v.sync)
  }

  /** What the day has to do with it. */
  ghost predicate Shows(v: Visit, run: Run, settings: Settings, day: Day) {
    && (day.Good(settings) && v.files != [] ==> run.verdict.Returned?)
    && (AllRefused(day.commits) ==> run.landed == {})
    && (run.swept <==> run.verdict.Returned? && v.sync && day.sweepLands)
  }

  /** No commit named a missing blob or went beyond the limits. */
  ghost predicate Lawful(sent: seq<SentCommit>, limits: Limits) {
    forall c | c in sent :: Backed(c.files, c.store) && Allowed(c.files, limits)
  }

  ghost predicate RunIs(v: Visit, run: Run, settings: Settings, day: Day, sent: seq<SentCommit>, e0: Entries,
                        e1: Entries)
  {
    && Effect(v, run, CommittedIn(e0), CommittedIn(e1)) && Shows(v, run, settings, day)
    && Lawful(sent, settings.limits)
    && run.seen == SeenFiles(e0, v.files) && Spares(e0, e1, multiset(run.seen))
  }

  /** One run, with a server of its own and the tracker file as the last run left it. */
  method UploadOnce(v: Visit, settings: Settings, day: Day, entries: Entries, store: set<Oid>)
    returns (run: Run, entries': Entries, store': set<Oid>, ghost sent: seq<SentCommit>)
    requires v.Valid() && settings.maxAttempts >= 1 && settings.groupSize >= 1 && Honest(day.world)
    ensures RunIs(v, run, settings, day, sent, entries, entries')
  {
    var server := new HubServer(day.commits, day.uploads, store, CommittedIn(entries), settings.limits);
    var tracker := new UploadTracker(entries);
    ghost var piped;
    var verdict;
    verdict, piped := CompleteRun(server, tracker, v.files, settings, day.world);
    run := Run(SeenFiles(entries, v.files), verdict, server.landed, verdict.Returned? && v.sync && day.sweepLands);
    entries', store', sent := tracker.entries, server.store, server.sent;
    CoveredIs(server);
    NothingLands(server);
    if day.Good(settings) {
      GoodDayIsCurable(day.commits, day.uploads, day.world, settings, 0, 0, piped, server.commitCalls);
    }
    EffectOf(v, run, entries, entries');
  }

  lemma NothingLands(server: HubServer)
    requires server.LandsByReply()
    ensures AllRefused(server.commits) ==> server.landed == {}
  {
    if server.landed != {} {
      var f :| f in server.landed;
      assert MayLand(server.commits, f);
    }
  }

  lemma CoveredIs(server: HubServer)
    ensures server.Covered() == server.earlier + KeysOf(multiset(server.landed))
  {
  }

  lemma EffectOf(v: Visit, run: Run, e0: Entries, e1: Entries)
    requires run.seen == SeenFiles(e0, v.files)
    requires run.verdict.skipped == Choose(run.seen, KeyedIn(run.seen, CommittedIn(e0)), true)
    requires forall f | f in run.landed :: Pending(run.seen, CommittedIn(e0), f)
    requires !run.verdict.Aborted? ==> AddsUp(run.verdict, run.seen)
    requires Remembered(e1, run.verdict.committed) && forall f | f in run.verdict.committed :: f in run.landed
    requires CommittedIn(e0) <= CommittedIn(e1) <= CommittedIn(e0) + KeysOf(multiset(run.landed))
    requires run.verdict.Returned? <==> !run.verdict.Aborted? && FailedOf(run.verdict) == []
    requires run.swept ==> run.verdict.Returned? && v.sync
    ensures Effect(v, run, CommittedIn(e0), CommittedIn(e1))
  {
    forall f | f in run.verdict.committed ensures f.TrackedAs() in CommittedIn(e1) {
      assert Remembers(e1, f);
    }
  }

  // ---- Many runs ---------------------------------------------------------------------------------------------------

  /** Some file of the first n scans has this key and this content. */
  ghost predicate Had(visits: seq<Visit>, n: nat, k: Key, oid: Oid) {
    exists q, g :: 0 <= q < n && q < |visits| && g in visits[q].files && g.TrackedAs() == k && g.oid == oid
  }

  /** The digests of the tracker file are those of files of earlier scans. */
  ghost predicate Traced(entries: Entries, visits: seq<Visit>, n: nat) {
    forall k :: DigestIn(entries, k).Some? ==> Had(visits, n, k, DigestIn(entries, k).value)
  }

  /** Run r had its effect. */
  ghost predicate Happened(visits: seq<Visit>, runs: seq<Run>, known: seq<set<Key>>, r: nat)
    requires r < |runs| <= |visits| && |known| == |runs| + 1
  {
    Effect(visits[r], runs[r], known[r], known[r + 1])
  }

  /** Run r handled its files by digests that files of those keys have had. */
  ghost predicate Digested(visits: seq<Visit>, runs: seq<Run>, r: nat)
    requires r < |runs|
  {
    forall f | f in runs[r].seen :: Had(visits, r + 1, f.TrackedAs(), f.oid)
  }

  /** Runs with one tracker file, which is empty at first; known[r] is what it calls committed before run r. */
  ghost predicate History(visits: seq<Visit>, runs: seq<Run>, known: seq<set<Key>>) {
    && |runs| <= |visits| && |known| == |runs| + 1 && known[0] == {}
    && (forall r {:trigger Happened(visits, runs, known, r)} | 0 <= r < |runs| :: Happened(visits, runs, known, r))
    && (forall r {:trigger Digested(visits, runs, r)} | 0 <= r < |runs| :: Digested(visits, runs, r))
  }

  lemma SeenIsTraced(entries: Entries, visits: seq<Visit>, n: nat, f: FileItem)
    requires n < |visits| && Traced(entries, visits, n) && f in SeenFiles(entries, visits[n].files)
    ensures Had(visits, n + 1, f.TrackedAs(), f.oid)
  {
    var i :| 0 <= i < |visits[n].files| && SeenFiles(entries, visits[n].files)[i] == f;
    var g := visits[n].files[i];
    assert f == SeenAs(entries, g) && g in visits[n].files;
    if f.oid != g.oid {
      assert Had(visits, n, g.TrackedAs(), f.oid);
    }
  }

  lemma TracedNext(entries: Entries, entries': Entries, visits: seq<Visit>, n: nat)
    requires n < |visits| && Traced(entries, visits, n)
    requires Spares(entries, entries', multiset(SeenFiles(entries, visits[n].files)))
    ensures Traced(entries', visits, n + 1)
  {
    var seen := SeenFiles(entries, visits[n].files);
    forall k | DigestIn(entries', k).Some? ensures Had(visits, n + 1, k, DigestIn(entries', k).value) {
      assert LearntFrom(entries, entries', multiset(seen), k);
      if DigestIn(entries', k) == DigestIn(entries, k) {
        assert Had(visits, n, k, DigestIn(entries, k).value);
      } else {
        var f: FileItem :| f in multiset(seen) && f.TrackedAs() == k && DigestIn(entries', k) == Some(f.oid);
        SeenIsTraced(entries, visits, n, f);
      }
    }
  }

  lemma HappenedStays(visits: seq<Visit>, runs: seq<Run>, known: seq<set<Key>>, run: Run, next: set<Key>, r: nat)
    requires r < |runs| < |visits| && |known| == |runs| + 1 && Happened(visits, runs, known, r)
    ensures Happened(visits, runs + [run], known + [next], r)
  {
    assert (runs + [run])[r] == runs[r] && (known + [next])[r] == known[r] && (known + [next])[r + 1] == known[r + 1];
  }

  lemma DigestedStays(visits: seq<Visit>, runs: seq<Run>, run: Run, r: nat)
    requires r < |runs| <= |visits| && Digested(visits, runs, r)
    ensures Digested(visits, runs + [run], r)
  {
    assert (runs + [run])[r] == runs[r];
  }

  lemma HistoryNext(visits: seq<Visit>, runs: seq<Run>, known: seq<set<Key>>, run: Run, next: set<Key>)
    requires History(visits, runs, known) && |runs| < |visits|
    requires Effect(visits[|runs|], run, known[|runs|], next)
    requires forall f | f in run.seen :: Had(visits, |runs| + 1, f.TrackedAs(), f.oid)
    ensures History(visits, runs + [run], known + [next])
  {
    var runs', known' := runs + [run], known + [next];
    forall r | 0 <= r < |runs'| ensures Happened(visits, runs', known', r) && Digested(visits, runs', r) {
      if r < |runs| {
        HappenedStays(visits, runs, known, run, next, r);
        DigestedStays(visits, runs, run, r);
      }
    }
  }

  lemma RunRecorded(visits: seq<Visit>, runs: seq<Run>, known: seq<set<Key>>, run: Run, entries: Entries,
                    entries': Entries)
    requires History(visits, runs, known) && |runs| < |visits| && known[|runs|] == CommittedIn(entries)
    requires Traced(entries, visits, |runs|)
    requires run.seen == SeenFiles(entries, visits[|runs|].files) && Spares(entries, entries', multiset(run.seen))
    requires Effect(visits[|runs|], run, CommittedIn(entries), CommittedIn(entries'))
    ensures History(visits, runs + [run], known + [CommittedIn(entries')]) && Traced(entries', visits, |runs| + 1)
  {
    forall f | f in run.seen ensures Had(visits, |runs| + 1, f.TrackedAs(), f.oid) {
      SeenIsTraced(entries, visits, |runs|, f);
    }
    HistoryNext(visits, runs, known, run, CommittedIn(entries'));
    TracedNext(entries, entries', visits, |runs|);
  }

  /** Every run as its day had it, and every commit backed and within the limits when it was sent. */
  ghost predicate Logged(visits: seq<Visit>, runs: seq<Run>, settings: Settings, days: nat -> Day,
                         sent: seq<seq<SentCommit>>)
  {
    && |runs| == |sent| <= |visits|
    && (forall r {:trigger Shows(visits[r], runs[r], settings, days(r))} | 0 <= r < |runs| ::
          Shows(visits[r], runs[r], settings, days(r)))
    && (forall r {:trigger Lawful(sent[r], settings.limits)} | 0 <= r < |sent| :: Lawful(sent[r], settings.limits))
  }

  lemma LoggedNext(visits: seq<Visit>, runs: seq<Run>, settings: Settings, days: nat -> Day,
                   sent: seq<seq<SentCommit>>, run: Run, log: seq<SentCommit>)
    requires Logged(visits, runs, settings, days, sent) && |runs| < |visits|
    requires Shows(visits[|runs|], run, settings, days(|runs|)) && Lawful(log, settings.limits)
    ensures Logged(visits, runs + [run], settings, days, sent + [log])
  {
    var runs', sent' := runs + [run], sent + [log];
    forall r | 0 <= r < |runs'| ensures Shows(visits[r], runs'[r], settings, days(r)) {
      if r < |runs| {
        assert Shows(visits[r], runs[r], settings, days(r));
      }
    }
    forall r | 0 <= r < |sent'| ensures Lawful(sent'[r], settings.limits) {
      if r < |runs| {
        assert Lawful(sent[r], settings.limits);
      }
    }
  }

  /** The runs so far, and the tracker file that they have left. */
  ghost predicate Standing(visits: seq<Visit>, settings: Settings, days: nat -> Day, runs: seq<Run>,
                           known: seq<set<Key>>, sent: seq<seq<SentCommit>>, entries: Entries)
  {
    && History(visits, runs, known) && Logged(visits, runs, settings, days, sent)
    && known[|runs|] == CommittedIn(entries) && Traced(entries, visits, |runs|)
  }

  lemma OneRunMore(visits: seq<Visit>, settings: Settings, days: nat -> Day, runs: seq<Run>, known: seq<set<Key>>,
                   sent: seq<seq<SentCommit>>, entries: Entries, run: Run, log: seq<SentCommit>, entries': Entries)
    requires Standing(visits, settings, days, runs, known, sent, entries) && |runs| < |visits|
    requires RunIs(visits[|runs|], run, settings, days(|runs|), log, entries, entries')
    ensures Standing(visits, settings, days, runs + [run], known + [CommittedIn(entries')], sent + [log], entries')
  {
    RunRecorded(visits, runs, known, run, entries, entries');
    LoggedNext(visits, runs, settings, days, sent, run, log);
  }

  /** Upload again and again: every run starts from the tracker file of the run before, and from the blobs that are
      stored by then.  The effect of each run is as stated, and no commit of any run names a missing blob
      or goes beyond the limits. */
  method UploadRepeatedly(visits: seq<Visit>, settings: Settings, days: nat -> Day, store: set<Oid>)
    returns (runs: seq<Run>, ghost known: seq<set<Key>>, ghost sent: seq<seq<SentCommit>>)
    requires settings.maxAttempts >= 1 && settings.groupSize >= 1
    requires forall v | v in visits :: v.Valid()
    requires forall r :: Honest(days(r).world)
    ensures |runs| == |visits| && History(visits, runs, known) && Logged(visits, runs, settings, days, sent)
  {
    var entries: Entries, blobs := map[], store;
    runs, known, sent := [], [{}], [];
    for r := 0 to |visits|
      invariant |runs| == r && Standing(visits, settings, days, runs, known, sent, entries)
    {
      var run, entries', blobs';
      ghost var log;
      run, entries', blobs', log := UploadOnce(visits[r], settings, days(r), entries, blobs);
      OneRunMore(visits, settings, days, runs, known, sent, entries, run, log, entries');
      runs, known, sent := runs + [run], known + [CommittedIn(entries')], sent + [log];
      entries, blobs := entries', blobs';
    }
  }
}
