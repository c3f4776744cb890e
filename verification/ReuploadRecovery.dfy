/** Recovery by uploading again: three escalating rounds, or plain rounds when that is switched off. */
module ReuploadRecovery {
  import opened UploadTypes
  import opened Options
  import opened HubServing
  import opened UploadTracking
  import opened CommitPlanner
  import opened CommitRecovery

  type Failures = seq<(FileItem, Error)>

  /** How often a path has failed so far. */
  function Tries(counts: map<string, nat>, path: string): nat {
    if path in counts then counts[path] else 0
  }

  /** Every path of the list has failed at least `round` times. */
  ghost predicate TriedAtLeast(failures: Failures, counts: map<string, nat>, round: nat) {
    forall k | 0 <= k < |failures| :: Tries(counts, failures[k].0.path) >= round
  }

  lemma {:induction false} ListedInBag(failures: Failures, k: nat)
    requires k < |failures|
    ensures failures[k].0 in Bag(failures)
  {
    if k < |failures| - 1 {
      ListedInBag(failures[..|failures| - 1], k);
    }
  }

  lemma {:induction false} TriedInBag(failures: Failures, counts: map<string, nat>, round: nat, f: FileItem)
    requires TriedAtLeast(failures, counts, round) && f in Bag(failures)
    ensures Tries(counts, f.path) >= round
  {
    if f != failures[|failures| - 1].0 {
      TriedInBag(failures[..|failures| - 1], counts, round, f);
    }
  }

  /** What a round could not upload was tried as often as the round's input. */
  lemma TriedPart(part: Failures, whole: Failures, counts: map<string, nat>, round: nat)
    requires TriedAtLeast(whole, counts, round) && forall f | f in Bag(part) :: f in Bag(whole)
    ensures TriedAtLeast(part, counts, round)
  {
    forall k | 0 <= k < |part| ensures Tries(counts, part[k].0.path) >= round {
      ListedInBag(part, k);
      TriedInBag(whole, counts, round, part[k].0);
    }
  }

  lemma BackedSnoc(files: seq<FileItem>, f: FileItem, before: set<Oid>, store: set<Oid>)
    requires before <= store && Backed(files, before) && Backed([f], store)
    ensures Backed(files + [f], store)
  {
    assert f in [f];
  }

  /** A file whose digest the tracker has is not read again for it. */
  method Learn(tracker: UploadTracker, f: FileItem)
    modifies tracker
    ensures tracker.CommittedKeys() == old(tracker.CommittedKeys()) && f.TrackedAs() in tracker.entries
    ensures tracker.entries.Keys == old(tracker.entries.Keys) + {f.TrackedAs()}
    ensures forall k | k in old(tracker.entries) :: tracker.entries[k].status == old(tracker.entries)[k].status
    ensures DigestIn(tracker.entries, f.TrackedAs()).Some?
    ensures Spares(old(tracker.entries), tracker.entries, multiset{f})
  {
    var digest := tracker.GetHash(f);
    if digest == None {
      tracker.PutHash(f);
    }
  }

  /** An attempt from lo on failed for the file; an error that cannot be retried is that of such an attempt. */
  ghost predicate Failing(uploads: UploadOracle, lo: nat, hi: nat, entry: (FileItem, Error)) {
    && (exists k: nat :: lo <= k < hi && !uploads(k, entry.0).Fine?)
    && (!entry.1.retryable ==> Met(uploads, lo, hi, entry.0, entry.1))
  }

  ghost predicate AllFailing(uploads: UploadOracle, lo: nat, hi: nat, failures: Failures) {
    forall entry {:trigger Failing(uploads, lo, hi, entry)} | entry in failures :: Failing(uploads, lo, hi, entry)
  }

  lemma FailingLater(uploads: UploadOracle, lo: nat, mid: nat, from: nat, hi: nat, failures: Failures, more: Failures)
    requires AllFailing(uploads, lo, mid, failures) && AllFailing(uploads, from, hi, more)
    requires lo <= from && mid <= hi
    ensures AllFailing(uploads, lo, hi, failures + more)
  {
    forall entry | entry in failures + more ensures Failing(uploads, lo, hi, entry) {
      if entry in failures {
        assert Failing(uploads, lo, mid, entry);
      } else {
        assert Failing(uploads, from, hi, entry);
      }
    }
  }

  /** When all attempts from lo on are fine, nothing fails. */
  lemma FineFailsNothing(uploads: UploadOracle, lo: nat, hi: nat, failures: Failures)
    requires AllFailing(uploads, lo, hi, failures)
    ensures FineFrom(uploads, lo) ==> failures == []
  {
    if failures != [] {
      assert Failing(uploads, lo, hi, failures[0]);
    }
  }

  /** Upload one file of a round and sort it. */
  method UploadNext(server: HubServer, tracker: UploadTracker, successes: seq<FileItem>, failures: Failures,
                    f: FileItem, maxAttempts: nat, ghost lo: nat)
    returns (successes': seq<FileItem>, failures': Failures)
    requires Sound(server, tracker) && Backed(successes, server.store) && maxAttempts >= 1
    requires lo <= server.uploadCalls && AllFailing(server.uploads, lo, server.uploadCalls, failures)
    modifies server, tracker
    ensures Sound(server, tracker) && Backed(successes', server.store)
    ensures old(server.store) <= server.store && server.landed == old(server.landed)
    ensures multiset(successes') + Bag(failures') == multiset(successes) + Bag(failures) + multiset{f}
    ensures server.started == old(server.started) + multiset{f}
    ensures server.commitCalls == old(server.commitCalls) && old(server.uploadCalls) <= server.uploadCalls
    ensures AllFailing(server.uploads, lo, server.uploadCalls, failures')
    ensures Spares(old(tracker.entries), tracker.entries, multiset{f})
  {
    Learn(tracker, f);
    ghost var before, calls := server.store, server.uploadCalls;
    var outcome := server.UploadSingleFile(f, maxAttempts);
    match outcome
    case Uploaded =>
      BackedSnoc(successes, f, before, server.store);
      Regroup(multiset(successes), Bag(failures), multiset{f});
      FailingLater(server.uploads, lo, calls, lo, server.uploadCalls, failures, []);
      assert failures + [] == failures;
      successes', failures' := successes + [f], failures;
    case Failed(e) =>
      assert Failing(server.uploads, calls, server.uploadCalls, (f, e)) by {
        assert !server.uploads(server.uploadCalls - 1, f).Fine?;
      }
      FailingLater(server.uploads, lo, calls, calls, server.uploadCalls, failures, [(f, e)]);
      BagSnoc(failures, (f, e));
      Regroup(multiset(successes), Bag(failures), multiset{f});
      successes', failures' := successes, failures + [(f, e)];
  }

  lemma TakeOne<T>(done: multiset<T>, next: multiset<T>, left: multiset<T>, f: multiset<T>, all: multiset<T>)
    requires next == done + f && done + (left + f) == all
    ensures next + left == all
  {
  }

  lemma NextOfAll(done: multiset<FileItem>, rest: multiset<FileItem>, f: FileItem, all: multiset<FileItem>)
    requires done + (rest + multiset{f}) == all
    ensures f in all
  {
    assert (done + (rest + multiset{f}))[f] == done[f] + (rest[f] + 1);
  }

  /** One round: upload every file once.  Uploads may finish in any order, which covers the parallel round and the
      serial ones. */
  method UploadRound(server: HubServer, tracker: UploadTracker, files: Failures, maxAttempts: nat)
    returns (successes: seq<FileItem>, failures: Failures)
    requires Sound(server, tracker) && maxAttempts >= 1
    modifies server, tracker
    ensures Sound(server, tracker) && Backed(successes, server.store)
    ensures old(server.store) <= server.store && server.landed == old(server.landed)
    ensures multiset(successes) + Bag(failures) == Bag(files)
    ensures server.started == old(server.started) + Bag(files)
    ensures server.commitCalls == old(server.commitCalls) && old(server.uploadCalls) <= server.uploadCalls
    ensures AllFailing(server.uploads, old(server.uploadCalls), server.uploadCalls, failures)
    ensures Spares(old(tracker.entries), tracker.entries, Bag(files))
  {
    successes, failures := [], [];
    var rest := files;
    ghost var calls := server.uploadCalls;
    while rest != []
      invariant Spares(old(tracker.entries), tracker.entries, Bag(files))
      invariant Sound(server, tracker) && Backed(successes, server.store)
      invariant old(server.store) <= server.store && server.landed == old(server.landed)
      invariant multiset(successes) + Bag(failures) + Bag(rest) == Bag(files)
      invariant server.started + Bag(rest) == old(server.started) + Bag(files)
      invariant server.commitCalls == old(server.commitCalls) && calls <= server.uploadCalls
      invariant AllFailing(server.uploads, calls, server.uploadCalls, failures)
      decreases |rest|
    {
      var i: nat :| i < |rest|;
      var f := rest[i].0;
      ghost var done, before := multiset(successes) + Bag(failures), server.started;
      BagWithout(rest, i);
      rest := rest[..i] + rest[i + 1..];
      ghost var entries := tracker.entries;
      successes, failures := UploadNext(server, tracker, successes, failures, f, maxAttempts, calls);
      NextOfAll(done, Bag(rest), f, Bag(files));
      SparesOne(old(tracker.entries), entries, tracker.entries, Bag(files), f);
      TakeOne(done, multiset(successes) + Bag(failures), Bag(rest), multiset{f}, Bag(files));
      TakeOne(before, server.started, Bag(rest), multiset{f}, old(server.started) + Bag(files));
    }
  }

  /** Commit what a round uploaded; a refused commit goes through commit-only recovery.  Every file ends committed
      or given up for good: uploaded files are never queued for another upload. */
  method CommitRound(server: HubServer, tracker: UploadTracker, successes: seq<FileItem>, limits: Limits)
    returns (committed: seq<FileItem>, givenUp: Failures)
    requires Sound(server, tracker) && server.limits == limits && Backed(successes, server.store)
    modifies server`commitCalls, server`landed, server`sent, tracker
    ensures Sound(server, tracker) && server.store == old(server.store) && server.started == old(server.started)
    ensures old(server.landed) <= server.landed && forall f | f in committed :: f in server.landed
    ensures multiset(committed) + Bag(givenUp) == multiset(successes)
    ensures old(server.commitCalls) <= server.commitCalls
    ensures AllWereRefused(server.commits, old(server.commitCalls), server.commitCalls, givenUp)
    ensures Keeps(old(BooksOf(server, tracker)), BooksOf(server, tracker), multiset(successes), committed)
  {
    ghost var books := BooksOf(server, tracker);
    tracker.MarkUploaded(successes);
    ghost var marked := BooksOf(server, tracker);
    var batches := PlanResultBatches(successes, limits);
    committed, givenUp := CommitEach(server, tracker, batches, limits);
    FirstKeeps(books, marked, BooksOf(server, tracker), multiset(successes), multiset{}, multiset(successes),
               committed);
  }

  /** One commit after another. */
  method CommitEach(server: HubServer, tracker: UploadTracker, batches: seq<seq<FileItem>>, limits: Limits)
    returns (committed: seq<FileItem>, givenUp: Failures)
    requires Sound(server, tracker) && server.limits == limits && Backed(FlattenFiles(batches), server.store)
    requires forall b | b in batches :: Allowed(b, limits)
    modifies server`commitCalls, server`landed, server`sent, tracker
    ensures Sound(server, tracker) && server.store == old(server.store) && server.started == old(server.started)
    ensures old(server.landed) <= server.landed && forall f | f in committed :: f in server.landed
    ensures multiset(committed) + Bag(givenUp) == multiset(FlattenFiles(batches))
    ensures old(server.commitCalls) <= server.commitCalls
    ensures AllWereRefused(server.commits, old(server.commitCalls), server.commitCalls, givenUp)
    ensures Keeps(old(BooksOf(server, tracker)), BooksOf(server, tracker), multiset(FlattenFiles(batches)), committed)
  {
    committed, givenUp := [], [];
    ghost var done: seq<FileItem>, calls := [], server.commitCalls;
    for k := 0 to |batches|
      invariant done == FlattenFiles(batches[..k])
      invariant Sound(server, tracker) && server.store == old(server.store) && server.started == old(server.started)
      invariant old(server.landed) <= server.landed && forall f | f in committed :: f in server.landed
      invariant calls <= server.commitCalls
      invariant AllWereRefused(server.commits, calls, server.commitCalls, givenUp)
      invariant multiset(committed) + Bag(givenUp) == multiset(done)
      invariant Keeps(old(BooksOf(server, tracker)), BooksOf(server, tracker), multiset(done), committed)
    {
      ghost var between, before := BooksOf(server, tracker), server.commitCalls;
      OneMorePart([], batches, k);
      var more, lost := CommitOrRecover(server, tracker, batches[k], limits);
      BagConcat(givenUp, lost);
      RefusedTogether(server.commits, calls, before, server.commitCalls, givenUp, lost);
      JoinBags(done, batches[k]);
      JoinBags(committed, more);
      SmallerPart(multiset(committed), Bag(givenUp), multiset(done));
      KeepsTogether(old(BooksOf(server, tracker)), between, BooksOf(server, tracker), multiset(done), committed,
                    multiset(batches[k]), more);
      FourParts(multiset(committed), Bag(givenUp), multiset(more), Bag(lost));
      committed, givenUp, done := committed + more, givenUp + lost, done + batches[k];
    }
    assert batches[..|batches|] == batches;
  }

  method CommitOrRecover(server: HubServer, tracker: UploadTracker, batch: seq<FileItem>, limits: Limits)
    returns (committed: seq<FileItem>, givenUp: Failures)
    requires Sound(server, tracker) && server.limits == limits && server.Sendable(batch)
    modifies server`commitCalls, server`landed, server`sent, tracker
    ensures Sound(server, tracker) && server.store == old(server.store) && server.started == old(server.started)
    ensures old(server.landed) <= server.landed && forall f | f in committed :: f in server.landed
    ensures multiset(committed) + Bag(givenUp) == multiset(batch)
    ensures old(server.commitCalls) <= server.commitCalls
    ensures AllWereRefused(server.commits, old(server.commitCalls), server.commitCalls, givenUp)
    ensures Keeps(old(BooksOf(server, tracker)), BooksOf(server, tracker), multiset(batch), committed)
  {
    ghost var books, calls := BooksOf(server, tracker), server.commitCalls;
    var reply := SendAndMark(server, tracker, batch);
    ghost var between := BooksOf(server, tracker);
    match reply
    case Landed =>
      committed, givenUp := batch, [];
    case Refused(e, _) =>
      assert FilesOfBatches([(batch, e)]) == [] + batch == batch by {
        assert [(batch, e)][..0] == [];
      }
      ghost var parts, from := 0, server.commitCalls;
      givenUp, committed, parts := RetryFailedCommits(server, tracker, [(batch, e)], limits);
      BagOfFiles(givenUp);
      RefusedEarlier(server.commits, from, calls, server.commitCalls, givenUp);
      LandedFirst(books, between, BooksOf(server, tracker), multiset(batch), committed);
  }

  function WithFlag(failed: Failures, retryable: bool): Failures {
    if failed == [] then []
    else
      var rest, last := WithFlag(failed[..|failed| - 1], retryable), failed[|failed| - 1];
      if last.1.retryable == retryable then rest + [last] else rest
  }

  lemma {:induction false} FlagsSplit(failed: Failures)
    ensures Bag(WithFlag(failed, true)) + Bag(WithFlag(failed, false)) == Bag(failed)
  {
    if failed != [] {
      var init, last := failed[..|failed| - 1], failed[|failed| - 1];
      FlagsSplit(init);
      GrowPart(WithFlag(init, true), WithFlag(init, false), Bag(init), last);
    }
  }

  predicate AllRetryable(failures: Failures) {
    forall k | 0 <= k < |failures| :: failures[k].1.retryable
  }

  lemma {:induction false} NothingPermanent(failures: Failures)
    ensures AllRetryable(failures) ==> WithFlag(failures, false) == []
  {
    if failures != [] && AllRetryable(failures) {
      NothingPermanent(failures[..|failures| - 1]);
      assert failures[|failures| - 1].1.retryable;
    }
  }

  /** A failure is final for this run. */
  method MarkFinal(tracker: UploadTracker, failures: Failures, i: nat)
    requires i < |failures|
    modifies tracker
    ensures tracker.CommittedKeys() <= old(tracker.CommittedKeys())
    ensures Spares(old(tracker.entries), tracker.entries, Bag(failures))
  {
    ListedInBag(failures, i);
    tracker.MarkFailed(failures[i].0);
    assert multiset{failures[i].0} <= Bag(failures);
    SparesMore(old(tracker.entries), tracker.entries, multiset{failures[i].0}, Bag(failures));
  }

  /** Tell apart the failures that may be retried from those that are final. */
  method SplitRetryable(tracker: UploadTracker, failed: Failures) returns (retryable: Failures, permanent: Failures)
    modifies tracker
    ensures retryable == WithFlag(failed, true) && permanent == WithFlag(failed, false)
    ensures tracker.CommittedKeys() <= old(tracker.CommittedKeys())
    ensures Spares(old(tracker.entries), tracker.entries, Bag(failed))
  {
    retryable, permanent := [], [];
    for i := 0 to |failed|
      invariant Spares(old(tracker.entries), tracker.entries, Bag(failed))
      invariant retryable == WithFlag(failed[..i], true) && permanent == WithFlag(failed[..i], false)
      invariant tracker.CommittedKeys() <= old(tracker.CommittedKeys())
    {
      assert failed[..i + 1][..i] == failed[..i];
      if failed[i].1.retryable {
        retryable := retryable + [failed[i]];
      } else {
        permanent := permanent + [failed[i]];
        ghost var entries := tracker.entries;
        MarkFinal(tracker, failed, i);
        SparesTogether(old(tracker.entries), entries, tracker.entries, Bag(failed));
      }
    }
    assert failed[..|failed|] == failed;
  }

  /** What a round leaves: files for another round, files given up, and the failure counts per path. */
  datatype Sorted = Sorted(again: Failures, permanent: Failures, counts: map<string, nat>)

  /** After a round: a third failure is final, and so is an error that cannot be retried. */
  function Sort(failures: Failures, counts: map<string, nat>): Sorted {
    if failures == [] then Sorted([], [], counts)
    else
      var s, last := Sort(failures[..|failures| - 1], counts), failures[|failures| - 1];
      var tries := Tries(s.counts, last.0.path) + 1;
      var counts' := s.counts[last.0.path := tries];
      if tries >= 3 || !last.1.retryable then Sorted(s.again, s.permanent + [last], counts')
      else Sorted(s.again + [last], s.permanent, counts')
  }

  lemma {:induction false} SortSettles(failures: Failures, counts: map<string, nat>)
    ensures var s := Sort(failures, counts); Bag(s.again) + Bag(s.permanent) == Bag(failures)
  {
    if failures != [] {
      var init, last := failures[..|failures| - 1], failures[|failures| - 1];
      SortSettles(init, counts);
      GrowPart(Sort(init, counts).again, Sort(init, counts).permanent, Bag(init), last);
    }
  }

  /** A file that goes into another round has failed once more, so nothing survives a third round. */
  lemma {:induction false} SortCounts(failures: Failures, counts: map<string, nat>, round: nat)
    requires TriedAtLeast(failures, counts, round)
    ensures var s := Sort(failures, counts);
      && TriedAtLeast(s.again, s.counts, round + 1)
      && (forall path :: Tries(s.counts, path) >= Tries(counts, path))
      && (round >= 2 ==> s.again == [])
  {
    if failures != [] {
      SortCounts(failures[..|failures| - 1], counts, round);
    }
  }

  /** No file twice, and no path twice. */
  ghost predicate OnePerPath(files: multiset<FileItem>) {
    && (forall f :: files[f] <= 1)
    && forall f, g {:trigger SamePath(f, g)} | f in files && g in files && SamePath(f, g) :: f == g
  }

  predicate SamePath(f: FileItem, g: FileItem) {
    f.path == g.path
  }

  /** Every file of the bag has failed exactly `round` times. */
  ghost predicate TriedExactly(files: multiset<FileItem>, counts: map<string, nat>, round: nat) {
    forall f {:trigger Tries(counts, f.path)} | f in files :: Tries(counts, f.path) == round
  }

  /** How often a path occurs in a list of failures. */
  function Occurs(failures: Failures, path: string): nat {
    if failures == [] then 0
    else Occurs(failures[..|failures| - 1], path) + if failures[|failures| - 1].0.path == path then 1 else 0
  }

  /** Every failure is counted, once. */
  lemma {:induction false} SortCountsAll(failures: Failures, counts: map<string, nat>, path: string)
    ensures Tries(Sort(failures, counts).counts, path) == Tries(counts, path) + Occurs(failures, path)
  {
    if failures != [] {
      SortCountsAll(failures[..|failures| - 1], counts, path);
    }
  }

  lemma {:induction false} OccursByPath(failures: Failures, f: FileItem)
    requires OnePerPath(Bag(failures))
    ensures (forall g | g in Bag(failures) :: g.path != f.path) ==> Occurs(failures, f.path) == 0
    ensures f in Bag(failures) ==> Occurs(failures, f.path) == 1
  {
    if failures != [] {
      var init, last := failures[..|failures| - 1], failures[|failures| - 1];
      OnePerPathPart(Bag(init), multiset{last.0});
      OccursByPath(init, f);
      LastIsOther(init, last);
      assert last.0 in Bag(failures);
    }
  }

  /** When every path has failed equally often before, the count decides for all failures alike: a failure is final if
      and only if its error cannot be retried or it is the third one. */
  lemma {:induction false} SortIsExact(failures: Failures, counts: map<string, nat>, round: nat)
    requires OnePerPath(Bag(failures)) && TriedExactly(Bag(failures), counts, round)
    ensures var s := Sort(failures, counts);
      && s.again == (if round < 2 then WithFlag(failures, true) else [])
      && s.permanent == (if round < 2 then WithFlag(failures, false) else failures)
  {
    if failures != [] {
      var init, last := failures[..|failures| - 1], failures[|failures| - 1];
      assert failures == init + [last];
      OnePerPathPart(Bag(init), multiset{last.0});
      SortIsExact(init, counts, round);
      LastIsOther(init, last);
      OccursByPath(init, last.0);
      SortCountsAll(init, counts, last.0.path);
      assert last.0 in Bag(failures);
    }
  }

  lemma TriedOnceMore(failures: Failures, counts: map<string, nat>, round: nat)
    requires OnePerPath(Bag(failures)) && TriedExactly(Bag(failures), counts, round)
    ensures TriedExactly(Bag(failures), Sort(failures, counts).counts, round + 1)
  {
    forall f | f in Bag(failures) ensures Tries(Sort(failures, counts).counts, f.path) == round + 1 {
      OccursByPath(failures, f);
      SortCountsAll(failures, counts, f.path);
    }
  }

  lemma OnePerPathPart(a: multiset<FileItem>, b: multiset<FileItem>)
    requires OnePerPath(a + b)
    ensures OnePerPath(a) && OnePerPath(b) && forall f, g | f in a && g in b :: f.path != g.path
  {
    forall f ensures (a + b)[f] == a[f] + b[f] {
    }
    forall f, g | f in a && g in b ensures f.path != g.path {
      assert f in a + b && g in a + b && (a + b)[f] <= 1;
      assert f.path == g.path ==> SamePath(f, g);
    }
  }

  lemma LastIsOther(init: Failures, last: (FileItem, Error))
    requires OnePerPath(Bag(init) + multiset{last.0})
    ensures forall f | f in Bag(init) :: f.path != last.0.path
  {
    OnePerPathPart(Bag(init), multiset{last.0});
    assert last.0 in multiset{last.0};
  }

  method SortRoundFailures(tracker: UploadTracker, failures: Failures, counts: map<string, nat>)
    returns (again: Failures, permanent: Failures, counts': map<string, nat>)
    modifies tracker
    ensures Sorted(again, permanent, counts') == Sort(failures, counts)
    ensures tracker.CommittedKeys() <= old(tracker.CommittedKeys())
    ensures Spares(old(tracker.entries), tracker.entries, Bag(failures))
  {
    again, permanent, counts' := [], [], counts;
    for i := 0 to |failures|
      invariant Spares(old(tracker.entries), tracker.entries, Bag(failures))
      invariant Sorted(again, permanent, counts') == Sort(failures[..i], counts)
      invariant tracker.CommittedKeys() <= old(tracker.CommittedKeys())
    {
      assert failures[..i + 1][..i] == failures[..i];
      var item := failures[i];
      counts' := counts'[item.0.path := Tries(counts', item.0.path) + 1];
      if counts'[item.0.path] >= 3 || !item.1.retryable {
        permanent := permanent + [item];
        ghost var entries := tracker.entries;
        MarkFinal(tracker, failures, i);
        SparesTogether(old(tracker.entries), entries, tracker.entries, Bag(failures));
      } else {
        again := again + [item];
      }
    }
    assert failures[..|failures|] == failures;
  }

  lemma JoinBags<T>(a: seq<T>, b: seq<T>)
    ensures multiset(a + b) == multiset(a) + multiset(b)
  {
  }

  lemma PartOfWhole<T>(a: multiset<T>, b: multiset<T>, all: multiset<T>)
    requires a + b == all
    ensures forall x | x in b :: x in all
  {
    forall x | x in b ensures x in all {
      assert (a + b)[x] == a[x] + b[x];
    }
  }

  /** What a round uploads is committed or given up, and what it does not upload is sorted, so the settled files
      and the files still to retry keep adding up to the input. */
  lemma RoundParts<T>(s: multiset<T>, f: multiset<T>, m: multiset<T>, l: multiset<T>, a: multiset<T>,
                      q: multiset<T>, all: multiset<T>)
    requires s + f == all && m + l == s && a + q == f
    ensures m + (l + q) + a == all
  {
  }

  lemma RoundSettles(retryable: Failures, successes: seq<FileItem>, failures: Failures,
                     committed: seq<FileItem>, lost: Failures, counts: map<string, nat>, round: nat)
    requires TriedAtLeast(retryable, counts, round)
    requires multiset(successes) + Bag(failures) == Bag(retryable)
    requires multiset(committed) + Bag(lost) == multiset(successes)
    ensures var s := Sort(failures, counts);
      && multiset(committed) + Bag(lost + s.permanent) + Bag(s.again) == Bag(retryable)
      && TriedAtLeast(s.again, s.counts, round + 1)
      && (round >= 2 ==> s.again == [])
  {
    var s := Sort(failures, counts);
    PartOfWhole(multiset(successes), Bag(failures), Bag(retryable));
    TriedPart(failures, retryable, counts, round);
    SortCounts(failures, counts, round);
    SortSettles(failures, counts);
    BagConcat(lost, s.permanent);
    RoundParts(multiset(successes), Bag(failures), multiset(committed), Bag(lost), Bag(s.again), Bag(s.permanent),
               Bag(retryable));
  }

  /** What a round does to the tracker: it learns digests, notes what was committed, and marks failures. */
  lemma RoundKeeps(b0: Books, b1: Books, b2: Books, b3: Books, successes: seq<FileItem>, failures: multiset<FileItem>,
                   all: multiset<FileItem>, committed: seq<FileItem>, lost: multiset<FileItem>)
    requires Spares(b0.entries, b1.entries, all) && b1.landed == b0.landed
    requires Keeps(b1, b2, multiset(successes), committed)
    requires Spares(b2.entries, b3.entries, failures) && b3.landed == b2.landed
    requires multiset(committed) + lost == multiset(successes) && multiset(successes) + failures == all
    ensures Keeps(b0, b3, all, committed)
  {
    SmallerPart(multiset(committed), lost, multiset(successes));
    assert Keeps(b2, b3, failures, []);
    KeepsTogether(b1, b2, b3, multiset(successes), committed, failures, []);
    assert committed + [] == committed;
    assert all + multiset{} == all;
    FirstKeeps(b0, b1, b3, all, multiset{}, all, committed);
  }

  lemma SmallerPart<T>(a: multiset<T>, b: multiset<T>, all: multiset<T>)
    requires a + b == all
    ensures a <= all
  {
  }

  // ---- Why a file is given up --------------------------------------------------------------------------------------

  /** How far the calls of a server have come. */
  datatype Calls = Calls(uploads: nat, commits: nat, started: multiset<FileItem>)

  ghost function CallsOf(server: HubServer): Calls
    reads server
  {
    Calls(server.uploadCalls, server.commitCalls, server.started)
  }

  predicate Later(a: Calls, b: Calls) {
    a.uploads <= b.uploads && a.commits <= b.commits
  }

  /** Between a and b a commit with the file was refused with this error, or an attempt to upload it met this error,
      which cannot be retried, or it was started `rounds` times. */
  ghost predicate Reason(u: UploadOracle, c: CommitOracle, a: Calls, b: Calls, rounds: nat, entry: (FileItem, Error)) {
    || WasRefused(c, a.commits, b.commits, entry)
    || (!entry.1.retryable && Met(u, a.uploads, b.uploads, entry.0, entry.1))
    || b.started[entry.0] == a.started[entry.0] + rounds
  }

  ghost predicate AllReasons(u: UploadOracle, c: CommitOracle, a: Calls, b: Calls, rounds: nat, failures: Failures) {
    forall entry {:trigger Reason(u, c, a, b, rounds, entry)} | entry in failures :: Reason(u, c, a, b, rounds, entry)
  }

  lemma {:induction false} InBag(failures: Failures, entry: (FileItem, Error))
    requires entry in failures
    ensures entry.0 in Bag(failures)
  {
    var k :| 0 <= k < |failures| && failures[k] == entry;
    ListedInBag(failures, k);
  }

  /** The files of a round were started once more, and the others were not. */
  lemma StartedOnceMore(all: multiset<FileItem>, done: multiset<FileItem>, todo: multiset<FileItem>)
    requires OnePerPath(all) && done + todo == all
    ensures OnePerPath(todo) && (forall f | f in todo :: todo[f] == 1) && forall f | f in done :: todo[f] == 0
  {
    OnePerPathPart(done, todo);
    forall f | f in done ensures todo[f] == 0 {
      assert f in todo ==> f.path != f.path;
    }
  }

  /** The reasons stay, and a round adds its own. */
  lemma RoundReasons(u: UploadOracle, c: CommitOracle, a: Calls, b: Calls, d: Calls, rounds: nat, round: nat,
                     all: multiset<FileItem>, done: multiset<FileItem>, todo: multiset<FileItem>,
                     permanent: Failures, lost: Failures)
    requires Later(a, b) && Later(b, d) && d.started == b.started + todo
    requires OnePerPath(all) && done + todo == all
    requires forall entry | entry in permanent :: entry.0 in done
    requires forall entry | entry in lost :: entry.0 in todo
    requires forall f | f in todo :: b.started[f] == a.started[f] + round
    requires AllReasons(u, c, a, b, rounds, permanent)
    requires GivenUpFairly(u, c, b, d, lost, round) && (round >= 2 ==> round + 1 == rounds)
    ensures AllReasons(u, c, a, d, rounds, permanent + lost)
    ensures forall f | f in todo :: d.started[f] == a.started[f] + round + 1
  {
    StartedOnceMore(all, done, todo);
    forall entry | entry in permanent + lost ensures Reason(u, c, a, d, rounds, entry) {
      if entry in permanent {
        assert Reason(u, c, a, b, rounds, entry);
      } else {
        assert entry in lost;
      }
    }
  }

  /** A round: upload, commit, and sort what failed.  The files of the round are split over the three results. */
  method Round(server: HubServer, tracker: UploadTracker, retryable: Failures, counts: map<string, nat>,
               maxAttempts: nat, limits: Limits, ghost round: nat, ghost exact: bool)
    returns (committed: seq<FileItem>, permanent: Failures, again: Failures, counts': map<string, nat>)
    requires Sound(server, tracker) && server.limits == limits && maxAttempts >= 1
    requires TriedAtLeast(retryable, counts, round)
    requires exact ==> OnePerPath(Bag(retryable)) && TriedExactly(Bag(retryable), counts, round)
    modifies server, tracker
    ensures Sound(server, tracker) && old(server.store) <= server.store && old(server.landed) <= server.landed
    ensures forall f | f in committed :: f in server.landed
    ensures server.started == old(server.started) + Bag(retryable)
    ensures multiset(committed) + Bag(permanent) + Bag(again) == Bag(retryable)
    ensures TriedAtLeast(again, counts', round + 1)
    ensures round >= 2 ==> again == []
    ensures Later(old(CallsOf(server)), CallsOf(server))
    ensures FineFrom(server.uploads, old(server.uploadCalls)) ==>
      again == [] && AllWereRefused(server.commits, old(server.commitCalls), server.commitCalls, permanent)
    ensures exact ==>
      && TriedExactly(Bag(again), counts', round + 1)
      && GivenUpFairly(server.uploads, server.commits, old(CallsOf(server)), CallsOf(server), permanent, round)
    ensures Keeps(old(BooksOf(server, tracker)), BooksOf(server, tracker), Bag(retryable), committed)
  {
    ghost var b0, calls := BooksOf(server, tracker), CallsOf(server);
    var successes, failures := UploadRound(server, tracker, retryable, maxAttempts);
    ghost var b1, mid := BooksOf(server, tracker), CallsOf(server);
    FineFailsNothing(server.uploads, calls.uploads, mid.uploads, failures);
    var lost, final;
    committed, lost := CommitRound(server, tracker, successes, limits);
    ghost var b2, end := BooksOf(server, tracker), CallsOf(server);
    again, final, counts' := SortRoundFailures(tracker, failures, counts);
    RoundKeeps(b0, b1, b2, BooksOf(server, tracker), successes, Bag(failures), Bag(retryable), committed, Bag(lost));
    permanent := lost + final;
    RoundSettles(retryable, successes, failures, committed, lost, counts, round);
    assert failures == [] ==> permanent == lost;
    if exact {
      SortReasons(server.uploads, server.commits, calls, mid, end, Bag(retryable), multiset(successes), failures,
                  counts, round, lost);
    }
  }

  /** What a round gives up: after a refused commit, for an error that cannot be retried, or because it is the third. */
  ghost predicate GivenUpFairly(u: UploadOracle, c: CommitOracle, a: Calls, b: Calls, failures: Failures, round: nat) {
    forall entry | entry in failures ::
      || WasRefused(c, a.commits, b.commits, entry)
      || (!entry.1.retryable && Met(u, a.uploads, b.uploads, entry.0, entry.1))
      || round >= 2
  }

  lemma SortReasons(u: UploadOracle, c: CommitOracle, a: Calls, mid: Calls, b: Calls, all: multiset<FileItem>,
                    successes: multiset<FileItem>, failures: Failures, counts: map<string, nat>, round: nat,
                    lost: Failures)
    requires OnePerPath(all) && TriedExactly(all, counts, round) && successes + Bag(failures) == all
    requires AllFailing(u, a.uploads, mid.uploads, failures) && AllWereRefused(c, mid.commits, b.commits, lost)
    requires mid.commits == a.commits && mid.uploads == b.uploads
    ensures var s := Sort(failures, counts);
      && TriedExactly(Bag(s.again), s.counts, round + 1) && GivenUpFairly(u, c, a, b, lost + s.permanent, round)
  {
    var s := Sort(failures, counts);
    OnePerPathPart(successes, Bag(failures));
    PartOfWhole(successes, Bag(failures), all);
    SortIsExact(failures, counts, round);
    TriedOnceMore(failures, counts, round);
    FlaggedAre(failures, false);
    SortSettles(failures, counts);
    PartOfWhole(Bag(s.permanent), Bag(s.again), Bag(failures));
    forall entry | entry in lost + s.permanent
      ensures WasRefused(c, a.commits, b.commits, entry)
        || (!entry.1.retryable && Met(u, a.uploads, b.uploads, entry.0, entry.1)) || round >= 2
    {
      if entry in lost {
        assert WasRefused(c, a.commits, b.commits, entry);
      } else if round < 2 {
        assert Failing(u, a.uploads, b.uploads, entry);
      }
    }
  }

  /** The files, the tracker and the starts after one more round. */
  lemma NextRound(b0: Books, b1: Books, b2: Books, all: multiset<FileItem>, committed: seq<FileItem>,
                  permanent: Failures, todo: multiset<FileItem>, more: seq<FileItem>, lost: Failures, again: Failures,
                  base: multiset<FileItem>, before: multiset<FileItem>, round: nat)
    requires Keeps(b0, b1, all, committed) && Keeps(b1, b2, todo, more)
    requires multiset(committed) + Bag(permanent) + todo == all
    requires multiset(more) + Bag(lost) + Bag(again) == todo
    requires StartedAtMost(base, before, all, round)
    ensures Keeps(b0, b2, all, committed + more)
    ensures multiset(committed + more) + Bag(permanent + lost) + Bag(again) == all
    ensures StartedAtMost(base, before + todo, all, round + 1)
  {
    KeepsPart(b0, b1, b2, all, committed, Bag(permanent), todo, more);
    OneRoundMore(multiset(committed), Bag(permanent), todo, multiset(more), Bag(lost), Bag(again), all);
    BagConcat(permanent, lost);
    JoinBags(committed, more);
    StartedStep(base, before, todo, all, round);
  }

  /** After so many rounds: what is still to retry has failed and was started in each of them, and what was given up has
      a reason. */
  ghost predicate RoundsSoFar(u: UploadOracle, c: CommitOracle, a: Calls, b: Calls, round: nat, permanent: Failures,
                              retryable: Failures, counts: map<string, nat>)
  {
    && (forall k {:trigger StillOpen(a, b, round, counts, retryable[k].0)} | 0 <= k < |retryable| ::
          StillOpen(a, b, round, counts, retryable[k].0))
    && AllReasons(u, c, a, b, 3, permanent)
  }

  predicate StillOpen(a: Calls, b: Calls, round: nat, counts: map<string, nat>, f: FileItem) {
    Tries(counts, f.path) == round && b.started[f] == a.started[f] + round
  }

  lemma {:induction false} OpenInBag(a: Calls, b: Calls, round: nat, counts: map<string, nat>, failures: Failures)
    requires forall k | 0 <= k < |failures| :: StillOpen(a, b, round, counts, failures[k].0)
    ensures TriedExactly(Bag(failures), counts, round)
    ensures forall f | f in Bag(failures) :: b.started[f] == a.started[f] + round
  {
    if failures != [] {
      OpenInBag(a, b, round, counts, failures[..|failures| - 1]);
      assert StillOpen(a, b, round, counts, failures[|failures| - 1].0);
    }
  }

  lemma OneRoundFurther(u: UploadOracle, c: CommitOracle, a: Calls, b: Calls, d: Calls, round: nat,
                        all: multiset<FileItem>, committed: seq<FileItem>, todo: multiset<FileItem>,
                        permanent: Failures, retryable: Failures, more: seq<FileItem>, lost: Failures,
                        again: Failures, counts: map<string, nat>, counts': map<string, nat>)
    requires Later(a, b) && Later(b, d) && d.started == b.started + todo && round < 3
    requires OnePerPath(all) && multiset(committed) + Bag(permanent) + todo == all
    requires multiset(more) + Bag(lost) + Bag(again) == todo
    requires todo == Bag(retryable) && RoundsSoFar(u, c, a, b, round, permanent, retryable, counts)
    requires TriedExactly(Bag(again), counts', round + 1) && GivenUpFairly(u, c, b, d, lost, round)
    ensures RoundsSoFar(u, c, a, d, round + 1, permanent + lost, again, counts')
  {
    OpenInBag(a, b, round, counts, retryable);
    var done := multiset(committed) + Bag(permanent);
    StartedOnceMore(all, done, todo);
    PartOfWhole(multiset(more) + Bag(lost), Bag(again), todo);
    OnePerPathPart(multiset(more) + Bag(lost), Bag(again));
    forall entry | entry in permanent ensures entry.0 in done {
      InBag(permanent, entry);
    }
    forall entry | entry in lost ensures entry.0 in todo {
      InBag(lost, entry);
      assert (multiset(more) + Bag(lost) + Bag(again))[entry.0] >= Bag(lost)[entry.0];
    }
    RoundReasons(u, c, a, b, d, 3, round, all, done, todo, permanent, lost);
    forall k | 0 <= k < |again| ensures StillOpen(a, d, round + 1, counts', again[k].0) {
      ListedInBag(again, k);
    }
  }

  /** What the rounds started from: the calls, the books and the files; whether uploads succeed from there on, and
      whether the paths are distinct. */
  datatype Since = Since(calls: Calls, books: Books, all: multiset<FileItem>, fine: bool, exact: bool)

  ghost function From(server: HubServer, tracker: UploadTracker, files: Failures): Since
    reads server, tracker
  {
    Since(CallsOf(server), BooksOf(server, tracker), Bag(files),
          FineFrom(server.uploads, server.uploadCalls), OnePerPath(Bag(files)))
  }

  /** Every file is in the three lists as often as in the bag. */
  ghost predicate Split(committed: seq<FileItem>, permanent: Failures, retryable: Failures, all: multiset<FileItem>) {
    forall f {:trigger SplitAt(committed, permanent, retryable, all, f)} ::
      SplitAt(committed, permanent, retryable, all, f)
  }

  predicate SplitAt(committed: seq<FileItem>, permanent: Failures, retryable: Failures, all: multiset<FileItem>,
                    f: FileItem)
  {
    multiset(committed)[f] + Bag(permanent)[f] + Bag(retryable)[f] == all[f]
  }

  lemma SplitIsSum(committed: seq<FileItem>, permanent: Failures, retryable: Failures, all: multiset<FileItem>)
    ensures Split(committed, permanent, retryable, all) <==>
      multiset(committed) + Bag(permanent) + Bag(retryable) == all
  {
    var sum := multiset(committed) + Bag(permanent) + Bag(retryable);
    forall f ensures sum[f] == multiset(committed)[f] + Bag(permanent)[f] + Bag(retryable)[f] {
    }
    if Split(committed, permanent, retryable, all) {
      forall f ensures sum[f] == all[f] {
        assert SplitAt(committed, permanent, retryable, all, f);
      }
    }
    if sum == all {
      forall f ensures SplitAt(committed, permanent, retryable, all, f) {
      }
    }
  }

  /** What holds after each of the three rounds. */
  ghost predicate SoFar(server: HubServer, tracker: UploadTracker, since: Since, committed: seq<FileItem>,
                        permanent: Failures, retryable: Failures, counts: map<string, nat>, round: nat)
    reads server, tracker
  {
    && Sound(server, tracker) && Later(since.calls, CallsOf(server)) && since.books.landed <= server.landed
    && (round >= 3 ==> retryable == [])
    && (forall f | f in committed :: f in server.landed)
    && Split(committed, permanent, retryable, since.all)
    && TriedAtLeast(retryable, counts, round)
    && (since.fine ==> AllWereRefused(server.commits, since.calls.commits, server.commitCalls, permanent))
    && (since.exact ==> RoundsSoFar(server.uploads, server.commits, since.calls, CallsOf(server), round,
                                              permanent, retryable, counts))
    && Keeps(since.books, BooksOf(server, tracker), since.all, committed)
    && StartedAtMost(since.calls.started, server.started, since.all, round)
  }

  lemma SoFarNothing(server: HubServer, tracker: UploadTracker, since: Since, files: Failures)
    requires Sound(server, tracker) && since == From(server, tracker, files)
    ensures SoFar(server, tracker, since, [], [], files, map[], 0)
  {
    NothingKeeps(BooksOf(server, tracker), Bag(files));
    SplitIsSum([], [], files, Bag(files));
  }

  method OneOfThree(server: HubServer, tracker: UploadTracker, committed: seq<FileItem>, permanent: Failures,
                    retryable: Failures, counts: map<string, nat>, maxAttempts: nat, limits: Limits,
                    ghost round: nat, ghost since: Since)
    returns (committed': seq<FileItem>, permanent': Failures, again: Failures, counts': map<string, nat>)
    requires SoFar(server, tracker, since, committed, permanent, retryable, counts, round)
    requires server.limits == limits && maxAttempts >= 1 && round < 3 && (since.exact ==> OnePerPath(since.all))
    requires since.fine ==> FineFrom(server.uploads, since.calls.uploads)
    modifies server, tracker
    ensures old(server.store) <= server.store
    ensures SoFar(server, tracker, since, committed', permanent', again, counts', round + 1)
  {
    var more, lost;
    ghost var todo, books, between := Bag(retryable), BooksOf(server, tracker), CallsOf(server);
    SplitIsSum(committed, permanent, retryable, since.all);
    if since.exact {
      OpenInBag(since.calls, between, round, counts, retryable);
      OnePerPathPart(multiset(committed) + Bag(permanent), todo);
    }
    more, lost, again, counts' := Round(server, tracker, retryable, counts, maxAttempts, limits, round, since.exact);
    if since.fine {
      RefusedTogether(server.commits, since.calls.commits, between.commits, server.commitCalls, permanent, lost);
    }
    NextRound(since.books, books, BooksOf(server, tracker), since.all, committed, permanent, todo, more, lost, again,
              since.calls.started, between.started, round);
    if since.exact {
      OneRoundFurther(server.uploads, server.commits, since.calls, between, CallsOf(server), round, since.all,
                      committed, todo, permanent, retryable, more, lost, again, counts, counts');
    }
    committed', permanent' := committed + more, permanent + lost;
    SplitIsSum(committed', permanent', again, since.all);
  }

  /** Rounds until nothing is left to retry, three at most. */
  method RunRounds(server: HubServer, tracker: UploadTracker, files: Failures, maxAttempts: nat, limits: Limits,
                   ghost since: Since)
    returns (committed: seq<FileItem>, permanent: Failures, retryable: Failures, counts: map<string, nat>, round: nat)
    requires SoFar(server, tracker, since, [], [], files, map[], 0)
    requires server.limits == limits && maxAttempts >= 1 && (since.exact ==> OnePerPath(since.all))
    requires since.fine ==> FineFrom(server.uploads, since.calls.uploads)
    modifies server, tracker
    ensures old(server.store) <= server.store && round <= 3 && retryable == []
    ensures SoFar(server, tracker, since, committed, permanent, retryable, counts, round)
  {
    committed, permanent, retryable, counts, round := [], [], files, map[], 0;
    while round < 3 && retryable != []
      invariant round <= 3 && old(server.store) <= server.store
      invariant SoFar(server, tracker, since, committed, permanent, retryable, counts, round)
    {
      committed, permanent, retryable, counts :=
        OneOfThree(server, tracker, committed, permanent, retryable, counts, maxAttempts, limits, round, since);
      round := round + 1;
    }
  }

  /** Three rounds at most.  Every file ends committed or given up, and none is uploaded more often than three times its
      number of occurrences; when uploads and commits succeed, nothing is given up.  Paths being distinct, a file is
      given up only for a refused commit, for an error that cannot be retried, or after it was started three times. */
  method ThreeRounds(server: HubServer, tracker: UploadTracker, files: Failures, maxAttempts: nat, limits: Limits)
    returns (committed: seq<FileItem>, permanent: Failures)
    requires Sound(server, tracker) && server.limits == limits && maxAttempts >= 1
    modifies server, tracker
    ensures Sound(server, tracker) && old(server.store) <= server.store && old(server.landed) <= server.landed
    ensures forall f | f in committed :: f in server.landed
    ensures multiset(committed) + Bag(permanent) == Bag(files)
    ensures StartedAtMost(old(server.started), server.started, Bag(files), 3)
    ensures Later(old(CallsOf(server)), CallsOf(server))
    ensures FineFrom(server.uploads, old(server.uploadCalls)) ==>
      AllWereRefused(server.commits, old(server.commitCalls), server.commitCalls, permanent)
    ensures FineFrom(server.uploads, old(server.uploadCalls)) && LandsFrom(server.commits, old(server.commitCalls)) ==>
      permanent == []
    ensures OnePerPath(Bag(files)) ==>
      AllReasons(server.uploads, server.commits, old(CallsOf(server)), CallsOf(server), 3, permanent)
    ensures Keeps(old(BooksOf(server, tracker)), BooksOf(server, tracker), Bag(files), committed)
  {
    ghost var since := From(server, tracker, files);
    SoFarNothing(server, tracker, since, files);
    var retryable, counts, round;
    committed, permanent, retryable, counts, round := RunRounds(server, tracker, files, maxAttempts, limits, since);
    SplitIsSum(committed, permanent, retryable, Bag(files));
    StartedMore(since.calls.started, server.started, Bag(files), round, 3);
    if since.fine {
      LandingGivesNothingUp(server.commits, since.calls.commits, server.commitCalls, permanent);
    }
  }

  lemma AddFinal<T>(c: multiset<T>, p: multiset<T>, q: multiset<T>, r: multiset<T>, all: multiset<T>)
    requires c + q == r && r + p == all
    ensures c + (p + q) == all
  {
  }

  lemma FirstKeeps(b0: Books, b1: Books, b2: Books, all: multiset<FileItem>, rest: multiset<FileItem>,
                   part: multiset<FileItem>, committed: seq<FileItem>)
    requires Spares(b0.entries, b1.entries, all) && b1.landed == b0.landed
    requires Keeps(b1, b2, part, committed) && part + rest == all
    ensures Keeps(b0, b2, all, committed)
  {
    assert multiset([]) + rest + part == all;
    KeepsPart(b0, b1, b2, all, [], rest, part, committed);
    assert [] + committed == committed;
  }

  /** The escalating recovery.  Final errors are set aside at once and never uploaded again; the rest gets up to three
      rounds.  Every input ends committed or permanently failed, and when uploads and commits succeed, exactly the
      final errors fail.  Paths being distinct, every other file that fails has one of the reasons of the rounds. */
  method RetryFailedFilesReact(
    server: HubServer, tracker: UploadTracker, failed: Failures, maxAttempts: nat, limits: Limits)
    returns (failures: Failures, committed: seq<FileItem>)
    requires Sound(server, tracker) && server.limits == limits && maxAttempts >= 1
    modifies server, tracker
    ensures Sound(server, tracker) && old(server.store) <= server.store && old(server.landed) <= server.landed
    ensures forall f | f in committed :: f in server.landed
    ensures multiset(committed) + Bag(failures) == Bag(failed)
    ensures StartedAtMost(old(server.started), server.started, Bag(WithFlag(failed, true)), 3)
    ensures Later(old(CallsOf(server)), CallsOf(server))
    ensures FineFrom(server.uploads, old(server.uploadCalls)) && LandsFrom(server.commits, old(server.commitCalls)) ==>
      failures == WithFlag(failed, false)
    ensures FineFrom(server.uploads, old(server.uploadCalls)) && AllRetryable(failed) ==>
      AllWereRefused(server.commits, old(server.commitCalls), server.commitCalls, failures)
    ensures OnePerPath(Bag(failed)) ==> forall entry | entry in failures ::
      || (entry in failed && !entry.1.retryable)
      || Reason(server.uploads, server.commits, old(CallsOf(server)), CallsOf(server), 3, entry)
    ensures Keeps(old(BooksOf(server, tracker)), BooksOf(server, tracker), Bag(failed), committed)
  {
    var retryable, permanent, lost;
    retryable, permanent := SplitRetryable(tracker, failed);
    ghost var books := BooksOf(server, tracker);
    committed, lost := ThreeRounds(server, tracker, retryable, maxAttempts, limits);
    failures := permanent + lost;
    FlagsSplit(failed);
    FirstKeeps(old(BooksOf(server, tracker)), books, BooksOf(server, tracker), Bag(failed), Bag(permanent),
               Bag(retryable), committed);
    BagConcat(permanent, lost);
    AddFinal(multiset(committed), Bag(permanent), Bag(lost), Bag(retryable), Bag(failed));
    FlaggedAre(failed, false);
    NothingPermanent(failed);
    assert permanent == [] ==> failures == lost;
    if OnePerPath(Bag(failed)) {
      OnePerPathPart(Bag(retryable), Bag(permanent));
    }
  }

  lemma {:induction false} FlaggedAre(failed: Failures, flag: bool)
    ensures forall entry :: entry in WithFlag(failed, flag) <==> entry in failed && entry.1.retryable == flag
  {
    if failed != [] {
      FlaggedAre(failed[..|failed| - 1], flag);
      assert failed == failed[..|failed| - 1] + [failed[|failed| - 1]];
    }
  }

  lemma TimesGrows(a: nat, b: nat, n: nat)
    requires a <= b
    ensures a * n <= b * n
  {
  }

  lemma StartedMore<T(!new)>(base: multiset<T>, now: multiset<T>, all: multiset<T>, rounds: nat, more: nat)
    requires StartedAtMost(base, now, all, rounds) && rounds <= more
    ensures StartedAtMost(base, now, all, more)
  {
    forall x ensures AtMost(base, now, all, more, x) {
      assert AtMost(base, now, all, rounds, x);
      TimesGrows(rounds, more, all[x]);
    }
  }

  /** Starts are bounded by the number of rounds so far. */
  ghost predicate StartedAtMost<T(!new)>(base: multiset<T>, now: multiset<T>, all: multiset<T>, rounds: nat) {
    forall x {:trigger AtMost(base, now, all, rounds, x)} :: AtMost(base, now, all, rounds, x)
  }

  predicate AtMost<T>(base: multiset<T>, now: multiset<T>, all: multiset<T>, rounds: nat, x: T) {
    now[x] <= base[x] + rounds * all[x]
  }

  lemma NextTimes(a: nat, n: nat)
    ensures (a + 1) * n == a * n + n
  {
  }

  lemma StartedStep<T(!new)>(base: multiset<T>, before: multiset<T>, todo: multiset<T>, all: multiset<T>, rounds: nat)
    requires StartedAtMost(base, before, all, rounds) && forall x :: todo[x] <= all[x]
    ensures StartedAtMost(base, before + todo, all, rounds + 1)
  {
    forall x {:trigger AtMost(base, before + todo, all, rounds + 1, x)}
      ensures AtMost(base, before + todo, all, rounds + 1, x)
    {
      assert AtMost(base, before, all, rounds, x);
      NextTimes(rounds, all[x]);
    }
  }

  lemma OneRoundMore<T(!new)>(c: multiset<T>, p: multiset<T>, r: multiset<T>,
                        m: multiset<T>, l: multiset<T>, a: multiset<T>, all: multiset<T>)
    requires c + p + r == all && m + l + a == r
    ensures (c + m) + (p + l) + a == all
    ensures forall x :: r[x] <= all[x]
  {
    forall x ensures r[x] <= all[x] {
      assert (c + p + r)[x] == c[x] + p[x] + r[x];
    }
  }

  lemma NothingSpares(e: Entries, files: multiset<FileItem>)
    ensures Spares(e, e, files)
  {
  }

  lemma LeftWereStarted(all: multiset<FileItem>, done: multiset<FileItem>, left: multiset<FileItem>,
                        settled: multiset<FileItem>, again: multiset<FileItem>)
    requires done + left == all && settled + again == left
    ensures OnePerPath(all) ==> forall f | f in again :: f in left && left[f] == 1
  {
    PartOfWhole(settled, again, left);
    if OnePerPath(all) {
      StartedOnceMore(all, done, left);
    }
  }

  method SimpleRound(server: HubServer, tracker: UploadTracker, left: Failures, maxAttempts: nat, limits: Limits)
    returns (committed: seq<FileItem>, lost: Failures, again: Failures)
    requires Sound(server, tracker) && server.limits == limits && maxAttempts >= 1
    modifies server, tracker
    ensures Sound(server, tracker) && old(server.store) <= server.store && old(server.landed) <= server.landed
    ensures forall f | f in committed :: f in server.landed
    ensures multiset(committed) + Bag(lost) + Bag(again) == Bag(left)
    ensures Later(old(CallsOf(server)), CallsOf(server)) && server.started == old(server.started) + Bag(left)
    ensures AllWereRefused(server.commits, old(server.commitCalls), server.commitCalls, lost)
    ensures FineFrom(server.uploads, old(server.uploadCalls)) ==> again == []
    ensures Keeps(old(BooksOf(server, tracker)), BooksOf(server, tracker), Bag(left), committed)
  {
    var successes;
    ghost var calls := CallsOf(server);
    successes, again := UploadRound(server, tracker, left, maxAttempts);
    FineFailsNothing(server.uploads, calls.uploads, server.uploadCalls, again);
    ghost var books := BooksOf(server, tracker);
    committed, lost := CommitRound(server, tracker, successes, limits);
    NothingSpares(tracker.entries, Bag(again));
    RoundKeeps(old(BooksOf(server, tracker)), books, BooksOf(server, tracker), BooksOf(server, tracker), successes,
               Bag(again), Bag(left), committed, Bag(lost));
  }

  /** The plain recovery: upload and commit everything that is left, a fixed number of times.  Paths being distinct, a
      file fails only for a refused commit or after it was started in every round. */
  method RetryFailedSimple(
    server: HubServer, tracker: UploadTracker, failed: Failures, maxRounds: nat, maxAttempts: nat, limits: Limits)
    returns (failures: Failures, committed: seq<FileItem>)
    requires Sound(server, tracker) && server.limits == limits && maxAttempts >= 1
    modifies server, tracker
    ensures Sound(server, tracker) && old(server.store) <= server.store && old(server.landed) <= server.landed
    ensures forall f | f in committed :: f in server.landed
    ensures multiset(committed) + Bag(failures) == Bag(failed)
    ensures Later(old(CallsOf(server)), CallsOf(server))
    ensures FineFrom(server.uploads, old(server.uploadCalls)) && LandsFrom(server.commits, old(server.commitCalls)) ==>
      maxRounds == 0 || failures == []
    ensures FineFrom(server.uploads, old(server.uploadCalls)) && maxRounds > 0 ==>
      AllWereRefused(server.commits, old(server.commitCalls), server.commitCalls, failures)
    ensures OnePerPath(Bag(failed)) ==> forall entry | entry in failures ::
      || WasRefused(server.commits, old(server.commitCalls), server.commitCalls, entry)
      || server.started[entry.0] == old(server.started)[entry.0] + maxRounds
    ensures Keeps(old(BooksOf(server, tracker)), BooksOf(server, tracker), Bag(failed), committed)
  {
    var left, terminal: Failures, round := failed, [], 0;
    committed := [];
    ghost var calls, b0 := CallsOf(server), BooksOf(server, tracker);
    NothingKeeps(BooksOf(server, tracker), Bag(failed));
    SplitIsSum(committed, terminal, left, Bag(failed));
    while round < maxRounds && left != []
      invariant 0 <= round <= maxRounds
      invariant Sound(server, tracker) && old(server.store) <= server.store && old(server.landed) <= server.landed
      invariant forall f | f in committed :: f in server.landed
      invariant Split(committed, terminal, left, Bag(failed))
      invariant Later(calls, CallsOf(server))
      invariant FineFrom(server.uploads, calls.uploads) && round > 0 ==> left == []
      invariant AllWereRefused(server.commits, calls.commits, server.commitCalls, terminal)
      invariant OnePerPath(Bag(failed)) ==> forall f | f in Bag(left) :: server.started[f] == calls.started[f] + round
      invariant Keeps(b0, BooksOf(server, tracker), Bag(failed), committed)
    {
      ghost var books, before := BooksOf(server, tracker), CallsOf(server);
      SplitIsSum(committed, terminal, left, Bag(failed));
      var more, lost, again := SimpleRound(server, tracker, left, maxAttempts, limits);
      RefusedTogether(server.commits, calls.commits, before.commits, server.commitCalls, terminal, lost);
      LeftWereStarted(Bag(failed), multiset(committed) + Bag(terminal), Bag(left), multiset(more) + Bag(lost),
                      Bag(again));
      NextRound(b0, books, BooksOf(server, tracker), Bag(failed), committed, terminal, Bag(left), more, lost, again,
                calls.started, calls.started, 0);
      assert forall f | f in committed + more :: f in committed || f in more;
      committed, terminal, left, round := committed + more, terminal + lost, again, round + 1;
      SplitIsSum(committed, terminal, left, Bag(failed));
    }
    SplitIsSum(committed, terminal, left, Bag(failed));
    failures := terminal + left;
    forall entry | entry in left ensures entry.0 in Bag(left) {
      InBag(left, entry);
    }
    LandingGivesNothingUp(server.commits, calls.commits, server.commitCalls, terminal);
    assert left == [] ==> failures == terminal;
    BagConcat(terminal, left);
    Regroup(multiset(committed), Bag(terminal), Bag(left));
  }
}
