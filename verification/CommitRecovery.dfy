/** Commit-only recovery: retry the commits of a run without uploading again, bisecting the batches that the
    repository policy rejects. */
module CommitRecovery {
  import opened UploadTypes
  import opened HubServing
  import opened UploadTracking
  import opened CommitPlanner
  import BatchTracking

  /** Result of recovering one batch: files whose commit landed, files given up with their error, commits sent. */
  datatype Outcome = Outcome(committed: seq<FileItem>, failed: seq<(FileItem, Error)>, calls: nat)

  function Both(a: Outcome, b: Outcome): Outcome {
    Outcome(a.committed + b.committed, a.failed + b.failed, a.calls + b.calls)
  }

  function Blame(files: seq<FileItem>, e: Error): (failed: seq<(FileItem, Error)>)
    ensures |failed| == |files|
    ensures forall i | 0 <= i < |failed| :: failed[i] == (files[i], e)
  {
    if files == [] then [] else Blame(files[..|files| - 1], e) + [(files[|files| - 1], e)]
  }

  lemma {:induction false} BlameFiles(files: seq<FileItem>, e: Error)
    ensures FilesOf(Blame(files, e)) == files
  {
    if files != [] {
      BlameFiles(files[..|files| - 1], e);
      assert Blame(files, e)[..|files| - 1] == Blame(files[..|files| - 1], e);
    }
  }

  function Half(n: nat): nat {
    (n + 1) / 2
  }

  /** What recovering a batch comes to when `k` commits were sent before.  A batch whose first commit was already
      rejected by policy is split before it is sent again. */
  function Recover(server: CommitOracle, k: nat, batch: seq<FileItem>, prior: Error, splitFirst: bool): Outcome
    decreases |batch|, 2
  {
    if splitFirst && prior.policy && |batch| > 1 then
      Halves(server, k, batch, prior)
    else
      match server(k, batch)
      case Landed => Outcome(batch, [], 1)
      case Refused(e, _) =>
        var rest := Refusal(server, k + 1, batch, e);
        rest.(calls := rest.calls + 1)
  }

  /** What follows a refused commit. */
  function Refusal(server: CommitOracle, k: nat, batch: seq<FileItem>, e: Error): Outcome
    decreases |batch|, 1
  {
    if e.policy && |batch| > 1 then Halves(server, k, batch, e) else Outcome([], Blame(batch, e), 0)
  }

  function Halves(server: CommitOracle, k: nat, batch: seq<FileItem>, e: Error): Outcome
    requires |batch| > 1
    decreases |batch|, 0
  {
    var mid := Half(|batch|);
    var a := Recover(server, k, batch[..mid], e, false);
    Both(a, Recover(server, k + a.calls, batch[mid..], e, false))
  }

  /** The two halves of a batch and what recovering each of them comes to. */
  lemma HalvesAre(server: CommitOracle, k: nat, batch: seq<FileItem>, e: Error)
    returns (l: seq<FileItem>, r: seq<FileItem>, a: Outcome, b: Outcome)
    requires |batch| > 1
    ensures l == batch[..Half(|batch|)] && r == batch[Half(|batch|)..]
    ensures batch == l + r && 0 < |r| <= |l| < |batch| && |l| == Half(|batch|)
    ensures a == Recover(server, k, l, e, false) && b == Recover(server, k + a.calls, r, e, false)
    ensures Halves(server, k, batch, e) == Both(a, b)
  {
    l, r := batch[..Half(|batch|)], batch[Half(|batch|)..];
    a := Recover(server, k, l, e, false);
    b := Recover(server, k + a.calls, r, e, false);
  }

  /** The files of a list, each as often as it occurs, built up from the front. */
  function Items(files: seq<FileItem>): multiset<FileItem> {
    if files == [] then multiset{} else Items(files[..|files| - 1]) + multiset{files[|files| - 1]}
  }

  lemma {:induction false} ItemsAre(files: seq<FileItem>)
    ensures Items(files) == multiset(files)
  {
    if files != [] {
      ItemsAre(files[..|files| - 1]);
      assert files == files[..|files| - 1] + [files[|files| - 1]];
    }
  }

  lemma {:induction false} ItemsConcat(a: seq<FileItem>, b: seq<FileItem>)
    ensures Items(a + b) == Items(a) + Items(b)
  {
    if b == [] {
      assert a + b == a;
    } else {
      var n := |b| - 1;
      assert (a + b)[..|a + b| - 1] == a + b[..n];
      ItemsConcat(a, b[..n]);
      Regroup(Items(a), Items(b[..n]), multiset{b[n]});
    }
  }

  lemma {:induction false} BlameItems(files: seq<FileItem>, e: Error)
    ensures Bag(Blame(files, e)) == Items(files)
  {
    if files != [] {
      BlameItems(files[..|files| - 1], e);
      assert Blame(files, e)[..|files| - 1] == Blame(files[..|files| - 1], e);
    }
  }

  function Settled(out: Outcome): multiset<FileItem> {
    Items(out.committed) + Bag(out.failed)
  }

  lemma FourParts<T>(a: multiset<T>, b: multiset<T>, c: multiset<T>, d: multiset<T>)
    ensures (a + c) + (b + d) == (a + b) + (c + d)
  {
  }

  lemma SettledTogether(batch: seq<FileItem>, l: seq<FileItem>, r: seq<FileItem>, out: Outcome, a: Outcome, b: Outcome)
    requires batch == l + r && out == Both(a, b) && Settled(a) == Items(l) && Settled(b) == Items(r)
    ensures Settled(out) == Items(batch)
  {
    ItemsConcat(l, r);
    ItemsConcat(a.committed, b.committed);
    BagConcat(a.failed, b.failed);
    FourParts(Items(a.committed), Bag(a.failed), Items(b.committed), Bag(b.failed));
  }

  lemma {:induction false} RecoverSettles(
    server: CommitOracle, k: nat, batch: seq<FileItem>, prior: Error, splitFirst: bool)
    ensures Settled(Recover(server, k, batch, prior, splitFirst)) == Items(batch)
    decreases |batch|, 1
  {
    if splitFirst && prior.policy && |batch| > 1 {
      HalvesSettle(server, k, batch, prior);
    } else if server(k, batch).Refused? {
      var e := server(k, batch).error;
      if e.policy && |batch| > 1 {
        HalvesSettle(server, k + 1, batch, e);
      } else {
        BlameItems(batch, e);
      }
    }
  }

  lemma {:induction false} HalvesSettle(server: CommitOracle, k: nat, batch: seq<FileItem>, e: Error)
    requires |batch| > 1
    ensures Settled(Halves(server, k, batch, e)) == Items(batch)
    decreases |batch|, 0
  {
    var l, r, a, b := HalvesAre(server, k, batch, e);
    assert Settled(a) == Items(l) by {
      RecoverSettles(server, k, l, e, false);
    }
    assert Settled(b) == Items(r) by {
      RecoverSettles(server, k + a.calls, r, e, false);
    }
    SettledTogether(batch, l, r, Halves(server, k, batch, e), a, b);
  }

  /** Nothing is lost and nothing is invented: every file of the batch is committed or given up, exactly once. */
  lemma RecoverPartitions(server: CommitOracle, k: nat, batch: seq<FileItem>, prior: Error, splitFirst: bool)
    ensures var out := Recover(server, k, batch, prior, splitFirst);
      multiset(out.committed) + multiset(FilesOf(out.failed)) == multiset(batch)
  {
    var out := Recover(server, k, batch, prior, splitFirst);
    RecoverSettles(server, k, batch, prior, splitFirst);
    ItemsAre(batch);
    ItemsAre(out.committed);
    BagOfFiles(out.failed);
  }

  /** At most 2n - 1 commits for n files, against any server. */
  lemma {:induction false} RecoverCalls(
    server: CommitOracle, k: nat, batch: seq<FileItem>, prior: Error, splitFirst: bool)
    requires batch != []
    ensures 1 <= Recover(server, k, batch, prior, splitFirst).calls <= 2 * |batch| - 1
    decreases |batch|, 1
  {
    if splitFirst && prior.policy && |batch| > 1 {
      HalvesCalls(server, k, batch, prior);
    } else if server(k, batch).Refused? && server(k, batch).error.policy && |batch| > 1 {
      HalvesCalls(server, k + 1, batch, server(k, batch).error);
    }
  }

  lemma {:induction false} HalvesCalls(server: CommitOracle, k: nat, batch: seq<FileItem>, e: Error)
    requires |batch| > 1
    ensures 1 <= Halves(server, k, batch, e).calls <= 2 * |batch| - 2
    decreases |batch|, 0
  {
    var mid := Half(|batch|);
    RecoverCalls(server, k, batch[..mid], e, false);
    RecoverCalls(server, k + Recover(server, k, batch[..mid], e, false).calls, batch[mid..], e, false);
  }

  /** A server that rejects, by policy, exactly the batches that contain some bad file. */
  ghost predicate Bans(server: CommitOracle, bad: set<FileItem>) {
    forall k: nat, batch: seq<FileItem> ::
      Bad(batch, bad) == PolicyRefusal(server(k, batch)) == !server(k, batch).Landed?
  }

  ghost predicate Bad(batch: seq<FileItem>, bad: set<FileItem>) {
    exists f :: f in batch && f in bad
  }

  predicate PolicyRefusal(reply: CommitReply) {
    reply.Refused? && reply.error.policy
  }

  function Choose(files: seq<FileItem>, from: set<FileItem>, inside: bool): seq<FileItem> {
    if files == [] then []
    else
      var rest := Choose(files[..|files| - 1], from, inside);
      if files[|files| - 1] in from <==> inside then rest + [files[|files| - 1]] else rest
  }

  lemma {:induction false} ChooseMembers(files: seq<FileItem>, from: set<FileItem>, inside: bool)
    ensures forall f :: f in Choose(files, from, inside) <==> f in files && (f in from <==> inside)
  {
    if files != [] {
      ChooseMembers(files[..|files| - 1], from, inside);
      assert files == files[..|files| - 1] + [files[|files| - 1]];
    }
  }

  lemma {:induction false} ChooseConcat(a: seq<FileItem>, b: seq<FileItem>, from: set<FileItem>, inside: bool)
    ensures Choose(a + b, from, inside) == Choose(a, from, inside) + Choose(b, from, inside)
  {
    if b == [] {
      assert a + b == a;
    } else {
      ChooseConcat(a, b[..|b| - 1], from, inside);
      assert (a + b)[..|a + b| - 1] == a + b[..|b| - 1];
    }
  }

  lemma {:induction false} ChooseAllOrNone(files: seq<FileItem>, from: set<FileItem>)
    ensures (forall f | f in files :: f !in from) ==>
      Choose(files, from, false) == files && Choose(files, from, true) == []
  {
    if files != [] {
      ChooseAllOrNone(files[..|files| - 1], from);
    }
  }

  /** Exactly the good files were committed and exactly the bad ones given up, both in their original order. */
  ghost predicate Separates(out: Outcome, batch: seq<FileItem>, bad: set<FileItem>) {
    out.committed == Choose(batch, bad, false) && FilesOf(out.failed) == Choose(batch, bad, true)
  }

  lemma JoinSeparated(a: Outcome, b: Outcome, l: seq<FileItem>, r: seq<FileItem>, bad: set<FileItem>)
    requires Separates(a, l, bad) && Separates(b, r, bad)
    ensures Separates(Both(a, b), l + r, bad)
  {
    FilesOfConcat(a.failed, b.failed);
    ChooseConcat(l, r, bad, false);
    ChooseConcat(l, r, bad, true);
  }

  lemma LoneBadFile(batch: seq<FileItem>, bad: set<FileItem>, e: Error)
    requires |batch| <= 1 && Bad(batch, bad)
    ensures Separates(Outcome([], Blame(batch, e), 1), batch, bad)
  {
    var f :| f in batch && f in bad;
    assert batch == [f] && batch[..0] == [];
    BlameFiles(batch, e);
  }

  /** Against such a server bisection is exact. */
  lemma {:induction false} RecoverSeparates(
    server: CommitOracle, bad: set<FileItem>, k: nat, batch: seq<FileItem>, prior: Error, splitFirst: bool)
    requires Bans(server, bad)
    ensures Separates(Recover(server, k, batch, prior, splitFirst), batch, bad)
    decreases |batch|, 1
  {
    assert Bad(batch, bad) == PolicyRefusal(server(k, batch)) == !server(k, batch).Landed?;
    if splitFirst && prior.policy && |batch| > 1 {
      HalvesSeparate(server, bad, k, batch, prior);
    } else if server(k, batch).Landed? {
      ChooseAllOrNone(batch, bad);
      assert Recover(server, k, batch, prior, splitFirst) == Outcome(batch, [], 1);
    } else if |batch| > 1 {
      HalvesSeparate(server, bad, k + 1, batch, server(k, batch).error);
      var rest := Halves(server, k + 1, batch, server(k, batch).error);
      assert Recover(server, k, batch, prior, splitFirst) == rest.(calls := rest.calls + 1);
    } else {
      LoneBadFile(batch, bad, server(k, batch).error);
      assert Recover(server, k, batch, prior, splitFirst) == Outcome([], Blame(batch, server(k, batch).error), 1);
    }
  }

  lemma {:induction false} HalvesSeparate(
    server: CommitOracle, bad: set<FileItem>, k: nat, batch: seq<FileItem>, e: Error)
    requires Bans(server, bad) && |batch| > 1
    ensures Separates(Halves(server, k, batch, e), batch, bad)
    decreases |batch|, 0
  {
    var l, r, a, b := HalvesAre(server, k, batch, e);
    RecoverSeparates(server, bad, k, l, e, false);
    RecoverSeparates(server, bad, k + a.calls, r, e, false);
    JoinSeparated(a, b, l, r, bad);
  }

  /** Halvings until one file is left. */
  function Depth(n: nat): nat {
    if n <= 1 then 0 else 1 + Depth(Half(n))
  }

  lemma {:induction false} DepthMonotone(m: nat, n: nat)
    requires m <= n
    ensures Depth(m) <= Depth(n)
    decreases n
  {
    if m > 1 {
      DepthMonotone(Half(m), Half(n));
    }
  }

  /** Two commits for each of m bad files on each of d levels. */
  function Price(m: nat, d: nat): nat {
    2 * m * d
  }

  /** A batch that is sent before it is split costs one commit and the price of its bad files. */
  lemma {:induction false} AttemptCost(
    server: CommitOracle, bad: set<FileItem>, k: nat, batch: seq<FileItem>, prior: Error, splitFirst: bool)
    requires Bans(server, bad) && batch != [] && !(splitFirst && prior.policy && |batch| > 1)
    ensures Recover(server, k, batch, prior, splitFirst).calls
         <= 1 + Price(|Choose(batch, bad, true)|, Depth(|batch|))
    decreases |batch|, 1
  {
    ChooseAllOrNone(batch, bad);
    if server(k, batch).Refused? && |batch| > 1 {
      HalvesCost(server, bad, k + 1, batch, server(k, batch).error);
      assert Bad(batch, bad) && PolicyRefusal(server(k, batch));
      assert |Choose(batch, bad, true)| >= 1 by {
        var f :| f in batch && f in bad;
        ChooseMembers(batch, bad, true);
        assert f in Choose(batch, bad, true);
      }
      CostStep(|Choose(batch, bad, true)|, Depth(Half(|batch|)));
      assert Recover(server, k, batch, prior, splitFirst).calls
          == 1 + Halves(server, k + 1, batch, server(k, batch).error).calls;
    }
  }

  lemma PriceMonotone(m: nat, c: nat, d: nat)
    requires c <= d
    ensures Price(m, c) <= Price(m, d)
  {
    assert 2 * m * d == 2 * m * c + 2 * m * (d - c);
  }

  /** The search is cheap when few files are bad: two commits per bad file and level, plus one; and one more when a
      rejected batch is split before it is sent again, which is how the retry of a rejected batch begins. */
  lemma RecoverCost(
    server: CommitOracle, bad: set<FileItem>, k: nat, batch: seq<FileItem>, prior: Error, splitFirst: bool)
    requires Bans(server, bad) && batch != []
    ensures Recover(server, k, batch, prior, splitFirst).calls
         <= (if splitFirst && prior.policy && |batch| > 1 then 2 else 1)
            + Price(|Choose(batch, bad, true)|, Depth(|batch|))
  {
    if splitFirst && prior.policy && |batch| > 1 {
      HalvesCost(server, bad, k, batch, prior);
      PriceMonotone(|Choose(batch, bad, true)|, Depth(Half(|batch|)), Depth(|batch|));
    } else {
      AttemptCost(server, bad, k, batch, prior, splitFirst);
    }
  }

  lemma {:induction false} HalvesCost(
    server: CommitOracle, bad: set<FileItem>, k: nat, batch: seq<FileItem>, e: Error)
    requires Bans(server, bad) && |batch| > 1
    ensures Halves(server, k, batch, e).calls <= 2 + Price(|Choose(batch, bad, true)|, Depth(Half(|batch|)))
    decreases |batch|, 0
  {
    var l, r, a, b := HalvesAre(server, k, batch, e);
    AttemptCost(server, bad, k, l, e, false);
    AttemptCost(server, bad, k + a.calls, r, e, false);
    ChooseConcat(l, r, bad, true);
    DepthMonotone(|r|, |l|);
    CostSum(|Choose(l, bad, true)|, |Choose(r, bad, true)|, Depth(|l|), Depth(|r|));
  }

  lemma CostStep(m: nat, d: nat)
    requires m >= 1
    ensures 2 + Price(m, d) <= Price(m, 1 + d)
  {
    assert 2 * m * (1 + d) == 2 * m + 2 * m * d;
  }

  lemma CostSum(m1: nat, m2: nat, d: nat, d2: nat)
    requires d2 <= d
    ensures Price(m1, d) + Price(m2, d2) <= Price(m1 + m2, d)
  {
    assert 2 * m2 * d2 <= 2 * m2 * d;
  }

  /** Commit number q was refused with this error, the file was in it, and for policy reasons it was alone in it. */
  predicate RefusedFor(server: CommitOracle, q: nat, batch: seq<FileItem>, f: FileItem, e: Error) {
    f in batch && server(q, batch).Refused? && server(q, batch).error == e && (e.policy ==> batch == [f])
  }

  /** One of the commits from lo on and before hi was refused for this file with this error. */
  ghost predicate WasRefused(server: CommitOracle, lo: nat, hi: nat, entry: (FileItem, Error)) {
    exists q: nat, batch :: lo <= q < hi && RefusedFor(server, q, batch, entry.0, entry.1)
  }

  ghost predicate AllWereRefused(server: CommitOracle, lo: nat, hi: nat, failed: seq<(FileItem, Error)>) {
    forall entry {:trigger WasRefused(server, lo, hi, entry)} | entry in failed :: WasRefused(server, lo, hi, entry)
  }

  /** Against any server: a file is given up only with the error of a commit that had the file and was refused, and for
      policy reasons only after it was sent alone. */
  lemma {:induction false} GivenUpWasRefused(
    server: CommitOracle, k: nat, batch: seq<FileItem>, prior: Error, splitFirst: bool)
    ensures var out := Recover(server, k, batch, prior, splitFirst);
      AllWereRefused(server, k, k + out.calls, out.failed)
    decreases |batch|, 1
  {
    var out := Recover(server, k, batch, prior, splitFirst);
    if splitFirst && prior.policy && |batch| > 1 {
      HalvesWereRefused(server, k, batch, prior);
    } else if server(k, batch).Refused? {
      var e := server(k, batch).error;
      if e.policy && |batch| > 1 {
        HalvesWereRefused(server, k + 1, batch, e);
        RefusedEarlier(server, k + 1, k, k + out.calls, out.failed);
      } else {
        forall entry | entry in Blame(batch, e) ensures WasRefused(server, k, k + 1, entry) {
          assert RefusedFor(server, k, batch, entry.0, e);
        }
      }
    }
  }

  lemma {:induction false} HalvesWereRefused(server: CommitOracle, k: nat, batch: seq<FileItem>, prior: Error)
    requires |batch| > 1
    ensures var out := Halves(server, k, batch, prior); AllWereRefused(server, k, k + out.calls, out.failed)
    decreases |batch|, 0
  {
    var l, r, a, b := HalvesAre(server, k, batch, prior);
    GivenUpWasRefused(server, k, l, prior, false);
    GivenUpWasRefused(server, k + a.calls, r, prior, false);
    RefusedTogether(server, k, k + a.calls, k + a.calls + b.calls, a.failed, b.failed);
  }

  lemma RefusedEarlier(server: CommitOracle, later: nat, lo: nat, hi: nat, failed: seq<(FileItem, Error)>)
    requires AllWereRefused(server, later, hi, failed) && lo <= later
    ensures AllWereRefused(server, lo, hi, failed)
  {
    forall entry | entry in failed ensures WasRefused(server, lo, hi, entry) {
      assert WasRefused(server, later, hi, entry);
    }
  }

  lemma RefusedTogether(server: CommitOracle, lo: nat, mid: nat, hi: nat, a: seq<(FileItem, Error)>,
                        b: seq<(FileItem, Error)>)
    requires AllWereRefused(server, lo, mid, a) && AllWereRefused(server, mid, hi, b) && lo <= mid <= hi
    ensures AllWereRefused(server, lo, hi, a + b)
  {
    forall entry | entry in a + b ensures WasRefused(server, lo, hi, entry) {
      if entry in a {
        assert WasRefused(server, lo, mid, entry);
      } else {
        assert WasRefused(server, mid, hi, entry);
      }
    }
  }

  /** When every commit from lo on lands, nothing is given up. */
  lemma LandingGivesNothingUp(server: CommitOracle, lo: nat, hi: nat, failed: seq<(FileItem, Error)>)
    requires AllWereRefused(server, lo, hi, failed)
    ensures LandsFrom(server, lo) ==> failed == []
  {
    if failed != [] {
      assert WasRefused(server, lo, hi, failed[0]);
    }
  }

  /** What holds throughout a run: no commit had a dangling pointer or went beyond the limits, nothing lands but by a
      reply of the server, and the tracker calls a key committed only when the server has applied a commit with a file
      of that key. */
  ghost predicate Sound(server: HubServer, tracker: UploadTracker)
    reads server, tracker
  {
    && server.NeverDangled() && server.NeverTooBig() && server.LandsByReply()
    && tracker.CommittedKeys() <= server.Covered()
  }

  function BooksOf(server: HubServer, tracker: UploadTracker): Books
    reads server, tracker
  {
    Books(tracker.entries, server.landed)
  }

  lemma TwoAppends<T>(x: seq<T>, a: seq<T>, b: seq<T>)
    ensures (x + a) + b == x + (a + b)
  {
  }

  lemma HalvesSendable(server: HubServer, batch: seq<FileItem>, mid: nat)
    requires mid <= |batch| && server.Sendable(batch)
    ensures server.Sendable(batch[..mid]) && server.Sendable(batch[mid..])
  {
    HalvesAllowed(batch, mid, server.limits);
  }

  /** What the two halves do to the tracker, put together. */
  lemma HalvesKeep(batch: seq<FileItem>, l: seq<FileItem>, r: seq<FileItem>, a: Outcome, b: Outcome,
                   e0: Books, e1: Books, e2: Books)
    requires batch == l + r && Settled(a) == Items(l)
    requires Keeps(e0, e1, Items(l), a.committed) && Keeps(e1, e2, Items(r), b.committed)
    ensures Keeps(e0, e2, Items(batch), a.committed + b.committed)
  {
    ItemsAre(a.committed);
    ItemsConcat(l, r);
    KeepsTogether(e0, e1, e2, Items(l), a.committed, Items(r), b.committed);
  }

  lemma HalvesKeepTogether(server: CommitOracle, k: nat, batch: seq<FileItem>, e: Error, a: Outcome, b: Outcome,
                           e0: Books, e1: Books, e2: Books)
    requires |batch| > 1 && a == Recover(server, k, batch[..Half(|batch|)], e, false)
    requires Keeps(e0, e1, Items(batch[..Half(|batch|)]), a.committed)
    requires Keeps(e1, e2, Items(batch[Half(|batch|)..]), b.committed)
    ensures Keeps(e0, e2, Items(batch), a.committed + b.committed)
  {
    var l, r := batch[..Half(|batch|)], batch[Half(|batch|)..];
    assert batch == l + r;
    assert Settled(a) == Items(l) by {
      RecoverSettles(server, k, l, e, false);
    }
    HalvesKeep(batch, l, r, a, b, e0, e1, e2);
  }

  /** Sends one commit; if it lands, its files are marked in the tracker. */
  method SendAndMark(server: HubServer, tracker: UploadTracker, batch: seq<FileItem>) returns (reply: CommitReply)
    requires Sound(server, tracker) && server.Sendable(batch)
    modifies server`commitCalls, server`landed, server`sent, tracker
    ensures Sound(server, tracker) && old(server.landed) <= server.landed
    ensures reply == server.commits(old(server.commitCalls), batch) && server.commitCalls == old(server.commitCalls) + 1
    ensures reply.Landed? ==> Keeps(old(BooksOf(server, tracker)), BooksOf(server, tracker), multiset(batch), batch)
    ensures reply.Landed? ==> forall f | f in batch :: f in server.landed
    ensures reply.Refused? ==> tracker.entries == old(tracker.entries)
    ensures forall f | f in server.landed :: f in old(server.landed) || f in multiset(batch)
  {
    reply := server.CreateCommit(batch);
    if reply.Landed? {
      tracker.MarkCommittedBatch(batch);
    }
  }

  /** The lists that one commit-only recovery fills, and the services it works on. */
  class CommitOnly {
    const server: HubServer
    const tracker: UploadTracker
    var failures: seq<(FileItem, Error)>
    var committed: seq<FileItem>

    constructor (server: HubServer, tracker: UploadTracker)
      ensures this.server == server && this.tracker == tracker
      ensures failures == [] && committed == []
    {
      this.server, this.tracker := server, tracker;
      failures, committed := [], [];
    }

    method GiveUp(batch: seq<FileItem>, e: Error)
      modifies this, tracker
      ensures failures == old(failures) + Blame(batch, e) && committed == old(committed)
      ensures tracker.CommittedKeys() <= old(tracker.CommittedKeys())
      ensures Keeps(old(BooksOf(server, tracker)), BooksOf(server, tracker), Items(batch), [])
    {
      ItemsAre(batch);
      for i := 0 to |batch|
        invariant failures == old(failures) + Blame(batch[..i], e) && committed == old(committed)
        invariant tracker.CommittedKeys() <= old(tracker.CommittedKeys())
        invariant Spares(old(tracker.entries), tracker.entries, Items(batch))
      {
        ghost var entries := tracker.entries;
        tracker.MarkFailed(batch[i]);
        assert batch[i] in multiset(batch);
        SparesOne(old(tracker.entries), entries, tracker.entries, Items(batch), batch[i]);
        assert batch[..i + 1][..i] == batch[..i];
        failures := failures + [(batch[i], e)];
      }
      assert batch[..|batch|] == batch;
    }

    /** One commit; if it lands, its files are marked. */
    method Attempt(batch: seq<FileItem>) returns (reply: CommitReply)
      requires Sound(server, tracker) && server.Sendable(batch)
      modifies `committed, server`commitCalls, server`landed, server`sent, tracker
      ensures Sound(server, tracker) && old(server.landed) <= server.landed
      ensures reply == server.commits(old(server.commitCalls), batch)
      ensures server.commitCalls == old(server.commitCalls) + 1
      ensures committed == old(committed) + if reply.Landed? then batch else []
      ensures reply.Landed? ==> Keeps(old(BooksOf(server, tracker)), BooksOf(server, tracker), Items(batch), batch)
      ensures reply.Landed? ==> forall f | f in batch :: f in server.landed
      ensures reply.Refused? ==> tracker.entries == old(tracker.entries)
      ensures forall f | f in server.landed :: f in old(server.landed) || f in Items(batch)
    {
      ItemsAre(batch);
      reply := SendAndMark(server, tracker, batch);
      if reply.Landed? {
        committed := committed + batch;
      }
    }

    method CommitHalves(batch: seq<FileItem>, e: Error)
      requires |batch| > 1 && Sound(server, tracker) && server.Sendable(batch)
      modifies this, server`commitCalls, server`landed, server`sent, tracker
      ensures Sound(server, tracker) && server.store == old(server.store) && server.started == old(server.started)
      ensures old(server.landed) <= server.landed
      ensures var out := Halves(server.commits, old(server.commitCalls), batch, e);
        && committed == old(committed) + out.committed && failures == old(failures) + out.failed
        && server.commitCalls == old(server.commitCalls) + out.calls
        && (forall f | f in out.committed :: f in server.landed)
        && Keeps(old(BooksOf(server, tracker)), BooksOf(server, tracker), Items(batch), out.committed)
      decreases |batch|, 0
    {
      var midpoint := Half(|batch|);
      ghost var k, entries := server.commitCalls, BooksOf(server, tracker);
      ghost var l, r, a, b := HalvesAre(server.commits, k, batch, e);
      HalvesSendable(server, batch, midpoint);
      CommitBatch(batch[..midpoint], e, false);
      ghost var between := BooksOf(server, tracker);
      CommitBatch(batch[midpoint..], e, false);
      HalvesKeepTogether(server.commits, k, batch, e, a, b, entries, between, BooksOf(server, tracker));
      TwoAppends(old(committed), a.committed, b.committed);
      TwoAppends(old(failures), a.failed, b.failed);
    }

    method CommitBatch(batch: seq<FileItem>, prior: Error, splitBeforeAttempt: bool)
      requires Sound(server, tracker) && server.Sendable(batch)
      modifies this, server`commitCalls, server`landed, server`sent, tracker
      ensures Sound(server, tracker) && server.store == old(server.store) && server.started == old(server.started)
      ensures old(server.landed) <= server.landed
      ensures var out := Recover(server.commits, old(server.commitCalls), batch, prior, splitBeforeAttempt);
        && committed == old(committed) + out.committed && failures == old(failures) + out.failed
        && server.commitCalls == old(server.commitCalls) + out.calls
        && (forall f | f in out.committed :: f in server.landed)
        && Keeps(old(BooksOf(server, tracker)), BooksOf(server, tracker), Items(batch), out.committed)
      decreases |batch|, 3
    {
      if splitBeforeAttempt && prior.policy && |batch| > 1 {
        CommitHalves(batch, prior);
      } else {
        AttemptFirst(batch, prior, splitBeforeAttempt);
      }
    }

    /** The batch is sent, and dealt with by the reply. */
    method AttemptFirst(batch: seq<FileItem>, ghost prior: Error, ghost splitFirst: bool)
      requires Sound(server, tracker) && server.Sendable(batch) && !(splitFirst && prior.policy && |batch| > 1)
      modifies this, server`commitCalls, server`landed, server`sent, tracker
      ensures Sound(server, tracker) && server.store == old(server.store) && server.started == old(server.started)
      ensures old(server.landed) <= server.landed
      ensures var out := Recover(server.commits, old(server.commitCalls), batch, prior, splitFirst);
        && committed == old(committed) + out.committed && failures == old(failures) + out.failed
        && server.commitCalls == old(server.commitCalls) + out.calls
        && (forall f | f in out.committed :: f in server.landed)
        && Keeps(old(BooksOf(server, tracker)), BooksOf(server, tracker), Items(batch), out.committed)
      decreases |batch|, 2
    {
      ghost var before, k := BooksOf(server, tracker), server.commitCalls;
      ghost var out := Recover(server.commits, k, batch, prior, splitFirst);
      var reply := Attempt(batch);
      if reply.Landed? {
        assert out == Outcome(batch, [], 1) && failures == old(failures) + [];
      } else {
        ghost var rest := Refusal(server.commits, k + 1, batch, reply.error);
        assert out == rest.(calls := rest.calls + 1);
        ghost var between := BooksOf(server, tracker);
        AfterRefusal(batch, reply.error);
        LandedFirst(before, between, BooksOf(server, tracker), Items(batch), rest.committed);
      }
    }

    method AfterRefusal(batch: seq<FileItem>, e: Error)
      requires Sound(server, tracker) && server.Sendable(batch)
      modifies this, server`commitCalls, server`landed, server`sent, tracker
      ensures Sound(server, tracker) && server.store == old(server.store) && server.started == old(server.started)
      ensures old(server.landed) <= server.landed
      ensures var out := Refusal(server.commits, old(server.commitCalls), batch, e);
        && committed == old(committed) + out.committed && failures == old(failures) + out.failed
        && server.commitCalls == old(server.commitCalls) + out.calls
        && (forall f | f in out.committed :: f in server.landed)
        && Keeps(old(BooksOf(server, tracker)), BooksOf(server, tracker), Items(batch), out.committed)
      decreases |batch|, 1
    {
      if e.policy && |batch| > 1 {
        CommitHalves(batch, e);
      } else {
        GiveUp(batch, e);
      }
    }
  }

  function FlattenFiles(batches: seq<seq<FileItem>>): seq<FileItem> {
    if batches == [] then [] else FlattenFiles(batches[..|batches| - 1]) + batches[|batches| - 1]
  }

  lemma FlattenFilesSnoc(batches: seq<seq<FileItem>>, last: seq<FileItem>)
    ensures FlattenFiles(batches + [last]) == FlattenFiles(batches) + last
  {
    assert (batches + [last])[..|batches|] == batches;
  }

  lemma TakeMore(files: seq<FileItem>, lo: nat, hi: nat)
    requires lo <= hi <= |files|
    ensures files[..lo] + files[lo..hi] == files[..hi]
  {
  }

  method PlanCounts(results: seq<FileItem>, limits: Limits) returns (counts: seq<nat>)
    ensures BatchTracking.Sum(counts) == |results| && forall k | 0 <= k < |counts| :: counts[k] > 0
    ensures CountsFit(counts, results, PlannedCap(|results|, limits), limits.inlineBytes)
  {
    if results == [] {
      return [];
    }
    var operations := AdaptiveBatchSize(|results|, limits.maxOperations, limits.ceiling);
    counts := PlanCommitBatches(results, operations, limits.inlineBytes, limits.ceiling);
    ghost var w, cap := Weights(results), EffectiveCap(operations, |results|, limits.ceiling);
    ghost var plan :| CountsOf(counts, plan) && ValidPlan(plan, w, cap, limits.inlineBytes);
    CountsTile(counts, plan, w, cap, limits.inlineBytes);
    PlanFits(counts, plan, results, cap, limits.inlineBytes);
  }

  /** Apply the commit planner to files that are already uploaded: consecutive, non-empty commits, each within the
      action cap and the byte budget. */
  method PlanResultBatches(results: seq<FileItem>, limits: Limits) returns (batches: seq<seq<FileItem>>)
    ensures FlattenFiles(batches) == results
    ensures forall b | b in batches :: FitsCommit(b, PlannedCap(|results|, limits), limits.inlineBytes)
    ensures forall b | b in batches :: Allowed(b, limits)
  {
    var counts := PlanCounts(results, limits);
    batches := [];
    var offset := 0;
    assert counts[..|counts|] == counts;
    for k := 0 to |counts|
      invariant offset == BatchTracking.Start(counts, k) <= |results|
      invariant FlattenFiles(batches) == results[..offset]
      invariant forall b | b in batches ::
        FitsCommit(b, PlannedCap(|results|, limits), limits.inlineBytes) && Allowed(b, limits)
    {
      BatchTracking.StartStep(counts, k);
      var next := results[offset..offset + counts[k]];
      FlattenFilesSnoc(batches, next);
      TakeMore(results, offset, offset + counts[k]);
      PlannedIsAllowed(next, |results|, limits);
      batches := batches + [next];
      offset := offset + counts[k];
    }
  }

  /** The files of all failed batches, in order. */
  function FilesOfBatches(failed: seq<(seq<FileItem>, Error)>): seq<FileItem> {
    if failed == [] then [] else FilesOfBatches(failed[..|failed| - 1]) + failed[|failed| - 1].0
  }

  /** Retry the commits of batches whose files are uploaded.  Every file ends committed or given up, exactly once;
      a policy server loses exactly its bad files; no more than two commits are sent per file, and against a policy
      server no more than two for each of the `parts` planned and two per bad file and halving level. */
  method RetryFailedCommits(
    server: HubServer, tracker: UploadTracker, failed: seq<(seq<FileItem>, Error)>, limits: Limits)
    returns (failures: seq<(FileItem, Error)>, committed: seq<FileItem>, ghost parts: nat)
    requires Sound(server, tracker) && Backed(FilesOfBatches(failed), server.store) && server.limits == limits
    modifies server`commitCalls, server`landed, server`sent, tracker
    ensures Sound(server, tracker) && server.store == old(server.store) && server.started == old(server.started)
    ensures old(server.landed) <= server.landed && forall f | f in committed :: f in server.landed
    ensures multiset(committed) + multiset(FilesOf(failures)) == multiset(FilesOfBatches(failed))
    ensures forall bad: set<FileItem> | Bans(server.commits, bad) ::
      && committed == Choose(FilesOfBatches(failed), bad, false)
      && FilesOf(failures) == Choose(FilesOfBatches(failed), bad, true)
    ensures old(server.commitCalls) <= server.commitCalls
    ensures server.commitCalls <= old(server.commitCalls) + 2 * |FilesOfBatches(failed)|
    ensures parts <= |FilesOfBatches(failed)|
    ensures Cheap(server.commits, server.commitCalls - old(server.commitCalls), FilesOfBatches(failed), parts,
                  Depth(|FilesOfBatches(failed)|))
    ensures AllWereRefused(server.commits, old(server.commitCalls), server.commitCalls, failures)
    ensures LandsFrom(server.commits, old(server.commitCalls)) ==> failures == []
    ensures Keeps(old(BooksOf(server, tracker)), BooksOf(server, tracker), multiset(FilesOfBatches(failed)), committed)
  {
    var run := new CommitOnly(server, tracker);
    ghost var depth := Depth(|FilesOfBatches(failed)|);
    ghost var done: seq<FileItem>, calls, books := [], server.commitCalls, BooksOf(server, tracker);
    parts := 0;
    NothingKeeps(books, multiset(done));
    for i := 0 to |failed|
      invariant done == FilesOfBatches(failed[..i])
      invariant Sound(server, tracker) && server.store == old(server.store)
      invariant server.started == old(server.started)
      invariant old(server.landed) <= server.landed && forall f | f in run.committed :: f in server.landed
      invariant Settles(server.commits, calls, server.commitCalls, run.committed, run.failures, done)
      invariant Keeps(books, BooksOf(server, tracker), multiset(done), run.committed)
      invariant calls <= server.commitCalls <= calls + 2 * |done| && parts <= |done|
      invariant Cheap(server.commits, server.commitCalls - calls, done, parts, depth)
    {
      NextBatch(failed, i, done, server.store);
      ghost var more, before := 0, server.commitCalls;
      more := RetryBatch(run, failed[i].0, failed[i].1, limits, done, depth, books, calls);
      CheapTogether(server.commits, before - calls, done, parts, server.commitCalls - before, failed[i].0, more, depth);
      parts, done := parts + more, done + failed[i].0;
    }
    assert failed[..|failed|] == failed;
    failures, committed := run.failures, run.committed;
    LandingGivesNothingUp(server.commits, calls, server.commitCalls, failures);
  }

  lemma NextBatch(failed: seq<(seq<FileItem>, Error)>, i: nat, done: seq<FileItem>, store: set<Oid>)
    requires i < |failed| && done == FilesOfBatches(failed[..i]) && Backed(FilesOfBatches(failed), store)
    ensures FilesOfBatches(failed[..i + 1]) == done + failed[i].0 && Backed(failed[i].0, store)
    ensures Depth(|failed[i].0|) <= Depth(|FilesOfBatches(failed)|)
  {
    assert failed[..i + 1][..i] == failed[..i];
    PrefixBacked(failed, i + 1, store);
    PrefixShorter(failed, i + 1);
    DepthMonotone(|failed[i].0|, |FilesOfBatches(failed)|);
  }

  /** What a recovery may cost against a policy server: two commits per part, and two per bad file and level. */
  ghost predicate Cheap(server: CommitOracle, calls: int, files: seq<FileItem>, parts: nat, depth: nat) {
    forall bad: set<FileItem> | Bans(server, bad) :: calls <= 2 * parts + Price(|Choose(files, bad, true)|, depth)
  }

  lemma CheapTogether(server: CommitOracle, calls: int, files: seq<FileItem>, parts: nat,
                      moreCalls: int, more: seq<FileItem>, moreParts: nat, depth: nat)
    requires Cheap(server, calls, files, parts, depth) && Cheap(server, moreCalls, more, moreParts, depth)
    ensures Cheap(server, calls + moreCalls, files + more, parts + moreParts, depth)
  {
    forall bad: set<FileItem> | Bans(server, bad)
      ensures calls + moreCalls <= 2 * (parts + moreParts) + Price(|Choose(files + more, bad, true)|, depth)
    {
      ChooseConcat(files, more, bad, true);
      CostSum(|Choose(files, bad, true)|, |Choose(more, bad, true)|, depth, depth);
    }
  }

  lemma PartIsCheap(server: CommitOracle, k: nat, part: seq<FileItem>, prior: Error, depth: nat)
    requires part != [] && Depth(|part|) <= depth
    ensures Cheap(server, Recover(server, k, part, prior, true).calls, part, 1, depth)
  {
    forall bad: set<FileItem> | Bans(server, bad)
      ensures Recover(server, k, part, prior, true).calls <= 2 + Price(|Choose(part, bad, true)|, depth)
    {
      RecoverCost(server, bad, k, part, prior, true);
      PriceMonotone(|Choose(part, bad, true)|, Depth(|part|), depth);
    }
  }

  lemma {:induction false} PrefixShorter(failed: seq<(seq<FileItem>, Error)>, n: nat)
    requires n <= |failed|
    ensures |FilesOfBatches(failed[..n])| <= |FilesOfBatches(failed)|
    decreases |failed|
  {
    if n < |failed| {
      assert failed[..|failed| - 1][..n] == failed[..n];
      PrefixShorter(failed[..|failed| - 1], n);
    } else {
      assert failed[..n] == failed;
    }
  }

  lemma PartKeeps(server: CommitOracle, lo: nat, hi: nat, committed: seq<FileItem>, failures: seq<(FileItem, Error)>,
                  before: seq<FileItem>, part: seq<FileItem>, more: seq<FileItem>,
                  e0: Books, e1: Books, e2: Books)
    requires Settles(server, lo, hi, committed, failures, before)
    requires Keeps(e0, e1, multiset(before), committed) && Keeps(e1, e2, Items(part), more)
    ensures Keeps(e0, e2, multiset(before + part), committed + more)
  {
    ItemsAre(part);
    KeepsTogether(e0, e1, e2, multiset(before), committed, Items(part), more);
    assert multiset(before + part) == multiset(before) + multiset(part);
  }

  method RetryPart(run: CommitOnly, part: seq<FileItem>, prior: Error, ghost before: seq<FileItem>, ghost depth: nat,
                   ghost e0: Books, ghost lo: nat)
    requires Sound(run.server, run.tracker) && run.server.Sendable(part) && part != []
    requires Settles(run.server.commits, lo, run.server.commitCalls, run.committed, run.failures, before)
    requires Depth(|part|) <= depth && lo <= run.server.commitCalls
    requires forall f | f in run.committed :: f in run.server.landed
    requires Keeps(e0, BooksOf(run.server, run.tracker), multiset(before), run.committed)
    modifies run, run.server`commitCalls, run.server`landed, run.server`sent, run.tracker
    ensures Sound(run.server, run.tracker) && run.server.store == old(run.server.store)
    ensures run.server.started == old(run.server.started)
    ensures old(run.server.landed) <= run.server.landed && forall f | f in run.committed :: f in run.server.landed
    ensures Settles(run.server.commits, lo, run.server.commitCalls, run.committed, run.failures, before + part)
    ensures Keeps(e0, BooksOf(run.server, run.tracker), multiset(before + part), run.committed)
    ensures old(run.server.commitCalls) <= run.server.commitCalls <= old(run.server.commitCalls) + 2 * |part|
    ensures Cheap(run.server.commits, run.server.commitCalls - old(run.server.commitCalls), part, 1, depth)
  {
    ghost var calls, e1 := run.server.commitCalls, BooksOf(run.server, run.tracker);
    ghost var done, lost := run.committed, run.failures;
    ghost var out := Recover(run.server.commits, calls, part, prior, true);
    run.CommitBatch(part, prior, true);
    SettleStep(run.server.commits, lo, calls, done, lost, before, part, prior, depth, out, run.server.commitCalls,
               run.committed, run.failures);
    PartKeeps(run.server.commits, lo, calls, done, lost, before, part, out.committed, e0, e1,
              BooksOf(run.server, run.tracker));
  }

  /** One failed batch: plan it again, and recover each part. */
  method RetryBatch(run: CommitOnly, results: seq<FileItem>, prior: Error, limits: Limits,
                    ghost before: seq<FileItem>, ghost depth: nat, ghost e0: Books, ghost lo: nat)
    returns (ghost planned: nat)
    requires Sound(run.server, run.tracker) && Backed(results, run.server.store) && Depth(|results|) <= depth
    requires run.server.limits == limits
    requires Settles(run.server.commits, lo, run.server.commitCalls, run.committed, run.failures, before)
    requires lo <= run.server.commitCalls
    requires forall f | f in run.committed :: f in run.server.landed
    requires Keeps(e0, BooksOf(run.server, run.tracker), multiset(before), run.committed)
    modifies run, run.server`commitCalls, run.server`landed, run.server`sent, run.tracker
    ensures Sound(run.server, run.tracker) && run.server.store == old(run.server.store)
    ensures run.server.started == old(run.server.started)
    ensures old(run.server.landed) <= run.server.landed && forall f | f in run.committed :: f in run.server.landed
    ensures Settles(run.server.commits, lo, run.server.commitCalls, run.committed, run.failures, before + results)
    ensures Keeps(e0, BooksOf(run.server, run.tracker), multiset(before + results), run.committed)
    ensures old(run.server.commitCalls) <= run.server.commitCalls <= old(run.server.commitCalls) + 2 * |results|
    ensures planned <= |results|
    ensures Cheap(run.server.commits, run.server.commitCalls - old(run.server.commitCalls), results, planned, depth)
  {
    var server := run.server;
    var parts := PlanResultBatches(results, limits);
    assert parts[..0] == [] && before + [] == before;
    ghost var seen := before;
    for j := 0 to |parts|
      invariant Sound(server, run.tracker) && server.store == old(server.store)
      invariant server.started == old(server.started)
      invariant old(server.landed) <= server.landed && forall f | f in run.committed :: f in server.landed
      invariant seen == before + FlattenFiles(parts[..j])
      invariant Settles(server.commits, lo, server.commitCalls, run.committed, run.failures, seen)
      invariant Keeps(e0, BooksOf(run.server, run.tracker), multiset(seen), run.committed)
      invariant old(server.commitCalls) <= server.commitCalls
      invariant server.commitCalls <= old(server.commitCalls) + 2 * |FlattenFiles(parts[..j])|
      invariant j <= |FlattenFiles(parts[..j])|
      invariant Cheap(server.commits, server.commitCalls - old(server.commitCalls), FlattenFiles(parts[..j]), j, depth)
    {
      ghost var calls, done := server.commitCalls, FlattenFiles(parts[..j]);
      OneMorePart(before, parts, j);
      DepthMonotone(|parts[j]|, |results|);
      RetryPart(run, parts[j], prior, seen, depth, e0, lo);
      seen := seen + parts[j];
      CheapTogether(server.commits, calls - old(server.commitCalls), done, j, server.commitCalls - calls, parts[j], 1,
                    depth);
    }
    assert parts[..|parts|] == parts;
    planned := |parts|;
  }

  lemma OneMorePart(before: seq<FileItem>, parts: seq<seq<FileItem>>, j: nat)
    requires j < |parts|
    ensures parts[j] in parts
    ensures forall f | f in parts[j] :: f in FlattenFiles(parts)
    ensures |FlattenFiles(parts[..j + 1])| == |FlattenFiles(parts[..j])| + |parts[j]|
    ensures FlattenFiles(parts[..j + 1]) == FlattenFiles(parts[..j]) + parts[j] && |parts[j]| <= |FlattenFiles(parts)|
    ensures before + FlattenFiles(parts[..j]) + parts[j] == before + FlattenFiles(parts[..j + 1])
  {
    assert parts[..j + 1] == parts[..j] + [parts[j]];
    FlattenFilesSnoc(parts[..j], parts[j]);
    PartOf(parts, j);
  }

  /** The two lists settle the files: a partition, with a refused commit between lo and hi for each failure, and the
      exact partition when the server is a policy server. */
  ghost predicate Settles(server: CommitOracle, lo: nat, hi: nat, committed: seq<FileItem>,
                          failures: seq<(FileItem, Error)>, files: seq<FileItem>)
  {
    && AllWereRefused(server, lo, hi, failures)
    && multiset(committed) + multiset(FilesOf(failures)) == multiset(files)
    && forall bad: set<FileItem> | Bans(server, bad) ::
      committed == Choose(files, bad, false) && FilesOf(failures) == Choose(files, bad, true)
  }

  lemma SettleStep(server: CommitOracle, lo: nat, k: nat, committed: seq<FileItem>, failures: seq<(FileItem, Error)>,
                   files: seq<FileItem>, batch: seq<FileItem>, prior: Error, depth: nat, out: Outcome,
                   hi: nat, committed': seq<FileItem>, failures': seq<(FileItem, Error)>)
    requires Settles(server, lo, k, committed, failures, files) && batch != [] && lo <= k
    requires out == Recover(server, k, batch, prior, true) && Depth(|batch|) <= depth
    requires hi == k + out.calls && committed' == committed + out.committed && failures' == failures + out.failed
    ensures Settles(server, lo, hi, committed', failures', files + batch)
    ensures out.calls <= 2 * |batch| && Cheap(server, out.calls, batch, 1, depth)
  {
    PartIsCheap(server, k, batch, prior, depth);
    RecoverPartitions(server, k, batch, prior, true);
    RecoverCalls(server, k, batch, prior, true);
    GivenUpWasRefused(server, k, batch, prior, true);
    RefusedTogether(server, lo, k, k + out.calls, failures, out.failed);
    FilesOfConcat(failures, out.failed);
    forall bad: set<FileItem> | Bans(server, bad)
      ensures committed + out.committed == Choose(files + batch, bad, false)
      ensures FilesOf(failures + out.failed) == Choose(files + batch, bad, true)
    {
      RecoverSeparates(server, bad, k, batch, prior, true);
      ChooseConcat(files, batch, bad, false);
      ChooseConcat(files, batch, bad, true);
    }
  }

  lemma {:induction false} PrefixBacked(failed: seq<(seq<FileItem>, Error)>, n: nat, store: set<Oid>)
    requires n <= |failed| && Backed(FilesOfBatches(failed), store)
    ensures Backed(FilesOfBatches(failed[..n]), store)
    decreases |failed|
  {
    if n < |failed| {
      assert failed[..|failed| - 1][..n] == failed[..n];
      PrefixBacked(failed[..|failed| - 1], n, store);
    } else {
      assert failed[..n] == failed;
    }
  }

  lemma {:induction false} PartOf(parts: seq<seq<FileItem>>, j: nat)
    requires j < |parts|
    ensures |parts[j]| <= |FlattenFiles(parts)| && forall f | f in parts[j] :: f in FlattenFiles(parts)
    decreases |parts|
  {
    if j < |parts| - 1 {
      PartOf(parts[..|parts| - 1], j);
    }
  }
}
