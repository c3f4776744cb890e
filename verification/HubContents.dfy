/** What repeated uploads with one tracker file promise about the Hub, and for which folders they keep it. */
module HubContents {
  import opened Options
  import opened UploadTypes
  import opened HubServing
  import opened UploadTracking
  import opened CommitRecovery
  import opened PipelineSteps
  import opened FolderUpload
  import opened FolderHistory
  import Pipe = UploadPipeline

  // ---- What is skipped ---------------------------------------------------------------------------------------------

  ghost predicate Skipped(run: Run, f: FileItem) {
    exists g :: g in run.verdict.skipped && g.TrackedAs() == f.TrackedAs()
  }

  lemma KnownGrows(visits: seq<Visit>, runs: seq<Run>, known: seq<set<Key>>, q: nat, r: nat)
    requires History(visits, runs, known) && q <= r < |known|
    ensures known[q] <= known[r]
    decreases r - q
  {
    if q < r {
      assert Happened(visits, runs, known, q);
      KnownGrows(visits, runs, known, q + 1, r);
    }
  }

  lemma SeenAt(v: Visit, run: Run, i: nat)
    requires SameButDigests(v.files, run.seen) && i < |v.files|
    ensures run.seen[i] in run.seen && run.seen[i].TrackedAs() == v.files[i].TrackedAs()
  {
  }

  /** A file of a scan is skipped if and only if the tracker calls its key committed when the run starts. */
  lemma SkippedIffKnown(visits: seq<Visit>, runs: seq<Run>, known: seq<set<Key>>, r: nat, f: FileItem)
    requires History(visits, runs, known) && r < |runs| && f in visits[r].files
    ensures Skipped(runs[r], f) <==> f.TrackedAs() in known[r]
  {
    var run := runs[r];
    assert Happened(visits, runs, known, r);
    ChooseMembers(run.seen, KeyedIn(run.seen, known[r]), true);
    var i :| 0 <= i < |visits[r].files| && visits[r].files[i] == f;
    SeenAt(visits[r], run, i);
  }

  lemma CommittedIsKnown(visits: seq<Visit>, runs: seq<Run>, known: seq<set<Key>>, q: nat, r: nat, f: FileItem)
    requires History(visits, runs, known) && q < r < |known| && f in runs[q].verdict.committed
    ensures f.TrackedAs() in known[r]
  {
    assert Happened(visits, runs, known, q);
    KnownGrows(visits, runs, known, q + 1, r);
  }

  /** A file that a run reports as committed is skipped by every later run, as long as path, time and size stay. */
  lemma CommittedIsSkipped(visits: seq<Visit>, runs: seq<Run>, known: seq<set<Key>>, q: nat, r: nat, f: FileItem,
                           g: FileItem)
    requires History(visits, runs, known) && q < r < |runs|
    requires f in runs[q].verdict.committed && g in visits[r].files && g.TrackedAs() == f.TrackedAs()
    ensures Skipped(runs[r], g)
  {
    CommittedIsKnown(visits, runs, known, q, r, f);
    SkippedIffKnown(visits, runs, known, r, g);
  }

  lemma NewKeyHasLanded(v: Visit, run: Run, known: set<Key>, next: set<Key>, k: Key) returns (g: FileItem)
    requires Effect(v, run, known, next) && k in next && k !in known
    ensures g in run.landed && g.TrackedAs() == k
  {
    assert k in KeysOf(multiset(run.landed));
    g :| g in multiset(run.landed) && g.TrackedAs() == k;
  }

  /** A known key is that of a file that has landed in an earlier run. */
  lemma {:induction false} KnownHasLanded(
    visits: seq<Visit>, runs: seq<Run>, known: seq<set<Key>>, r: nat, k: Key) returns (q: nat, g: FileItem)
    requires History(visits, runs, known) && r < |known| && k in known[r]
    ensures q < r && g in runs[q].landed && g.TrackedAs() == k
  {
    if k in known[r - 1] {
      q, g := KnownHasLanded(visits, runs, known, r - 1, k);
    } else {
      q := r - 1;
      assert Happened(visits, runs, known, q);
      g := NewKeyHasLanded(visits[q], runs[q], known[q], known[q + 1], k);
    }
  }

  /** The content of the file has landed at its target in one of the first n runs. */
  ghost predicate LandedThere(visits: seq<Visit>, runs: seq<Run>, n: nat, target: string, f: FileItem) {
    exists q, g :: 0 <= q < n && q < |runs| && q < |visits| && g in runs[q].landed
      && visits[q].target == target && g.path == f.path && g.oid == f.oid
  }

  // ---- Keys that tell contents apart -------------------------------------------------------------------------------

  /** Two files of two scans with the same path, time and size, but not the same content or not the same target. */
  predicate Clash(visits: seq<Visit>, q: nat, r: nat, g: FileItem, f: FileItem) {
    && q < r < |visits| && g in visits[q].files && f in visits[r].files && g.TrackedAs() == f.TrackedAs()
    && (g.oid != f.oid || visits[q].target != visits[r].target)
  }

  predicate KeysTell(visits: seq<Visit>) {
    forall q, r, g, f | 0 <= q < r < |visits| && g in visits[q].files && f in visits[r].files ::
      !Clash(visits, q, r, g, f)
  }

  ghost predicate AllValid(visits: seq<Visit>) {
    forall v | v in visits :: v.Valid()
  }

  lemma SameKeySameOid(visits: seq<Visit>, q: nat, r: nat, g: FileItem, f: FileItem)
    requires AllValid(visits) && KeysTell(visits) && q < |visits| && r < |visits|
    requires g in visits[q].files && f in visits[r].files && g.TrackedAs() == f.TrackedAs()
    ensures g.oid == f.oid && visits[q].target == visits[r].target
  {
    if q < r {
      assert !Clash(visits, q, r, g, f);
    } else if r < q {
      assert !Clash(visits, r, q, f, g);
    } else {
      assert visits[q].Valid();
      DistinctKeys(visits[q].files, g, f);
    }
  }

  /** A file that no earlier scan has had under its key with another digest is handled by its own digest. */
  lemma SeenIsFile(visits: seq<Visit>, runs: seq<Run>, known: seq<set<Key>>, r: nat, f: FileItem)
    requires History(visits, runs, known) && AllValid(visits) && r < |runs| && f in runs[r].seen
    requires forall q, g | 0 <= q <= r && g in visits[q].files && g.TrackedAs() == f.TrackedAs() ::
      forall h | h in visits[r].files && h.TrackedAs() == f.TrackedAs() :: g.oid == h.oid
    ensures f in visits[r].files
  {
    assert Happened(visits, runs, known, r);
    var i :| 0 <= i < |runs[r].seen| && runs[r].seen[i] == f;
    var h := visits[r].files[i];
    assert h in visits[r].files && f == h.(oid := f.oid);
    assert Digested(visits, runs, r) && Had(visits, r + 1, f.TrackedAs(), f.oid);
  }

  /** When keys tell contents apart, the content of a skipped file has landed at its target. */
  lemma SkippedHasLanded(visits: seq<Visit>, runs: seq<Run>, known: seq<set<Key>>, r: nat, f: FileItem)
    requires History(visits, runs, known) && AllValid(visits) && KeysTell(visits)
    requires r < |runs| && f in visits[r].files && Skipped(runs[r], f)
    ensures LandedThere(visits, runs, r, visits[r].target, f)
  {
    SkippedIffKnown(visits, runs, known, r, f);
    var q, g := KnownHasLanded(visits, runs, known, r, f.TrackedAs());
    LandedIsFile(visits, runs, known, q, g);
    SameKeySameOid(visits, q, r, g, f);
  }

  lemma LandedIsFile(visits: seq<Visit>, runs: seq<Run>, known: seq<set<Key>>, q: nat, g: FileItem)
    requires History(visits, runs, known) && AllValid(visits) && KeysTell(visits)
    requires q < |runs| && g in runs[q].landed
    ensures g in visits[q].files
  {
    assert Happened(visits, runs, known, q) && Pending(runs[q].seen, known[q], g);
    forall p, h, x | 0 <= p <= q && h in visits[p].files && h.TrackedAs() == g.TrackedAs()
        && x in visits[q].files && x.TrackedAs() == g.TrackedAs()
      ensures h.oid == x.oid
    {
      SameKeySameOid(visits, p, q, h, x);
    }
    SeenIsFile(visits, runs, known, q, g);
  }

  // ---- What the Hub holds ------------------------------------------------------------------------------------------

  datatype Place = Place(target: string, path: string)

  /** The content at a place after one more run: commits first, then the deletion of orphans. */
  ghost function After(v: Visit, run: Run, at: Place, before: Option<Oid>): Option<Oid> {
    if v.target != at.target then before
    else if run.swept && v.Sweeps(at.path) then None
    else if exists f :: f in run.landed && f.path == at.path then
      var f :| f in run.landed && f.path == at.path;
      Some(f.oid)
    else before
  }

  /** The content at a place after n runs, when nobody else changes the repository. */
  ghost function ContentAt(start: map<Place, Oid>, visits: seq<Visit>, runs: seq<Run>, n: nat, at: Place): Option<Oid>
    requires n <= |runs| <= |visits|
  {
    if n == 0 then (if at in start then Some(start[at]) else None)
    else After(visits[n - 1], runs[n - 1], at, ContentAt(start, visits, runs, n - 1, at))
  }

  lemma LandsOnce(v: Visit, run: Run, known: set<Key>, next: set<Key>, f: FileItem, g: FileItem)
    requires Effect(v, run, known, next) && v.Valid() && f in run.seen && g in run.seen && f.path == g.path
    ensures f == g && f.path in v.local
  {
    var i :| 0 <= i < |run.seen| && run.seen[i] == f;
    var j :| 0 <= j < |run.seen| && run.seen[j] == g;
    assert v.files[i].path == v.files[j].path && v.files[i] in v.files;
  }

  lemma AfterLanding(v: Visit, run: Run, known: set<Key>, next: set<Key>, at: Place, before: Option<Oid>, f: FileItem)
    requires Effect(v, run, known, next) && v.Valid() && f in run.landed && at == Place(v.target, f.path)
    ensures After(v, run, at, before) == Some(f.oid)
  {
    assert Pending(run.seen, known, f);
    LandsOnce(v, run, known, next, f, f);
    forall g | g in run.landed && g.path == at.path ensures g == f {
      assert Pending(run.seen, known, g);
      LandsOnce(v, run, known, next, f, g);
    }
  }

  /** A scan disturbs a file of another scan by putting other content at its path, or by deleting it as an orphan. */
  predicate Disturbs(v: Visit, f: FileItem) {
    v.Sweeps(f.path) || exists h :: h in v.files && h.path == f.path && h.oid != f.oid
  }

  /** Between two scans that have the file under the same key, its place is left alone. */
  ghost predicate LeftAlone(visits: seq<Visit>, r: nat, q: nat, f: FileItem)
    requires r <= q < |visits|
  {
    forall s | r <= s < q && visits[s].target == visits[q].target :: !Disturbs(visits[s], f)
  }

  /** Whenever two scans have a file under the same path, time and size, both go to the same target, and no scan to that
      target puts other content there or deletes it, from the first of the two on until the second. */
  ghost predicate Stable(visits: seq<Visit>) {
    forall r, q, g, f | 0 <= r < q < |visits| && g in visits[r].files && f in visits[q].files
      && g.TrackedAs() == f.TrackedAs() :: visits[r].target == visits[q].target && LeftAlone(visits, r, q, f)
  }

  lemma StablePair(visits: seq<Visit>, q: nat, r: nat, g: FileItem, f: FileItem)
    requires Stable(visits) && q < r < |visits|
    requires g in visits[q].files && f in visits[r].files && g.TrackedAs() == f.TrackedAs()
    ensures g.oid == f.oid && visits[q].target == visits[r].target
  {
    assert LeftAlone(visits, q, r, f);
    assert !Disturbs(visits[q], f) && g.path == f.path;
  }

  lemma StableKeysTell(visits: seq<Visit>)
    requires Stable(visits)
    ensures KeysTell(visits)
  {
    forall q, r, g, f | 0 <= q < r < |visits| && g in visits[q].files && f in visits[r].files
      ensures !Clash(visits, q, r, g, f)
    {
      if Clash(visits, q, r, g, f) {
        StablePair(visits, q, r, g, f);
      }
    }
  }

  /** Only files of the scans land, with the contents that they have. */
  ghost predicate LandedAsScanned(visits: seq<Visit>, runs: seq<Run>) {
    && |runs| <= |visits| && AllValid(visits)
    && forall s, x | 0 <= s < |runs| && x in runs[s].landed :: x in visits[s].files
  }

  lemma AfterUndisturbed(v: Visit, run: Run, at: Place, before: Option<Oid>, f: FileItem)
    requires !Disturbs(v, f) && at.path == f.path && forall x | x in run.landed :: x in v.files
    requires before == Some(f.oid) || (v.target == at.target && exists g :: g in run.landed && g.path == f.path)
    ensures After(v, run, at, before) == Some(f.oid)
  {
  }

  /** From the run on in which it landed, content that is left alone stays. */
  lemma {:induction false} ContentStays(
    start: map<Place, Oid>, visits: seq<Visit>, runs: seq<Run>, r: nat, q: nat, n: nat, g: FileItem, f: FileItem)
    requires LandedAsScanned(visits, runs) && r < n <= q < |runs|
    requires g in runs[r].landed && g.path == f.path && g.oid == f.oid
    requires visits[r].target == visits[q].target && LeftAlone(visits, r, q, f)
    ensures ContentAt(start, visits, runs, n, Place(visits[q].target, f.path)) == Some(f.oid)
  {
    var s, at := n - 1, Place(visits[q].target, f.path);
    var before := ContentAt(start, visits, runs, s, at);
    if s > r {
      ContentStays(start, visits, runs, r, q, s, g, f);
    }
    if visits[s].target == at.target {
      AfterUndisturbed(visits[s], runs[s], at, before, f);
    }
  }

  /** When keys tell contents apart and places are left alone, the Hub holds the whole scan after every run that returns
      normally, skipped files included. */
  lemma ReturnedMeansHeld(start: map<Place, Oid>, visits: seq<Visit>, runs: seq<Run>, known: seq<set<Key>>, q: nat,
                          f: FileItem)
    requires History(visits, runs, known) && AllValid(visits) && Stable(visits)
    requires q < |runs| && runs[q].verdict.Returned? && f in visits[q].files
    ensures ContentAt(start, visits, runs, q + 1, Place(visits[q].target, f.path)) == Some(f.oid)
  {
    StableKeysTell(visits);
    var v, run, at := visits[q], runs[q], Place(visits[q].target, f.path);
    var before := ContentAt(start, visits, runs, q, at);
    assert Happened(visits, runs, known, q);
    SettledFile(visits, runs, known, q, f);
    if f in run.verdict.committed {
      AfterLanding(v, run, known[q], known[q + 1], at, before, f);
    } else {
      ChooseMembers(run.seen, KeyedIn(run.seen, known[q]), true);
      var r, g := KnownHasLanded(visits, runs, known, q, f.TrackedAs());
      LandedIsFile(visits, runs, known, r, g);
      SameKeySameOid(visits, r, q, g, f);
      assert LeftAlone(visits, r, q, f);
      forall s, x | 0 <= s < |runs| && x in runs[s].landed ensures x in visits[s].files {
        LandedIsFile(visits, runs, known, s, x);
      }
      ContentStays(start, visits, runs, r, q, q, g, f);
      SkippedStays(v, run, known[q], known[q + 1], at, before, f);
    }
  }

  /** A run that returns normally has skipped or committed each file of its scan. */
  lemma SettledFile(visits: seq<Visit>, runs: seq<Run>, known: seq<set<Key>>, q: nat, f: FileItem)
    requires History(visits, runs, known) && AllValid(visits) && KeysTell(visits)
    requires q < |runs| && runs[q].verdict.Returned? && f in visits[q].files
    ensures f in runs[q].seen && (f in runs[q].verdict.skipped || f in runs[q].verdict.committed)
  {
    var run := runs[q];
    assert Happened(visits, runs, known, q);
    var i :| 0 <= i < |visits[q].files| && visits[q].files[i] == f;
    var g := run.seen[i];
    assert g in run.seen;
    forall p, h, x | 0 <= p <= q && h in visits[p].files && h.TrackedAs() == g.TrackedAs()
        && x in visits[q].files && x.TrackedAs() == g.TrackedAs()
      ensures h.oid == x.oid
    {
      SameKeySameOid(visits, p, q, h, x);
    }
    SeenIsFile(visits, runs, known, q, g);
    assert visits[q].Valid();
    DistinctKeys(visits[q].files, f, g);
    SkippedOrCommitted(run, f);
  }

  lemma SkippedOrCommitted(run: Run, f: FileItem)
    requires run.verdict.Returned? && AddsUp(run.verdict, run.seen) && f in run.seen
    ensures f in run.verdict.skipped || f in run.verdict.committed
  {
    assert f in multiset(run.seen);
    assert f in multiset(run.verdict.skipped) || f in multiset(run.verdict.committed);
  }

  /** The run that skips a file leaves its place alone. */
  lemma SkippedStays(v: Visit, run: Run, known: set<Key>, next: set<Key>, at: Place, before: Option<Oid>, f: FileItem)
    requires Effect(v, run, known, next) && v.Valid() && f in run.seen && f.TrackedAs() in known
    requires at == Place(v.target, f.path)
    ensures After(v, run, at, before) == before
  {
    LandsOnce(v, run, known, next, f, f);
    forall g | g in run.landed ensures g.path != f.path {
      assert Pending(run.seen, known, g);
      if g.path == f.path {
        LandsOnce(v, run, known, next, f, g);
      }
    }
  }

  // ---- Folders for which the promise is broken ---------------------------------------------------------------------

  /** Nothing unusual: files can be hashed ahead, the server does not answer about blobs before they are uploaded, the
      committer is asked to go first, and failed workers may be tried again. */
  function Plain(): Circumstances {
    Circumstances(f => true, store => (k, group) => Pipe.GroupReply.Failed, turn => Pipe.Collect,
                  f => Error(false, true))
  }

  /** Everything succeeds on these days, and no commit lands on any other. */
  function GoodOn(good: set<nat>): nat -> Day {
    (r: nat) =>
      if r in good then Day((k, files) => Landed, (k, f) => Fine, Plain(), true)
      else Day((k, files) => Refused(Error(false, false), false), (k, f) => Fine, Plain(), false)
  }

  ghost predicate Usable(settings: Settings) {
    settings.maxAttempts >= 1 && settings.groupSize >= 1 && settings.Retries()
  }

  lemma DaysAre(settings: Settings, good: set<nat>, r: nat)
    requires Usable(settings)
    ensures Honest(GoodOn(good)(r).world)
    ensures r in good ==> GoodOn(good)(r).Good(settings) && GoodOn(good)(r).sweepLands
    ensures r !in good ==> AllRefused(GoodOn(good)(r).commits) && !GoodOn(good)(r).sweepLands
  {
  }

  /** What the days make of the runs. */
  ghost predicate Landings(visits: seq<Visit>, runs: seq<Run>, good: set<nat>) {
    && |runs| <= |visits|
    && (forall r | 0 <= r < |runs| && r in good && visits[r].files != [] ::
          runs[r].verdict.Returned? && (runs[r].swept <==> visits[r].sync))
    && (forall r | 0 <= r < |runs| && r !in good :: runs[r].landed == {} && !runs[r].swept)
  }

  method UploadOn(visits: seq<Visit>, settings: Settings, good: set<nat>, store: set<Oid>)
    returns (runs: seq<Run>, ghost known: seq<set<Key>>)
    requires Usable(settings) && AllValid(visits)
    ensures |runs| == |visits| && History(visits, runs, known) && Landings(visits, runs, good)
  {
    forall r: nat ensures Honest(GoodOn(good)(r).world) {
      DaysAre(settings, good, r);
    }
    ghost var sent;
    runs, known, sent := UploadRepeatedly(visits, settings, GoodOn(good), store);
    forall r: nat | r < |runs| ensures Shows(visits[r], runs[r], settings, GoodOn(good)(r)) {
      DaysAre(settings, good, r);
    }
    forall r: nat | r < |runs| && r in good && visits[r].files != []
      ensures runs[r].verdict.Returned? && (runs[r].swept <==> visits[r].sync)
    {
      DaysAre(settings, good, r);
    }
    forall r: nat | r < |runs| && r !in good ensures runs[r].landed == {} && !runs[r].swept {
      DaysAre(settings, good, r);
    }
  }

  predicate HasKey(v: Visit, k: Key) {
    exists g :: g in v.files && g.TrackedAs() == k
  }

  /** The first scan with a file under the key. */
  function First(visits: seq<Visit>, k: Key): (q: nat)
    requires exists v :: v in visits && HasKey(v, k)
    ensures q < |visits| && HasKey(visits[q], k) && forall p | 0 <= p < q :: !HasKey(visits[p], k)
  {
    if HasKey(visits[0], k) then 0
    else
      assert exists v :: v in visits[1..] && HasKey(v, k) by {
        var v :| v in visits && HasKey(v, k);
        assert v in visits[1..];
      }
      1 + First(visits[1..], k)
  }

  /** While nothing lands, no key becomes known. */
  lemma QuietKeepsKnown(visits: seq<Visit>, runs: seq<Run>, known: seq<set<Key>>, a: nat, b: nat)
    requires History(visits, runs, known) && a <= b < |known|
    requires forall r | a <= r < b :: runs[r].landed == {}
    ensures known[b] == known[a]
    decreases b - a
  {
    if a < b {
      assert Happened(visits, runs, known, b - 1);
      assert KeysOf(multiset(runs[b - 1].landed)) == {};
      QuietKeepsKnown(visits, runs, known, a, b - 1);
    }
  }

  /** A run that returns normally lands whatever it did not know. */
  lemma UnknownLands(visits: seq<Visit>, runs: seq<Run>, known: seq<set<Key>>, r: nat, f: FileItem)
    requires History(visits, runs, known) && r < |runs| && runs[r].verdict.Returned?
    requires f in runs[r].seen && f.TrackedAs() !in known[r]
    ensures f in runs[r].landed && f.TrackedAs() in known[r + 1]
  {
    assert Happened(visits, runs, known, r);
    SkippedOrCommitted(runs[r], f);
    ChooseMembers(runs[r].seen, KeyedIn(runs[r].seen, known[r]), true);
  }

  /** The run skips a file whose content has not landed at its target in any run. */
  ghost predicate SkipsUnlanded(visits: seq<Visit>, runs: seq<Run>, r: nat, f: FileItem) {
    && r < |runs| == |visits| && f in visits[r].files && Skipped(runs[r], f) && runs[r].verdict.Returned?
    && !LandedThere(visits, runs, |runs|, visits[r].target, f)
  }

  /** The digest by which a run handles a file is that of a file of this scan or an earlier one with the same key. */
  lemma DigestOf(visits: seq<Visit>, runs: seq<Run>, known: seq<set<Key>>, q: nat, i: nat) returns (p: nat, h: FileItem)
    requires History(visits, runs, known) && q < |runs| && i < |visits[q].files|
    ensures i < |runs[q].seen| && runs[q].seen[i] == visits[q].files[i].(oid := h.oid)
    ensures p <= q && h in visits[p].files && h.TrackedAs() == visits[q].files[i].TrackedAs()
  {
    assert Happened(visits, runs, known, q);
    var x := runs[q].seen[i];
    assert x in runs[q].seen && Digested(visits, runs, q);
    assert Had(visits, q + 1, x.TrackedAs(), x.oid);
    p, h :| p < q + 1 && p < |visits| && h in visits[p].files && h.TrackedAs() == x.TrackedAs() && h.oid == x.oid;
  }

  /** The first file with its key is handled by its own digest. */
  lemma FirstGoesByItsOwn(visits: seq<Visit>, runs: seq<Run>, known: seq<set<Key>>, q: nat, g: FileItem)
    requires History(visits, runs, known) && AllValid(visits) && q < |runs| && g in visits[q].files
    requires forall p | 0 <= p < q :: !HasKey(visits[p], g.TrackedAs())
    ensures g in runs[q].seen
  {
    var i :| 0 <= i < |visits[q].files| && visits[q].files[i] == g;
    var p, h := DigestOf(visits, runs, known, q, i);
    assert HasKey(visits[p], g.TrackedAs());
    assert visits[q].Valid();
    DistinctKeys(visits[q].files, g, h);
  }

  /** A file under a new key is uploaded, even if it was only touched and its content is on the Hub already. */
  lemma TouchedIsUploaded(visits: seq<Visit>, runs: seq<Run>, known: seq<set<Key>>, r: nat, f: FileItem)
    requires History(visits, runs, known) && AllValid(visits) && r < |runs| && f in visits[r].files
    requires forall p | 0 <= p < r :: !HasKey(visits[p], f.TrackedAs())
    ensures !Skipped(runs[r], f) && (runs[r].verdict.Returned? ==> f in runs[r].verdict.committed)
  {
    SkippedIffKnown(visits, runs, known, r, f);
    if f.TrackedAs() in known[r] {
      var q, g := KnownHasLanded(visits, runs, known, r, f.TrackedAs());
      assert Happened(visits, runs, known, q) && Pending(runs[q].seen, known[q], g);
      var i :| 0 <= i < |runs[q].seen| && runs[q].seen[i] == g;
      SeenAt(visits[q], runs[q], i);
      assert HasKey(visits[q], f.TrackedAs());
    }
    FirstGoesByItsOwn(visits, runs, known, r, f);
    if runs[r].verdict.Returned? {
      assert Happened(visits, runs, known, r);
      SkippedOrCommitted(runs[r], f);
    }
  }

  /** Nothing lands at the path of a skipped file. */
  lemma NothingLandsAtSkipped(visits: seq<Visit>, runs: seq<Run>, known: seq<set<Key>>, r: nat, f: FileItem,
                              x: FileItem)
    requires History(visits, runs, known) && AllValid(visits) && r < |runs|
    requires f in visits[r].files && f.TrackedAs() in known[r] && x in runs[r].landed
    ensures x.path != f.path
  {
    assert Happened(visits, runs, known, r) && Pending(runs[r].seen, known[r], x);
    var i :| 0 <= i < |visits[r].files| && visits[r].files[i] == f;
    SeenAt(visits[r], runs[r], i);
    if x.path == f.path {
      LandsOnce(visits[r], runs[r], known[r], known[r + 1], x, runs[r].seen[i]);
    }
  }

  /** Two files of one run with the same path are the same. */
  lemma LandedAtPath(visits: seq<Visit>, runs: seq<Run>, known: seq<set<Key>>, q: nat, g: FileItem, x: FileItem)
    requires History(visits, runs, known) && AllValid(visits) && q < |runs|
    requires g in runs[q].landed && x in runs[q].landed && g.path == x.path
    ensures g == x
  {
    assert Happened(visits, runs, known, q);
    assert Pending(runs[q].seen, known[q], g) && Pending(runs[q].seen, known[q], x);
    LandsOnce(visits[q], runs[q], known[q], known[q + 1], g, x);
  }

  /** When everything goes well in run q, and after that only in run r, the later file is skipped. */
  lemma ClashSkips(visits: seq<Visit>, runs: seq<Run>, known: seq<set<Key>>, q: nat, r: nat, g: FileItem, f: FileItem)
    requires History(visits, runs, known) && AllValid(visits) && |runs| == |visits|
    requires Landings(visits, runs, {q, r}) && Clash(visits, q, r, g, f)
    requires forall p | 0 <= p < q :: !HasKey(visits[p], f.TrackedAs())
    ensures SkipsUnlanded(visits, runs, r, f)
  {
    QuietKeepsKnown(visits, runs, known, 0, q);
    FirstGoesByItsOwn(visits, runs, known, q, g);
    UnknownLands(visits, runs, known, q, g);
    KnownGrows(visits, runs, known, q + 1, r);
    SkippedIffKnown(visits, runs, known, r, f);
    forall p, x | 0 <= p < |runs| && x in runs[p].landed && visits[p].target == visits[r].target && x.path == f.path
      ensures x.oid != f.oid
    {
      ClashLandings(visits, runs, known, q, r, g, f, p, x);
    }
  }

  lemma ClashLandings(visits: seq<Visit>, runs: seq<Run>, known: seq<set<Key>>, q: nat, r: nat, g: FileItem,
                      f: FileItem, p: nat, x: FileItem)
    requires History(visits, runs, known) && AllValid(visits) && |runs| == |visits|
    requires Landings(visits, runs, {q, r}) && Clash(visits, q, r, g, f)
    requires f.TrackedAs() in known[r] && g in runs[q].landed
    requires p < |runs| && x in runs[p].landed && visits[p].target == visits[r].target && x.path == f.path
    ensures x.oid != f.oid
  {
    assert p in {q, r};
    if p == q {
      LandedAtPath(visits, runs, known, q, g, x);
    } else {
      NothingLandsAtSkipped(visits, runs, known, r, f, x);
    }
  }

  /** If two scans have a file with the same path, time and size, but other content or another target, then there are
      days on which a run skips a file that has never landed there, and returns normally. */
  method SkipsWhatNeverLanded(visits: seq<Visit>, settings: Settings, store: set<Oid>)
    returns (runs: seq<Run>, ghost known: seq<set<Key>>, ghost r: nat, ghost f: FileItem)
    requires Usable(settings) && AllValid(visits) && !KeysTell(visits)
    ensures History(visits, runs, known) && SkipsUnlanded(visits, runs, r, f)
  {
    var q1: nat, r1: nat, g1, f1 :| q1 < r1 < |visits| && g1 in visits[q1].files && f1 in visits[r1].files
      && Clash(visits, q1, r1, g1, f1);
    var key := f1.TrackedAs();
    assert HasKey(visits[r1], key) && HasKey(visits[q1], key);
    var q := First(visits, key);
    var g :| g in visits[q].files && g.TrackedAs() == key;
    var later := if Clash(visits, q, r1, g, f1) then r1 else q1;
    r, f := later, if Clash(visits, q, r1, g, f1) then f1 else g1;
    FirstClashes(visits, q, g, q1, r1, g1, f1);
    runs, known := UploadOn(visits, settings, {q, later}, store);
    ClashSkips(visits, runs, known, q, r, g, f);
  }

  /** Of two files that clash, one clashes with the first file of that key. */
  lemma FirstClashes(visits: seq<Visit>, q: nat, g: FileItem, q1: nat, r1: nat, g1: FileItem, f1: FileItem)
    requires AllValid(visits) && Clash(visits, q1, r1, g1, f1) && q < |visits|
    requires g in visits[q].files && g.TrackedAs() == f1.TrackedAs()
    requires forall p | 0 <= p < q :: !HasKey(visits[p], f1.TrackedAs())
    ensures Clash(visits, q, r1, g, f1) || Clash(visits, q, q1, g, g1)
  {
    assert HasKey(visits[q1], f1.TrackedAs());
    if q == q1 {
      assert visits[q].Valid();
      DistinctKeys(visits[q].files, g, g1);
    }
  }

  /** Content that has not landed is not held. */
  lemma {:induction false} UnlandedIsNotHeld(
    visits: seq<Visit>, runs: seq<Run>, n: nat, target: string, f: FileItem)
    requires n <= |runs| <= |visits| && !LandedThere(visits, runs, n, target, f)
    ensures ContentAt(map[], visits, runs, n, Place(target, f.path)) != Some(f.oid)
  {
    if n > 0 {
      assert !LandedThere(visits, runs, n - 1, target, f);
      UnlandedIsNotHeld(visits, runs, n - 1, target, f);
    }
  }

  // ---- Places that are not left alone ------------------------------------------------------------------------------

  /** Two scans have a file under the same key, and one in between disturbs it. */
  predicate Upset(visits: seq<Visit>, r: nat, s: nat, q: nat, g: FileItem, f: FileItem) {
    && r <= s < q < |visits| && g in visits[r].files && f in visits[q].files && g.TrackedAs() == f.TrackedAs()
    && visits[s].target == visits[q].target && Disturbs(visits[s], f)
  }

  lemma SomeUpset(visits: seq<Visit>)
    requires KeysTell(visits) && !Stable(visits)
    ensures exists r: nat, s: nat, q: nat, g, f :: Upset(visits, r, s, q, g, f)
  {
    var r, q, g, f :| 0 <= r < q < |visits| && g in visits[r].files && f in visits[q].files
      && g.TrackedAs() == f.TrackedAs() && !(visits[r].target == visits[q].target && LeftAlone(visits, r, q, f));
    assert !Clash(visits, r, q, g, f);
    var s :| r <= s < q && visits[s].target == visits[q].target && Disturbs(visits[s], f);
    assert Upset(visits, r, s, q, g, f);
  }

  /** A scan does not disturb its own files. */
  lemma NotByItself(v: Visit, g: FileItem, f: FileItem)
    requires v.Valid() && g in v.files && g.path == f.path && g.oid == f.oid
    ensures !Disturbs(v, f)
  {
    var i :| 0 <= i < |v.files| && v.files[i] == g;
    forall h | h in v.files && h.path == f.path ensures h == g {
      var j :| 0 <= j < |v.files| && v.files[j] == h;
    }
  }

  /** While nothing lands and nothing is deleted, contents stay. */
  lemma {:induction false} QuietKeepsContent(
    start: map<Place, Oid>, visits: seq<Visit>, runs: seq<Run>, a: nat, b: nat, at: Place)
    requires a <= b <= |runs| <= |visits|
    requires forall r | a <= r < b :: runs[r].landed == {} && !runs[r].swept
    ensures ContentAt(start, visits, runs, b, at) == ContentAt(start, visits, runs, a, at)
    decreases b - a
  {
    if a < b {
      QuietKeepsContent(start, visits, runs, a, b - 1, at);
    }
  }

  /** A file whose key is not known lands when its run returns normally. */
  lemma FirstLands(visits: seq<Visit>, runs: seq<Run>, known: seq<set<Key>>, r: nat, g: FileItem)
    requires History(visits, runs, known) && AllValid(visits) && KeysTell(visits) && r < |runs|
    requires runs[r].verdict.Returned? && g in visits[r].files && g.TrackedAs() !in known[r]
    ensures g in runs[r].landed && g.TrackedAs() in known[r + 1]
  {
    SettledFile(visits, runs, known, r, g);
    UnknownLands(visits, runs, known, r, g);
  }

  /** A path whose only landing so far was in run r is known by no other key. */
  lemma OtherKeyUnknown(visits: seq<Visit>, runs: seq<Run>, known: seq<set<Key>>, r: nat, s: nat, g: FileItem,
                        h: FileItem)
    requires History(visits, runs, known) && AllValid(visits) && KeysTell(visits) && r < s < |runs|
    requires known[r] == {} && known[s] == known[r + 1] && g in runs[r].landed && g in visits[r].files
    requires h in visits[s].files && h.path == g.path && h.oid != g.oid
    ensures h.TrackedAs() !in known[s]
  {
    if h.TrackedAs() in known[s] {
      assert Happened(visits, runs, known, r);
      var x := NewKeyHasLanded(visits[r], runs[r], known[r], known[r + 1], h.TrackedAs());
      LandedAtPath(visits, runs, known, r, g, x);
      SameKeySameOid(visits, r, s, g, h);
    }
  }

  /** What run s leaves at the place is not the content of the file. */
  lemma UpsetPlace(start: map<Place, Oid>, visits: seq<Visit>, runs: seq<Run>, known: seq<set<Key>>, r: nat, s: nat,
                   g: FileItem, f: FileItem)
    requires History(visits, runs, known) && AllValid(visits) && KeysTell(visits) && r < s < |runs| == |visits|
    requires known[r] == {} && known[s] == known[r + 1] && g in runs[r].landed && g in visits[r].files
    requires f.path == g.path && f.oid == g.oid && Disturbs(visits[s], f) && visits[s].files != []
    requires runs[s].verdict.Returned? && (runs[s].swept <==> visits[s].sync)
    ensures ContentAt(start, visits, runs, s + 1, Place(visits[s].target, f.path)) != Some(f.oid)
  {
    var at := Place(visits[s].target, f.path);
    if !visits[s].Sweeps(f.path) {
      var h :| h in visits[s].files && h.path == f.path && h.oid != f.oid;
      OtherKeyUnknown(visits, runs, known, r, s, g, h);
      FirstLands(visits, runs, known, s, h);
      assert Happened(visits, runs, known, s);
      AfterLanding(visits[s], runs[s], known[s], known[s + 1], at, ContentAt(start, visits, runs, s, at), h);
    }
  }

  /** When everything goes well in the three runs and nothing lands in the others, the third run leaves the file out,
      and what the second put or deleted at its place stays. */
  lemma UpsetLoses(start: map<Place, Oid>, visits: seq<Visit>, runs: seq<Run>, known: seq<set<Key>>, r: nat, s: nat,
                   q: nat, g: FileItem, f: FileItem)
    requires History(visits, runs, known) && AllValid(visits) && KeysTell(visits) && |runs| == |visits|
    requires Landings(visits, runs, {r, s, q}) && Upset(visits, r, s, q, g, f)
    ensures runs[q].verdict.Returned?
    ensures ContentAt(start, visits, runs, q + 1, Place(visits[q].target, f.path)) != Some(f.oid)
  {
    var at := Place(visits[q].target, f.path);
    SameKeySameOid(visits, r, q, g, f);
    assert visits[r].Valid();
    NotByItself(visits[r], g, f);
    QuietKeepsKnown(visits, runs, known, 0, r);
    FirstLands(visits, runs, known, r, g);
    QuietKeepsKnown(visits, runs, known, r + 1, s);
    UpsetPlace(start, visits, runs, known, r, s, g, f);
    QuietKeepsContent(start, visits, runs, s + 1, q, at);
    KnownGrows(visits, runs, known, r + 1, q);
    SettledFile(visits, runs, known, q, f);
    assert Happened(visits, runs, known, q);
    SkippedStays(visits[q], runs[q], known[q], known[q + 1], at, ContentAt(start, visits, runs, q, at), f);
  }

  /** Keys tell contents apart, but some place is not left alone: there are days on which a run returns normally and the
      Hub does not hold a file of its scan. */
  method LosesWhatHadLanded(visits: seq<Visit>, settings: Settings, store: set<Oid>)
    returns (runs: seq<Run>, ghost known: seq<set<Key>>, ghost q: nat, ghost f: FileItem)
    requires Usable(settings) && AllValid(visits) && KeysTell(visits) && !Stable(visits)
    ensures History(visits, runs, known) && LacksFile(visits, runs, q, f)
  {
    SomeUpset(visits);
    var r: nat, s: nat, q1: nat, g, f1 :| r <= s < q1 < |visits| && g in visits[r].files && f1 in visits[q1].files
      && Upset(visits, r, s, q1, g, f1);
    runs, known := UploadOn(visits, settings, {r, s, q1}, store);
    q, f := q1, f1;
    UpsetLoses(map[], visits, runs, known, r, s, q, g, f);
  }

  /** The run returns normally, and the Hub, empty at first, does not hold the file of its scan. */
  ghost predicate LacksFile(visits: seq<Visit>, runs: seq<Run>, q: nat, f: FileItem) {
    && q < |runs| == |visits| && f in visits[q].files && runs[q].verdict.Returned?
    && ContentAt(map[], visits, runs, q + 1, Place(visits[q].target, f.path)) != Some(f.oid)
  }

  /** The condition of `ReturnedMeansHeld` is exact: for scans that do not meet it there are days on which a run returns
      normally although the Hub lacks a file of its scan. */
  method UnstableScansLoseAFile(visits: seq<Visit>, settings: Settings, store: set<Oid>)
    returns (runs: seq<Run>, ghost known: seq<set<Key>>, ghost q: nat, ghost f: FileItem)
    requires Usable(settings) && AllValid(visits) && !Stable(visits)
    ensures History(visits, runs, known) && LacksFile(visits, runs, q, f)
  {
    if KeysTell(visits) {
      runs, known, q, f := LosesWhatHadLanded(visits, settings, store);
    } else {
      runs, known, q, f := SkipsWhatNeverLanded(visits, settings, store);
      assert !LandedThere(visits, runs, q + 1, visits[q].target, f);
      UnlandedIsNotHeld(visits, runs, q + 1, visits[q].target, f);
    }
  }
}
