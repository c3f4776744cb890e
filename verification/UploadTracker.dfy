/** The tracker file of an uploaded folder, which survives the run, and what a piece of work does to it. */
module UploadTracking {
  import opened Options
  import opened UploadTypes

  datatype Status = Unmarked | InStorage | Committed | Unfinished

  /** What is kept about a key: the digest of the content, once it has been computed, and how far the upload got. */
  datatype Entry = Entry(digest: Option<Oid>, status: Status)

  type Entries = map<Key, Entry>

  function CommittedIn(entries: Entries): (keys: set<Key>)
    ensures forall k :: k in keys <==> k in entries && entries[k].status == Committed
  {
    set k | k in entries && entries[k].status == Committed
  }

  function DigestIn(entries: Entries, k: Key): Option<Oid> {
    if k in entries then entries[k].digest else None
  }

  /** The file as a run handles it: an LFS file goes by the digest that the tracker file has for its key, if there is
      one; the content of any other file travels inside the commit. */
  function SeenAs(entries: Entries, f: FileItem): (seen: FileItem)
    ensures seen == f.(oid := seen.oid) && seen.TrackedAs() == f.TrackedAs() && seen.IsLfs() == f.IsLfs()
    ensures seen.oid == f.oid || DigestIn(entries, f.TrackedAs()) == Some(seen.oid)
  {
    var digest := DigestIn(entries, f.TrackedAs());
    if f.IsLfs() && digest.Some? then f.(oid := digest.value) else f
  }

  function KeysOf(files: multiset<FileItem>): (keys: set<Key>)
    ensures forall f | f in files :: f.TrackedAs() in keys
    ensures forall k | k in keys :: exists f :: f in files && f.TrackedAs() == k
  {
    set f | f in files :: f.TrackedAs()
  }

  // ---- Before and after a piece of work ----------------------------------------------------------------------------

  /** The tracker entries, and the files that have landed in the run. */
  datatype Books = Books(entries: Entries, landed: set<FileItem>)

  ghost predicate Known(entries: Entries, files: multiset<FileItem>) {
    forall f | f in files :: f.TrackedAs() in entries
  }

  ghost predicate Remembers(entries: Entries, f: FileItem) {
    f.TrackedAs() in entries && entries[f.TrackedAs()].status == Committed
  }

  /** The tracker calls the keys of all these files committed. */
  ghost predicate Remembered(entries: Entries, files: seq<FileItem>) {
    forall f | f in files :: Remembers(entries, f)
  }

  /** A digest that was not there before is that of one of the files. */
  ghost predicate LearntFrom(before: Entries, after: Entries, files: multiset<FileItem>, k: Key) {
    DigestIn(after, k) == DigestIn(before, k)
      || exists f :: f in files && f.TrackedAs() == k && DigestIn(after, k) == Some(f.oid)
  }

  /** No key is forgotten, and only the keys of these files may have a new status or a new digest. */
  ghost predicate Spares(before: Entries, after: Entries, files: multiset<FileItem>) {
    && before.Keys <= after.Keys
    && (forall k | k in before && k !in KeysOf(files) :: after[k].status == before[k].status)
    && (forall k :: LearntFrom(before, after, files, k))
  }

  /** Each file once, and each key once. */
  ghost predicate Once(files: multiset<FileItem>) {
    && (forall f :: files[f] <= 1)
    && forall f, g {:trigger SameKey(f, g)} | f in files && g in files && SameKey(f, g) :: f == g
  }

  predicate SameKey(f: FileItem, g: FileItem) {
    f.TrackedAs() == g.TrackedAs()
  }

  /** What a piece of work on some files does: other keys keep their status, only these files land, and if it concerns
      known files, each once, then all that it reports as committed is remembered. */
  ghost predicate Keeps(before: Books, after: Books, files: multiset<FileItem>, committed: seq<FileItem>) {
    && Spares(before.entries, after.entries, files)
    && (forall f | f in after.landed :: f in before.landed || f in files)
    && (Once(files) && Known(before.entries, files) ==> Remembered(after.entries, committed))
  }

  lemma NothingKeeps(b: Books, files: multiset<FileItem>)
    ensures Keeps(b, b, files, [])
  {
  }

  lemma KeysOfParts(a: multiset<FileItem>, b: multiset<FileItem>)
    ensures KeysOf(a + b) == KeysOf(a) + KeysOf(b)
  {
  }

  lemma OncePart(all: multiset<FileItem>, a: multiset<FileItem>, b: multiset<FileItem>)
    requires Once(all) && all == a + b
    ensures Once(a) && Once(b) && forall f | f in a :: f !in b && f.TrackedAs() !in KeysOf(b)
  {
    forall f ensures all[f] == a[f] + b[f] {
    }
    forall f, g | f in a && g in b ensures !SameKey(f, g) {
      assert f in all && g in all && all[f] <= 1;
    }
    forall f | f in a ensures f.TrackedAs() !in KeysOf(b) {
      assert forall g | g in b :: !SameKey(f, g);
    }
  }

  lemma SparesMore(e0: Entries, e1: Entries, files: multiset<FileItem>, more: multiset<FileItem>)
    requires Spares(e0, e1, files) && forall f | f in files :: f in more
    ensures Spares(e0, e1, more)
  {
    forall k ensures LearntFrom(e0, e1, more, k) {
      assert LearntFrom(e0, e1, files, k);
    }
    forall k | k in KeysOf(files) ensures k in KeysOf(more) {
    }
  }

  lemma SparesTogether(e0: Entries, e1: Entries, e2: Entries, files: multiset<FileItem>)
    requires Spares(e0, e1, files) && Spares(e1, e2, files)
    ensures Spares(e0, e2, files)
  {
    forall k ensures LearntFrom(e0, e2, files, k) {
      assert LearntFrom(e0, e1, files, k) && LearntFrom(e1, e2, files, k);
    }
  }

  /** One more file of the ones that are worked on. */
  lemma SparesOne(e0: Entries, e1: Entries, e2: Entries, files: multiset<FileItem>, f: FileItem)
    requires Spares(e0, e1, files) && Spares(e1, e2, multiset{f}) && f in files
    ensures Spares(e0, e2, files)
  {
    SparesMore(e1, e2, multiset{f}, files);
    SparesTogether(e0, e1, e2, files);
  }

  /** Before the tracker was touched, only these files had landed. */
  lemma LandedFirst(b0: Books, b1: Books, b2: Books, files: multiset<FileItem>, committed: seq<FileItem>)
    requires b1.entries == b0.entries && forall f | f in b1.landed :: f in b0.landed || f in files
    requires Keeps(b1, b2, files, committed)
    ensures Keeps(b0, b2, files, committed)
  {
  }

  /** Work on other files leaves what is remembered. */
  lemma StillRemembered(e0: Entries, e1: Entries, files: multiset<FileItem>, committed: seq<FileItem>)
    requires Spares(e0, e1, files) && Remembered(e0, committed)
    requires forall f | f in committed :: f.TrackedAs() !in KeysOf(files)
    ensures Remembered(e1, committed)
  {
    forall f | f in committed ensures Remembers(e1, f) {
      assert Remembers(e0, f);
    }
  }

  lemma RememberedBoth(e: Entries, a: seq<FileItem>, b: seq<FileItem>)
    requires Remembered(e, a) && Remembered(e, b)
    ensures Remembered(e, a + b)
  {
  }

  lemma KnownLater(e0: Entries, e1: Entries, files: multiset<FileItem>, part: multiset<FileItem>)
    requires e0.Keys <= e1.Keys && Known(e0, files) && part <= files
    ensures Known(e1, part)
  {
  }

  /** Work on a part of the files after work on all of them, when nothing in that part was reported as committed. */
  lemma KeepsPart(b0: Books, b1: Books, b2: Books, all: multiset<FileItem>, c1: seq<FileItem>,
                  rest: multiset<FileItem>, part: multiset<FileItem>, c2: seq<FileItem>)
    requires Keeps(b0, b1, all, c1) && Keeps(b1, b2, part, c2) && multiset(c1) + rest + part == all
    ensures Keeps(b0, b2, all, c1 + c2)
  {
    SparesMore(b1.entries, b2.entries, part, all);
    SparesTogether(b0.entries, b1.entries, b2.entries, all);
    if Once(all) && Known(b0.entries, all) {
      OncePart(all, multiset(c1) + rest, part);
      KnownLater(b0.entries, b1.entries, all, part);
      forall f | f in c1 ensures f.TrackedAs() !in KeysOf(part) {
        assert f in multiset(c1) + rest;
      }
      StillRemembered(b1.entries, b2.entries, part, c1);
      RememberedBoth(b2.entries, c1, c2);
    }
  }

  lemma KeepsMore(b0: Books, b1: Books, files: multiset<FileItem>, committed: seq<FileItem>, more: multiset<FileItem>)
    requires Keeps(b0, b1, files, committed) && multiset(committed) <= files
    ensures Keeps(b0, b1, files + more, committed)
  {
    SparesMore(b0.entries, b1.entries, files, files + more);
    if Once(files + more) {
      OncePart(files + more, files, more);
    }
  }

  /** One piece of work after another. */
  lemma KeepsTogether(b0: Books, b1: Books, b2: Books, f1: multiset<FileItem>, c1: seq<FileItem>,
                      f2: multiset<FileItem>, c2: seq<FileItem>)
    requires Keeps(b0, b1, f1, c1) && Keeps(b1, b2, f2, c2) && multiset(c1) <= f1
    ensures Keeps(b0, b2, f1 + f2, c1 + c2)
  {
    KeepsMore(b0, b1, f1, c1, f2);
    assert multiset(c1) + (f1 - multiset(c1)) + f2 == f1 + f2;
    KeepsPart(b0, b1, b2, f1 + f2, c1, f1 - multiset(c1), f2, c2);
  }

  /** The entries with a new status for these keys, as far as they are known. */
  function Restated(entries: Entries, keys: set<Key>, status: Status): (marked: Entries)
    ensures marked.Keys == entries.Keys
    ensures forall k | k in entries :: marked[k] == if k in keys then entries[k].(status := status) else entries[k]
  {
    map k | k in entries :: if k in keys then entries[k].(status := status) else entries[k]
  }

  lemma RestatedOneMore(e: Entries, keys: set<Key>, k: Key, status: Status)
    ensures var marked := Restated(e, keys, status);
      Restated(e, keys + {k}, status) == if k in e then marked[k := marked[k].(status := status)] else marked
  {
  }

  lemma RestatedSpares(e: Entries, files: multiset<FileItem>, status: Status)
    ensures Spares(e, Restated(e, KeysOf(files), status), files)
  {
  }

  /** The resumable state of a folder. */
  class UploadTracker {
    var entries: Entries

    constructor (entries: Entries)
      ensures this.entries == entries
    {
      this.entries := entries;
    }

    /** What the tracker calls committed. */
    function CommittedKeys(): (keys: set<Key>)
      reads this
    {
      CommittedIn(entries)
    }

    method IsCommitted(f: FileItem) returns (committed: bool)
      ensures committed <==> f.TrackedAs() in CommittedKeys()
    {
      committed := f.TrackedAs() in entries && entries[f.TrackedAs()].status == Committed;
    }

    method GetHash(f: FileItem) returns (digest: Option<Oid>)
      ensures digest == DigestIn(entries, f.TrackedAs())
    {
      digest := if f.TrackedAs() in entries then entries[f.TrackedAs()].digest else None;
    }

    /** Remember the digest of a file, for this run and later ones; what is known about its upload stays. */
    method PutHash(f: FileItem)
      modifies this
      ensures entries.Keys == old(entries.Keys) + {f.TrackedAs()}
      ensures DigestIn(entries, f.TrackedAs()) == Some(f.oid)
      ensures forall k | k in old(entries) :: entries[k].status == old(entries)[k].status
      ensures forall k | k != f.TrackedAs() :: DigestIn(entries, k) == DigestIn(old(entries), k)
      ensures CommittedKeys() == old(CommittedKeys())
      ensures Spares(old(entries), entries, multiset{f})
    {
      var k := f.TrackedAs();
      entries := entries[k := Entry(Some(f.oid), if k in entries then entries[k].status else Unmarked)];
      assert f in multiset{f};
    }

    /** A later run forgets an old failure, never a commit or a digest. */
    method BeginAttempt(f: FileItem)
      modifies this
      ensures CommittedKeys() == old(CommittedKeys()) && entries.Keys == old(entries.Keys)
      ensures f.TrackedAs() in entries ==> entries[f.TrackedAs()].status != Unfinished
      ensures forall k | k in entries && k != f.TrackedAs() :: entries[k] == old(entries[k])
      ensures forall k :: DigestIn(entries, k) == DigestIn(old(entries), k)
      ensures Spares(old(entries), entries, multiset{f})
    {
      var k := f.TrackedAs();
      if k in entries && entries[k].status == Unfinished {
        entries := entries[k := entries[k].(status := Unmarked)];
      }
      assert f in multiset{f};
    }

    method Mark(k: Key, status: Status)
      requires k in entries
      modifies this
      ensures entries == old(entries)[k := old(entries)[k].(status := status)]
    {
      entries := entries[k := entries[k].(status := status)];
    }

    method MarkUploaded(files: seq<FileItem>)
      modifies this
      ensures entries == Restated(old(entries), KeysOf(multiset(files)), InStorage)
      ensures CommittedKeys() <= old(CommittedKeys())
      ensures Spares(old(entries), entries, multiset(files))
    {
      MarkAll(files, InStorage);
    }

    /** Only keys that the tracker knows become committed, and only those of this batch. */
    method MarkCommittedBatch(files: seq<FileItem>)
      modifies this
      ensures entries == Restated(old(entries), KeysOf(multiset(files)), Committed)
      ensures CommittedKeys() <= old(CommittedKeys()) + KeysOf(multiset(files))
      ensures Spares(old(entries), entries, multiset(files))
      ensures Known(old(entries), multiset(files)) ==> Remembered(entries, files)
    {
      MarkAll(files, Committed);
      forall f | f in files && Known(old(entries), multiset(files)) ensures Remembers(entries, f) {
        assert f in multiset(files);
      }
    }

    method MarkAll(files: seq<FileItem>, status: Status)
      modifies this
      ensures entries == Restated(old(entries), KeysOf(multiset(files)), status)
      ensures Spares(old(entries), entries, multiset(files))
    {
      for i := 0 to |files|
        invariant entries == Restated(old(entries), KeysOf(multiset(files[..i])), status)
      {
        NextKey(files, i);
        RestatedOneMore(old(entries), KeysOf(multiset(files[..i])), files[i].TrackedAs(), status);
        if files[i].TrackedAs() in entries {
          Mark(files[i].TrackedAs(), status);
        }
      }
      assert files[..|files|] == files;
      RestatedSpares(old(entries), multiset(files), status);
    }

    method MarkFailed(f: FileItem)
      modifies this
      ensures f.TrackedAs() in entries && entries[f.TrackedAs()].status == Unfinished
      ensures entries.Keys == old(entries.Keys) + {f.TrackedAs()}
      ensures forall k | k in old(entries) && k != f.TrackedAs() :: entries[k] == old(entries[k])
      ensures forall k :: DigestIn(entries, k) == DigestIn(old(entries), k)
      ensures CommittedKeys() <= old(CommittedKeys())
      ensures Spares(old(entries), entries, multiset{f})
    {
      var k := f.TrackedAs();
      entries := entries[k := Entry(if k in entries then entries[k].digest else None, Unfinished)];
      assert f in multiset{f};
    }
  }

  lemma NextKey(files: seq<FileItem>, i: nat)
    requires i < |files|
    ensures KeysOf(multiset(files[..i + 1])) == KeysOf(multiset(files[..i])) + {files[i].TrackedAs()}
  {
    assert files[..i + 1] == files[..i] + [files[i]];
    assert multiset(files[..i + 1]) == multiset(files[..i]) + multiset{files[i]};
    KeysOfParts(multiset(files[..i]), multiset{files[i]});
    assert KeysOf(multiset{files[i]}) == {files[i].TrackedAs()} by {
      assert files[i] in multiset{files[i]};
    }
  }
}
