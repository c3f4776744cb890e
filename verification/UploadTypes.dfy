/** Entities shared by the folder upload pipeline: files, error classes and the upload mode rule. */
module UploadTypes {

  type Oid = string

  /** What the tracker file goes by: the path in the repository with the modification time and the size of the local
      file.  The content is no part of it. */
  datatype Key = Key(path: string, mtime: int, size: nat)

  /** A local file as one upload run sees it.  The run is assumed not to race with edits of the file, so its
      time, its size and the digest it is handled by are fixed. */
  datatype FileItem = FileItem(
    path: string,          // path in the repository; unique within one run
    pathBytes: nat,        // length of the path in UTF-8
    mtime: int,            // modification time; only equality matters
    size: nat,
    inlineMetadata: bool,  // the name is one of the files the Hub parses server-side
    lfsSuffix: bool,       // the suffix is in the LFS list of the repository type
    threshold: int,        // size above which content is forced into LFS
    oid: Oid)              // SHA-256 of the content
  {
    function TrackedAs(): Key {
      Key(path, mtime, size)
    }

    /** Inline metadata never becomes a pointer; otherwise size, then suffix, decides. */
    predicate IsLfs() {
      !inlineMetadata && (size > threshold || lfsSuffix)
    }
  }

  /** Error classes that the retry code distinguishes.  `policy` is a commit refused by repository policy,
      which is the only kind that is worth splitting. */
  datatype Error = Error(policy: bool, retryable: bool)

  /** Answer to one commit, after the retries inside `_commit_with_retry`.  A commit whose answer was lost may
      have been applied all the same. */
  datatype CommitReply = Landed | Refused(error: Error, applied: bool)

  /** No path occurs twice: the file scan is keyed by path. */
  predicate Distinct(files: seq<FileItem>) {
    forall i, j | 0 <= i < j < |files| :: files[i].path != files[j].path
  }

  function FilesOf(failures: seq<(FileItem, Error)>): (files: seq<FileItem>)
    ensures |files| == |failures|
  {
    if failures == [] then [] else FilesOf(failures[..|failures| - 1]) + [failures[|failures| - 1].0]
  }

  lemma {:induction false} FilesOfConcat(a: seq<(FileItem, Error)>, b: seq<(FileItem, Error)>)
    ensures FilesOf(a + b) == FilesOf(a) + FilesOf(b)
  {
    if b == [] {
      assert a + b == a;
    } else {
      FilesOfConcat(a, b[..|b| - 1]);
      assert (a + b)[..|a + b| - 1] == a + b[..|b| - 1];
    }
  }

  /** The files of a failure list, each as often as it occurs. */
  function Bag(failures: seq<(FileItem, Error)>): multiset<FileItem> {
    if failures == [] then multiset{} else Bag(failures[..|failures| - 1]) + multiset{failures[|failures| - 1].0}
  }

  lemma {:induction false} BagOfFiles(failures: seq<(FileItem, Error)>)
    ensures Bag(failures) == multiset(FilesOf(failures))
  {
    if failures != [] {
      BagOfFiles(failures[..|failures| - 1]);
    }
  }

  lemma BagSnoc(a: seq<(FileItem, Error)>, item: (FileItem, Error))
    ensures Bag(a + [item]) == Bag(a) + multiset{item.0}
  {
    assert (a + [item])[..|a|] == a;
  }

  lemma Regroup<T>(x: multiset<T>, y: multiset<T>, z: multiset<T>)
    ensures x + (y + z) == (x + y) + z
    ensures (x + z) + y == (x + y) + z
  {
  }

  lemma {:induction false} BagConcat(a: seq<(FileItem, Error)>, b: seq<(FileItem, Error)>)
    ensures Bag(a + b) == Bag(a) + Bag(b)
  {
    if b == [] {
      assert a + b == a;
    } else {
      var n := |b| - 1;
      assert (a + b)[..|a + b| - 1] == a + b[..n];
      BagConcat(a, b[..n]);
      Regroup(Bag(a), Bag(b[..n]), multiset{b[n].0});
    }
  }

  lemma CutAt<T>(s: seq<T>, i: nat)
    requires i < |s|
    ensures s[..i + 1] == s[..i] + [s[i]] && s == s[..i + 1] + s[i + 1..]
  {
  }

  lemma BagWithout(rest: seq<(FileItem, Error)>, i: nat)
    requires i < |rest|
    ensures Bag(rest) == Bag(rest[..i] + rest[i + 1..]) + multiset{rest[i].0}
  {
    CutAt(rest, i);
    BagConcat(rest[..i + 1], rest[i + 1..]);
    BagSnoc(rest[..i], rest[i]);
    BagConcat(rest[..i], rest[i + 1..]);
    Regroup(Bag(rest[..i]), Bag(rest[i + 1..]), multiset{rest[i].0});
  }

  /** An item that is added to the whole may be added to either part. */
  lemma GrowPart(a: seq<(FileItem, Error)>, b: seq<(FileItem, Error)>, all: multiset<FileItem>,
                 item: (FileItem, Error))
    requires Bag(a) + Bag(b) == all
    ensures Bag(a + [item]) + Bag(b) == all + multiset{item.0}
    ensures Bag(a) + Bag(b + [item]) == all + multiset{item.0}
  {
    BagSnoc(a, item);
    BagSnoc(b, item);
    Regroup(Bag(a), Bag(b), multiset{item.0});
  }
}
