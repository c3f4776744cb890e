/** The Hub as one upload run meets it. */
module HubServing {
  import opened CommitPlanner
  import opened UploadTypes

  /** The reply may depend on how many commits were sent before and on the files: any server is one of these. */
  type CommitOracle = (nat, seq<FileItem>) -> CommitReply

  /** One attempt to move a file's content: a local check may fail (the file changed or cannot be read), the
      negotiation may fail, and the transfer may fail with or without leaving the blob behind. */
  datatype Attempt =
    | Unreadable(error: Error)
    | NoNegotiation(error: Error)
    | Broken(error: Error, stored: bool)
    | Fine

  type UploadOracle = (nat, FileItem) -> Attempt

  datatype SentCommit = SentCommit(files: seq<FileItem>, store: set<Oid>)

  /** Every pointer in the commit names a stored blob. */
  ghost predicate Backed(files: seq<FileItem>, store: set<Oid>) {
    forall f | f in files && f.IsLfs() :: f.oid in store
  }

  datatype Upload = Uploaded | Failed(error: Error)

  /** Every attempt to upload from number n on succeeds. */
  ghost predicate FineFrom(uploads: UploadOracle, n: nat) {
    forall k: nat, f | k >= n :: uploads(k, f) == Fine
  }

  /** The attempt failed, and another one may succeed. */
  predicate Transient(attempt: Attempt) {
    (attempt.NoNegotiation? || attempt.Broken?) && attempt.error.retryable
  }

  /** One of the attempts from lo on and before hi failed with this error. */
  ghost predicate Met(uploads: UploadOracle, lo: nat, hi: nat, f: FileItem, e: Error) {
    exists k: nat :: lo <= k < hi && !uploads(k, f).Fine? && uploads(k, f).error == e
  }

  /** Every commit from number n on lands. */
  ghost predicate LandsFrom(commits: CommitOracle, n: nat) {
    forall k: nat, files | k >= n :: commits(k, files) == Landed
  }

  /** Commit number k may be refused, finally or for now. */
  ghost predicate MayRefuse(commits: CommitOracle, k: nat, retryable: bool) {
    exists files :: commits(k, files).Refused? && commits(k, files).error.retryable == retryable
  }

  /** No commit from lo on and before hi is refused for good. */
  ghost predicate OnlyTransient(commits: CommitOracle, lo: nat, hi: nat) {
    forall k: nat {:trigger MayRefuse(commits, k, false)} | lo <= k < hi :: !MayRefuse(commits, k, false)
  }

  ghost predicate Refusable(commits: CommitOracle, k: nat) {
    MayRefuse(commits, k, true) || MayRefuse(commits, k, false)
  }

  /** The last n of the commits before hi may all have been refused. */
  ghost predicate InARow(commits: CommitOracle, hi: nat, n: nat) {
    n <= hi && forall k: nat {:trigger Refusable(commits, k)} | hi - n <= k < hi :: Refusable(commits, k)
  }

  lemma RowGoesOn(commits: CommitOracle, hi: nat, n: nat, reply: CommitReply)
    requires InARow(commits, hi, n) && (reply.Refused? ==> MayRefuse(commits, hi, reply.error.retryable))
    ensures InARow(commits, hi + 1, if reply.Landed? then 0 else n + 1)
  {
    if reply.Refused? {
      assert Refusable(commits, hi);
    }
  }

  /** A server that applies no commit at all. */
  ghost predicate AllRefused(commits: CommitOracle) {
    forall k, files :: commits(k, files).Refused? && !commits(k, files).applied
  }

  /** Some commit with the file is applied, whether the client learns of it or not. */
  ghost predicate MayLand(commits: CommitOracle, f: FileItem) {
    exists k: nat, files :: f in files && (commits(k, files).Landed? || commits(k, files).applied)
  }

  /** What becomes of a file whose content travels inside the commit: it only has to be readable. */
  function Read(attempt: Attempt): Upload {
    if attempt.Unreadable? then Failed(attempt.error) else Uploaded
  }

  class HubServer {
    const commits: CommitOracle
    const uploads: UploadOracle
    var commitCalls: nat
    var uploadCalls: nat
    var store: set<Oid>
    var landed: set<FileItem>          // files of the commits of this run that the server has applied
    ghost const earlier: set<Key>      // what earlier runs over the same tracker file have committed
    ghost const limits: Limits         // what this run keeps its commits to
    ghost var sent: seq<SentCommit>
    ghost var started: multiset<FileItem>  // uploads of single files, one per call

    /** No commit ever sent had a pointer to a blob that was missing at that moment. */
    ghost predicate NeverDangled()
      reads this
    {
      forall c | c in sent :: Backed(c.files, c.store)
    }

    /** Every commit was within the limits. */
    ghost predicate NeverTooBig()
      reads this
    {
      forall c | c in sent :: Allowed(c.files, limits)
    }

    /** The files may go out in one commit. */
    ghost predicate Sendable(files: seq<FileItem>)
      reads this
    {
      Backed(files, store) && Allowed(files, limits)
    }

    /** Whatever has landed was in a commit that the server applied. */
    ghost predicate LandsByReply()
      reads this
    {
      forall f {:trigger MayLand(commits, f)} | f in landed :: MayLand(commits, f)
    }

    /** The keys of which some file has been committed, now or in an earlier run. */
    ghost function Covered(): set<Key>
      reads this
    {
      earlier + set f | f in landed :: f.TrackedAs()
    }

    constructor (commits: CommitOracle, uploads: UploadOracle, store: set<Oid>, ghost earlier: set<Key>,
                 ghost limits: Limits)
      ensures this.commits == commits && this.uploads == uploads && this.earlier == earlier && this.limits == limits
      ensures this.store == store && landed == {}
      ensures sent == [] && commitCalls == 0 && uploadCalls == 0
    {
      this.commits, this.uploads, this.store, landed := commits, uploads, store, {};
      this.earlier, this.limits := earlier, limits;
      sent, commitCalls, uploadCalls, started := [], 0, 0, multiset{};
    }

    /** A transfer has left a blob behind. */
    method StoreBlob(oid: Oid)
      modifies `store
      ensures store == old(store) + {oid}
    {
      store := store + {oid};
    }

    method CreateCommit(files: seq<FileItem>) returns (reply: CommitReply)
      modifies `commitCalls, `landed, `sent
      ensures reply == commits(old(commitCalls), files)
      ensures commitCalls == old(commitCalls) + 1
      ensures landed == old(landed)
        + if reply.Landed? || reply.applied then (set f | f in files) else {}
      ensures sent == old(sent) + [SentCommit(files, store)]
      ensures old(LandsByReply()) ==> LandsByReply()
    {
      reply := commits(commitCalls, files);
      ghost var k := commitCalls;
      commitCalls := commitCalls + 1;
      if reply.Landed? || reply.applied {
        forall f | f in files ensures MayLand(commits, f) {
          assert commits(k, files) == reply;
        }
        landed := landed + set f | f in files;
      }
      sent := sent + [SentCommit(files, store)];
    }

    /** Upload one file that has no pre-validated answer: each attempt asks the server whether it wants the blob
        and transfers it when it does.  Success means that the blob is stored.  A transient failure, and nothing else,
        is followed by another attempt, as long as there is one left. */
    method UploadSingleFile(f: FileItem, maxAttempts: nat) returns (r: Upload)
      requires maxAttempts >= 1
      modifies this
      ensures r.Uploaded? ==> Backed([f], store)
      ensures old(store) <= store <= old(store) + {f.oid}
      ensures !f.IsLfs() ==> store == old(store)
      ensures commitCalls == old(commitCalls) && landed == old(landed) && sent == old(sent)
      ensures old(uploadCalls) < uploadCalls <= old(uploadCalls) + maxAttempts
      ensures started == old(started) + multiset{f}
      ensures forall k: nat | old(uploadCalls) <= k < uploadCalls - 1 :: Transient(uploads(k, f))
      ensures f.IsLfs() && r.Failed? && !Transient(uploads(uploadCalls - 1, f)) ==>
        !uploads(uploadCalls - 1, f).Fine? && r.error == uploads(uploadCalls - 1, f).error
      ensures f.IsLfs() && r.Failed? && Transient(uploads(uploadCalls - 1, f)) ==>
        uploadCalls == old(uploadCalls) + maxAttempts && r.error == Error(false, true)
      ensures !f.IsLfs() ==> uploadCalls == old(uploadCalls) + 1 && r == Read(uploads(old(uploadCalls), f))
    {
      started := started + multiset{f};
      var attempt := 0;
      r := Failed(Error(false, true));
      while attempt < maxAttempts
        invariant attempt <= maxAttempts && uploadCalls == old(uploadCalls) + attempt
        invariant r == Failed(Error(false, true)) && started == old(started) + multiset{f}
        invariant old(store) <= store <= old(store) + {f.oid}
        invariant !f.IsLfs() ==> store == old(store) && attempt == 0
        invariant commitCalls == old(commitCalls) && landed == old(landed) && sent == old(sent)
        invariant forall k: nat | old(uploadCalls) <= k < uploadCalls :: Transient(uploads(k, f))
      {
        var outcome := uploads(uploadCalls, f);
        uploadCalls, attempt := uploadCalls + 1, attempt + 1;
        if !f.IsLfs() {
          return if outcome.Unreadable? then Failed(outcome.error) else Uploaded;
        }
        match outcome {
          case Unreadable(e) =>
            return Failed(e);
          case NoNegotiation(e) =>
            if !e.retryable { return Failed(e); }
          case Broken(e, stored) =>
            if f.oid in store { return Uploaded; }  // the server said that the blob exists
            if stored { store := store + {f.oid}; }
            if !e.retryable { return Failed(e); }
          case Fine =>
            if f.oid !in store { store := store + {f.oid}; }
            return Uploaded;
        }
      }
      // All attempts are spent: a storage error, which counts as transient.
      r := Failed(Error(false, true));
    }
  }
}
