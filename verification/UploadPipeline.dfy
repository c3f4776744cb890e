/** The concurrent core of a folder upload: pre-validation of blobs, election of one owner per distinct blob, and
    the protocol between the upload workers and the committer that consumes batches in order. */
module UploadPipeline {
  import opened UploadTypes
  import opened BatchTracking

  // ---- Pre-validation -------------------------------------------------------------------------------------

  /** The server either already stores a blob or hands out an upload URL.  A blob of a group whose request failed
      has no answer at all, which is a third case. */
  datatype Answer = Exists | NeedsUpload

  /** Reply to one validation request: the blobs that need uploading, or a failed request. */
  datatype GroupReply = Answered(missing: set<Oid>) | Failed

  type Validator = (nat, seq<Oid>) -> GroupReply

  /** A truthful server mentions every blob of the group it does not store. */
  ghost predicate Truthful(validator: Validator, store: set<Oid>) {
    forall k: nat, group: seq<Oid>, oid: Oid
      | validator(k, group).Answered? && oid in group && oid !in validator(k, group).missing :: oid in store
  }

  /** Answers of the groups that cover objects, where group k is the next one to ask for. */
  function Answers(validator: Validator, size: nat, objects: seq<Oid>, k: nat): map<Oid, Answer>
    requires size >= 1
    decreases |objects|
  {
    if objects == [] then map[]
    else
      var group := if |objects| <= size then objects else objects[..size];
      var rest := Answers(validator, size, objects[|group|..], k + 1);
      match validator(k, group)
      case Failed => rest
      case Answered(missing) => (map oid | oid in group :: if oid in missing then NeedsUpload else Exists) + rest
  }

  /** "Exists" is only ever recorded for a blob that the server stores: an unanswered group leaves no entry. */
  lemma {:induction false} ExistsIsStored(
    validator: Validator, size: nat, objects: seq<Oid>, k: nat, store: set<Oid>, oid: Oid)
    requires size >= 1 && Truthful(validator, store)
    requires var a := Answers(validator, size, objects, k); oid in a && a[oid] == Exists
    ensures oid in store && oid in objects
    decreases |objects|
  {
    var group := if |objects| <= size then objects else objects[..size];
    var rest := Answers(validator, size, objects[|group|..], k + 1);
    if oid in rest && rest[oid] == Exists {
      ExistsIsStored(validator, size, objects[|group|..], k + 1, store, oid);
    } else {
      assert validator(k, group).Answered? && oid in group;
    }
  }

  method ValidateBlobs(validator: Validator, size: nat, objects: seq<Oid>) returns (answers: map<Oid, Answer>)
    requires size >= 1
    requires forall i, j | 0 <= i < j < |objects| :: objects[i] != objects[j]
    ensures answers == Answers(validator, size, objects, 0)
  {
    answers := map[];
    var left, k := objects, 0;
    while left != []
      invariant answers + Answers(validator, size, left, k) == Answers(validator, size, objects, 0)
      decreases |left|
    {
      var group := if |left| <= size then left else left[..size];
      match validator(k, group) {
        case Failed =>
        case Answered(missing) =>
          answers := answers + (map oid | oid in group :: if oid in missing then NeedsUpload else Exists);
      }
      left, k := left[|group|..], k + 1;
    }
  }

  // ---- Ownership ------------------------------------------------------------------------------------------

  /** One run: the pending files in commit order, the commit plan, which LFS files were hashed ahead of the
      pipeline, what pre-validation answered, and what the server stored before the pipeline started. */
  datatype Config = Config(
    files: seq<FileItem>, sizes: seq<nat>, hashed: seq<bool>, answers: map<Oid, Answer>, stored: set<Oid>)

  ghost predicate WellFormed(cfg: Config) {
    && |cfg.hashed| == |cfg.files| == Sum(cfg.sizes)
    && (forall b | 0 <= b < |cfg.sizes| :: cfg.sizes[b] > 0)
    && (forall i | 0 <= i < |cfg.files| :: cfg.hashed[i] ==> cfg.files[i].IsLfs())
    && (forall oid | oid in cfg.answers && cfg.answers[oid] == Exists :: oid in cfg.stored)
  }

  predicate KnownStored(cfg: Config, oid: Oid) {
    oid in cfg.answers && cfg.answers[oid] == Exists
  }

  /** File i competes for the transfer of its content. */
  predicate Candidate(cfg: Config, i: nat) {
    i < |cfg.files| == |cfg.hashed| && cfg.hashed[i] && !KnownStored(cfg, cfg.files[i].oid)
  }

  function OwnersUpTo(cfg: Config, k: nat): map<Oid, nat>
    requires k <= |cfg.files| == |cfg.hashed|
  {
    if k == 0 then map[]
    else
      var rest := OwnersUpTo(cfg, k - 1);
      if Candidate(cfg, k - 1) && cfg.files[k - 1].oid !in rest then rest[cfg.files[k - 1].oid := k - 1] else rest
  }

  function Owners(cfg: Config): map<Oid, nat>
    requires |cfg.files| == |cfg.hashed|
  {
    OwnersUpTo(cfg, |cfg.files|)
  }

  /** The owner of a blob is the first candidate that holds it. */
  lemma {:induction false} OwnersAreFirst(cfg: Config, k: nat)
    requires k <= |cfg.files| == |cfg.hashed|
    ensures var owners := OwnersUpTo(cfg, k);
      && (forall oid | oid in owners ::
            owners[oid] < k && Candidate(cfg, owners[oid]) && cfg.files[owners[oid]].oid == oid)
      && (forall i: nat | i < k && Candidate(cfg, i) ::
            cfg.files[i].oid in owners && owners[cfg.files[i].oid] <= i)
  {
    if k > 0 {
      OwnersAreFirst(cfg, k - 1);
    }
  }

  lemma {:induction false} OwnersIgnoreStore(cfg: Config, stored: set<Oid>, k: nat)
    requires k <= |cfg.files| == |cfg.hashed|
    ensures OwnersUpTo(cfg.(stored := stored), k) == OwnersUpTo(cfg, k)
  {
    if k > 0 {
      OwnersIgnoreStore(cfg, stored, k - 1);
    }
  }

  method ElectOwners(cfg: Config) returns (owners: map<Oid, nat>, ready: map<Oid, bool>)
    requires |cfg.files| == |cfg.hashed|
    ensures owners == Owners(cfg)
    ensures forall oid :: oid in ready <==>
      exists i :: 0 <= i < |cfg.files| && cfg.hashed[i] && cfg.files[i].oid == oid && KnownStored(cfg, oid)
    ensures forall oid | oid in ready :: ready[oid]
  {
    owners, ready := map[], map[];
    for i := 0 to |cfg.files|
      invariant owners == OwnersUpTo(cfg, i)
      invariant forall oid :: oid in ready <==>
        exists j :: 0 <= j < i && cfg.hashed[j] && cfg.files[j].oid == oid && KnownStored(cfg, oid)
      invariant forall oid | oid in ready :: ready[oid]
    {
      if cfg.hashed[i] {
        var oid := cfg.files[i].oid;
        if oid in cfg.answers && cfg.answers[oid] == Exists {
          ready := ready[oid := true];
        } else if oid !in owners {
          owners := owners[oid := i];
        }
      }
    }
  }

  /** How a worker is told to handle its blob. */
  datatype Ticket = Reuse | PutToUrl | Duplicate | Negotiate

  function TicketOf(cfg: Config, i: nat): Ticket
    requires i < |cfg.files| == |cfg.hashed|
  {
    var oid := cfg.files[i].oid;
    if cfg.hashed[i] && oid in cfg.answers then
      if cfg.answers[oid] == Exists then Reuse
      else if oid in Owners(cfg) && Owners(cfg)[oid] == i then PutToUrl
      else Duplicate
    else Negotiate
  }

  /** Content that pre-validation asked to upload is transferred by exactly one worker, the earliest. */
  lemma OneTransferPerBlob(cfg: Config, i: nat)
    requires WellFormed(cfg) && i < |cfg.files| && cfg.hashed[i]
    requires cfg.files[i].oid in cfg.answers && cfg.answers[cfg.files[i].oid] == NeedsUpload
    ensures exists j: nat :: j <= i && TicketOf(cfg, j) == PutToUrl && cfg.files[j].oid == cfg.files[i].oid
    ensures forall j: nat, k: nat | j < |cfg.files| && k < |cfg.files| && cfg.files[j].oid == cfg.files[k].oid
      && TicketOf(cfg, j) == PutToUrl && TicketOf(cfg, k) == PutToUrl :: j == k
  {
    OwnersAreFirst(cfg, |cfg.files|);
    assert Candidate(cfg, i);
    var j := Owners(cfg)[cfg.files[i].oid];
    assert TicketOf(cfg, j) == PutToUrl;
  }

  /** Every group is answered, with exactly the blobs that the server lacks. */
  ghost predicate Exact(validator: Validator, store: set<Oid>) {
    forall k: nat, group: seq<Oid> ::
      && validator(k, group).Answered?
      && forall oid | oid in group :: oid in validator(k, group).missing <==> oid !in store
  }

  lemma {:induction false} AnswersAreExact(validator: Validator, size: nat, objects: seq<Oid>, k: nat, store: set<Oid>,
                                           oid: Oid)
    requires size >= 1 && Exact(validator, store)
    ensures var a := Answers(validator, size, objects, k);
      (oid in a <==> oid in objects) && (oid in a ==> (a[oid] == Exists <==> oid in store))
    decreases |objects|
  {
    if objects != [] {
      var group := if |objects| <= size then objects else objects[..size];
      AnswersAreExact(validator, size, objects[|group|..], k + 1, store, oid);
      assert objects == group + objects[|group|..];
      assert validator(k, group).Answered?;
    }
  }

  /** Nothing is uploaded needlessly: when every group is answered exactly, a hashed file whose blob is stored reuses
      it, the first file with a blob that is missing transfers it, and any other copy waits for that one. */
  lemma NothingIsUploadedNeedlessly(cfg: Config, validator: Validator, size: nat, objects: seq<Oid>, i: nat)
    requires size >= 1 && i < |cfg.files| == |cfg.hashed| && cfg.hashed[i] && cfg.files[i].oid in objects
    requires cfg.answers == Answers(validator, size, objects, 0) && Exact(validator, cfg.stored)
    ensures var oid := cfg.files[i].oid;
      TicketOf(cfg, i) ==
        if oid in cfg.stored then Reuse
        else if exists j: nat :: j < i && cfg.hashed[j] && cfg.files[j].oid == oid then Duplicate
        else PutToUrl
  {
    var oid := cfg.files[i].oid;
    AnswersAreExact(validator, size, objects, 0, cfg.stored, oid);
    OwnersAreFirst(cfg, |cfg.files|);
    if oid !in cfg.stored {
      assert Candidate(cfg, i);
      var owner := Owners(cfg)[oid];
      if j: nat :| j < i && cfg.hashed[j] && cfg.files[j].oid == oid {
        assert Candidate(cfg, j);
      }
      assert Candidate(cfg, owner) && cfg.files[owner].oid == oid;
    }
  }

  // ---- The protocol ---------------------------------------------------------------------------------------

  /** A worker transfers, then publishes the outcome of the blob it owns, then reports to the tracker. */
  datatype Worker = Queued | Moved(ok: bool) | Published(ok: bool) | Finished(ok: bool)

  /** The committer waits for a batch, or has built the commit of a batch and is about to send it. */
  datatype Committer = Waiting(batch: nat) | Sending(batch: nat, ops: seq<nat>)

  /** A commit as it went out, with the blobs the server stored at that moment. */
  datatype Sent = Sent(ops: seq<nat>, store: set<Oid>)

  datatype State = State(
    store: set<Oid>,
    workers: seq<Worker>,
    ready: map<Oid, bool>,
    log: seq<Record>,
    committer: Committer,
    committed: seq<nat>,
    retryUpload: seq<nat>,
    retryCommit: seq<seq<nat>>,
    terminal: seq<nat>,
    sent: seq<Sent>)

  datatype Step =
    | Transfer(i: nat, ok: bool, stored: bool)  // `stored`: a failed transfer may still have left the blob behind
    | Publish(i: nat)
    | Report(i: nat)
    | Collect
    | Send(reply: CommitReply)

  function Initial(cfg: Config, ready: map<Oid, bool>): State {
    State(cfg.stored, seq(|cfg.files|, _ => Queued), ready, [], Waiting(0), [], [], [], [], [])
  }

  /** A file whose blob was elected to an owner is held back unless that owner has published success. */
  predicate HeldBack(cfg: Config, ready: map<Oid, bool>, i: nat)
    requires i < |cfg.files| == |cfg.hashed|
  {
    var oid := cfg.files[i].oid;
    cfg.files[i].IsLfs() && oid in Owners(cfg) && !(oid in ready && ready[oid])
  }

  function Pick(cfg: Config, ready: map<Oid, bool>, results: seq<nat>, held: bool): (picked: seq<nat>)
    requires |cfg.files| == |cfg.hashed| && forall k | 0 <= k < |results| :: results[k] < |cfg.files|
    ensures forall i :: i in picked <==> i in results && HeldBack(cfg, ready, i) == held
  {
    if results == [] then []
    else
      var rest := Pick(cfg, ready, results[..|results| - 1], held);
      var last := results[|results| - 1];
      if HeldBack(cfg, ready, last) == held then rest + [last] else rest
  }

  lemma {:induction false} ReceivedInLog(log: seq<Record>, sizes: seq<nat>, b: nat)
    requires b < |sizes|
    ensures forall ok: bool, i | i in Received(log, sizes, b, ok) :: Record(i, ok) in log && InBatch(sizes, b, i)
  {
    if log != [] {
      ReceivedInLog(log[..|log| - 1], sizes, b);
      assert log == log[..|log| - 1] + [log[|log| - 1]];
    }
  }

  lemma ReceivedInRange(log: seq<Record>, sizes: seq<nat>, b: nat, ok: bool, n: nat)
    requires b < |sizes| && forall r | r in log :: r.index < n
    ensures forall k | 0 <= k < |Received(log, sizes, b, ok)| :: Received(log, sizes, b, ok)[k] < n
  {
    ReceivedInLog(log, sizes, b);
    forall k | 0 <= k < |Received(log, sizes, b, ok)| ensures Received(log, sizes, b, ok)[k] < n {
      assert Record(Received(log, sizes, b, ok)[k], ok) in log;
    }
  }

  predicate Enabled(cfg: Config, s: State, step: Step) {
    match step
    case Transfer(i, _, _) => i < |s.workers| && s.workers[i].Queued?
    case Publish(i) => i < |s.workers| && s.workers[i].Moved?
    case Report(i) => i < |s.workers| && s.workers[i].Published?
    case Collect =>
      s.committer.Waiting? && s.committer.batch < |cfg.sizes| && Complete(s.log, cfg.sizes, s.committer.batch)
    case Send(_) => s.committer.Sending?
  }

  /** The server stores a blob after a transfer that succeeded, and possibly after one that failed.  A worker that
      negotiates and is told that the blob exists is told the truth, so the union changes nothing then. */
  function StoreAfter(cfg: Config, store: set<Oid>, i: nat, ok: bool, stored: bool): set<Oid>
    requires i < |cfg.files| == |cfg.hashed|
  {
    if cfg.files[i].IsLfs() && TicketOf(cfg, i) in {PutToUrl, Negotiate} && (ok || stored)
    then store + {cfg.files[i].oid} else store
  }

  predicate Owns(cfg: Config, i: nat)
    requires i < |cfg.files| == |cfg.hashed|
  {
    cfg.hashed[i] && cfg.files[i].oid in Owners(cfg) && Owners(cfg)[cfg.files[i].oid] == i
  }

  function ReadyAfter(cfg: Config, ready: map<Oid, bool>, i: nat, ok: bool): map<Oid, bool>
    requires i < |cfg.files| == |cfg.hashed|
  {
    if Owns(cfg, i) then ready[cfg.files[i].oid := ok] else ready
  }

  predicate Sized(cfg: Config, s: State) {
    && |cfg.files| == |cfg.hashed| == |s.workers|
    && forall r | r in s.log :: r.index < |cfg.files|
  }

  /** The successful files of the batch the committer waits for, in arrival order. */
  function ResultsOf(cfg: Config, s: State): (results: seq<nat>)
    requires Sized(cfg, s) && s.committer.batch < |cfg.sizes|
    ensures forall k | 0 <= k < |results| :: results[k] < |cfg.files|
  {
    ReceivedInRange(s.log, cfg.sizes, s.committer.batch, true, |cfg.files|);
    Received(s.log, cfg.sizes, s.committer.batch, true)
  }

  function Apply(cfg: Config, s: State, step: Step): State
    requires Sized(cfg, s) && Enabled(cfg, s, step)
  {
    match step
    case Transfer(i, ok, stored) =>
      s.(workers := s.workers[i := Moved(ok)], store := StoreAfter(cfg, s.store, i, ok, stored))
    case Publish(i) =>
      var ok := s.workers[i].ok;
      s.(workers := s.workers[i := Published(ok)], ready := ReadyAfter(cfg, s.ready, i, ok))
    case Report(i) =>
      s.(workers := s.workers[i := Finished(s.workers[i].ok)], log := s.log + [Record(i, s.workers[i].ok)])
    case Collect =>
      var b, results := s.committer.batch, ResultsOf(cfg, s);
      var ops, held := Pick(cfg, s.ready, results, false), Pick(cfg, s.ready, results, true);
      s.(retryUpload := s.retryUpload + Received(s.log, cfg.sizes, b, false) + held,
         committer := if ops == [] then Waiting(b + 1) else Sending(b, ops))
    case Send(reply) =>
      var b, ops := s.committer.batch, s.committer.ops;
      var out := s.(sent := s.sent + [Sent(ops, s.store)], committer := Waiting(b + 1));
      match reply
      case Landed => out.(committed := s.committed + ops)
      case Refused(e, _) =>
        if e.retryable then out.(retryCommit := s.retryCommit + [ops]) else out.(terminal := s.terminal + ops)
  }

  // ---- Invariant ------------------------------------------------------------------------------------------

  /** Worker i has got past publishing its outcome. */
  predicate HasPublished(w: Worker) {
    w.Published? || w.Finished?
  }

  /** What the ready flags mean: a raised flag names a stored blob, and an owner's flag is its published outcome. */
  ghost predicate FlagsHold(cfg: Config, workers: seq<Worker>, ready: map<Oid, bool>, store: set<Oid>)
    requires |cfg.files| == |cfg.hashed| == |workers|
  {
    && (forall oid | oid in ready && ready[oid] :: oid in store)
    && (forall oid | oid in Owners(cfg) ::
          && Owners(cfg)[oid] < |workers|
          && var w := workers[Owners(cfg)[oid]];
             if HasPublished(w) then oid in ready && ready[oid] == w.ok else oid !in ready)
  }

  /** A successful LFS worker leaves its blob stored, unless it only trusted an owner. */
  ghost predicate MovesHold(cfg: Config, workers: seq<Worker>, store: set<Oid>)
    requires |cfg.files| == |cfg.hashed| == |workers|
  {
    && cfg.stored <= store
    && forall i | 0 <= i < |workers| && cfg.files[i].IsLfs() && !workers[i].Queued? && workers[i].ok ::
      cfg.files[i].oid in store || TicketOf(cfg, i) == Duplicate
  }

  /** The tracker's log is what the workers have reported, once each. */
  ghost predicate LogHolds(workers: seq<Worker>, log: seq<Record>) {
    && OncePerFile(log)
    && (forall r | r in log :: r.index < |workers| && workers[r.index] == Finished(r.ok))
    && (forall i | 0 <= i < |workers| && workers[i].Finished? :: HasReport(log, i))
  }

  /** Every LFS operation names a blob of the given store. */
  ghost predicate Backed(cfg: Config, ops: seq<nat>, store: set<Oid>) {
    forall i | i in ops :: i < |cfg.files| && (cfg.files[i].IsLfs() ==> cfg.files[i].oid in store)
  }

  ghost predicate AllBacked(cfg: Config, lists: seq<seq<nat>>, store: set<Oid>) {
    forall ops | ops in lists :: Backed(cfg, ops, store)
  }

  ghost predicate SentBacked(cfg: Config, sent: seq<Sent>) {
    forall c | c in sent :: Backed(cfg, c.ops, c.store)
  }

  function Flatten(lists: seq<seq<nat>>): seq<nat> {
    if lists == [] then [] else Flatten(lists[..|lists| - 1]) + lists[|lists| - 1]
  }

  /** Batches whose files have left the tracker. */
  function Taken(c: Committer): nat {
    if c.Sending? then c.batch + 1 else c.batch
  }

  function InFlight(c: Committer): seq<nat> {
    if c.Sending? then c.ops else []
  }

  /** Where the files of the consumed batches are now. */
  function Places(s: State): multiset<nat> {
    multiset(s.committed) + multiset(s.retryUpload) + multiset(Flatten(s.retryCommit)) + multiset(s.terminal)
      + multiset(InFlight(s.committer))
  }

  /** The files of the consumed batches have all reported. */
  ghost predicate BatchesHold(cfg: Config, workers: seq<Worker>, taken: nat) {
    && taken <= |cfg.sizes|
    && forall i: nat | i < Start(cfg.sizes, taken) :: i < |workers| && workers[i].Finished?
  }

  ghost predicate Inv(cfg: Config, s: State) {
    && Sized(cfg, s)
    && FlagsHold(cfg, s.workers, s.ready, s.store)
    && MovesHold(cfg, s.workers, s.store)
    && LogHolds(s.workers, s.log)
    && Backed(cfg, InFlight(s.committer), s.store)
    && AllBacked(cfg, s.retryCommit, s.store)
    && SentBacked(cfg, s.sent)
    && BatchesHold(cfg, s.workers, Taken(s.committer))
    // Each file of the consumed batches is in exactly one place.
    && Places(s) == multiset(Range(0, Start(cfg.sizes, Taken(s.committer))))
  }

  ghost predicate InitialReady(cfg: Config, ready: map<Oid, bool>) {
    forall oid | oid in ready :: ready[oid] && KnownStored(cfg, oid)
  }

  lemma InitEstablishesInv(cfg: Config, ready: map<Oid, bool>)
    requires WellFormed(cfg) && InitialReady(cfg, ready)
    ensures Inv(cfg, Initial(cfg, ready))
  {
    OwnersAreFirst(cfg, |cfg.files|);
    assert Start(cfg.sizes, 0) == 0 by {
      assert cfg.sizes[..0] == [];
    }
    assert Places(Initial(cfg, ready)) == multiset(Range(0, 0));
  }

  lemma StoreGrows(cfg: Config, lists: seq<seq<nat>>, ops: seq<nat>, store: set<Oid>, store': set<Oid>)
    requires store <= store' && AllBacked(cfg, lists, store) && Backed(cfg, ops, store)
    ensures AllBacked(cfg, lists, store') && Backed(cfg, ops, store')
  {
    forall l | l in lists ensures Backed(cfg, l, store') {
      assert Backed(cfg, l, store);
    }
  }

  lemma TransferKeepsInv(cfg: Config, s: State, i: nat, ok: bool, stored: bool)
    requires WellFormed(cfg) && Inv(cfg, s) && Enabled(cfg, s, Transfer(i, ok, stored))
    ensures Inv(cfg, Apply(cfg, s, Transfer(i, ok, stored)))
  {
    var workers', store' := s.workers[i := Moved(ok)], StoreAfter(cfg, s.store, i, ok, stored);
    StoreGrows(cfg, s.retryCommit, InFlight(s.committer), s.store, store');
    assert FlagsHold(cfg, workers', s.ready, store');
    assert MovesHold(cfg, workers', store');
    assert LogHolds(workers', s.log);
    assert BatchesHold(cfg, workers', Taken(s.committer));
    assert Places(Apply(cfg, s, Transfer(i, ok, stored))) == Places(s);
  }

  /** An owner that publishes success has stored its blob itself. */
  lemma PublishKeepsFlags(cfg: Config, workers: seq<Worker>, ready: map<Oid, bool>, store: set<Oid>, i: nat)
    requires WellFormed(cfg) && |cfg.files| == |workers| && i < |workers| && workers[i].Moved?
    requires FlagsHold(cfg, workers, ready, store) && MovesHold(cfg, workers, store)
    ensures FlagsHold(cfg, workers[i := Published(workers[i].ok)], ReadyAfter(cfg, ready, i, workers[i].ok), store)
  {
    OwnersAreFirst(cfg, |cfg.files|);
    var oid := cfg.files[i].oid;
    if Owns(cfg, i) {
      assert TicketOf(cfg, i) != Duplicate;
    }
  }

  lemma PublishKeepsInv(cfg: Config, s: State, i: nat)
    requires WellFormed(cfg) && Inv(cfg, s) && Enabled(cfg, s, Publish(i))
    ensures Inv(cfg, Apply(cfg, s, Publish(i)))
  {
    var workers' := s.workers[i := Published(s.workers[i].ok)];
    PublishKeepsFlags(cfg, s.workers, s.ready, s.store, i);
    assert MovesHold(cfg, workers', s.store);
    assert LogHolds(workers', s.log);
    assert BatchesHold(cfg, workers', Taken(s.committer));
    assert Places(Apply(cfg, s, Publish(i))) == Places(s);
  }

  lemma ReportKeepsLog(workers: seq<Worker>, log: seq<Record>, i: nat)
    requires LogHolds(workers, log) && i < |workers| && workers[i].Published?
    ensures LogHolds(workers[i := Finished(workers[i].ok)], log + [Record(i, workers[i].ok)])
  {
    var r := Record(i, workers[i].ok);
    var workers', log' := workers[i := Finished(workers[i].ok)], log + [r];
    assert forall q | q in log :: q.index != i;
    forall j | 0 <= j < |workers'| && workers'[j].Finished? ensures HasReport(log', j) {
      if j == i {
        assert r in log';
      } else {
        var q :| q in log && q.index == j;
        assert q in log';
      }
    }
  }

  lemma ReportKeepsInv(cfg: Config, s: State, i: nat)
    requires WellFormed(cfg) && Inv(cfg, s) && Enabled(cfg, s, Report(i))
    ensures Inv(cfg, Apply(cfg, s, Report(i)))
  {
    var workers' := s.workers[i := Finished(s.workers[i].ok)];
    ReportKeepsLog(s.workers, s.log, i);
    assert FlagsHold(cfg, workers', s.ready, s.store);
    assert MovesHold(cfg, workers', s.store);
    assert BatchesHold(cfg, workers', Taken(s.committer));
    assert Places(Apply(cfg, s, Report(i))) == Places(s);
  }

  /** The results of a batch are split between the commit and the files held back. */
  lemma {:induction false} PickSplits(cfg: Config, ready: map<Oid, bool>, results: seq<nat>)
    requires |cfg.files| == |cfg.hashed| && forall k | 0 <= k < |results| :: results[k] < |cfg.files|
    ensures multiset(Pick(cfg, ready, results, false)) + multiset(Pick(cfg, ready, results, true)) == multiset(results)
  {
    if results != [] {
      PickSplits(cfg, ready, results[..|results| - 1]);
      assert results == results[..|results| - 1] + [results[|results| - 1]];
    }
  }

  lemma AddOne<T>(a: multiset<T>, b: multiset<T>, all: set<T>, x: T)
    requires a + b == multiset(all) && x !in all
    ensures (a + multiset{x}) + b == multiset(all + {x}) && a + (b + multiset{x}) == multiset(all + {x})
  {
    assert multiset(all + {x}) == multiset(all) + multiset{x};
  }

  lemma {:induction false} ReceivedOnce(log: seq<Record>, sizes: seq<nat>, b: nat)
    requires b < |sizes| && OncePerFile(log)
    ensures multiset(Received(log, sizes, b, true)) + multiset(Received(log, sizes, b, false))
         == multiset(Reported(log, sizes, b))
  {
    if log != [] {
      var init, last := log[..|log| - 1], log[|log| - 1];
      assert log == init + [last];
      ReceivedOnce(init, sizes, b);
      ReceivedSnoc(init, last, sizes, b, true);
      ReceivedSnoc(init, last, sizes, b, false);
      ReportedNext(init, last, sizes, b);
      if InBatch(sizes, b, last.index) {
        AddOne(multiset(Received(init, sizes, b, true)), multiset(Received(init, sizes, b, false)),
               Reported(init, sizes, b), last.index);
      }
    }
  }

  /** A complete batch hands the committer exactly its own files. */
  lemma BatchDelivers(log: seq<Record>, sizes: seq<nat>, b: nat)
    requires b < |sizes| && OncePerFile(log) && Complete(log, sizes, b)
    ensures multiset(Range(0, Start(sizes, b)))
          + (multiset(Received(log, sizes, b, true)) + multiset(Received(log, sizes, b, false)))
         == multiset(Range(0, Start(sizes, b + 1)))
  {
    ReceivedOnce(log, sizes, b);
    CompleteIsWhole(log, sizes, b);
    StartStep(sizes, b);
    RangeCut(0, Start(sizes, b), Start(sizes, b + 1));
  }

  lemma CompleteIsWhole(log: seq<Record>, sizes: seq<nat>, b: nat)
    requires b < |sizes| && OncePerFile(log) && Complete(log, sizes, b)
    ensures Start(sizes, b) <= Start(sizes, b + 1)
    ensures Reported(log, sizes, b) == Range(Start(sizes, b), Start(sizes, b + 1))
  {
    CompleteIffAllReported(log, sizes, b);
    StartStep(sizes, b);
    forall i | i in Range(Start(sizes, b), Start(sizes, b + 1)) ensures i in Reported(log, sizes, b) {
      assert InBatch(sizes, b, i) && HasReport(log, i);
    }
  }

  lemma RangeCut(lo: nat, mid: nat, hi: nat)
    requires lo <= mid <= hi
    ensures multiset(Range(lo, hi)) == multiset(Range(lo, mid)) + multiset(Range(mid, hi))
  {
    assert Range(lo, hi) == Range(lo, mid) + Range(mid, hi);
  }

  /** A complete batch has all its workers finished, and so have the earlier batches. */
  lemma CompleteMeansFinished(cfg: Config, s: State)
    requires WellFormed(cfg) && Inv(cfg, s) && Enabled(cfg, s, Collect)
    ensures Start(cfg.sizes, s.committer.batch) <= Start(cfg.sizes, s.committer.batch + 1) <= |cfg.files|
    ensures forall i: nat | i < Start(cfg.sizes, s.committer.batch + 1) :: s.workers[i].Finished?
  {
    var b := s.committer.batch;
    StartStep(cfg.sizes, b);
    CompleteIffAllReported(s.log, cfg.sizes, b);
    forall i: nat | i < Start(cfg.sizes, b + 1) ensures s.workers[i].Finished? {
      if Start(cfg.sizes, b) <= i {
        assert InBatch(cfg.sizes, b, i);
        assert HasReport(s.log, i);
      }
    }
  }

  /** By the time a batch is complete, the owner of every blob that one of its hashed files holds has reported:
      owners come first, batches are consecutive, and all earlier batches were waited for. */
  lemma OwnerHasReported(cfg: Config, s: State, i: nat)
    requires WellFormed(cfg) && Inv(cfg, s) && Enabled(cfg, s, Collect)
    requires i < |cfg.files| && InBatch(cfg.sizes, s.committer.batch, i) && Candidate(cfg, i)
    ensures var oid := cfg.files[i].oid;
      oid in Owners(cfg) && Owners(cfg)[oid] <= i && s.workers[Owners(cfg)[oid]].Finished?
  {
    OwnersAreFirst(cfg, |cfg.files|);
    StartStep(cfg.sizes, s.committer.batch);
    CompleteMeansFinished(cfg, s);
  }

  /** What the committer puts into a commit is backed: a copy passes only when its owner has published success. */
  lemma PickedIsBacked(cfg: Config, s: State)
    requires WellFormed(cfg) && Inv(cfg, s) && Enabled(cfg, s, Collect)
    ensures Backed(cfg, Pick(cfg, s.ready, ResultsOf(cfg, s), false), s.store)
  {
    OwnersAreFirst(cfg, |cfg.files|);
    ReceivedInLog(s.log, cfg.sizes, s.committer.batch);
    var ops := Pick(cfg, s.ready, ResultsOf(cfg, s), false);
    forall i | i in ops && cfg.files[i].IsLfs() ensures cfg.files[i].oid in s.store {
      assert Record(i, true) in s.log;
      if TicketOf(cfg, i) == Duplicate {
        assert Candidate(cfg, i);
      }
    }
  }

  lemma CollectKeepsPlaces(cfg: Config, s: State)
    requires WellFormed(cfg) && Inv(cfg, s) && Enabled(cfg, s, Collect)
    ensures Places(Apply(cfg, s, Collect)) == multiset(Range(0, Start(cfg.sizes, s.committer.batch + 1)))
  {
    var b := s.committer.batch;
    var results, failed := ResultsOf(cfg, s), Received(s.log, cfg.sizes, b, false);
    var ops, held := Pick(cfg, s.ready, results, false), Pick(cfg, s.ready, results, true);
    PickSplits(cfg, s.ready, results);
    BatchDelivers(s.log, cfg.sizes, b);
    var s' := Apply(cfg, s, Collect);
    assert InFlight(s'.committer) == ops;
    assert multiset(s.retryUpload + failed + held) == multiset(s.retryUpload) + multiset(failed) + multiset(held);
    assert Places(s') == Places(s) + (multiset(results) + multiset(failed));
  }

  lemma CollectKeepsInv(cfg: Config, s: State)
    requires WellFormed(cfg) && Inv(cfg, s) && Enabled(cfg, s, Collect)
    ensures Inv(cfg, Apply(cfg, s, Collect))
  {
    var s' := Apply(cfg, s, Collect);
    CollectKeepsPlaces(cfg, s);
    PickedIsBacked(cfg, s);
    CompleteMeansFinished(cfg, s);
    assert Taken(s'.committer) == s.committer.batch + 1;
    assert Backed(cfg, InFlight(s'.committer), s.store);
    assert BatchesHold(cfg, s.workers, Taken(s'.committer));
  }

  lemma FlattenSnoc(lists: seq<seq<nat>>, last: seq<nat>)
    ensures Flatten(lists + [last]) == Flatten(lists) + last
  {
    assert (lists + [last])[..|lists|] == lists;
  }

  lemma SendKeepsPlaces(cfg: Config, s: State, reply: CommitReply)
    requires Sized(cfg, s) && Enabled(cfg, s, Send(reply))
    ensures Places(Apply(cfg, s, Send(reply))) == Places(s)
  {
    var s', ops := Apply(cfg, s, Send(reply)), s.committer.ops;
    assert InFlight(s'.committer) == [] && InFlight(s.committer) == ops;
    var c, u := multiset(s.committed), multiset(s.retryUpload);
    MoveIn(c, u, multiset(Flatten(s.retryCommit)), multiset(s.terminal), multiset(ops));
    AppendBag(s.committed, ops);
    AppendBag(s.terminal, ops);
    FlattenSnoc(s.retryCommit, ops);
    AppendBag(Flatten(s.retryCommit), ops);
  }

  lemma AppendBag(a: seq<nat>, b: seq<nat>)
    ensures multiset(a + b) == multiset(a) + multiset(b)
  {
  }

  lemma MoveIn<T>(c: multiset<T>, u: multiset<T>, r: multiset<T>, t: multiset<T>, f: multiset<T>)
    ensures (c + f) + u + r + t + multiset{} == c + u + r + t + f
    ensures c + u + (r + f) + t + multiset{} == c + u + r + t + f
    ensures c + u + r + (t + f) + multiset{} == c + u + r + t + f
  {
  }

  lemma SendKeepsBacked(cfg: Config, s: State, reply: CommitReply)
    requires Sized(cfg, s) && Enabled(cfg, s, Send(reply))
    requires Backed(cfg, s.committer.ops, s.store) && AllBacked(cfg, s.retryCommit, s.store) && SentBacked(cfg, s.sent)
    ensures AllBacked(cfg, Apply(cfg, s, Send(reply)).retryCommit, s.store)
    ensures SentBacked(cfg, Apply(cfg, s, Send(reply)).sent)
  {
    var s', ops := Apply(cfg, s, Send(reply)), s.committer.ops;
    forall l | l in s'.retryCommit ensures Backed(cfg, l, s.store) {
      assert l in s.retryCommit || l == ops;
    }
    forall c | c in s'.sent ensures Backed(cfg, c.ops, c.store) {
      assert c in s.sent || c == Sent(ops, s.store);
    }
  }

  lemma SendKeepsInv(cfg: Config, s: State, reply: CommitReply)
    requires WellFormed(cfg) && Inv(cfg, s) && Enabled(cfg, s, Send(reply))
    ensures Inv(cfg, Apply(cfg, s, Send(reply)))
  {
    SendKeepsPlaces(cfg, s, reply);
    SendKeepsBacked(cfg, s, reply);
    var s' := Apply(cfg, s, Send(reply));
    assert (s'.workers, s'.ready, s'.store, s'.log) == (s.workers, s.ready, s.store, s.log);
    assert Taken(s'.committer) == Taken(s.committer) && InFlight(s'.committer) == [];
    assert BatchesHold(cfg, s'.workers, Taken(s'.committer));
  }

  lemma StepKeepsInv(cfg: Config, s: State, step: Step)
    requires WellFormed(cfg) && Inv(cfg, s) && Enabled(cfg, s, step)
    ensures Inv(cfg, Apply(cfg, s, step))
  {
    match step
    case Transfer(i, ok, stored) => TransferKeepsInv(cfg, s, i, ok, stored);
    case Publish(i) => PublishKeepsInv(cfg, s, i);
    case Report(i) => ReportKeepsInv(cfg, s, i);
    case Collect => CollectKeepsInv(cfg, s);
    case Send(reply) => SendKeepsInv(cfg, s, reply);
  }

  // ---- Runs -----------------------------------------------------------------------------------------------

  /** `states` is an interleaving of workers and committer that starts from the initial state. */
  ghost predicate IsRun(cfg: Config, ready: map<Oid, bool>, states: seq<State>, steps: seq<Step>) {
    && |states| == |steps| + 1
    && states[0] == Initial(cfg, ready)
    && forall k {:trigger steps[k]} | 0 <= k < |steps| ::
      Sized(cfg, states[k]) && Enabled(cfg, states[k], steps[k]) && states[k + 1] == Apply(cfg, states[k], steps[k])
  }

  lemma RunSnoc(cfg: Config, ready: map<Oid, bool>, states: seq<State>, steps: seq<Step>, step: Step)
    requires IsRun(cfg, ready, states, steps) && Sized(cfg, states[|steps|]) && Enabled(cfg, states[|steps|], step)
    ensures IsRun(cfg, ready, states + [Apply(cfg, states[|steps|], step)], steps + [step])
  {
    var states', steps' := states + [Apply(cfg, states[|steps|], step)], steps + [step];
    forall k | 0 <= k < |steps'|
      ensures Sized(cfg, states'[k]) && Enabled(cfg, states'[k], steps'[k])
      ensures states'[k + 1] == Apply(cfg, states'[k], steps'[k])
    {
      assert states'[k] == states[k];
      if k < |steps| {
        assert states'[k + 1] == states[k + 1] && steps'[k] == steps[k];
      }
    }
  }

  lemma {:induction false} RunKeepsInv(
    cfg: Config, ready: map<Oid, bool>, states: seq<State>, steps: seq<Step>, k: nat)
    requires WellFormed(cfg) && InitialReady(cfg, ready) && IsRun(cfg, ready, states, steps) && k < |states|
    ensures Inv(cfg, states[k])
  {
    if k == 0 {
      InitEstablishesInv(cfg, ready);
    } else {
      RunKeepsInv(cfg, ready, states, steps, k - 1);
      StepKeepsInv(cfg, states[k - 1], steps[k - 1]);
    }
  }

  /** Safety: in every interleaving, each LFS operation of each commit that was sent named a blob that the server
      stored when the commit went out, and so does each commit set aside for a later retry. */
  lemma SentCommitsAreBacked(cfg: Config, ready: map<Oid, bool>, states: seq<State>, steps: seq<Step>, k: nat)
    requires WellFormed(cfg) && InitialReady(cfg, ready) && IsRun(cfg, ready, states, steps) && k < |states|
    ensures forall c, i | c in states[k].sent && i in c.ops ::
      i < |cfg.files| && (cfg.files[i].IsLfs() ==> cfg.files[i].oid in c.store)
    ensures forall ops | ops in states[k].retryCommit :: Backed(cfg, ops, states[k].store)
  {
    RunKeepsInv(cfg, ready, states, steps, k);
  }

  /** No spurious deferral: a hashed file is held back exactly when the transfer by its owner failed.  Reading the
      flag without a wait is sound because the owner lies in this batch or an earlier one. */
  lemma HeldBackIffOwnerFailed(cfg: Config, s: State, i: nat)
    requires WellFormed(cfg) && Inv(cfg, s) && Enabled(cfg, s, Collect)
    requires i < |cfg.files| && InBatch(cfg.sizes, s.committer.batch, i) && Candidate(cfg, i)
    ensures var oid := cfg.files[i].oid;
      oid in Owners(cfg) && Owners(cfg)[oid] <= i
        && (HeldBack(cfg, s.ready, i) <==> s.workers[Owners(cfg)[oid]] == Finished(false))
  {
    OwnerHasReported(cfg, s, i);
    OwnersAreFirst(cfg, |cfg.files|);
  }

  /** The pipeline is over. */
  predicate Done(cfg: Config, s: State) {
    s.committer.Waiting? && s.committer.batch >= |cfg.sizes|
  }

  lemma DoneStateSettles(cfg: Config, s: State)
    requires WellFormed(cfg) && Inv(cfg, s) && Done(cfg, s)
    ensures multiset(s.committed) + multiset(s.retryUpload) + multiset(Flatten(s.retryCommit)) + multiset(s.terminal)
      == multiset(Range(0, |cfg.files|))
  {
    SettledPlaces(s, cfg.sizes);
  }

  /** When the last batch is consumed, nothing is in flight. */
  lemma SettledPlaces(s: State, sizes: seq<nat>)
    requires s.committer == Waiting(|sizes|) && Places(s) == multiset(Range(0, Start(sizes, |sizes|)))
    ensures multiset(s.committed) + multiset(s.retryUpload) + multiset(Flatten(s.retryCommit)) + multiset(s.terminal)
      == multiset(Range(0, Sum(sizes)))
  {
    assert sizes[..|sizes|] == sizes;
    assert multiset(InFlight(s.committer)) == multiset{};
  }

  /** Conservation: when the pipeline is over every pending file is in exactly one of the four lists, once. */
  lemma DoneSettlesEveryFile(cfg: Config, ready: map<Oid, bool>, states: seq<State>, steps: seq<Step>)
    requires WellFormed(cfg) && InitialReady(cfg, ready) && IsRun(cfg, ready, states, steps)
    requires Done(cfg, states[|steps|])
    ensures var s := states[|steps|];
      multiset(s.committed) + multiset(s.retryUpload) + multiset(Flatten(s.retryCommit)) + multiset(s.terminal)
        == multiset(Range(0, |cfg.files|))
  {
    RunKeepsInv(cfg, ready, states, steps, |steps|);
    DoneStateSettles(cfg, states[|steps|]);
  }

  /** Deadlock freedom: until the pipeline is over some step can be taken.  A worker never waits for another. */
  lemma SomeStepIsEnabled(cfg: Config, s: State)
    requires WellFormed(cfg) && Inv(cfg, s) && !Done(cfg, s)
    ensures exists step :: Enabled(cfg, s, step)
  {
    if s.committer.Sending? {
      assert Enabled(cfg, s, Send(Landed));
    } else {
      var b := s.committer.batch;
      CompleteIffAllReported(s.log, cfg.sizes, b);
      if Complete(s.log, cfg.sizes, b) {
        assert Enabled(cfg, s, Collect);
      } else {
        var i: nat :| InBatch(cfg.sizes, b, i) && !HasReport(s.log, i);
        StartStep(cfg.sizes, b);
        match s.workers[i]
        case Queued => assert Enabled(cfg, s, Transfer(i, true, true));
        case Moved(_) => assert Enabled(cfg, s, Publish(i));
        case Published(_) => assert Enabled(cfg, s, Report(i));
      }
    }
  }

  function Rank(w: Worker): nat {
    match w case Queued => 3 case Moved(_) => 2 case Published(_) => 1 case Finished(_) => 0
  }

  function Ranks(ws: seq<Worker>): nat {
    if ws == [] then 0 else Ranks(ws[..|ws| - 1]) + Rank(ws[|ws| - 1])
  }

  lemma {:induction false} RanksUpdate(ws: seq<Worker>, i: nat, w: Worker)
    requires i < |ws|
    ensures Ranks(ws[i := w]) == Ranks(ws) - Rank(ws[i]) + Rank(w)
  {
    var n := |ws| - 1;
    if i < n {
      RanksUpdate(ws[..n], i, w);
      assert ws[i := w][..n] == ws[..n][i := w];
    } else {
      assert ws[i := w][..n] == ws[..n];
    }
  }

  /** What is left to do. */
  function Remaining(cfg: Config, s: State): int {
    Ranks(s.workers) + 2 * (|cfg.sizes| - s.committer.batch) - (if s.committer.Sending? then 1 else 0)
  }

  lemma RemainingIsNatural(cfg: Config, s: State)
    requires Inv(cfg, s)
    ensures Remaining(cfg, s) >= 0
  {
  }

  /** Every step makes progress, so with deadlock freedom every run ends, and the committer never waits for ever. */
  lemma StepsDecreaseRemaining(cfg: Config, s: State, step: Step)
    requires Sized(cfg, s) && Enabled(cfg, s, step)
    ensures Remaining(cfg, Apply(cfg, s, step)) < Remaining(cfg, s)
  {
    match step
    case Transfer(i, ok, _) => RanksUpdate(s.workers, i, Moved(ok));
    case Publish(i) => RanksUpdate(s.workers, i, Published(s.workers[i].ok));
    case Report(i) => RanksUpdate(s.workers, i, Finished(s.workers[i].ok));
    case Collect =>
    case Send(_) =>
  }

  lemma {:induction false} AllQueued(ws: seq<Worker>)
    requires forall i | 0 <= i < |ws| :: ws[i] == Queued
    ensures Ranks(ws) == 3 * |ws|
  {
    if ws != [] {
      AllQueued(ws[..|ws| - 1]);
    }
  }

  lemma {:induction false} RemainingAt(
    cfg: Config, ready: map<Oid, bool>, states: seq<State>, steps: seq<Step>, k: nat)
    requires IsRun(cfg, ready, states, steps) && k < |states|
    ensures k + Remaining(cfg, states[k]) <= 3 * |cfg.files| + 2 * |cfg.sizes|
  {
    if k == 0 {
      AllQueued(states[0].workers);
    } else {
      RemainingAt(cfg, ready, states, steps, k - 1);
      StepsDecreaseRemaining(cfg, states[k - 1], steps[k - 1]);
    }
  }

  /** So no run has more than three steps per file and two per batch. */
  lemma RunsAreBounded(cfg: Config, ready: map<Oid, bool>, states: seq<State>, steps: seq<Step>)
    requires WellFormed(cfg) && InitialReady(cfg, ready) && IsRun(cfg, ready, states, steps)
    ensures |steps| <= 3 * |cfg.files| + 2 * |cfg.sizes|
  {
    RunKeepsInv(cfg, ready, states, steps, |steps|);
    RemainingIsNatural(cfg, states[|steps|]);
    RemainingAt(cfg, ready, states, steps, |steps|);
  }
}
