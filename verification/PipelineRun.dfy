/** The pipeline of one folder upload as the code runs it: workers in any order, the tracker that joins them to the
    committer, and the committer that takes the batches in order.  Every execution is a run of the protocol. */
module PipelineRun {
  import opened UploadTypes
  import opened HubServing
  import opened UploadTracking
  import opened CommitRecovery
  import opened ReuploadRecovery
  import opened BatchTracking
  import opened PipelineSteps
  import Pipe = UploadPipeline

  function Idle(n: nat): (workers: seq<Pipe.Worker>)
    ensures |workers| == n && forall i | 0 <= i < n :: workers[i] == Pipe.Queued
  {
    if n == 0 then [] else Idle(n - 1) + [Pipe.Queued]
  }

  /** The first worker that has not finished, if there is one. */
  method FindBusy(workers: seq<Pipe.Worker>) returns (i: nat)
    ensures i <= |workers| && (i < |workers| ==> !workers[i].Finished?)
    ensures forall k | 0 <= k < i :: workers[k].Finished?
  {
    i := 0;
    while i < |workers| && workers[i].Finished?
      invariant i <= |workers| && forall k | 0 <= k < i :: workers[k].Finished?
    {
      i := i + 1;
    }
  }

  /** What worker i does next; a transfer succeeds. */
  function WorkerStep(worker: Pipe.Worker, i: nat): Pipe.Step
    requires !worker.Finished?
  {
    match worker
    case Queued => Pipe.Transfer(i, true, true)
    case Moved(_) => Pipe.Publish(i)
    case Published(_) => Pipe.Report(i)
  }

  /** The run of the protocol that has not taken a step. */
  lemma Begun(cfg: Pipe.Config, ready: map<Oid, bool>, books: Books) returns (tr: Trace)
    requires Pipe.WellFormed(cfg) && Pipe.InitialReady(cfg, ready)
    ensures Ran(cfg, ready, tr) && tr.steps == [] && tr.now.store == cfg.stored && tr.now.workers == Idle(|cfg.files|)
    ensures tr.now.ready == ready && tr.now.log == [] && tr.now.committer == Pipe.Waiting(0)
    ensures Matches(cfg, tr.now, Handover([], [], [], []))
    ensures Follows(cfg, books, books, tr.now.workers, [])
  {
    Pipe.InitEstablishesInv(cfg, ready);
    tr := Trace([Pipe.Initial(cfg, ready)], [], Pipe.Initial(cfg, ready));
  }

  // ---- The pipeline ------------------------------------------------------------------------------------------------

  /** Workers and committer of one run.  `states` and `steps` record what happened, for the proof only. */
  class Pipeline {
    const server: HubServer
    const tracker: UploadTracker
    const batches: BatchTracker
    const cfg: Pipe.Config
    const owners: map<Oid, nat>
    const firstReady: map<Oid, bool>
    ghost const firstBooks: Books
    ghost const firstCommit: nat
    var workers: seq<Pipe.Worker>
    var ready: map<Oid, bool>
    var committer: Pipe.Committer
    var handover: Handover
    var failedInRow: nat
    ghost var trace: Trace

    /** The objects are in the state that the run has reached. */
    ghost predicate Linked()
      reads this, server, batches
    {
      var now := trace.now;
      && now.store == server.store && now.workers == workers && now.ready == ready && now.committer == committer
      && now.log == batches.log && batches.sizes == cfg.sizes && |batches.ownerOf| == |cfg.files|
    }

    ghost predicate Valid()
      reads this, server, tracker, batches
    {
      && Ran(cfg, firstReady, trace) && Linked() && owners == Pipe.Owners(cfg)
      && Sound(server, tracker) && batches.Valid()
      && Matches(cfg, trace.now, handover)
      && Follows(cfg, firstBooks, BooksOf(server, tracker), workers, handover.committed)
      && (forall f | f in handover.committed :: f in server.landed)
      && Graded(handover) && Blameless() && Planned(cfg, server.limits)
    }

    /** What failed for good was refused for good. */
    ghost predicate Blameless()
      reads this, server
    {
      && firstCommit <= server.commitCalls
      && (OnlyTransient(server.commits, firstCommit, server.commitCalls) ==> handover.terminal == [])
    }

    /** The commits that failed in a row were sent one after another, and all were refused. */
    ghost predicate Scored()
      reads this, server
    {
      InARow(server.commits, server.commitCalls, failedInRow) && failedInRow <= server.commitCalls - firstCommit
    }

    constructor (server: HubServer, tracker: UploadTracker, batches: BatchTracker, cfg: Pipe.Config,
                 owners: map<Oid, nat>, ready: map<Oid, bool>)
      requires Pipe.WellFormed(cfg) && Pipe.InitialReady(cfg, ready) && owners == Pipe.Owners(cfg)
      requires Sound(server, tracker) && server.store == cfg.stored && Planned(cfg, server.limits)
      requires batches.Valid() && batches.sizes == cfg.sizes && batches.log == []
      ensures Valid() && trace.steps == [] && firstReady == ready && firstBooks == BooksOf(server, tracker)
      ensures firstCommit == server.commitCalls && Scored()
      ensures this.server == server && this.tracker == tracker && this.batches == batches && this.cfg == cfg
      ensures handover == Handover([], [], [], []) && failedInRow == 0
    {
      this.server, this.tracker, this.batches, this.cfg, this.owners := server, tracker, batches, cfg, owners;
      workers, this.ready, committer := Idle(|cfg.files|), ready, Pipe.Waiting(0);
      handover, failedInRow := Handover([], [], [], []), 0;
      firstBooks, firstCommit := BooksOf(server, tracker), server.commitCalls;
      firstReady := ready;
      ghost var begun := Begun(cfg, ready, BooksOf(server, tracker));
      trace := begun;
    }

    /** A worker has moved on. */
    method WorkerMoved(ws: seq<Pipe.Worker>, rd: map<Oid, bool>, ghost tr: Trace)
      requires Ran(cfg, firstReady, tr) && Matches(cfg, tr.now, handover)
      requires owners == Pipe.Owners(cfg) && Sound(server, tracker) && batches.Valid() && Planned(cfg, server.limits)
      requires Follows(cfg, firstBooks, BooksOf(server, tracker), ws, handover.committed)
      requires (forall f | f in handover.committed :: f in server.landed) && Graded(handover) && Blameless()
      requires batches.sizes == cfg.sizes && |batches.ownerOf| == |cfg.files|
      requires tr.now.store == server.store && tr.now.log == batches.log && tr.now.committer == committer
      requires tr.now.workers == ws && tr.now.ready == rd
      modifies `workers, `ready, `trace
      ensures Valid() && trace == tr
    {
      workers, ready, trace := ws, rd, tr;
    }

    /** Worker i handles its blob as its ticket says; `ok` and `stored` are what came of it. */
    method Transfer(i: nat, ok: bool, stored: bool)
      requires Valid() && i < |workers| && workers[i].Queued?
      modifies `workers, `ready, `trace, server`store, tracker
      ensures Valid() && trace.steps == old(trace).steps + [Pipe.Transfer(i, ok, stored)]
    {
      ghost var b := BooksOf(server, tracker);
      MoveBlob(server, tracker, cfg, i, ok, stored);
      TransferFollows(cfg, firstBooks, b, BooksOf(server, tracker), workers, i, Pipe.Moved(ok), handover.committed);
      ghost var tr := NoteTransfer(cfg, firstReady, trace, handover, i, ok, stored);
      WorkerMoved(workers[i := Pipe.Moved(ok)], ready, tr);
    }

    method Publish(i: nat)
      requires Valid() && i < |workers| && workers[i].Moved?
      modifies `workers, `ready, `trace
      ensures Valid() && trace.steps == old(trace).steps + [Pipe.Publish(i)]
    {
      var oid, ok := cfg.files[i].oid, workers[i].ok;
      var mine := cfg.hashed[i] && oid in owners && owners[oid] == i;
      WorkerFollows(cfg, firstBooks, BooksOf(server, tracker), workers, i, Pipe.Published(ok), handover.committed);
      ghost var tr := NotePublish(cfg, firstReady, trace, handover, i);
      WorkerMoved(workers[i := Pipe.Published(ok)], if mine then ready[oid := ok] else ready, tr);
    }

    method Report(i: nat)
      requires Valid() && i < |workers| && workers[i].Published?
      modifies `workers, `ready, `trace, batches
      ensures Valid() && trace.steps == old(trace).steps + [Pipe.Report(i)]
    {
      var ok := workers[i].ok;
      batches.RecordOutcome(i, ok);
      WorkerFollows(cfg, firstBooks, BooksOf(server, tracker), workers, i, Pipe.Finished(ok), handover.committed);
      ghost var tr := NoteReport(cfg, firstReady, trace, handover, i);
      WorkerMoved(workers[i := Pipe.Finished(ok)], ready, tr);
    }

    /** The committer has moved on. */
    method Advance(c: Pipe.Committer, h: Handover, row: nat, ghost tr: Trace)
      requires Graded(h) && firstCommit <= server.commitCalls
      requires OnlyTransient(server.commits, firstCommit, server.commitCalls) ==> h.terminal == []
      requires Ran(cfg, firstReady, tr) && Matches(cfg, tr.now, h) && forall f | f in h.committed :: f in server.landed
      requires owners == Pipe.Owners(cfg) && Sound(server, tracker) && batches.Valid() && Planned(cfg, server.limits)
      requires Follows(cfg, firstBooks, BooksOf(server, tracker), tr.now.workers, h.committed)
      requires batches.sizes == cfg.sizes && |batches.ownerOf| == |cfg.files|
      requires tr.now.store == server.store && tr.now.workers == workers
      requires tr.now.ready == ready && tr.now.log == batches.log && tr.now.committer == c
      modifies `committer, `handover, `failedInRow, `trace
      ensures Valid() && committer == c && handover == h && failedInRow == row && trace == tr
    {
      committer, handover, failedInRow, trace := c, h, row, tr;
    }

    /** The committer takes the next batch: failures and held back copies go to recovery, the rest to a commit. */
    method Collect(errors: FileItem -> Error)
      requires Valid() && committer.Waiting? && committer.batch < |cfg.sizes| && batches.events[committer.batch]
      modifies `committer, `handover, `failedInRow, `trace
      ensures Valid() && trace.steps == old(trace).steps + [Pipe.Collect] && failedInRow == old(failedInRow)
      ensures handover == old(handover).(retryUpload := handover.retryUpload)
      ensures AllRetryable(old(handover).retryUpload) && (forall f :: errors(f).retryable)
        ==> AllRetryable(handover.retryUpload)
    {
      var b := committer.batch;
      var committable: seq<nat>;
      var h: Handover;
      ghost var tr: Trace;
      committable, h, tr := ConsumeBatch(batches, cfg, owners, ready, b, handover, errors, firstReady, trace);
      Advance(AfterCollect(b, committable), h, failedInRow, tr);
    }

    /** The commit goes out, and its files are noted by the reply. */
    method Send() returns (reply: CommitReply)
      requires Valid() && committer.Sending?
      modifies `committer, `handover, `failedInRow, `trace, server`commitCalls, server`landed, server`sent, tracker
      ensures Valid() && trace.steps == old(trace).steps + [Pipe.Send(reply)]
      ensures failedInRow == if reply.Landed? then 0 else old(failedInRow) + 1
      ensures old(server.landed) <= server.landed
      ensures handover.retryUpload == old(handover).retryUpload
      ensures server.commitCalls == old(server.commitCalls) + 1
      ensures reply.Refused? ==> MayRefuse(server.commits, old(server.commitCalls), reply.error.retryable)
    {
      var h: Handover;
      ghost var tr: Trace;
      var next := Pipe.Waiting(committer.batch + 1);
      reply, h, tr := CommitBatchOf(server, tracker, cfg, committer, handover, firstReady, trace, firstBooks);
      Advance(next, h, if reply.Landed? then 0 else failedInRow + 1, tr);
    }

    /** A worker may move at any time, and the committer takes a batch when no commit is about to go out. */
    predicate CanTake(step: Pipe.Step)
      reads this, batches
    {
      match step
      case Transfer(i, _, _) => i < |workers| && workers[i].Queued?
      case Publish(i) => i < |workers| && workers[i].Moved?
      case Report(i) => i < |workers| && workers[i].Published?
      case Collect =>
        committer.Waiting? && committer.batch < |batches.events| && batches.events[committer.batch]
      case Send(_) => false
    }

    /** Something a worker or the committer can do when no commit is about to go out. */
    method PickStep() returns (step: Pipe.Step)
      requires Valid() && committer.Waiting? && committer.batch < |cfg.sizes|
      ensures CanTake(step)
    {
      if batches.events[committer.batch] {
        return Pipe.Collect;
      }
      var i := FindBusy(workers);
      if i == |workers| {
        AllDoneIsComplete(cfg, firstReady, trace, committer.batch);
        assert false;
      }
      step := WorkerStep(workers[i], i);
    }

    /** Take a step other than a commit. */
    method Take(step: Pipe.Step, errors: FileItem -> Error)
      requires Valid() && CanTake(step)
      modifies `workers, `ready, `committer, `handover, `failedInRow, `trace, server`store, tracker, batches
      ensures Valid() && trace.steps == old(trace).steps + [step] && failedInRow == old(failedInRow)
      ensures AllRetryable(old(handover).retryUpload) && (forall f :: errors(f).retryable)
        ==> AllRetryable(handover.retryUpload)
    {
      match step
      case Transfer(i, ok, stored) => Transfer(i, ok, stored);
      case Publish(i) => Publish(i);
      case Report(i) => Report(i);
      case Collect =>
        Collect(errors);
    }

    /** Take `wanted` if it can be taken, else some step that is found. */
    method TakeAny(wanted: Pipe.Step, errors: FileItem -> Error)
      requires Valid() && !Over() && (CanTake(wanted) || committer.Waiting?)
      modifies `workers, `ready, `committer, `handover, `failedInRow, `trace, server`store, tracker, batches
      ensures Valid() && |trace.steps| == |old(trace).steps| + 1 && failedInRow == old(failedInRow)
      ensures old(CanTake(wanted)) ==> trace.steps == old(trace).steps + [wanted]
      ensures AllRetryable(old(handover).retryUpload) && (forall f :: errors(f).retryable)
        ==> AllRetryable(handover.retryUpload)
    {
      var step := wanted;
      if !CanTake(wanted) {
        step := PickStep();
      }
      Take(step, errors);
    }

    /** Send, and say when too many commits have failed in a row. */
    method SendAndScore(maxFailedInRow: int) returns (aborted: bool)
      requires Valid() && Scored() && committer.Sending?
      modifies this, server`commitCalls, server`landed, server`sent, tracker
      ensures Valid() && Scored() && old(server.landed) <= server.landed
      ensures |trace.steps| == |old(trace).steps| + 1
      ensures failedInRow == 0 || failedInRow == old(failedInRow) + 1
      ensures aborted <==> failedInRow > 0 && failedInRow >= maxFailedInRow
      ensures handover.retryUpload == old(handover).retryUpload
    {
      ghost var hi, n := server.commitCalls, failedInRow;
      var reply := Send();
      RowGoesOn(server.commits, hi, n, reply);
      aborted := reply.Refused? && failedInRow >= maxFailedInRow;
    }

    /** One turn: `wanted` is done if it can be, else a commit that is ready goes out, else some step is found.  The run
        is aborted exactly when a commit has failed that makes too many in a row. */
    method Turn(wanted: Pipe.Step, errors: FileItem -> Error, maxFailedInRow: int) returns (aborted: bool)
      requires Valid() && Scored() && !Over()
      modifies this, server`store, server`commitCalls, server`landed, server`sent, tracker, batches
      ensures Valid() && Scored() && old(server.landed) <= server.landed
      ensures |old(trace).steps| < |trace.steps| <= 3 * |cfg.files| + 2 * |cfg.sizes|
      ensures old(CanTake(wanted)) ==> !aborted && trace.steps == old(trace).steps + [wanted]
      ensures failedInRow in {0, old(failedInRow), old(failedInRow) + 1}
      ensures aborted <==> failedInRow > old(failedInRow) && failedInRow >= maxFailedInRow
      ensures AllRetryable(old(handover).retryUpload) && (forall f :: errors(f).retryable)
        ==> AllRetryable(handover.retryUpload)
    {
      if !CanTake(wanted) && committer.Sending? {
        aborted := SendAndScore(maxFailedInRow);
      } else {
        TakeAny(wanted, errors);
        aborted := false;
      }
      StepsAreBounded(cfg, firstReady, trace);
    }

    predicate Over()
      reads this
    {
      committer.Waiting? && committer.batch >= |cfg.sizes|
    }

    /** The whole pipeline: workers and committer take turns in any order, until the last batch is consumed or too
        many commits in a row have failed. */
    method Run(schedule: nat -> Pipe.Step, errors: FileItem -> Error, maxFailedInRow: int) returns (aborted: bool)
      requires Valid() && Scored() && handover == Handover([], [], [], []) && failedInRow == 0
      modifies this, server`store, server`commitCalls, server`landed, server`sent, tracker, batches
      ensures Valid() && Scored() && old(server.landed) <= server.landed
      ensures aborted <==> failedInRow > 0 && failedInRow >= maxFailedInRow
      ensures !aborted ==> Pipe.Done(cfg, trace.now)
      ensures (forall f :: errors(f).retryable) ==> AllRetryable(handover.retryUpload)
    {
      var turn := 0;
      while !Over()
        invariant Valid() && Scored() && old(server.landed) <= server.landed
        invariant failedInRow == 0 || failedInRow < maxFailedInRow
        invariant (forall f :: errors(f).retryable) ==> AllRetryable(handover.retryUpload)
        decreases 3 * |cfg.files| + 2 * |cfg.sizes| - |trace.steps|
      {
        aborted := Turn(schedule(turn), errors, maxFailedInRow);
        if aborted {
          return;
        }
        turn := turn + 1;
      }
      aborted := false;
    }
  }
}
