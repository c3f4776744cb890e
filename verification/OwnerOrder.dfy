/** When the owner of a content is certain to be finished before a copy of it is committed.  The committer reads the
    outcome of an owner without waiting for it; this is the exact condition under which that is sound. */
module OwnerOrder {
  import opened UploadTypes
  import opened BatchTracking
  import opened UploadPipeline

  // ---- A run that does no more than it has to ---------------------------------------------------------------------

  /** Workers below n are done and successful, the others have not begun, and the committer waits for batch b. */
  ghost predicate Steady(cfg: Config, s: State, n: nat, b: nat)
    requires Sized(cfg, s)
  {
    && s.committer == Waiting(b) && n <= |cfg.files| && b <= |cfg.sizes|
    && (forall j | 0 <= j < |cfg.files| :: s.workers[j] == if j < n then Finished(true) else Queued)
    && (forall j | 0 <= j < n && cfg.files[j].IsLfs() && TicketOf(cfg, j) == Negotiate :: cfg.files[j].oid in s.store)
  }

  ghost predicate Reaches(cfg: Config, ready: map<Oid, bool>, states: seq<State>, steps: seq<Step>, n: nat, b: nat) {
    && WellFormed(cfg) && IsRun(cfg, ready, states, steps) && Inv(cfg, states[|steps|])
    && Steady(cfg, states[|steps|], n, b)
  }

  lemma Extend(cfg: Config, ready: map<Oid, bool>, states: seq<State>, steps: seq<Step>, step: Step)
    returns (states': seq<State>, steps': seq<Step>)
    requires WellFormed(cfg) && InitialReady(cfg, ready) && IsRun(cfg, ready, states, steps)
    requires Inv(cfg, states[|steps|]) && Enabled(cfg, states[|steps|], step)
    ensures IsRun(cfg, ready, states', steps') && Inv(cfg, states'[|steps'|])
    ensures states'[|steps'|] == Apply(cfg, states[|steps|], step)
  {
    RunSnoc(cfg, ready, states, steps, step);
    StepKeepsInv(cfg, states[|steps|], step);
    states', steps' := states + [Apply(cfg, states[|steps|], step)], steps + [step];
  }

  /** What the three steps of worker n do, as far as `Steady` looks. */
  lemma WorkerGoes(cfg: Config, s: State, n: nat, b: nat)
    requires Sized(cfg, s) && Steady(cfg, s, n, b) && n < |cfg.files|
    ensures Enabled(cfg, s, Transfer(n, true, true))
    ensures var t := Apply(cfg, s, Transfer(n, true, true));
      && t.workers == s.workers[n := Moved(true)] && t.committer == s.committer && s.store <= t.store
      && (cfg.files[n].IsLfs() && TicketOf(cfg, n) == Negotiate ==> cfg.files[n].oid in t.store)
  {
  }

  lemma FinishWorker(cfg: Config, ready: map<Oid, bool>, states: seq<State>, steps: seq<Step>, n: nat, b: nat)
    returns (states': seq<State>, steps': seq<Step>)
    requires InitialReady(cfg, ready) && Reaches(cfg, ready, states, steps, n, b) && n < |cfg.files|
    ensures Reaches(cfg, ready, states', steps', n + 1, b)
  {
    var s := states[|steps|];
    WorkerGoes(cfg, s, n, b);
    states', steps' := Extend(cfg, ready, states, steps, Transfer(n, true, true));
    var t := states'[|steps'|];
    states', steps' := Extend(cfg, ready, states', steps', Publish(n));
    states', steps' := Extend(cfg, ready, states', steps', Report(n));
    var u := states'[|steps'|];
    assert u.workers == s.workers[n := Finished(true)] && u.store == t.store && u.committer == s.committer;
  }

  lemma {:induction false} FinishWorkers(cfg: Config, ready: map<Oid, bool>, states: seq<State>, steps: seq<Step>,
                                         n: nat, b: nat, m: nat)
    returns (states': seq<State>, steps': seq<Step>)
    requires InitialReady(cfg, ready) && Reaches(cfg, ready, states, steps, n, b) && n <= m <= |cfg.files|
    ensures Reaches(cfg, ready, states', steps', m, b)
    decreases m - n
  {
    if n == m {
      states', steps' := states, steps;
    } else {
      states', steps' := FinishWorker(cfg, ready, states, steps, n, b);
      states', steps' := FinishWorkers(cfg, ready, states', steps', n + 1, b, m);
    }
  }

  /** With all its files reported, batch b can be collected. */
  lemma CanCollect(cfg: Config, s: State, b: nat)
    requires WellFormed(cfg) && Inv(cfg, s) && b < |cfg.sizes| && Steady(cfg, s, Start(cfg.sizes, b + 1), b)
    ensures Enabled(cfg, s, Collect)
  {
    StartStep(cfg.sizes, b);
    forall i: nat | InBatch(cfg.sizes, b, i) ensures HasReport(s.log, i) {
      assert s.workers[i].Finished?;
    }
    CompleteIffAllReported(s.log, cfg.sizes, b);
  }

  lemma ConsumingKeepsSteady(cfg: Config, s: State, t: State, n: nat, b: nat)
    requires Sized(cfg, s) && Sized(cfg, t) && Steady(cfg, s, n, b) && b < |cfg.sizes|
    requires t.workers == s.workers && t.store == s.store && t.committer == Waiting(b + 1)
    ensures Steady(cfg, t, n, b + 1)
  {
  }

  /** What a step of the committer does, as far as `Steady` looks. */
  lemma CommitterGoes(cfg: Config, s: State, step: Step)
    requires Sized(cfg, s) && Enabled(cfg, s, step) && (step == Collect || step == Send(Landed))
    ensures var t := Apply(cfg, s, step);
      && t.workers == s.workers && t.store == s.store
      && (t.committer.Sending? ==> t.committer.batch == s.committer.batch)
      && (t.committer.Waiting? ==> t.committer == Waiting(s.committer.batch + 1))
      && (step == Send(Landed) ==> t.committer.Waiting?)
  {
  }

  /** A step of the committer, added to the run. */
  lemma CommitterStep(cfg: Config, ready: map<Oid, bool>, states: seq<State>, steps: seq<Step>, step: Step)
    returns (states': seq<State>, steps': seq<Step>)
    requires WellFormed(cfg) && InitialReady(cfg, ready) && IsRun(cfg, ready, states, steps)
    requires Inv(cfg, states[|steps|]) && Enabled(cfg, states[|steps|], step)
    requires step == Collect || step == Send(Landed)
    ensures IsRun(cfg, ready, states', steps') && Inv(cfg, states'[|steps'|])
    ensures var s, t := states[|steps|], states'[|steps'|];
      && t.workers == s.workers && t.store == s.store
      && (t.committer.Sending? ==> t.committer.batch == s.committer.batch)
      && (t.committer.Waiting? ==> t.committer == Waiting(s.committer.batch + 1))
      && (step == Send(Landed) ==> t.committer.Waiting?)
  {
    CommitterGoes(cfg, states[|steps|], step);
    states', steps' := Extend(cfg, ready, states, steps, step);
  }

  /** The committer takes the batch, and sends its commit if there is one. */
  lemma TakeBatch(cfg: Config, ready: map<Oid, bool>, states: seq<State>, steps: seq<Step>)
    returns (states': seq<State>, steps': seq<Step>)
    requires WellFormed(cfg) && InitialReady(cfg, ready) && IsRun(cfg, ready, states, steps)
    requires Inv(cfg, states[|steps|]) && Enabled(cfg, states[|steps|], Collect)
    ensures IsRun(cfg, ready, states', steps') && Inv(cfg, states'[|steps'|])
    ensures var s, t := states[|steps|], states'[|steps'|];
      t.workers == s.workers && t.store == s.store && t.committer == Waiting(s.committer.batch + 1)
  {
    states', steps' := CommitterStep(cfg, ready, states, steps, Collect);
    if states'[|steps'|].committer.Sending? {
      states', steps' := CommitterStep(cfg, ready, states', steps', Send(Landed));
    }
  }

  lemma ConsumeNext(cfg: Config, ready: map<Oid, bool>, states: seq<State>, steps: seq<Step>, b: nat)
    returns (states': seq<State>, steps': seq<Step>)
    requires InitialReady(cfg, ready) && b < |cfg.sizes| && Start(cfg.sizes, b + 1) <= |cfg.files|
    requires Reaches(cfg, ready, states, steps, Start(cfg.sizes, b + 1), b)
    ensures Reaches(cfg, ready, states', steps', Start(cfg.sizes, b + 1), b + 1)
  {
    CanCollect(cfg, states[|steps|], b);
    states', steps' := TakeBatch(cfg, ready, states, steps);
    ConsumingKeepsSteady(cfg, states[|steps|], states'[|steps'|], Start(cfg.sizes, b + 1), b);
  }

  /** Every batch can be reached with nothing but the files up to its end done. */
  lemma {:induction false} ReachBatch(cfg: Config, ready: map<Oid, bool>, b: nat)
    returns (states: seq<State>, steps: seq<Step>)
    requires WellFormed(cfg) && InitialReady(cfg, ready) && b < |cfg.sizes|
    ensures Reaches(cfg, ready, states, steps, Start(cfg.sizes, b + 1), b)
    ensures Enabled(cfg, states[|steps|], Collect)
  {
    StartStep(cfg.sizes, b);
    if b == 0 {
      states, steps := [Initial(cfg, ready)], [];
      InitEstablishesInv(cfg, ready);
    } else {
      states, steps := ReachBatch(cfg, ready, b - 1);
      StartStep(cfg.sizes, b - 1);
      states, steps := ConsumeNext(cfg, ready, states, steps, b - 1);
    }
    states, steps := FinishWorkers(cfg, ready, states, steps, if b == 0 then 0 else Start(cfg.sizes, b), b,
                                   Start(cfg.sizes, b + 1));
    CanCollect(cfg, states[|steps|], b);
  }

  // ---- The exact condition ----------------------------------------------------------------------------------------

  /** The run ends where the committer takes batch b. */
  ghost predicate CollectsAt(cfg: Config, ready: map<Oid, bool>, states: seq<State>, steps: seq<Step>, b: nat) {
    && IsRun(cfg, ready, states, steps) && Sized(cfg, states[|steps|])
    && Enabled(cfg, states[|steps|], Collect) && states[|steps|].committer.batch == b
  }

  /** Whenever batch b is taken, worker o has finished. */
  ghost predicate AlwaysFinished(cfg: Config, ready: map<Oid, bool>, b: nat, o: nat) {
    forall states: seq<State>, steps: seq<Step> | CollectsAt(cfg, ready, states, steps, b) ::
      o < |states[|steps|].workers| && states[|steps|].workers[o].Finished?
  }

  /** Whenever batch b is taken, file i is deferred exactly if the transfer by worker o has failed. */
  ghost predicate AlwaysJustified(cfg: Config, ready: map<Oid, bool>, b: nat, i: nat, o: nat)
    requires i < |cfg.files| == |cfg.hashed|
  {
    forall states: seq<State>, steps: seq<Step> | CollectsAt(cfg, ready, states, steps, b) ::
      o < |states[|steps|].workers|
      && (HeldBack(cfg, states[|steps|].ready, i) <==> states[|steps|].workers[o] == Finished(false))
  }

  lemma EarlyOwnerIsSettled(cfg: Config, ready: map<Oid, bool>, states: seq<State>, steps: seq<Step>, b: nat, i: nat)
    requires WellFormed(cfg) && InitialReady(cfg, ready) && CollectsAt(cfg, ready, states, steps, b)
    requires i < |cfg.files| && cfg.files[i].IsLfs() && cfg.files[i].oid in Owners(cfg)
    requires Owners(cfg)[cfg.files[i].oid] < Start(cfg.sizes, b + 1)
    ensures var s, o := states[|steps|], Owners(cfg)[cfg.files[i].oid];
      o < |s.workers| && s.workers[o].Finished? && (HeldBack(cfg, s.ready, i) <==> s.workers[o] == Finished(false))
  {
    RunKeepsInv(cfg, ready, states, steps, |steps|);
    OwnersAreFirst(cfg, |cfg.files|);
    CompleteMeansFinished(cfg, states[|steps|]);
  }

  /** A copy in front of its owner cannot have been hashed ahead, so it moves its content itself. */
  lemma CopyBeforeOwnerNegotiates(cfg: Config, i: nat)
    requires WellFormed(cfg) && i < |cfg.files| && cfg.files[i].oid in Owners(cfg) && i < Owners(cfg)[cfg.files[i].oid]
    ensures !cfg.hashed[i] && TicketOf(cfg, i) == Negotiate
  {
    OwnersAreFirst(cfg, |cfg.files|);
    if cfg.hashed[i] {
      assert Candidate(cfg, i);
    }
  }

  /** The bad run for every configuration in which the owner lies in a later batch: the copy succeeded, its content is
      stored, and it is deferred because the owner has not even begun. */
  lemma LateOwnerDefersCopy(cfg: Config, ready: map<Oid, bool>, b: nat, i: nat)
    returns (states: seq<State>, steps: seq<Step>)
    requires WellFormed(cfg) && InitialReady(cfg, ready) && b < |cfg.sizes| && InBatch(cfg.sizes, b, i)
    requires i < |cfg.files| && cfg.files[i].IsLfs() && cfg.files[i].oid in Owners(cfg)
    requires Owners(cfg)[cfg.files[i].oid] >= Start(cfg.sizes, b + 1)
    ensures CollectsAt(cfg, ready, states, steps, b)
    ensures var s, o := states[|steps|], Owners(cfg)[cfg.files[i].oid];
      && o < |s.workers| && s.workers[o] == Queued && s.workers[i] == Finished(true)
      && cfg.files[i].oid in s.store && HeldBack(cfg, s.ready, i)
  {
    states, steps := ReachBatch(cfg, ready, b);
    StartStep(cfg.sizes, b);
    OwnersAreFirst(cfg, |cfg.files|);
    CopyBeforeOwnerNegotiates(cfg, i);
  }

  /** Two files with the same content in two batches, of which only the second could be hashed ahead. */
  lemma HalfHashedPair() returns (cfg: Config)
    ensures WellFormed(cfg) && |cfg.files| == |cfg.hashed| == |cfg.sizes| == 2
    ensures Start(cfg.sizes, 0) == 0 && cfg.sizes[0] == 1
    ensures cfg.files[0].IsLfs() && cfg.files[0].oid == cfg.files[1].oid && TicketOf(cfg, 0) == Negotiate
    ensures Owners(cfg) == map[cfg.files[0].oid := 1]
  {
    var a := FileItem("a", 1, 0, 9, false, true, 0, "x");
    var b := FileItem("b", 1, 0, 9, false, true, 0, "x");
    cfg := Config([a, b], [1, 1], [false, true], map["x" := NeedsUpload], {});
    assert Sum([1, 1]) == 2 by {
      SumSnoc([1], 1);
      SumSnoc([], 1);
      assert [1, 1] == [1] + [1];
    }
    assert Owners(cfg) == map["x" := 1] by {
      assert OwnersUpTo(cfg, 1) == map[];
    }
  }

  /** There are such configurations: a file that could not be hashed ahead of the pipeline negotiates its own transfer;
      when a later file with the same content owns the blob, the first one is held back although it succeeded and its
      content is stored. */
  lemma UnhashedCopyMayBeHeldBack() returns (cfg: Config, states: seq<State>, steps: seq<Step>)
    ensures WellFormed(cfg) && CollectsAt(cfg, map[], states, steps, 0)
    ensures var s := states[|steps|];
      && |cfg.files| == 2 && InBatch(cfg.sizes, 0, 0) && s.workers[0] == Finished(true)
      && cfg.files[0].oid in s.store && HeldBack(cfg, s.ready, 0)
  {
    cfg := HalfHashedPair();
    StartStep(cfg.sizes, 0);
    states, steps := LateOwnerDefersCopy(cfg, map[], 0, 0);
  }

  /** What the comment at the election promises, and when: the owner of the content of a file has finished whenever
      the file's batch is taken, and the file is deferred only for a failed transfer, if and only if the owner lies
      in that batch or an earlier one. */
  lemma OwnerFinishesFirstExactly(cfg: Config, ready: map<Oid, bool>, b: nat, i: nat)
    requires WellFormed(cfg) && InitialReady(cfg, ready) && b < |cfg.sizes| && InBatch(cfg.sizes, b, i)
    requires i < |cfg.files| && cfg.files[i].IsLfs() && cfg.files[i].oid in Owners(cfg)
    ensures var o := Owners(cfg)[cfg.files[i].oid];
      && (AlwaysFinished(cfg, ready, b, o) <==> o < Start(cfg.sizes, b + 1))
      && (AlwaysJustified(cfg, ready, b, i, o) <==> o < Start(cfg.sizes, b + 1))
  {
    var o := Owners(cfg)[cfg.files[i].oid];
    if o < Start(cfg.sizes, b + 1) {
      forall states: seq<State>, steps: seq<Step> | CollectsAt(cfg, ready, states, steps, b)
        ensures o < |states[|steps|].workers| && states[|steps|].workers[o].Finished?
        ensures HeldBack(cfg, states[|steps|].ready, i) <==> states[|steps|].workers[o] == Finished(false)
      {
        EarlyOwnerIsSettled(cfg, ready, states, steps, b, i);
      }
    } else {
      var states, steps := LateOwnerDefersCopy(cfg, ready, b, i);
      assert CollectsAt(cfg, ready, states, steps, b);
    }
  }

  /** Files that were hashed ahead always meet the condition. */
  lemma HashedFilesAreSafe(cfg: Config, b: nat, i: nat)
    requires WellFormed(cfg) && b < |cfg.sizes| && InBatch(cfg.sizes, b, i)
    requires i < |cfg.files| && cfg.hashed[i] && cfg.files[i].oid in Owners(cfg)
    ensures Owners(cfg)[cfg.files[i].oid] < Start(cfg.sizes, b + 1)
  {
    StartStep(cfg.sizes, b);
    OwnersAreFirst(cfg, |cfg.files|);
    assert Candidate(cfg, i);
  }
}
