/** The recovery budget of one file: shared by everything that retries it, and kept across runs and crashes. */
module RecoveryBudgets {
  import opened Options
  import opened DownloadLedger

  datatype Policy = Policy(maxRetries: nat, maxDelay: real, timeout: real)

  datatype Decision = Decision(granted: bool, retries: nat, seconds: real)

  /** What one request for a retry does to the budget: the time since the last progress is always charged, the retry
      and its delay only if they are granted. */
  function Decide(policy: Policy, retries: nat, seconds: real, elapsed: real, delay: real): Decision {
    var spent := seconds + elapsed;
    if delay > policy.maxDelay then Decision(false, retries, spent)
    else if retries >= policy.maxRetries || spent + delay >= policy.timeout then Decision(false, retries, spent)
    else Decision(true, retries + 1, spent + delay)
  }

  lemma Overwrite(records: map<string, Record>, path: string, first: Record, second: Record)
    ensures records[path := first][path := second] == records[path := second]
  {
  }

  /** One object per transfer; all range parts of the file share it, and its lock makes each call one step. */
  class RecoveryBudget {
    const policy: Policy
    const path: string
    var retries: nat
    var seconds: real

    constructor (policy: Policy, begun: Record)
      ensures this.policy == policy && path == begun.path && retries == begun.retries && seconds == begun.seconds
    {
      this.policy, path, retries, seconds := policy, begun.path, begun.retries, begun.seconds;
    }

    /** Grants or refuses a retry.  The new count is on disk before the caller learns that it may go on. */
    method Retry(state: DownloadState, elapsed: real, delay: real) returns (granted: bool)
      requires state.Valid() && path in state.active
      modifies `retries, `seconds, state`active, state`exceptions, state`disk
      ensures state.Valid()
      ensures Decision(granted, retries, seconds) == Decide(policy, old(retries), old(seconds), elapsed, delay)
      ensures granted <==>
        && delay <= policy.maxDelay && old(retries) < policy.maxRetries
        && old(seconds) + elapsed + delay < policy.timeout
      ensures retries == old(retries) + (if granted then 1 else 0)
      ensures seconds == old(seconds) + elapsed + (if granted then delay else 0.0)
      ensures state.active[path] == old(state.active)[path].(retries := retries, seconds := seconds)
      ensures state.active == old(state.active)[path := state.active[path]]
      ensures state.disk == state.exceptions == old(state.exceptions)[path := state.active[path]]
    {
      seconds := seconds + elapsed;
      state.Budget(path, retries, seconds);
      if delay > policy.maxDelay {
        return false;
      }
      if retries >= policy.maxRetries || seconds + delay >= policy.timeout {
        return false;
      }
      ghost var records, kept, mark := old(state.active), old(state.exceptions), state.active[path];
      retries, seconds := retries + 1, seconds + delay;
      state.Budget(path, retries, seconds);
      Overwrite(records, path, mark, state.active[path]);
      Overwrite(kept, path, mark, state.active[path]);
      granted := true;
    }
  }

  // ---- Many runs over one file -----------------------------------------------------------------------------------

  /** What a process knows about the file: the in-memory copy of its tracker entry, its record while it is open, and
      whether a budget was made for it. */
  datatype Process = Process(kept: Option<Record>, active: Option<Record>, budgeted: bool, selected: bool)

  /** The tracker entry on disk, the running process if any, and what was granted to the file since it was last
      verified or reset. */
  datatype State = State(disk: Option<Record>, process: Option<Process>, granted: nat, waited: real)

  /** `Died` is a kill inside Retry, after the given number of its writes; `SaveOther` is a write of the tracker on
      behalf of another file. */
  datatype Event =
    | Launch
    | Select
    | Begin(reset: bool)
    | Retry(elapsed: real, delay: real)
    | Died(elapsed: real, delay: real, writes: nat)
    | Finish(status: Status, error: Option<string>)
    | SaveOther
    | Kill

  predicate Quarantined(record: Record) {
    record.status == Failed || record.status == Deferred
  }

  /** A quarantined file is begun only with an explicit reset, which is possible for no other file. */
  predicate Enabled(s: State, event: Event) {
    match event
    case Launch => s.process == None
    case Select => s.process.Some? && !s.process.value.selected
    case Begin(reset) =>
      && s.process.Some? && s.process.value.active.Some? && !s.process.value.budgeted
      && (reset <==> Quarantined(s.process.value.active.value))
    case Retry(elapsed, delay) => s.process.Some? && s.process.value.budgeted && elapsed >= 0.0 && delay >= 0.0
    case Died(elapsed, delay, _) => s.process.Some? && s.process.value.budgeted && elapsed >= 0.0 && delay >= 0.0
    case Finish(status, _) => s.process.Some? && s.process.value.active.Some? && status.IsOutcome()
    case SaveOther => s.process.Some?
    case Kill => s.process.Some?
  }

  function Charged(record: Record, retries: nat, seconds: real): Option<Record> {
    Some(record.(retries := retries, seconds := seconds))
  }

  function Apply(policy: Policy, path: string, meta: Metadata, s: State, event: Event): State
    requires WellFormed(s) && Enabled(s, event)
  {
    match event
    case Launch =>
      var kept := if s.disk.Some? then Some(Recovered(s.disk.value)) else None;
      s.(process := Some(Process(kept, None, false, false)))
    case Select =>
      var kept := s.process.value.kept;
      var active := Some(Selected(kept, path, meta));
      if kept.Some? && kept.value.meta != meta then
        s.(disk := None, process := Some(Process(None, active, false, true)))
      else s.(process := Some(Process(kept, active, false, true)))
    case Begin(reset) =>
      var p := s.process.value;
      var next := s.(process := Some(p.(active := Some(Begun(p.active.value, reset)), budgeted := true)));
      if reset then next.(granted := 0, waited := 0.0) else next
    case Retry(elapsed, delay) =>
      var p := s.process.value;
      var d := Decide(policy, p.active.value.retries, p.active.value.seconds, elapsed, delay);
      var charged := Charged(p.active.value, d.retries, d.seconds);
      State(charged, Some(p.(kept := charged, active := charged)),
            if d.granted then s.granted + 1 else s.granted, if d.granted then s.waited + delay else s.waited)
    case Died(elapsed, delay, writes) =>
      var record := s.process.value.active.value;
      var d := Decide(policy, record.retries, record.seconds, elapsed, delay);
      var disk := if writes == 0 then s.disk
                  else if writes == 1 then Charged(record, record.retries, record.seconds + elapsed)
                  else Charged(record, d.retries, d.seconds);
      s.(disk := disk, process := None)
    case Finish(status, error) =>
      var p := s.process.value;
      var kept := Remembered(Ended(p.active.value, status, error));
      var next := s.(disk := if p.kept == kept then s.disk else kept,
                     process := Some(Process(kept, None, false, true)));
      if status == Verified then next.(granted := 0, waited := 0.0) else next
    case SaveOther => s.(disk := s.process.value.kept)
    case Kill => s.(process := None)
  }

  predicate WellFormed(s: State) {
    s.process.Some? && s.process.value.budgeted ==> s.process.value.active.Some?
  }

  predicate IsRun(policy: Policy, path: string, meta: Metadata, s: State, events: seq<Event>)
    decreases |events|
  {
    WellFormed(s) && (events == [] || (
      Enabled(s, events[0]) && IsRun(policy, path, meta, Apply(policy, path, meta, s, events[0]), events[1..])))
  }

  function After(policy: Policy, path: string, meta: Metadata, s: State, events: seq<Event>): State
    requires IsRun(policy, path, meta, s, events)
    decreases |events|
  {
    if events == [] then s else After(policy, path, meta, Apply(policy, path, meta, s, events[0]), events[1..])
  }

  // ---- The budget is durable -------------------------------------------------------------------------------------

  /** The record accounts for everything that was granted. */
  predicate Covers(record: Option<Record>, meta: Metadata, granted: nat, waited: real) {
    granted == 0 ||
    (record.Some? && record.value.meta == meta && record.value.retries >= granted && record.value.seconds >= waited)
  }

  predicate Inv(policy: Policy, meta: Metadata, s: State) {
    && WellFormed(s) && s.granted <= policy.maxRetries
    && (if s.granted == 0 then s.waited == 0.0 else s.waited < policy.timeout)
    && Covers(s.disk, meta, s.granted, s.waited)
    && (s.process.Some? ==>
          var p := s.process.value;
          && (p.active.Some? ==> p.active.value.meta == meta && p.active.value.seconds >= 0.0)
          && (p.active.Some? ==> Covers(p.active, meta, s.granted, s.waited))
          && Covers(p.kept, meta, s.granted, s.waited) && (p.kept.Some? ==> p.kept.value.seconds >= 0.0))
    && (s.disk.Some? ==> s.disk.value.seconds >= 0.0)
  }

  lemma EventKeepsInv(policy: Policy, path: string, meta: Metadata, s: State, event: Event)
    requires Inv(policy, meta, s) && Enabled(s, event)
    ensures Inv(policy, meta, Apply(policy, path, meta, s, event))
  {
  }

  /** Over all runs, including runs killed at any point, the retries granted to a file since it was last verified or
      explicitly reset never exceed the limit, and their delays stay below the time limit. */
  lemma {:induction false} BudgetIsDurable(policy: Policy, path: string, meta: Metadata, s: State, events: seq<Event>)
    requires IsRun(policy, path, meta, s, events) && Inv(policy, meta, s)
    ensures var last := After(policy, path, meta, s, events);
      && Inv(policy, meta, last) && last.granted <= policy.maxRetries
      && (last.granted > 0 ==> last.waited < policy.timeout)
    decreases |events|
  {
    if events != [] {
      EventKeepsInv(policy, path, meta, s, events[0]);
      BudgetIsDurable(policy, path, meta, Apply(policy, path, meta, s, events[0]), events[1..]);
    }
  }

  /** Whatever an earlier version of the tracker file holds, counting may start from it. */
  lemma AnyTrackerIsAStart(policy: Policy, meta: Metadata, disk: Option<Record>)
    requires disk.Some? ==> disk.value.seconds >= 0.0
    ensures Inv(policy, meta, State(disk, None, 0, 0.0))
  {
  }

  // ---- Quarantine --------------------------------------------------------------------------------------------------

  predicate QuarantinedEverywhere(meta: Metadata, s: State) {
    && WellFormed(s) && s.disk.Some? && Quarantined(s.disk.value) && s.disk.value.meta == meta
    && (s.process.Some? ==>
          var p := s.process.value;
          && !p.budgeted && p.kept.Some? && Quarantined(p.kept.value) && p.kept.value.meta == meta
          && (p.active.Some? ==> Quarantined(p.active.value) && p.active.value.meta == meta))
  }

  /** How the job of a quarantined file ends in a run that does not reset it.  The copy on disk is checked: it is valid,
      or it is skipped, or the check fails, is cancelled, or runs out of the time it is given; or the job is cancelled
      while it waits in the pool; or it is still open when the report is made. */
  datatype Ending = CopyValid | Skipped | CheckFailed(terminal: bool) | CheckCancelled | CheckDeadline
                  | CancelledInQueue | LeftOpen

  function StatusOf(ending: Ending, record: Record): (status: Status)
    requires Quarantined(record)
    ensures status.IsOutcome()
  {
    match ending
    case CopyValid => Verified
    case Skipped => record.status
    case CheckFailed(terminal) => if terminal then Failed else Deferred
    case CheckCancelled => record.status
    case CheckDeadline => Pending
    case CancelledInQueue => Pending
    case LeftOpen => Pending
  }

  /** Events that leave a quarantine alone: no explicit reset, and the file does not end as verified or pending. */
  predicate Calm(event: Event) {
    && (event.Begin? ==> !event.reset)
    && (event.Finish? ==> event.status == Failed || event.status == Deferred)
  }

  /** Over any number of runs, a quarantined file is not downloaded again unless it is reset or ends as verified or
      pending. */
  lemma {:induction false} QuarantineHolds(policy: Policy, path: string, meta: Metadata, s: State, events: seq<Event>)
    requires IsRun(policy, path, meta, s, events) && QuarantinedEverywhere(meta, s)
    requires forall event | event in events :: Calm(event)
    ensures forall event | event in events :: !event.Begin?
    ensures QuarantinedEverywhere(meta, After(policy, path, meta, s, events))
    decreases |events|
  {
    if events != [] {
      assert Calm(events[0]);
      var next := Apply(policy, path, meta, s, events[0]);
      assert QuarantinedEverywhere(meta, next);
      QuarantineHolds(policy, path, meta, next, events[1..]);
      assert events == [events[0]] + events[1..];
    }
  }

  ghost predicate CalmUntilBegun(events: seq<Event>) {
    (forall event: Event | event in events :: Calm(event)) && exists event: Event :: event in events && event.Begin?
  }

  /** The file can be downloaded again by events that would leave a quarantine alone. */
  ghost predicate Reopens(policy: Policy, path: string, meta: Metadata, s: State) {
    exists events: seq<Event> :: IsRun(policy, path, meta, s, events) && CalmUntilBegun(events)
  }

  /** A quarantined file that is selected. */
  predicate Opened(meta: Metadata, s: State) {
    QuarantinedEverywhere(meta, s) && s.process.Some? && s.process.value.active.Some?
  }

  /** A file that ends as pending or verified is downloaded in the next run without a reset. */
  lemma ReleasedFileReopens(policy: Policy, path: string, meta: Metadata, s: State, status: Status,
                            error: Option<string>)
    requires Opened(meta, s) && (status == Pending || status == Verified)
    ensures var next := Apply(policy, path, meta, s, Finish(status, error));
      IsRun(policy, path, meta, next, [Kill, Launch, Select, Begin(false)]) && Reopens(policy, path, meta, next)
  {
    var s3 := Apply(policy, path, meta, s, Finish(status, error));
    var s4 := Apply(policy, path, meta, s3, Kill);
    var s5 := Apply(policy, path, meta, s4, Launch);
    var s6 := Apply(policy, path, meta, s5, Select);
    assert IsRun(policy, path, meta, Apply(policy, path, meta, s6, Begin(false)), []);
    OneMore(policy, path, meta, s6, Begin(false), []);
    OneMore(policy, path, meta, s5, Select, [Begin(false)]);
    OneMore(policy, path, meta, s4, Launch, [Select, Begin(false)]);
    OneMore(policy, path, meta, s3, Kill, [Launch, Select, Begin(false)]);
    assert Begin(false) in [Kill, Launch, Select, Begin(false)];
  }

  /** Exactly when a quarantine is over after a run that did not reset the file: when its copy was valid, and also when
      the check of the copy ran out of time, or the job was cancelled in the queue, or it was left open. */
  lemma QuarantineEndsExactly(policy: Policy, path: string, meta: Metadata, s: State, ending: Ending,
                              error: Option<string>)
    requires Opened(meta, s)
    ensures var next := Apply(policy, path, meta, s, Finish(StatusOf(ending, s.process.value.active.value), error));
      Reopens(policy, path, meta, next) <==> ending in {CopyValid, CheckDeadline, CancelledInQueue, LeftOpen}
  {
    var status := StatusOf(ending, s.process.value.active.value);
    var next := Apply(policy, path, meta, s, Finish(status, error));
    if status == Pending || status == Verified {
      ReleasedFileReopens(policy, path, meta, s, status, error);
    } else {
      assert QuarantinedEverywhere(meta, next);
      forall events: seq<Event> | IsRun(policy, path, meta, next, events) && CalmUntilBegun(events) ensures false {
        QuarantineHolds(policy, path, meta, next, events);
      }
    }
  }

  lemma OneMore(policy: Policy, path: string, meta: Metadata, s: State, event: Event, rest: seq<Event>)
    requires WellFormed(s) && Enabled(s, event)
    requires IsRun(policy, path, meta, Apply(policy, path, meta, s, event), rest)
    ensures IsRun(policy, path, meta, s, [event] + rest)
  {
    assert ([event] + rest)[1..] == rest;
  }
}
