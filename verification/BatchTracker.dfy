/** The tracker that joins concurrent upload workers to the in-order committer. */
module BatchTracking {
  import Sets

  /** What a worker reports for a file index. */
  datatype Record = Record(index: nat, ok: bool)

  function Sum(sizes: seq<nat>): nat {
    if sizes == [] then 0 else Sum(sizes[..|sizes| - 1]) + sizes[|sizes| - 1]
  }

  lemma SumSnoc(sizes: seq<nat>, x: nat)
    ensures Sum(sizes + [x]) == Sum(sizes) + x
  {
    assert (sizes + [x])[..|sizes|] == sizes;
  }

  lemma {:induction false} SumPrefix(sizes: seq<nat>, k: nat)
    requires k <= |sizes|
    ensures Sum(sizes[..k]) <= Sum(sizes)
    decreases |sizes|
  {
    if k < |sizes| {
      assert sizes[..|sizes| - 1][..k] == sizes[..k];
      SumPrefix(sizes[..|sizes| - 1], k);
    } else {
      assert sizes[..k] == sizes;
    }
  }

  /** First file of batch b. */
  function Start(sizes: seq<nat>, b: nat): nat
    requires b <= |sizes|
  {
    Sum(sizes[..b])
  }

  predicate InBatch(sizes: seq<nat>, b: nat, i: nat)
    requires b < |sizes|
  {
    Start(sizes, b) <= i < Start(sizes, b) + sizes[b]
  }

  lemma StartStep(sizes: seq<nat>, b: nat)
    requires b < |sizes|
    ensures Start(sizes, b + 1) == Start(sizes, b) + sizes[b]
    ensures Start(sizes, b + 1) <= Sum(sizes)
  {
    assert sizes[..b + 1][..b] == sizes[..b];
    SumPrefix(sizes, b + 1);
  }

  lemma {:induction false} StartMonotone(sizes: seq<nat>, a: nat, b: nat)
    requires a <= b <= |sizes|
    ensures Start(sizes, a) <= Start(sizes, b)
    decreases b
  {
    if a < b {
      StartStep(sizes, b - 1);
      StartMonotone(sizes, a, b - 1);
    }
  }

  /** A file belongs to at most one batch. */
  lemma InBatchUnique(sizes: seq<nat>, a: nat, b: nat, i: nat)
    requires a < |sizes| && b < |sizes| && InBatch(sizes, a, i) && InBatch(sizes, b, i)
    ensures a == b
  {
    if a < b {
      StartStep(sizes, a);
      StartMonotone(sizes, a + 1, b);
      assert false;
    } else if b < a {
      StartStep(sizes, b);
      StartMonotone(sizes, b + 1, a);
      assert false;
    }
  }

  /** The plan the tracker really follows: empty batches are dropped and a short plan gets the remainder as one
      more batch, so no file is ever left out. */
  function Effective(total: nat, plan: seq<nat>): (sizes: seq<nat>)
    ensures forall b | 0 <= b < |sizes| :: sizes[b] > 0
    ensures Sum(sizes) == Sum(plan) + Shortfall(total, plan)
  {
    PositiveFacts(plan + [Shortfall(total, plan)]);
    SumSnoc(plan, Shortfall(total, plan));
    Positive(plan + [Shortfall(total, plan)])
  }

  /** Files that the plan forgot. */
  function Shortfall(total: nat, plan: seq<nat>): nat {
    if Sum(plan) < total then total - Sum(plan) else 0
  }

  function Positive(plan: seq<nat>): seq<nat> {
    if plan == [] then []
    else
      var rest := Positive(plan[..|plan| - 1]);
      if plan[|plan| - 1] > 0 then rest + [plan[|plan| - 1]] else rest
  }

  lemma {:induction false} PositiveFacts(plan: seq<nat>)
    ensures forall b | 0 <= b < |Positive(plan)| :: Positive(plan)[b] > 0
    ensures Sum(Positive(plan)) == Sum(plan)
  {
    if plan != [] {
      PositiveFacts(plan[..|plan| - 1]);
      SumSnoc(Positive(plan[..|plan| - 1]), plan[|plan| - 1]);
    }
  }

  /** The records that concern batch b, in arrival order. */
  function Received(log: seq<Record>, sizes: seq<nat>, b: nat, ok: bool): seq<nat>
    requires b < |sizes|
  {
    if log == [] then []
    else
      var rest := Received(log[..|log| - 1], sizes, b, ok);
      var last := log[|log| - 1];
      if InBatch(sizes, b, last.index) && last.ok == ok then rest + [last.index] else rest
  }

  /** All indexes the log reports for batch b. */
  function Reported(log: seq<Record>, sizes: seq<nat>, b: nat): set<nat>
    requires b < |sizes|
  {
    set r | r in log && InBatch(sizes, b, r.index) :: r.index
  }

  ghost predicate HasReport(log: seq<Record>, i: nat) {
    exists r :: r in log && r.index == i
  }

  ghost predicate AllReported(log: seq<Record>, sizes: seq<nat>, b: nat)
    requires b < |sizes|
  {
    forall i: nat | InBatch(sizes, b, i) :: HasReport(log, i)
  }

  /** Every file reports at most once: a worker runs once and ends in exactly one of its two exits. */
  ghost predicate OncePerFile(log: seq<Record>) {
    forall i, j | 0 <= i < j < |log| :: log[i].index != log[j].index
  }

  function Range(lo: nat, hi: nat): (s: set<nat>)
    requires lo <= hi
    ensures |s| == hi - lo
    ensures forall i :: i in s <==> lo <= i < hi
    decreases hi - lo
  {
    if lo == hi then {} else Range(lo, hi - 1) + {hi - 1}
  }

  lemma ReportedNext(init: seq<Record>, last: Record, sizes: seq<nat>, b: nat)
    requires b < |sizes| && forall i | 0 <= i < |init| :: init[i].index != last.index
    ensures last.index !in Reported(init, sizes, b)
    ensures Reported(init + [last], sizes, b)
         == Reported(init, sizes, b) + if InBatch(sizes, b, last.index) then {last.index} else {}
  {
    var log := init + [last];
    forall r | r in log ensures r in init || r == last {
    }
    forall r | r in init || r == last ensures r in log {
      assert log[|init|] == last;
    }
  }

  /** With one report per file, counting reports is counting files. */
  lemma {:induction false} CountIsReported(log: seq<Record>, sizes: seq<nat>, b: nat)
    requires b < |sizes| && OncePerFile(log)
    ensures |Received(log, sizes, b, true)| + |Received(log, sizes, b, false)| == |Reported(log, sizes, b)|
  {
    if log != [] {
      var init, last := log[..|log| - 1], log[|log| - 1];
      CountIsReported(init, sizes, b);
      ReportedNext(init, last, sizes, b);
      assert log == init + [last];
    }
  }

  /** The test the tracker makes after every report. */
  predicate Complete(log: seq<Record>, sizes: seq<nat>, b: nat)
    requires b < |sizes|
  {
    |Received(log, sizes, b, true)| + |Received(log, sizes, b, false)| >= sizes[b]
  }

  lemma ReceivedSnoc(log: seq<Record>, r: Record, sizes: seq<nat>, b: nat, ok: bool)
    requires b < |sizes|
    ensures Received(log + [r], sizes, b, ok)
         == Received(log, sizes, b, ok) + if InBatch(sizes, b, r.index) && r.ok == ok then [r.index] else []
  {
    assert (log + [r])[..|log|] == log;
  }

  /** The join is exact: with one report per file the counting test fires when, and only when, every file of the
      batch has reported.  Firing late would hang the committer; firing early would commit unfinished files. */
  lemma CompleteIffAllReported(log: seq<Record>, sizes: seq<nat>, b: nat)
    requires b < |sizes| && OncePerFile(log)
    ensures |Received(log, sizes, b, true)| + |Received(log, sizes, b, false)| <= sizes[b]
    ensures Complete(log, sizes, b) <==> AllReported(log, sizes, b)
  {
    CountIsReported(log, sizes, b);
    var lo := Start(sizes, b);
    var whole, reported := Range(lo, lo + sizes[b]), Reported(log, sizes, b);
    assert reported <= whole;
    Sets.SubsetSize(reported, whole);
    if reported == whole {
      forall i: nat | InBatch(sizes, b, i) ensures HasReport(log, i) {
        assert i in reported;
      }
    }
    if AllReported(log, sizes, b) {
      forall i | i in whole ensures i in reported {
        assert InBatch(sizes, b, i);
      }
    }
  }

  /** A plan that promises more files than there are leaves a batch that never completes, so the committer would
      wait for ever; a plan that promises no more never does.  (The planner's counts always add up exactly.) */
  lemma AllReportedWakesEverything(total: nat, plan: seq<nat>, log: seq<Record>)
    requires OncePerFile(log)
    requires forall i: nat :: HasReport(log, i) <==> i < total
    ensures (forall b | 0 <= b < |Effective(total, plan)| :: Complete(log, Effective(total, plan), b))
      <==> Sum(plan) <= total
  {
    var sizes := Effective(total, plan);
    if Sum(plan) <= total {
      EffectiveExact(total, plan);
      forall b | 0 <= b < |sizes| ensures Complete(log, sizes, b) {
        StartStep(sizes, b);
        CompleteIffAllReported(log, sizes, b);
      }
    } else {
      var b := |sizes| - 1;
      LastFileOfPlan(sizes);
      CompleteIffAllReported(log, sizes, b);
      assert !HasReport(log, Sum(sizes) - 1);
      assert !Complete(log, sizes, b);
    }
  }

  lemma LastFileOfPlan(sizes: seq<nat>)
    requires Sum(sizes) > 0 && forall b | 0 <= b < |sizes| :: sizes[b] > 0
    ensures |sizes| > 0 && InBatch(sizes, |sizes| - 1, Sum(sizes) - 1)
  {
    StartStep(sizes, |sizes| - 1);
    assert sizes[..|sizes|] == sizes;
  }

  lemma EffectiveExact(total: nat, plan: seq<nat>)
    requires Sum(plan) <= total
    ensures Sum(Effective(total, plan)) == total
  {
    PositiveFacts(plan);
    SumSnoc(Positive(plan), total - Sum(plan));
  }

  lemma PositiveSnoc(plan: seq<nat>, x: nat)
    ensures Positive(plan + [x]) == if x > 0 then Positive(plan) + [x] else Positive(plan)
  {
    assert (plan + [x])[..|plan|] == plan;
  }

  lemma EffectiveIs(total: nat, plan: seq<nat>)
    ensures Sum(Positive(plan)) == Sum(plan)
    ensures Effective(total, plan) == Positive(plan) + (if Sum(plan) < total then [total - Sum(plan)] else [])
  {
    PositiveFacts(plan);
    PositiveSnoc(plan, Shortfall(total, plan));
  }

  method PositiveSizes(total: nat, plan: seq<nat>) returns (sizes: seq<nat>)
    ensures sizes == Effective(total, plan)
  {
    sizes := [];
    var planned := 0;
    for k := 0 to |plan|
      invariant sizes == Positive(plan[..k]) && planned == Sum(sizes)
    {
      assert plan[..k + 1][..k] == plan[..k];
      if plan[k] > 0 {
        SumSnoc(sizes, plan[k]);
        sizes := sizes + [plan[k]];
        planned := planned + plan[k];
      }
    }
    assert plan[..|plan|] == plan;
    EffectiveIs(total, plan);
    if planned < total {
      sizes := sizes + [total - planned];
    }
  }

  /** Lay the batches out one after another over the file indexes. */
  method AssignFiles(sizes: seq<nat>) returns (owner: seq<nat>, starts: seq<nat>)
    ensures |starts| == |sizes| && |owner| == Sum(sizes)
    ensures forall b {:trigger starts[b]} | 0 <= b < |sizes| :: starts[b] == Start(sizes, b)
    ensures forall i | 0 <= i < |owner| :: owner[i] < |sizes| && InBatch(sizes, owner[i], i)
  {
    owner, starts := [], [];
    var offset := 0;
    for b := 0 to |sizes|
      invariant |starts| == b && offset == |owner| == Start(sizes, b)
      invariant forall k {:trigger starts[k]} | 0 <= k < b :: starts[k] == Start(sizes, k)
      invariant forall i | 0 <= i < |owner| :: owner[i] < b && InBatch(sizes, owner[i], i)
    {
      StartStep(sizes, b);
      starts := starts + [offset];
      owner := owner + seq(sizes[b], _ => b);
      offset := offset + sizes[b];
    }
    assert sizes[..|sizes|] == sizes;
  }

  /** The per-batch lists are the received records, sorted by outcome. */
  ghost predicate Joined(log: seq<Record>, sizes: seq<nat>, results: seq<seq<nat>>, failures: seq<seq<nat>>) {
    && |results| == |failures| == |sizes|
    && forall c | 0 <= c < |sizes| ::
      results[c] == Received(log, sizes, c, true) && failures[c] == Received(log, sizes, c, false)
  }

  lemma JoinStep(log: seq<Record>, r: Record, sizes: seq<nat>, b: nat,
                 results: seq<seq<nat>>, failures: seq<seq<nat>>)
    requires Joined(log, sizes, results, failures) && b < |sizes|
    requires forall c | 0 <= c < |sizes| :: InBatch(sizes, c, r.index) <==> c == b
    ensures r.ok ==> Joined(log + [r], sizes, results[b := results[b] + [r.index]], failures)
    ensures !r.ok ==> Joined(log + [r], sizes, results, failures[b := failures[b] + [r.index]])
  {
    forall c | 0 <= c < |sizes|
      ensures Received(log + [r], sizes, c, true) == results[c] + if c == b && r.ok then [r.index] else []
      ensures Received(log + [r], sizes, c, false) == failures[c] + if c == b && !r.ok then [r.index] else []
    {
      ReceivedSnoc(log, r, sizes, c, true);
      ReceivedSnoc(log, r, sizes, c, false);
    }
  }

  method Copies<T>(n: nat, x: T) returns (s: seq<T>)
    ensures |s| == n && forall i | 0 <= i < n :: s[i] == x
  {
    s := [];
    for k := 0 to n
      invariant |s| == k && forall i | 0 <= i < k :: s[i] == x
    {
      s := s + [x];
    }
  }

  lemma NothingJoined(sizes: seq<nat>, none: seq<seq<nat>>)
    requires |none| == |sizes| && forall b | 0 <= b < |none| :: none[b] == []
    ensures Joined([], sizes, none, none)
  {
  }

  class BatchTracker {
    var sizes: seq<nat>
    var ownerOf: seq<nat>            // file index -> batch index
    var batchStart: seq<nat>
    var results: seq<seq<nat>>     // per batch, in arrival order
    var failures: seq<seq<nat>>
    var expected: seq<int>
    var events: seq<bool>
    ghost var log: seq<Record>

    /** The shape fixed by the constructor: `ownerOf` and the batch ranges are inverse to each other. */
    ghost predicate Shape()
      reads this
    {
      && |batchStart| == |sizes| == |results| == |failures| == |expected| == |events|
      && |ownerOf| == Sum(sizes)
      && (forall b | 0 <= b < |sizes| :: sizes[b] > 0)
      && (forall b {:trigger batchStart[b]} | 0 <= b < |sizes| :: batchStart[b] == Start(sizes, b))
      && (forall i | 0 <= i < |ownerOf| :: ownerOf[i] < |sizes| && InBatch(sizes, ownerOf[i], i))
      && (forall r | r in log :: r.index < |ownerOf|)
    }

    ghost predicate Valid()
      reads this
    {
      && Shape()
      && Joined(log, sizes, results, failures)
      && (forall b | 0 <= b < |sizes| ::
            expected[b] == sizes[b] && (events[b] <==> |results[b]| + |failures[b]| >= expected[b]))
    }

    constructor (total: nat, plan: seq<nat>)
      ensures Valid()
      ensures sizes == Effective(total, plan) && log == []
    {
      var effective := PositiveSizes(total, plan);
      var own, starts := AssignFiles(effective);
      sizes, ownerOf, batchStart, expected := effective, own, starts, effective;
      var none := Copies(|effective|, []);
      var unset := Copies(|effective|, false);
      results, failures, events := none, none, unset;
      log := [];
      NothingJoined(effective, none);
    }

    /** Batch of a file, and the inverse reading: i lies in a batch's range exactly when that batch owns it. */
    method BatchIndex(i: nat) returns (b: nat)
      requires Valid() && i < |ownerOf|
      ensures b < |sizes| && forall c | 0 <= c < |sizes| :: InBatch(sizes, c, i) <==> c == b
    {
      b := ownerOf[i];
      forall c | 0 <= c < |sizes| && InBatch(sizes, c, i) ensures c == b {
        InBatchUnique(sizes, c, b, i);
      }
    }

    method BatchRange(b: nat) returns (lo: nat, hi: nat)
      requires Valid() && b < |sizes|
      ensures forall i: nat :: lo <= i < hi <==> i < |ownerOf| && ownerOf[i] == b
    {
      lo, hi := batchStart[b], batchStart[b] + sizes[b];
      StartStep(sizes, b);
      forall i: nat | i < |ownerOf| && lo <= i < hi ensures ownerOf[i] == b {
        InBatchUnique(sizes, ownerOf[i], b, i);
      }
    }

    /** `record_success` and `record_failure` in one: the report goes to the batch that owns the file, and the
        batch event is raised when the batch is complete. */
    method RecordOutcome(i: nat, ok: bool)
      requires Valid() && i < |ownerOf|
      modifies this
      ensures Valid() && sizes == old(sizes) && ownerOf == old(ownerOf)
      ensures log == old(log) + [Record(i, ok)]
    {
      var b := BatchIndex(i);
      JoinStep(log, Record(i, ok), sizes, b, results, failures);
      if ok {
        results := results[b := results[b] + [i]];
      } else {
        failures := failures[b := failures[b] + [i]];
      }
      if |results[b]| + |failures[b]| >= expected[b] {
        events := events[b := true];
      }
      log := log + [Record(i, ok)];
    }

    /** What the committer reads once the event of batch b has fired. */
    method WaitForBatch(b: nat) returns (ok: seq<nat>, failed: seq<nat>)
      requires Valid() && b < |sizes| && events[b]
      ensures ok == Received(log, sizes, b, true) && failed == Received(log, sizes, b, false)
      ensures OncePerFile(log) ==> AllReported(log, sizes, b)
    {
      ok, failed := results[b], failures[b];
      if OncePerFile(log) {
        CompleteIffAllReported(log, sizes, b);
      }
    }
  }
}
