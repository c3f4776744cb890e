/** The commit planner: split files into consecutive commits under an action cap and a byte budget. */
module CommitPlanner {
  import opened UploadTypes
  import BatchTracking

  const ENVELOPE_BYTES: nat := 512
  const OPERATION_BYTES: nat := 192
  const POINTER_BYTES: nat := 128

  function Digits(n: nat): (d: nat)
    ensures d >= 1
  {
    if n < 10 then 1 else 1 + Digits(n / 10)
  }

  /** Estimated JSON bytes of one create operation: a pointer for LFS, base64 content otherwise. */
  function OperationBytes(f: FileItem): nat {
    if f.IsLfs() then
      OPERATION_BYTES + POINTER_BYTES + f.pathBytes + Digits(f.size)
    else
      OPERATION_BYTES + f.pathBytes + Digits(f.size) + (f.size + 2) / 3 * 4
  }

  /** A number as it is written in decimal. */
  function Decimal(n: nat): string {
    (if n < 10 then "" else Decimal(n / 10)) + ["0123456789"[n % 10]]
  }

  /** The length of n bytes in base64 (RFC 4648 section 4): four characters for every three bytes begun. */
  function Base64Length(n: nat): nat {
    if n == 0 then 0 else 4 + Base64Length(if n < 3 then 0 else n - 3)
  }

  lemma {:induction false} DigitsOfDecimal(n: nat)
    ensures |Decimal(n)| == Digits(n)
  {
    if n >= 10 {
      DigitsOfDecimal(n / 10);
    }
  }

  lemma {:induction false} Base64IsRounded(n: nat)
    ensures Base64Length(n) == (n + 2) / 3 * 4
  {
    if n >= 3 {
      Base64IsRounded(n - 3);
    }
  }

  /** The estimate counts the path, the size as it is written, and the content as it is sent. */
  lemma EstimateCountsWhatIsSent(f: FileItem)
    ensures OperationBytes(f) == OPERATION_BYTES + f.pathBytes + |Decimal(f.size)|
                                 + if f.IsLfs() then POINTER_BYTES else Base64Length(f.size)
  {
    DigitsOfDecimal(f.size);
    Base64IsRounded(f.size);
  }

  function Weights(files: seq<FileItem>): (w: seq<nat>)
    ensures |w| == |files|
  {
    seq(|files|, i requires 0 <= i < |files| => OperationBytes(files[i]))
  }

  function Total(w: seq<nat>, lo: nat, hi: nat): nat
    requires lo <= hi <= |w|
    decreases hi - lo
  {
    if lo == hi then 0 else Total(w, lo, hi - 1) + w[hi - 1]
  }

  /** Files lo..hi may share one commit.  A file that is too big on its own still gets a commit to itself; a
      budget that is not positive is no budget. */
  predicate Fits(w: seq<nat>, lo: nat, hi: nat, cap: nat, budget: int) {
    && lo < hi <= |w|
    && hi - lo <= cap
    && (hi - lo == 1 || budget <= 0 || ENVELOPE_BYTES + Total(w, lo, hi) <= budget)
  }

  /** The consecutive indexes lo..hi, in order. */
  ghost predicate IsRun(b: seq<nat>, lo: nat, hi: nat) {
    lo <= hi && |b| == hi - lo && forall i | 0 <= i < |b| :: b[i] == lo + i
  }

  /** Number of files in the first k batches; a batch is a list of file indexes. */
  function Offset(batches: seq<seq<nat>>, k: nat): nat
    requires k <= |batches|
  {
    if k == 0 then 0 else Offset(batches, k - 1) + |batches[k - 1]|
  }

  /** Batch k is exactly the run of indexes that starts where batch k - 1 ended, and it fits. */
  ghost predicate GoodBatch(batches: seq<seq<nat>>, k: nat, w: seq<nat>, cap: nat, budget: int)
    requires k < |batches|
  {
    var lo, hi := Offset(batches, k), Offset(batches, k + 1);
    IsRun(batches[k], lo, hi) && Fits(w, lo, hi, cap, budget)
  }

  ghost predicate AllGood(batches: seq<seq<nat>>, w: seq<nat>, cap: nat, budget: int) {
    forall k {:trigger GoodBatch(batches, k, w, cap, budget)} | 0 <= k < |batches| ::
      GoodBatch(batches, k, w, cap, budget)
  }

  /** An order-preserving partition of all files into batches that fit. */
  ghost predicate ValidPlan(batches: seq<seq<nat>>, w: seq<nat>, cap: nat, budget: int) {
    Offset(batches, |batches|) == |w| && AllGood(batches, w, cap, budget)
  }

  /** Batch k could not have taken one more file. */
  ghost predicate FullBatch(batches: seq<seq<nat>>, k: nat, w: seq<nat>, cap: nat, budget: int)
    requires k < |batches|
  {
    Offset(batches, k + 1) == |w| || !Fits(w, Offset(batches, k), Offset(batches, k + 1) + 1, cap, budget)
  }

  ghost predicate Maximal(batches: seq<seq<nat>>, w: seq<nat>, cap: nat, budget: int) {
    forall k {:trigger FullBatch(batches, k, w, cap, budget)} | 0 <= k < |batches| ::
      FullBatch(batches, k, w, cap, budget)
  }

  lemma {:induction false} TotalMonotone(w: seq<nat>, lo: nat, lo': nat, hi': nat, hi: nat)
    requires lo <= lo' <= hi' <= hi <= |w|
    ensures Total(w, lo', hi') <= Total(w, lo, hi)
    decreases hi - lo'
  {
    if hi' < hi {
      TotalMonotone(w, lo, lo', hi', hi - 1);
    } else if lo' < hi' {
      TotalMonotone(w, lo, lo', hi' - 1, hi - 1);
    }
  }

  lemma SegmentFits(w: seq<nat>, lo: nat, lo': nat, hi': nat, hi: nat, cap: nat, budget: int)
    requires Fits(w, lo, hi, cap, budget)
    requires lo <= lo' < hi' <= hi
    ensures Fits(w, lo', hi', cap, budget)
  {
    TotalMonotone(w, lo, lo', hi', hi);
  }

  lemma {:induction false} OffsetPrefix(a: seq<seq<nat>>, b: seq<seq<nat>>, k: nat)
    requires k <= |a|
    ensures k <= |a + b| && Offset(a + b, k) == Offset(a, k)
  {
    if k > 0 {
      OffsetPrefix(a, b, k - 1);
    }
  }

  /** Extending a plan at the end leaves the earlier batches as they were. */
  lemma GoodBatchPrefix(a: seq<seq<nat>>, b: seq<seq<nat>>, k: nat, w: seq<nat>, cap: nat, budget: int)
    requires k < |a|
    ensures GoodBatch(a + b, k, w, cap, budget) == GoodBatch(a, k, w, cap, budget)
    ensures FullBatch(a + b, k, w, cap, budget) == FullBatch(a, k, w, cap, budget)
  {
    OffsetPrefix(a, b, k);
    OffsetPrefix(a, b, k + 1);
  }

  /** The next batch takes up where the plan ends. */
  ghost predicate Continues(batches: seq<seq<nat>>, batch: seq<nat>, w: seq<nat>, cap: nat, budget: int) {
    var at := Offset(batches, |batches|);
    Fits(w, at, at + |batch|, cap, budget) && IsRun(batch, at, at + |batch|)
  }

  lemma OffsetSnoc(batches: seq<seq<nat>>, batch: seq<nat>)
    ensures Offset(batches + [batch], |batches|) == Offset(batches, |batches|)
    ensures Offset(batches + [batch], |batches| + 1) == Offset(batches, |batches|) + |batch|
  {
    OffsetPrefix(batches, [batch], |batches|);
    assert (batches + [batch])[|batches|] == batch;
  }

  lemma Close(batches: seq<seq<nat>>, batch: seq<nat>, w: seq<nat>, cap: nat, budget: int)
    requires AllGood(batches, w, cap, budget) && Continues(batches, batch, w, cap, budget)
    ensures AllGood(batches + [batch], w, cap, budget)
  {
    OffsetSnoc(batches, batch);
    forall k | 0 <= k < |batches| + 1 ensures GoodBatch(batches + [batch], k, w, cap, budget) {
      if k < |batches| {
        GoodBatchPrefix(batches, [batch], k, w, cap, budget);
      }
    }
  }

  lemma CloseMaximal(batches: seq<seq<nat>>, batch: seq<nat>, w: seq<nat>, cap: nat, budget: int)
    requires Maximal(batches, w, cap, budget) && FullBatch(batches + [batch], |batches|, w, cap, budget)
    ensures Maximal(batches + [batch], w, cap, budget)
  {
    forall k | 0 <= k < |batches| + 1 ensures FullBatch(batches + [batch], k, w, cap, budget) {
      if k < |batches| {
        GoodBatchPrefix(batches, [batch], k, w, cap, budget);
      }
    }
  }

  /** The greedy plan stays ahead of every other valid plan. */
  lemma {:induction false} GreedyStaysAhead(
    g: seq<seq<nat>>, p: seq<seq<nat>>, w: seq<nat>, cap: nat, budget: int, k: nat)
    requires ValidPlan(g, w, cap, budget) && Maximal(g, w, cap, budget)
    requires ValidPlan(p, w, cap, budget)
    requires k <= |g| && k <= |p|
    ensures Offset(g, k) >= Offset(p, k)
  {
    if k > 0 {
      GreedyStaysAhead(g, p, w, cap, budget, k - 1);
      var lo, hi, lo', hi' := Offset(g, k - 1), Offset(g, k), Offset(p, k - 1), Offset(p, k);
      assert GoodBatch(p, k - 1, w, cap, budget);
      assert GoodBatch(g, k - 1, w, cap, budget) && FullBatch(g, k - 1, w, cap, budget);
      if hi < hi' {
        SegmentFits(w, lo', lo, hi + 1, hi', cap, budget);
        assert false;
      }
    }
  }

  /** A maximal plan has the fewest batches of any valid plan. */
  lemma MaximalIsMinimum(g: seq<seq<nat>>, p: seq<seq<nat>>, w: seq<nat>, cap: nat, budget: int)
    requires ValidPlan(g, w, cap, budget) && Maximal(g, w, cap, budget)
    requires ValidPlan(p, w, cap, budget)
    ensures |g| <= |p|
  {
    if |p| < |g| {
      assert GoodBatch(g, |p|, w, cap, budget);
      GreedyStaysAhead(g, p, w, cap, budget, |p|);
      assert false;
    }
  }

  /** A commit may have one action in any case, and more up to the ceiling of the server and the requested number; when
      none is requested, up to the number of files. */
  predicate CapAllowed(c: int, maxOperations: int, files: nat, ceiling: int) {
    c == 1 || (1 < c <= ceiling && c <= if maxOperations > 0 then maxOperations else files)
  }

  /** The action cap is the greatest that is allowed. */
  function EffectiveCap(maxOperations: int, files: nat, ceiling: int): (cap: nat)
    ensures CapAllowed(cap, maxOperations, files, ceiling)
    ensures forall c | CapAllowed(c, maxOperations, files, ceiling) :: c <= cap
  {
    var hard := if ceiling > 1 then ceiling else 1;
    var soft := if maxOperations > 0 then maxOperations else files;
    var low := if soft < hard then soft else hard;
    if low > 1 then low else 1
  }

  function SumAt(w: seq<nat>, idx: seq<nat>): nat
    requires forall i | 0 <= i < |idx| :: idx[i] < |w|
  {
    if idx == [] then 0 else SumAt(w, idx[..|idx| - 1]) + w[idx[|idx| - 1]]
  }

  lemma {:induction false} SumAtRun(w: seq<nat>, b: seq<nat>, lo: nat, hi: nat)
    requires hi <= |w| && IsRun(b, lo, hi)
    ensures SumAt(w, b) == Total(w, lo, hi)
    decreases hi - lo
  {
    if lo < hi {
      SumAtRun(w, b[..|b| - 1], lo, hi - 1);
    }
  }

  /** The first pass: close a batch when the next file would break the cap or the budget. */
  method GreedyBatches(w: seq<nat>, cap: nat, budget: int) returns (batches: seq<seq<nat>>)
    requires cap >= 1
    ensures ValidPlan(batches, w, cap, budget) && Maximal(batches, w, cap, budget)
  {
    batches := [];
    var current: seq<nat> := [];
    var requestBytes := ENVELOPE_BYTES;
    for index := 0 to |w|
      invariant var at := Offset(batches, |batches|);
        && at + |current| == index
        && IsRun(current, at, index)
        && requestBytes == ENVELOPE_BYTES + Total(w, at, index)
        && (current != [] ==> Fits(w, at, index, cap, budget))
      invariant current == [] ==> index == 0
      invariant AllGood(batches, w, cap, budget)
      invariant Maximal(batches, w, cap, budget)
    {
      var exceedsBytes := budget > 0 && requestBytes + w[index] > budget;
      if current != [] && (|current| >= cap || exceedsBytes) {
        Close(batches, current, w, cap, budget);
        OffsetSnoc(batches, current);
        CloseMaximal(batches, current, w, cap, budget);
        batches := batches + [current];
        current := [];
        requestBytes := ENVELOPE_BYTES;
      }
      current := current + [index];
      requestBytes := requestBytes + w[index];
    }
    if current != [] {
      Close(batches, current, w, cap, budget);
      OffsetSnoc(batches, current);
      CloseMaximal(batches, current, w, cap, budget);
      batches := batches + [current];
    }
  }

  ghost predicate TinyTail(batches: seq<seq<nat>>) {
    |batches| >= 2 && |batches[|batches| - 1]| * 4 < |batches[|batches| - 2]|
  }

  /** Splitting the last two batches in the middle gives two batches that both fit. */
  ghost predicate EvenTailFits(batches: seq<seq<nat>>, w: seq<nat>, cap: nat, budget: int)
    requires |batches| >= 2
  {
    var m := |batches|;
    var lo := Offset(batches, m - 2);
    var mid := lo + (|batches[m - 2]| + |batches[m - 1]| + 1) / 2;
    Fits(w, lo, mid, cap, budget) && Fits(w, mid, |w|, cap, budget)
  }

  /** The last two batches, joined and cut in the middle, are the two runs of indexes around the midpoint. */
  lemma TailHalves(batches: seq<seq<nat>>, w: seq<nat>, cap: nat, budget: int, mid: nat)
    requires ValidPlan(batches, w, cap, budget) && |batches| >= 2
    requires mid <= |batches[|batches| - 2]| + |batches[|batches| - 1]|
    ensures var m := |batches|; var lo := Offset(batches, m - 2);
      var combined := batches[m - 2] + batches[m - 1];
      && lo + |combined| == |w|
      && IsRun(combined[..mid], lo, lo + mid) && IsRun(combined[mid..], lo + mid, |w|)
  {
    assert GoodBatch(batches, |batches| - 2, w, cap, budget) && GoodBatch(batches, |batches| - 1, w, cap, budget);
  }

  method BatchFits(w: seq<nat>, cap: nat, budget: int, candidate: seq<nat>) returns (fits: bool)
    requires forall i | 0 <= i < |candidate| :: candidate[i] < |w|
    ensures fits <==> |candidate| <= cap && (budget <= 0 || ENVELOPE_BYTES + SumAt(w, candidate) <= budget)
  {
    var estimated := ENVELOPE_BYTES;
    for i := 0 to |candidate|
      invariant estimated == ENVELOPE_BYTES + SumAt(w, candidate[..i])
    {
      assert candidate[..i + 1][..i] == candidate[..i];
      estimated := estimated + w[candidate[i]];
    }
    assert candidate[..|candidate|] == candidate;
    fits := |candidate| <= cap && (budget <= 0 || estimated <= budget);
  }

  lemma KeptPrefix(batches: seq<seq<nat>>, n: nat, w: seq<nat>, cap: nat, budget: int)
    requires n <= |batches|
    requires AllGood(batches, w, cap, budget)
    ensures Offset(batches[..n], n) == Offset(batches, n)
    ensures AllGood(batches[..n], w, cap, budget)
  {
    assert batches == batches[..n] + batches[n..];
    OffsetPrefix(batches[..n], batches[n..], n);
    forall k | 0 <= k < n ensures GoodBatch(batches[..n], k, w, cap, budget) {
      GoodBatchPrefix(batches[..n], batches[n..], k, w, cap, budget);
    }
  }

  lemma CloseNext(batches: seq<seq<nat>>, batch: seq<nat>, next: seq<seq<nat>>, w: seq<nat>, cap: nat, budget: int)
    requires AllGood(batches, w, cap, budget) && Continues(batches, batch, w, cap, budget)
    requires next == batches + [batch]
    ensures AllGood(next, w, cap, budget) && Offset(next, |next|) == Offset(batches, |batches|) + |batch|
  {
    OffsetSnoc(batches, batch);
    Close(batches, batch, w, cap, budget);
  }

  /** A batch that fits and runs to the last file completes a plan. */
  lemma CloseRest(batches: seq<seq<nat>>, batch: seq<nat>, at: nat, w: seq<nat>, cap: nat, budget: int)
    requires AllGood(batches, w, cap, budget) && at == Offset(batches, |batches|)
    requires at + |batch| == |w| && IsRun(batch, at, |w|) && Fits(w, at, |w|, cap, budget)
    ensures ValidPlan(batches + [batch], w, cap, budget)
  {
    OffsetSnoc(batches, batch);
    Close(batches, batch, w, cap, budget);
  }

  /** For two files or more, the test of the second pass is the one that a plan has to meet. */
  lemma HalfFits(w: seq<nat>, half: seq<nat>, lo: nat, hi: nat, cap: nat, budget: int)
    requires hi <= |w| && IsRun(half, lo, hi) && hi - lo >= 2
    ensures |half| <= cap && (budget <= 0 || ENVELOPE_BYTES + SumAt(w, half) <= budget)
      <==> Fits(w, lo, hi, cap, budget)
  {
    SumAtRun(w, half, lo, hi);
  }

  /** The second pass: share a tiny final batch evenly with its predecessor when both halves fit.  The number
      of batches, the order of the files and both limits survive; a tiny tail is left only when no even split
      of the last two batches would fit. */
  method RebalanceTail(w: seq<nat>, cap: nat, budget: int, batches: seq<seq<nat>>) returns (r: seq<seq<nat>>)
    requires ValidPlan(batches, w, cap, budget)
    ensures ValidPlan(r, w, cap, budget)
    ensures |r| == |batches|
    ensures TinyTail(r) ==> r == batches && !EvenTailFits(r, w, cap, budget)
    ensures !TinyTail(batches) ==> r == batches
  {
    r := batches;
    var m := |batches|;
    if m >= 2 && |batches[m - 1]| * 4 < |batches[m - 2]| {
      var combined := batches[m - 2] + batches[m - 1];
      var midpoint := (|combined| + 1) / 2;
      TailHalves(batches, w, cap, budget, midpoint);
      assert |combined| >= 6 by {
        assert GoodBatch(batches, m - 1, w, cap, budget);
      }
      ghost var lo := Offset(batches, m - 2);
      HalfFits(w, combined[..midpoint], lo, lo + midpoint, cap, budget);
      HalfFits(w, combined[midpoint..], lo + midpoint, |w|, cap, budget);
      var firstFits := BatchFits(w, cap, budget, combined[..midpoint]);
      var secondFits := BatchFits(w, cap, budget, combined[midpoint..]);
      if firstFits && secondFits {
        KeptPrefix(batches, m - 2, w, cap, budget);
        ghost var one := batches[..m - 2] + [combined[..midpoint]];
        CloseNext(batches[..m - 2], combined[..midpoint], one, w, cap, budget);
        CloseRest(one, combined[midpoint..], lo + midpoint, w, cap, budget);
        r := batches[..m - 2] + [combined[..midpoint]] + [combined[midpoint..]];
      }
    }
  }

  /** The lengths of the batches of some plan. */
  ghost predicate CountsOf(counts: seq<nat>, batches: seq<seq<nat>>) {
    |counts| == |batches| && forall k | 0 <= k < |counts| :: counts[k] == |batches[k]|
  }

  /** Plan the commits of one folder upload: as few batches as any valid partition has. */
  method PlanCommitBatches(files: seq<FileItem>, maxOperations: int, budget: int, ceiling: int)
    returns (counts: seq<nat>)
    ensures var w, cap := Weights(files), EffectiveCap(maxOperations, |files|, ceiling);
      exists batches: seq<seq<nat>> :: CountsOf(counts, batches) && ValidPlan(batches, w, cap, budget)
        && (TinyTail(batches) ==> !EvenTailFits(batches, w, cap, budget))
    ensures forall p: seq<seq<nat>>
      | ValidPlan(p, Weights(files), EffectiveCap(maxOperations, |files|, ceiling), budget) :: |counts| <= |p|
    ensures files == [] ==> counts == []
  {
    if files == [] {
      counts := [];
      ghost var none: seq<seq<nat>> := [];
      assert CountsOf(counts, none) && ValidPlan(none, Weights(files), EffectiveCap(maxOperations, 0, ceiling), budget);
      return;
    }
    var cap := EffectiveCap(maxOperations, |files|, ceiling);
    var weights: seq<nat> := [];
    for i := 0 to |files|
      invariant weights == Weights(files)[..i]
    {
      weights := weights + [OperationBytes(files[i])];
    }
    assert weights == Weights(files);
    var greedy := GreedyBatches(weights, cap, budget);
    var batches := RebalanceTail(weights, cap, budget, greedy);
    counts := [];
    for k := 0 to |batches|
      invariant CountsOf(counts, batches[..k])
    {
      counts := counts + [|batches[k]|];
    }
    assert batches[..|batches|] == batches && CountsOf(counts, batches);
    forall p: seq<seq<nat>> | ValidPlan(p, weights, cap, budget) ensures |counts| <= |p| {
      MaximalIsMinimum(greedy, p, weights, cap, budget);
    }
  }

  lemma {:induction false} CountsAreOffsets(counts: seq<nat>, batches: seq<seq<nat>>, k: nat)
    requires CountsOf(counts, batches) && k <= |counts|
    ensures BatchTracking.Start(counts, k) == Offset(batches, k)
  {
    if k > 0 {
      CountsAreOffsets(counts, batches, k - 1);
      BatchTracking.StartStep(counts, k - 1);
    }
  }

  /** The counts of a valid plan are positive and add up to the number of files. */
  lemma CountsTile(counts: seq<nat>, batches: seq<seq<nat>>, w: seq<nat>, cap: nat, budget: int)
    requires CountsOf(counts, batches) && ValidPlan(batches, w, cap, budget)
    ensures BatchTracking.Sum(counts) == |w| && forall k | 0 <= k < |counts| :: counts[k] > 0
  {
    CountsAreOffsets(counts, batches, |counts|);
    assert counts[..|counts|] == counts;
    forall k | 0 <= k < |counts| ensures counts[k] > 0 {
      assert GoodBatch(batches, k, w, cap, budget);
    }
  }

  /** Estimated bytes of the operations for some files. */
  function Bytes(files: seq<FileItem>): nat {
    if files == [] then 0 else Bytes(files[..|files| - 1]) + OperationBytes(files[|files| - 1])
  }

  /** The files may be sent as one commit. */
  predicate FitsCommit(files: seq<FileItem>, cap: nat, budget: int) {
    0 < |files| <= cap && (|files| == 1 || budget <= 0 || ENVELOPE_BYTES + Bytes(files) <= budget)
  }

  lemma {:induction false} TotalIsBytes(files: seq<FileItem>, lo: nat, hi: nat)
    requires lo <= hi <= |files|
    ensures Total(Weights(files), lo, hi) == Bytes(files[lo..hi])
    decreases hi - lo
  {
    if lo < hi {
      TotalIsBytes(files, lo, hi - 1);
      assert files[lo..hi][..hi - 1 - lo] == files[lo..hi - 1];
    }
  }

  /** Every count of a plan names a run of files that may be sent as one commit. */
  ghost predicate CountsFit(counts: seq<nat>, files: seq<FileItem>, cap: nat, budget: int) {
    forall k {:trigger counts[k]} | 0 <= k < |counts| ::
      var lo := BatchTracking.Start(counts, k);
      lo + counts[k] <= |files| && FitsCommit(files[lo..lo + counts[k]], cap, budget)
  }

  lemma PlanFits(counts: seq<nat>, batches: seq<seq<nat>>, files: seq<FileItem>, cap: nat, budget: int)
    requires CountsOf(counts, batches) && ValidPlan(batches, Weights(files), cap, budget)
    ensures CountsFit(counts, files, cap, budget)
  {
    forall k | 0 <= k < |counts|
      ensures var lo := BatchTracking.Start(counts, k);
        lo + counts[k] <= |files| && FitsCommit(files[lo..lo + counts[k]], cap, budget)
    {
      assert GoodBatch(batches, k, Weights(files), cap, budget);
      CountsAreOffsets(counts, batches, k);
      TotalIsBytes(files, Offset(batches, k), Offset(batches, k + 1));
    }
  }

  /** An adaptive target is one in any case, and more up to the number of files, the ceiling and the requested number,
      if one is requested. */
  predicate TargetAllowed(c: int, totalFiles: int, maxOperations: int, ceiling: int) {
    c == 1 || (1 < c <= totalFiles && c <= ceiling && (maxOperations > 0 ==> c <= maxOperations))
  }

  /** The operation target of an adaptive run is the greatest that is allowed. */
  function AdaptiveBatchSize(totalFiles: int, maxOperations: int, ceiling: int): (target: nat)
    ensures TargetAllowed(target, totalFiles, maxOperations, ceiling)
    ensures forall c | TargetAllowed(c, totalFiles, maxOperations, ceiling) :: c <= target
  {
    if totalFiles <= 0 then 1
    else
      var hard := if ceiling > 1 then ceiling else 1;
      var cap := if maxOperations > 0 then maxOperations else totalFiles;
      var low := if cap < hard then cap else hard;
      var least := if low < totalFiles then low else totalFiles;
      if least > 1 then least else 1
  }

  datatype Limits = Limits(maxOperations: int, inlineBytes: int, ceiling: int) {
    /** No commit of a run has more operations. */
    function MostOperations(): nat {
      var hard := if ceiling > 1 then ceiling else 1;
      if 0 < maxOperations < hard then maxOperations else hard
    }
  }

  /** The action cap of a plan for n files. */
  function PlannedCap(n: nat, limits: Limits): nat {
    EffectiveCap(AdaptiveBatchSize(n, limits.maxOperations, limits.ceiling), n, limits.ceiling)
  }

  /** The files may be sent as one commit at any stage of a run: only a file that is too big on its own exceeds the byte
      budget. */
  predicate Allowed(files: seq<FileItem>, limits: Limits) {
    && |files| <= limits.MostOperations()
    && (|files| <= 1 || limits.inlineBytes <= 0 || ENVELOPE_BYTES + Bytes(files) <= limits.inlineBytes)
  }

  lemma PlannedIsAllowed(files: seq<FileItem>, n: nat, limits: Limits)
    requires FitsCommit(files, PlannedCap(n, limits), limits.inlineBytes)
    ensures Allowed(files, limits)
  {
    assert TargetAllowed(AdaptiveBatchSize(n, limits.maxOperations, limits.ceiling), n, limits.maxOperations,
                         limits.ceiling);
  }

  lemma {:induction false} BytesConcat(a: seq<FileItem>, b: seq<FileItem>)
    ensures Bytes(a + b) == Bytes(a) + Bytes(b)
  {
    if b == [] {
      assert a + b == a;
    } else {
      BytesConcat(a, b[..|b| - 1]);
      assert (a + b)[..|a + b| - 1] == a + b[..|b| - 1];
    }
  }

  lemma HalvesAllowed(files: seq<FileItem>, mid: nat, limits: Limits)
    requires mid <= |files| && Allowed(files, limits)
    ensures Allowed(files[..mid], limits) && Allowed(files[mid..], limits)
  {
    BytesConcat(files[..mid], files[mid..]);
    assert files == files[..mid] + files[mid..];
  }
}
