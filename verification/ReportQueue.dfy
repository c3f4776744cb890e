/** The report-mode download as a protocol: a producer lists the repository into a bounded queue, a consumer feeds a
    pool of workers, and the consumer decides on its own when the work is over. */
module ReportQueue {
  import opened Options
  import opened DownloadLedger

  /** What the producer puts into the queue, as the consumer classifies it: a listing error, which may come from failed
      authentication; an entry that is no file or is filtered out; an entry without usable metadata; a file to
      download. */
  datatype Item = ListingError(auth: bool) | Ignored | Invalid(path: string) | File(path: string)

  // ---- Listing a dataset page by page ------------------------------------------------------------------------------

  /** A listing error that does not come from authentication. */
  const PLAIN_ERROR := ListingError(false)

  predicate HasError(items: seq<Item>) {
    exists i :: 0 <= i < |items| && items[i].ListingError?
  }

  predicate HasAuthError(items: seq<Item>) {
    exists i :: 0 <= i < |items| && items[i] == ListingError(true)
  }

  /** Answer for a page, None when the request fails. */
  type Pages = nat -> Option<seq<Item>>

  predicate Fails(pages: Pages, isolated: set<nat>, page: nat) {
    page in isolated || pages(page) == None
  }

  /** What the first pages put into the queue: their entries, or one error for a page that failed. */
  function Listed(pages: Pages, isolated: set<nat>, n: nat): seq<Item> {
    if n == 0 then []
    else Listed(pages, isolated, n - 1) + (if Fails(pages, isolated, n) then [PLAIN_ERROR] else pages(n).value)
  }

  predicate Short(pages: Pages, isolated: set<nat>, page: nat, pageSize: nat) {
    !Fails(pages, isolated, page) && |pages(page).value| < pageSize
  }

  /** The listing may stop after page n: at a short page, or at the second failure in a row. */
  predicate LastPage(pages: Pages, isolated: set<nat>, n: nat, pageSize: nat) {
    n > 0 && (Short(pages, isolated, n, pageSize) ||
              (n > 1 && Fails(pages, isolated, n) && Fails(pages, isolated, n - 1)))
  }

  /** What listing one root yields: everything up to the first page it may stop at, or up to the request budget and
      then an error. */
  ghost predicate ListingOf(pages: Pages, isolated: set<nat>, pageSize: nat, budget: nat, items: seq<Item>) {
    exists n :: StopsAt(pages, isolated, pageSize, budget, items, n)
  }

  ghost predicate StopsAt(pages: Pages, isolated: set<nat>, pageSize: nat, budget: nat, items: seq<Item>, n: nat) {
    && n <= budget && (forall k | 0 < k < n :: !LastPage(pages, isolated, k, pageSize))
    && if LastPage(pages, isolated, n, pageSize) then items == Listed(pages, isolated, n)
       else n == budget && items == Listed(pages, isolated, n) + [PLAIN_ERROR]
  }

  /** The requests made for the first n pages: a page that an earlier run has isolated is not asked for again. */
  function Asked(isolated: set<nat>, n: nat): (asked: seq<nat>)
    ensures forall k :: k in asked <==> 0 < k <= n && k !in isolated
  {
    if n == 0 then [] else Asked(isolated, n - 1) + if n in isolated then [] else [n]
  }

  method IterDatasetPages(pages: Pages, isolated: set<nat>, pageSize: nat, budget: nat)
    returns (items: seq<Item>, ghost asked: seq<nat>, ghost last: nat)
    ensures StopsAt(pages, isolated, pageSize, budget, items, last) && asked == Asked(isolated, last)
  {
    items, asked, last := [], [], 0;
    var failures := 0;
    for page := 1 to budget + 1
      invariant items == Listed(pages, isolated, page - 1) && asked == Asked(isolated, page - 1)
      invariant failures == if page > 1 && Fails(pages, isolated, page - 1) then 1 else 0
      invariant forall k | 0 < k < page :: !LastPage(pages, isolated, k, pageSize)
    {
      asked := asked + if page in isolated then [] else [page];
      if page in isolated || pages(page) == None {
        items := items + [PLAIN_ERROR];
        failures := failures + 1;
        if failures >= 2 {
          return items, asked, page;
        }
      } else {
        failures := 0;
        items := items + pages(page).value;
        if |pages(page).value| < pageSize {
          return items, asked, page;
        }
      }
    }
    items := items + [PLAIN_ERROR];
    last := budget;
  }

  lemma ErrorAtEnd(items: seq<Item>, error: Item)
    requires error.ListingError?
    ensures HasError(items + [error])
  {
    assert (items + [error])[|items|] == error;
  }

  /** A listing without an error is the whole listing: every page up to the first short one was answered, and the
      entries of all of them are there in order. */
  lemma ErrorFreeListingIsWhole(pages: Pages, isolated: set<nat>, pageSize: nat, budget: nat, items: seq<Item>)
    returns (n: nat)
    requires ListingOf(pages, isolated, pageSize, budget, items) && !HasError(items)
    ensures 0 < n <= budget && WholeListing(pages, isolated, pageSize, n) && items == Listed(pages, isolated, n)
  {
    n :| StopsAt(pages, isolated, pageSize, budget, items, n);
    ErrorAtEnd(Listed(pages, isolated, n), PLAIN_ERROR);
    forall k: nat | 0 < k <= n ensures !Fails(pages, isolated, k) {
      if Fails(pages, isolated, k) {
        FailureIsListed(pages, isolated, n, k);
      }
    }
    forall k: nat | 0 < k < n ensures !Fails(pages, isolated, k) && |pages(k).value| >= pageSize {
      assert !LastPage(pages, isolated, k, pageSize);
    }
  }

  /** Pages 1 to n were answered, page n is the first that is short, so nothing comes after it. */
  ghost predicate WholeListing(pages: Pages, isolated: set<nat>, pageSize: nat, n: nat) {
    && n > 0 && Short(pages, isolated, n, pageSize)
    && forall k: nat | 0 < k < n :: !Fails(pages, isolated, k) && |pages(k).value| >= pageSize
  }

  lemma ErrorsIn(a: seq<Item>, b: seq<Item>)
    ensures HasError(a + b) <==> HasError(a) || HasError(b)
    ensures HasAuthError(a + b) <==> HasAuthError(a) || HasAuthError(b)
  {
    forall i | 0 <= i < |b| ensures (a + b)[|a| + i] == b[i] {
    }
    forall i | 0 <= i < |a| ensures (a + b)[i] == a[i] {
    }
  }

  lemma {:induction false} FailureIsListed(pages: Pages, isolated: set<nat>, n: nat, k: nat)
    requires 0 < k <= n && Fails(pages, isolated, k)
    ensures HasError(Listed(pages, isolated, n))
  {
    if k < n {
      FailureIsListed(pages, isolated, n - 1, k);
      ErrorsIn(Listed(pages, isolated, n - 1),
               if Fails(pages, isolated, n) then [PLAIN_ERROR] else pages(n).value);
    } else {
      ErrorAtEnd(Listed(pages, isolated, n - 1), PLAIN_ERROR);
    }
  }

  lemma {:induction false} PageIsListed(pages: Pages, isolated: set<nat>, n: nat, k: nat, item: Item)
    requires 0 < k <= n && !Fails(pages, isolated, k) && item in pages(k).value
    ensures item in Listed(pages, isolated, n)
  {
    if k < n {
      PageIsListed(pages, isolated, n - 1, k, item);
    }
  }

  /** A listing root of the patterns: what the server answers for its pages, and the pages an earlier run gave up. */
  datatype Root = Root(pages: Pages, isolated: set<nat>)

  /** What listing all roots yields: their listings in order; or, when something other than a page fails, whatever was
      listed until then and one error. */
  ghost predicate ListingOfRoots(roots: seq<Root>, pageSize: nat, budget: nat, items: seq<Item>) {
    || (exists before: seq<Item>, auth: bool :: items == before + [ListingError(auth)])
    || ListingsOf(roots, pageSize, budget, items)
  }

  ghost predicate ListingsOf(roots: seq<Root>, pageSize: nat, budget: nat, items: seq<Item>) {
    if roots == [] then items == []
    else
      exists cut :: 0 <= cut <= |items| && ListingsOf(roots[..|roots| - 1], pageSize, budget, items[..cut])
        && LastListing(roots, pageSize, budget, items, cut)
  }

  ghost predicate LastListing(roots: seq<Root>, pageSize: nat, budget: nat, items: seq<Item>, cut: nat)
    requires roots != [] && cut <= |items|
  {
    ListingOf(roots[|roots| - 1].pages, roots[|roots| - 1].isolated, pageSize, budget, items[cut..])
  }

  /** Pages up to the first short one were all answered, and everything on them is among the items. */
  ghost predicate ListedWhole(root: Root, pageSize: nat, budget: nat, items: seq<Item>, n: nat) {
    && 0 < n <= budget && WholeListing(root.pages, root.isolated, pageSize, n)
    && forall k: nat, item | 0 < k <= n && item in root.pages(k).value :: item in items
  }

  lemma RootIsListed(root: Root, pageSize: nat, budget: nat, items: seq<Item>) returns (n: nat)
    requires ListingOf(root.pages, root.isolated, pageSize, budget, items) && !HasError(items)
    ensures ListedWhole(root, pageSize, budget, items, n)
  {
    n := ErrorFreeListingIsWhole(root.pages, root.isolated, pageSize, budget, items);
    forall k: nat, item | 0 < k <= n && item in root.pages(k).value ensures item in items {
      PageIsListed(root.pages, root.isolated, n, k, item);
    }
  }

  lemma ListedAmongMore(root: Root, pageSize: nat, budget: nat, items: seq<Item>, more: seq<Item>, n: nat)
    requires ListedWhole(root, pageSize, budget, items, n) && forall item | item in items :: item in more
    ensures ListedWhole(root, pageSize, budget, more, n)
  {
  }

  lemma LastCut(roots: seq<Root>, pageSize: nat, budget: nat, items: seq<Item>) returns (cut: nat)
    requires ListingsOf(roots, pageSize, budget, items) && roots != []
    ensures cut <= |items| && ListingsOf(roots[..|roots| - 1], pageSize, budget, items[..cut])
    ensures LastListing(roots, pageSize, budget, items, cut)
  {
    cut :| 0 <= cut <= |items| && ListingsOf(roots[..|roots| - 1], pageSize, budget, items[..cut])
      && LastListing(roots, pageSize, budget, items, cut);
  }

  lemma LastRoot(roots: seq<Root>, pageSize: nat, budget: nat, items: seq<Item>)
    returns (init: seq<Item>, last: seq<Item>)
    requires ListingsOf(roots, pageSize, budget, items) && roots != [] && !HasError(items)
    ensures items == init + last && !HasError(init) && !HasError(last)
    ensures ListingsOf(roots[..|roots| - 1], pageSize, budget, init)
    ensures var root := roots[|roots| - 1]; ListingOf(root.pages, root.isolated, pageSize, budget, last)
  {
    var cut := LastCut(roots, pageSize, budget, items);
    init, last := items[..cut], items[cut..];
    ErrorsIn(init, last);
  }

  lemma {:induction false} EachRootIsListed(roots: seq<Root>, pageSize: nat, budget: nat, items: seq<Item>, r: nat)
    returns (n: nat)
    requires ListingsOf(roots, pageSize, budget, items) && !HasError(items) && r < |roots|
    ensures ListedWhole(roots[r], pageSize, budget, items, n)
    decreases |roots|
  {
    var init, last := LastRoot(roots, pageSize, budget, items);
    if r < |roots| - 1 {
      n := EachRootIsListed(roots[..|roots| - 1], pageSize, budget, init, r);
      ListedAmongMore(roots[r], pageSize, budget, init, items, n);
    } else {
      n := RootIsListed(roots[r], pageSize, budget, last);
      ListedAmongMore(roots[r], pageSize, budget, last, items, n);
    }
  }

  /** Lists every root. */
  method ListRoots(roots: seq<Root>, pageSize: nat, budget: nat) returns (items: seq<Item>)
    ensures ListingsOf(roots, pageSize, budget, items)
  {
    items := [];
    for r := 0 to |roots|
      invariant ListingsOf(roots[..r], pageSize, budget, items)
    {
      ghost var asked, last;
      var next;
      next, asked, last := IterDatasetPages(roots[r].pages, roots[r].isolated, pageSize, budget);
      assert roots[..r + 1][..r] == roots[..r];
      assert (items + next)[..|items|] == items && (items + next)[|items|..] == next;
      assert LastListing(roots[..r + 1], pageSize, budget, items + next, |items|);
      items := items + next;
    }
    assert roots[..|roots|] == roots;
  }

  // ---- The protocol ------------------------------------------------------------------------------------------------

  /** A job in the pool; `fatal` means that collecting it raises. */
  datatype Job = Job(path: string, finished: bool, fatal: bool)

  datatype Exit = Normal | Interrupted | Crashed

  /** Where the consumer is: at the loop test, which looks at the jobs, then at the producer, then at the queue;
      filling the pool; waiting for jobs; or out of the loop. */
  datatype Place = Testing | TestedJobs | TestedProducer | Filling | Waiting | Left(exit: Exit)

  /** The way from the producer to the consumer; `done` is the producer's word that it is finished. */
  datatype Feed = Feed(todo: seq<Item>, done: bool, queue: seq<Item>, taken: seq<Item>)

  /** What became of the items that were taken. */
  datatype Work = Work(jobs: seq<Job>, seen: set<string>, outcome: map<string, Status>, listingComplete: bool)

  /** `stop` is the cancellation event that everyone shares; `walkFailed` says that the listing itself set it;
      `authFailed` is the error for the whole report that a failed authentication of the listing leaves. */
  datatype State = State(feed: Feed, work: Work, place: Place, stop: bool, walkFailed: bool, authFailed: bool)

  datatype Limits = Limits(queue: nat, jobs: nat)

  /** Steps of the producer, of the consumer, and of the workers, in any order.  `WalkFails` exists for the model
      listing only: a failed level with several directories sets the shared event and then raises its error, which is
      the last thing the producer wants to queue. */
  datatype Step =
    | Put | DropItem | Abandon | SayDone | WalkFails
    | Test | Take | StopFilling | Collect(job: nat) | StopWaiting | Interrupt
    | EndJob(job: nat, status: Status, fatal: bool)

  predicate Enabled(limits: Limits, s: State, step: Step) {
    var feed, jobs := s.feed, s.work.jobs;
    match step
    case Put => feed.todo != [] && !feed.done && !s.stop && |feed.queue| < limits.queue
    case DropItem => feed.todo != [] && !feed.done && s.stop
    case Abandon => feed.todo != [] && !feed.done && s.stop && !s.walkFailed
    case SayDone => feed.todo == [] && !feed.done
    case WalkFails => !feed.done && !s.walkFailed && |feed.todo| == 1 && feed.todo[0].ListingError?
    case Test => s.place == Testing || s.place == TestedJobs || s.place == TestedProducer
    case Take => s.place == Filling && feed.queue != [] && |jobs| < limits.jobs
    case StopFilling => s.place == Filling && (feed.queue == [] || |jobs| >= limits.jobs)
    case Collect(job) => s.place == Waiting && job < |jobs| && jobs[job].finished
    case StopWaiting => s.place == Waiting
    case Interrupt => !s.place.Left?
    case EndJob(job, status, _) => job < |jobs| && !jobs[job].finished && status.IsOutcome()
  }

  /** The consumer takes one item: an error marks the listing, a path is selected once. */
  function Taking(work: Work, item: Item): Work {
    match item
    case ListingError(_) => work.(listingComplete := false)
    case Ignored => work
    case Invalid(path) =>
      if path in work.seen then work
      else work.(seen := work.seen + {path}, outcome := work.outcome[path := Failed])
    case File(path) =>
      if path in work.seen then work
      else work.(seen := work.seen + {path}, jobs := work.jobs + [Job(path, false, false)])
  }

  function Ending(work: Work, job: nat, status: Status, fatal: bool): Work
    requires job < |work.jobs|
  {
    var path := work.jobs[job].path;
    work.(jobs := work.jobs[job := Job(path, true, fatal)], outcome := work.outcome[path := status])
  }

  function Collecting(work: Work, job: nat): Work
    requires job < |work.jobs|
  {
    if work.jobs[job].fatal then work.(listingComplete := false)
    else work.(jobs := work.jobs[..job] + work.jobs[job + 1..])
  }

  /** The three looks of the loop test. */
  function NextPlace(s: State): Place {
    match s.place
    case Testing => if s.work.jobs != [] then Filling else TestedJobs
    case TestedJobs => if !s.feed.done then Filling else TestedProducer
    case _ => if s.feed.queue != [] then Filling else Left(Normal)
  }

  function FeedAfter(s: State, step: Step): Feed
    requires step.Put? || step.DropItem? ==> s.feed.todo != []
    requires step.Take? ==> s.feed.queue != []
  {
    var feed := s.feed;
    match step
    case Put => feed.(todo := feed.todo[1..], queue := feed.queue + [feed.todo[0]])
    case DropItem => feed.(todo := feed.todo[1..])
    case Abandon => feed.(todo := [])
    case SayDone => feed.(done := true)
    case Take => feed.(queue := feed.queue[1..], taken := feed.taken + [feed.queue[0]])
    case _ => feed
  }

  function WorkAfter(limits: Limits, s: State, step: Step): Work
    requires Enabled(limits, s, step)
  {
    match step
    case Take => Taking(s.work, s.feed.queue[0])
    case Collect(job) => Collecting(s.work, job)
    case EndJob(job, status, fatal) => Ending(s.work, job, status, fatal)
    case _ => s.work
  }

  function PlaceAfter(limits: Limits, s: State, step: Step): Place
    requires Enabled(limits, s, step)
  {
    match step
    case Test => NextPlace(s)
    case StopFilling => if s.work.jobs != [] then Waiting else Testing
    case StopWaiting => Testing
    case Collect(job) => if s.work.jobs[job].fatal then Left(Crashed) else Waiting
    case Interrupt => Left(Interrupted)
    case _ => s.place
  }

  function Apply(limits: Limits, s: State, step: Step): State
    requires Enabled(limits, s, step)
  {
    var place := PlaceAfter(limits, s, step);
    State(FeedAfter(s, step), WorkAfter(limits, s, step), place,
          s.stop || step.WalkFails? || step.Interrupt? || place == Left(Crashed),
          s.walkFailed || step.WalkFails?,
          s.authFailed || ((step.Put? || step.DropItem?) && s.feed.todo[0] == ListingError(true)))
  }

  function Start(items: seq<Item>): State {
    State(Feed(items, false, [], []), Work([], {}, map[], true), Testing, false, false, false)
  }

  predicate IsRun(limits: Limits, s: State, steps: seq<Step>)
    decreases |steps|
  {
    steps == [] || (Enabled(limits, s, steps[0]) && IsRun(limits, Apply(limits, s, steps[0]), steps[1..]))
  }

  function After(limits: Limits, s: State, steps: seq<Step>): State
    requires IsRun(limits, s, steps)
    decreases |steps|
  {
    if steps == [] then s else After(limits, Apply(limits, s, steps[0]), steps[1..])
  }

  predicate AllVerified(work: Work) {
    forall path | path in work.seen :: path in work.outcome && work.outcome[path] == Verified
  }

  /** The report is complete: the loop ended by itself, no listing error was taken, no failed authentication was noted,
      and every selected path is verified. */
  predicate Complete(s: State) {
    s.place == Left(Normal) && s.work.listingComplete && !s.authFailed && AllVerified(s.work)
  }

  // ---- The invariant -----------------------------------------------------------------------------------------------

  /** The consumer was made to leave. */
  predicate Thrown(place: Place) {
    place == Left(Interrupted) || place == Left(Crashed)
  }

  /** How many items the producer has got rid of. */
  function Gone(items: seq<Item>, feed: Feed): nat
    requires |feed.todo| <= |items|
  {
    |items| - |feed.todo|
  }

  /** Until the consumer is made to leave, everything that the producer got rid of has reached the queue, except for the
      error of a walk that set the event. */
  predicate Conveyed(items: seq<Item>, s: State) {
    var feed := s.feed;
    && (feed.done ==> feed.todo == [])
    && (!Thrown(s.place) ==>
          && |feed.todo| <= |items| && feed.todo == items[Gone(items, feed)..]
          && (s.authFailed <==> HasAuthError(items[..Gone(items, feed)]))
          && (s.stop <==> s.walkFailed)
          && (s.walkFailed ==> items != [] && items[|items| - 1].ListingError? && |feed.todo| <= 1)
          && feed.taken + feed.queue == items[..if s.walkFailed then |items| - 1 else Gone(items, feed)])
  }

  /** What the consumer has learnt on its way through the loop test. */
  predicate Tested(s: State) {
    && (s.place == TestedJobs || s.place == TestedProducer || s.place == Left(Normal) ==> s.work.jobs == [])
    && (s.place == TestedProducer || s.place == Left(Normal) ==> s.feed.done)
    && (s.place == Left(Normal) ==> s.feed.queue == [])
  }

  /** Every item taken has left its mark. */
  predicate Marked(taken: seq<Item>, work: Work, crashed: bool) {
    && (!crashed ==> (work.listingComplete <==> !HasError(taken)))
    && (work.listingComplete ==> !HasError(taken))
    && forall item | item in taken :: item.File? || item.Invalid? ==> item.path in work.seen
  }

  predicate Pending(job: Job, path: string) {
    job.path == path && !job.finished
  }

  /** A selected path has an outcome, or an unfinished job that will give it one. */
  ghost predicate Tracked(work: Work) {
    forall path | path in work.seen ::
      path in work.outcome || exists i :: 0 <= i < |work.jobs| && Pending(work.jobs[i], path)
  }

  ghost predicate Inv(limits: Limits, items: seq<Item>, s: State) {
    && Conveyed(items, s) && Tested(s) && Tracked(s.work)
    && Marked(s.feed.taken, s.work, s.place == Left(Crashed))
    && |s.feed.queue| <= limits.queue && |s.work.jobs| <= limits.jobs
  }

  lemma PutKeepsConveyed(limits: Limits, items: seq<Item>, s: State)
    requires Enabled(limits, s, Put) && Conveyed(items, s)
    ensures Conveyed(items, Apply(limits, s, Put))
  {
    if !Thrown(s.place) {
      var feed, n := s.feed, Gone(items, s.feed);
      assert items[..n + 1] == items[..n] + [items[n]];
      ErrorsIn(items[..n], [items[n]]);
      assert [items[n]][0] == items[n];
      assert feed.taken + (feed.queue + [feed.todo[0]]) == (feed.taken + feed.queue) + [feed.todo[0]];
    }
  }

  lemma DropKeepsConveyed(limits: Limits, items: seq<Item>, s: State)
    requires Enabled(limits, s, DropItem) && Conveyed(items, s)
    ensures Conveyed(items, Apply(limits, s, DropItem))
  {
    if !Thrown(s.place) {
      var n := Gone(items, s.feed);
      assert items[..n + 1] == items[..n] + [items[n]];
      ErrorsIn(items[..n], [items[n]]);
      assert [items[n]][0] == items[n];
    }
  }

  lemma StepKeepsConveyed(limits: Limits, items: seq<Item>, s: State, step: Step)
    requires Enabled(limits, s, step) && Conveyed(items, s)
    ensures Conveyed(items, Apply(limits, s, step))
  {
    var feed := s.feed;
    if step.Put? {
      PutKeepsConveyed(limits, items, s);
    } else if step.DropItem? {
      DropKeepsConveyed(limits, items, s);
    } else if step.Take? {
      assert (feed.taken + [feed.queue[0]]) + feed.queue[1..] == feed.taken + feed.queue;
    }
  }

  lemma StepKeepsTested(limits: Limits, s: State, step: Step)
    requires Enabled(limits, s, step) && Tested(s)
    ensures Tested(Apply(limits, s, step))
  {
  }

  lemma StepKeepsMarked(limits: Limits, s: State, step: Step)
    requires Enabled(limits, s, step) && Marked(s.feed.taken, s.work, s.place == Left(Crashed))
    ensures var t := Apply(limits, s, step);
      Marked(t.feed.taken, t.work, t.place == Left(Crashed))
  {
    if step.Take? {
      ErrorsIn(s.feed.taken, [s.feed.queue[0]]);
      assert [s.feed.queue[0]][0] == s.feed.queue[0];
    }
  }

  lemma TakingKeepsTracked(work: Work, item: Item)
    requires Tracked(work)
    ensures Tracked(Taking(work, item))
  {
    var next := Taking(work, item);
    if item.File? && item.path !in work.seen {
      assert Pending(next.jobs[|work.jobs|], item.path);
    }
    forall path | path in work.seen && path !in work.outcome
      ensures exists i :: 0 <= i < |next.jobs| && Pending(next.jobs[i], path)
    {
      var i :| 0 <= i < |work.jobs| && Pending(work.jobs[i], path);
      assert Pending(next.jobs[i], path);
    }
  }

  lemma EndingKeepsTracked(work: Work, job: nat, status: Status, fatal: bool)
    requires Tracked(work) && job < |work.jobs|
    ensures Tracked(Ending(work, job, status, fatal))
  {
    var next := Ending(work, job, status, fatal);
    forall path | path in work.seen && path !in next.outcome
      ensures exists i :: 0 <= i < |next.jobs| && Pending(next.jobs[i], path)
    {
      var i :| 0 <= i < |work.jobs| && Pending(work.jobs[i], path);
      assert Pending(next.jobs[i], path);
    }
  }

  lemma CollectingKeepsTracked(work: Work, job: nat)
    requires Tracked(work) && job < |work.jobs| && work.jobs[job].finished
    ensures Tracked(Collecting(work, job))
  {
    var next := Collecting(work, job);
    forall path | path in work.seen && path !in work.outcome
      ensures exists i :: 0 <= i < |next.jobs| && Pending(next.jobs[i], path)
    {
      var i :| 0 <= i < |work.jobs| && Pending(work.jobs[i], path);
      assert Pending(next.jobs[if !work.jobs[job].fatal && job < i then i - 1 else i], path);
    }
  }

  lemma StepKeepsInv(limits: Limits, items: seq<Item>, s: State, step: Step)
    requires Enabled(limits, s, step) && Inv(limits, items, s)
    ensures Inv(limits, items, Apply(limits, s, step))
  {
    StepKeepsConveyed(limits, items, s, step);
    StepKeepsTested(limits, s, step);
    StepKeepsMarked(limits, s, step);
    match step
    case Take => TakingKeepsTracked(s.work, s.feed.queue[0]);
    case Collect(job) => CollectingKeepsTracked(s.work, job);
    case EndJob(job, status, fatal) => EndingKeepsTracked(s.work, job, status, fatal);
    case _ =>
  }

  lemma {:induction false} RunKeepsInv(limits: Limits, items: seq<Item>, s: State, steps: seq<Step>)
    requires IsRun(limits, s, steps) && Inv(limits, items, s)
    ensures Inv(limits, items, After(limits, s, steps))
    decreases |steps|
  {
    if steps != [] {
      StepKeepsInv(limits, items, s, steps[0]);
      RunKeepsInv(limits, items, Apply(limits, s, steps[0]), steps[1..]);
    }
  }

  // ---- Results -----------------------------------------------------------------------------------------------------

  /** The feed after a normal exit. */
  lemma TakenAtExit(items: seq<Item>, s: State)
    requires Conveyed(items, s) && Tested(s) && s.place == Left(Normal)
    ensures !s.walkFailed ==> s.feed.taken == items
    ensures s.walkFailed ==>
      items != [] && items[|items| - 1].ListingError? && s.feed.taken == items[..|items| - 1]
    ensures s.authFailed <==> HasAuthError(items)
  {
    assert s.feed.taken + [] == s.feed.taken && items[..|items|] == items;
  }

  /** When the consumer leaves the loop by its own test, it has taken every item, whatever the order in which the
      producer, the consumer and the workers moved; only the error of a walk that set the event may be missing, and
      then it was the last item.  Every selected path has an outcome. */
  lemma NormalExitTookEverything(limits: Limits, items: seq<Item>, steps: seq<Step>)
    requires IsRun(limits, Start(items), steps) && After(limits, Start(items), steps).place == Left(Normal)
    ensures var s := After(limits, Start(items), steps);
      && (!s.walkFailed ==> s.feed.taken == items)
      && (s.walkFailed ==> items != [] && items[|items| - 1].ListingError? && s.feed.taken == items[..|items| - 1])
      && (forall path | path in s.work.seen :: path in s.work.outcome)
      && (forall item | item in s.feed.taken :: item.File? || item.Invalid? ==> item.path in s.work.seen)
      && (s.work.listingComplete <==> !HasError(s.feed.taken))
      && (s.authFailed <==> HasAuthError(items))
  {
    RunKeepsInv(limits, items, Start(items), steps);
    TakenAtExit(items, After(limits, Start(items), steps));
  }

  // ---- Outcomes are earned -----------------------------------------------------------------------------------------

  /** A step of the run ends the job of this path with this status. */
  predicate Ends(limits: Limits, s: State, steps: seq<Step>, path: string, status: Status)
    requires IsRun(limits, s, steps)
    decreases |steps|
  {
    steps != []
    && (EndsNow(s, steps[0], path, status) || Ends(limits, Apply(limits, s, steps[0]), steps[1..], path, status))
  }

  predicate EndsNow(s: State, step: Step, path: string, status: Status) {
    step.EndJob? && step.job < |s.work.jobs| && s.work.jobs[step.job].path == path && step.status == status
  }

  /** A step of the run takes an entry without usable metadata for a path that has not been selected before. */
  predicate Rejects(limits: Limits, s: State, steps: seq<Step>, path: string)
    requires IsRun(limits, s, steps)
    decreases |steps|
  {
    steps != []
    && (RejectsNow(s, steps[0], path) || Rejects(limits, Apply(limits, s, steps[0]), steps[1..], path))
  }

  predicate RejectsNow(s: State, step: Step, path: string) {
    step.Take? && s.feed.queue != [] && s.feed.queue[0] == Invalid(path) && path !in s.work.seen
  }

  /** One job per path; a job has an outcome exactly when it is finished, and what has neither job nor selection has
      none. */
  ghost predicate OneJobEach(work: Work) {
    && (forall i, j | 0 <= i < j < |work.jobs| :: work.jobs[i].path != work.jobs[j].path)
    && (forall i | 0 <= i < |work.jobs| :: work.jobs[i].path in work.seen
          && (work.jobs[i].finished <==> work.jobs[i].path in work.outcome))
    && (forall path | path in work.outcome :: path in work.seen)
  }

  /** What one step does to the outcome of a path. */
  lemma StepEarns(limits: Limits, s: State, step: Step, path: string)
    requires Enabled(limits, s, step) && OneJobEach(s.work)
    ensures OneJobEach(Apply(limits, s, step).work)
    ensures var was, now := s.work.outcome, Apply(limits, s, step).work.outcome;
      && (path in was ==> path in now && now[path] == was[path])
      && (path in was || path in s.work.seen ==> !RejectsNow(s, step, path))
      && (path in was ==> forall status :: !EndsNow(s, step, path, status))
      && (forall status | EndsNow(s, step, path, status) :: path in now && now[path] == status)
      && (RejectsNow(s, step, path) ==> path in now && now[path] == Failed)
      && (path in now && path !in was ==> RejectsNow(s, step, path) || EndsNow(s, step, path, now[path]))
  {
  }

  /** The outcomes after a run are those from before and those that its steps have earned. */
  lemma {:induction false} RunEarns(limits: Limits, s: State, steps: seq<Step>, path: string, status: Status)
    requires IsRun(limits, s, steps) && OneJobEach(s.work)
    ensures var was, now := s.work.outcome, After(limits, s, steps).work.outcome;
      path in now && now[path] == status <==>
        (path in was && was[path] == status) || Ends(limits, s, steps, path, status)
        || (status == Failed && Rejects(limits, s, steps, path))
    ensures path in s.work.outcome ==> !Rejects(limits, s, steps, path) && !Ends(limits, s, steps, path, status)
    decreases |steps|
  {
    if steps != [] {
      StepEarns(limits, s, steps[0], path);
      RunEarns(limits, Apply(limits, s, steps[0]), steps[1..], path, status);
    }
  }

  /** In every run the outcome of a path is the status with which its job ended, or that of a failure if its entry was
      rejected; a path gets one outcome at most. */
  lemma OutcomesAreEarned(limits: Limits, items: seq<Item>, steps: seq<Step>, path: string, status: Status)
    requires IsRun(limits, Start(items), steps)
    ensures var outcome := After(limits, Start(items), steps).work.outcome;
      path in outcome && outcome[path] == status <==>
        Ends(limits, Start(items), steps, path, status)
        || (status == Failed && Rejects(limits, Start(items), steps, path))
  {
    RunEarns(limits, Start(items), steps, path, status);
  }

  /** Every job that ended in the run ended as verified, and no entry was rejected. */
  ghost predicate OnlyVerified(limits: Limits, s: State, steps: seq<Step>)
    requires IsRun(limits, s, steps)
  {
    && (forall path, status | Ends(limits, s, steps, path, status) :: status == Verified)
    && (forall path :: !Rejects(limits, s, steps, path))
  }

  /** After a normal exit all selected paths are verified if and only if every job ended so and no entry was
      rejected. */
  lemma VerifiedIffEarned(limits: Limits, items: seq<Item>, steps: seq<Step>)
    requires IsRun(limits, Start(items), steps) && After(limits, Start(items), steps).place == Left(Normal)
    ensures AllVerified(After(limits, Start(items), steps).work) <==> OnlyVerified(limits, Start(items), steps)
  {
    NormalExitTookEverything(limits, items, steps);
    var s0, s := Start(items), After(limits, Start(items), steps);
    RunKeepsOneJobEach(limits, s0, steps);
    if AllVerified(s.work) {
      forall path, status | Ends(limits, s0, steps, path, status) ensures status == Verified {
        OutcomesAreEarned(limits, items, steps, path, status);
      }
      forall path ensures !Rejects(limits, s0, steps, path) {
        OutcomesAreEarned(limits, items, steps, path, Failed);
      }
    }
    if OnlyVerified(limits, s0, steps) {
      forall path | path in s.work.seen ensures path in s.work.outcome && s.work.outcome[path] == Verified {
        OutcomesAreEarned(limits, items, steps, path, s.work.outcome[path]);
      }
    }
  }

  lemma {:induction false} RunKeepsOneJobEach(limits: Limits, s: State, steps: seq<Step>)
    requires IsRun(limits, s, steps) && OneJobEach(s.work)
    ensures OneJobEach(After(limits, s, steps).work)
    decreases |steps|
  {
    if steps != [] {
      StepEarns(limits, s, steps[0], "");
      RunKeepsOneJobEach(limits, Apply(limits, s, steps[0]), steps[1..]);
    }
  }

  // ---- What a complete report means --------------------------------------------------------------------------------

  /** The listing error that a complete report may hide: the last item, not from authentication, and raised by a walk
      that set the event. */
  predicate HiddenError(items: seq<Item>, s: State) {
    s.walkFailed && items != [] && items[|items| - 1] == PLAIN_ERROR && !HasError(items[..|items| - 1])
  }

  /** What a complete report means, exactly, for every listing: every job of the run ended as verified, no entry was
      rejected, and no item was a listing error, or the only one is hidden by a failed walk. */
  lemma CompleteExactly(limits: Limits, items: seq<Item>, steps: seq<Step>)
    requires IsRun(limits, Start(items), steps) && After(limits, Start(items), steps).place == Left(Normal)
    ensures var s := After(limits, Start(items), steps);
      Complete(s) <==> OnlyVerified(limits, Start(items), steps) && (!HasError(items) || HiddenError(items, s))
  {
    VerifiedIffEarned(limits, items, steps);
    NormalExitTookEverything(limits, items, steps);
    var s := After(limits, Start(items), steps);
    if items != [] {
      var n := |items| - 1;
      assert items == items[..n] + [items[n]] && [items[n]][0] == items[n];
      ErrorsIn(items[..n], [items[n]]);
    }
    if HasAuthError(items) {
      assert HasError(items);
    }
  }

  /** So a complete report is about the whole listing exactly when no walk has failed. */
  lemma CompleteIsSound(limits: Limits, items: seq<Item>, steps: seq<Step>)
    requires IsRun(limits, Start(items), steps) && Complete(After(limits, Start(items), steps))
    ensures !HasError(items) <==> !After(limits, Start(items), steps).walkFailed
    ensures !HasAuthError(items)
    ensures forall item | item in items && item.File? :: Ends(limits, Start(items), steps, item.path, Verified)
  {
    NormalExitTookEverything(limits, items, steps);
    CompleteExactly(limits, items, steps);
    var s := After(limits, Start(items), steps);
    if s.walkFailed {
      var n := |items| - 1;
      assert items == items[..n] + [items[n]];
      assert HasError(items);
    }
    forall item | item in items && item.File? ensures Ends(limits, Start(items), steps, item.path, Verified) {
      assert item in s.feed.taken && item.path in s.work.seen;
      OutcomesAreEarned(limits, items, steps, item.path, Verified);
    }
  }

  lemma {:induction false} WalksDoNotFail(limits: Limits, s: State, steps: seq<Step>)
    requires IsRun(limits, s, steps) && WalkFails !in steps && !s.walkFailed
    ensures !After(limits, s, steps).walkFailed
    decreases |steps|
  {
    if steps != [] {
      WalksDoNotFail(limits, Apply(limits, s, steps[0]), steps[1..]);
    }
  }

  /** A complete dataset report means that, under every listing root, every page of the listing was answered and every
      file on it was verified. */
  lemma CompleteDatasetReport(limits: Limits, roots: seq<Root>, pageSize: nat, budget: nat, items: seq<Item>,
                              steps: seq<Step>, r: nat)
    returns (n: nat)
    requires ListingOfRoots(roots, pageSize, budget, items) && r < |roots|
    requires IsRun(limits, Start(items), steps) && WalkFails !in steps && Complete(After(limits, Start(items), steps))
    ensures 0 < n <= budget && WholeListing(roots[r].pages, roots[r].isolated, pageSize, n)
    ensures forall k: nat, item | 0 < k <= n && item in roots[r].pages(k).value && item.File? ::
      Ends(limits, Start(items), steps, item.path, Verified)
  {
    WalksDoNotFail(limits, Start(items), steps);
    CompleteIsSound(limits, items, steps);
    if !ListingsOf(roots, pageSize, budget, items) {
      var before: seq<Item>, auth: bool :| items == before + [ListingError(auth)];
      ErrorAtEnd(before, ListingError(auth));
      assert false;
    }
    n := EachRootIsListed(roots, pageSize, budget, items, r);
  }

  /** Once the event is set, no further item reaches the queue: what is taken from then on was queued before.  So the
      error that a model walk raises after setting it is never seen by the report. */
  lemma {:induction false} NothingQueuedAfterStop(limits: Limits, s: State, steps: seq<Step>)
    requires IsRun(limits, s, steps) && s.stop
    ensures var t := After(limits, s, steps);
      t.stop && t.feed.taken + t.feed.queue == s.feed.taken + s.feed.queue
    decreases |steps|
  {
    if steps != [] {
      var next := Apply(limits, s, steps[0]);
      NothingQueuedAfterStop(limits, next, steps[1..]);
      if steps[0].Take? {
        assert (s.feed.taken + [s.feed.queue[0]]) + s.feed.queue[1..] == s.feed.taken + s.feed.queue;
      }
    }
  }

  /** The bad run: the model listing fails on a level with several directories, not for authentication, before any file
      was listed, and the report of the empty download is complete. */
  lemma FailedWalkCanReportComplete(limits: Limits)
    ensures var steps := [WalkFails, DropItem, SayDone, Test, Test, Test];
      && IsRun(limits, Start([PLAIN_ERROR]), steps)
      && Complete(After(limits, Start([PLAIN_ERROR]), steps))
      && After(limits, Start([PLAIN_ERROR]), steps).work.seen == {}
  {
    var s0 := Start([PLAIN_ERROR]);
    var s1 := Apply(limits, s0, WalkFails);
    var s2 := Apply(limits, s1, DropItem);
    var s3 := Apply(limits, s2, SayDone);
    var s4 := Apply(limits, s3, Test);
    var s5 := Apply(limits, s4, Test);
    OneMore(limits, s5, Test, []);
    OneMore(limits, s4, Test, [Test]);
    OneMore(limits, s3, Test, [Test, Test]);
    OneMore(limits, s2, SayDone, [Test, Test, Test]);
    OneMore(limits, s1, DropItem, [SayDone, Test, Test, Test]);
    OneMore(limits, s0, WalkFails, [DropItem, SayDone, Test, Test, Test]);
  }

  lemma OneMore(limits: Limits, s: State, step: Step, rest: seq<Step>)
    requires Enabled(limits, s, step) && IsRun(limits, Apply(limits, s, step), rest)
    ensures IsRun(limits, s, [step] + rest)
    ensures After(limits, s, [step] + rest) == After(limits, Apply(limits, s, step), rest)
  {
    assert ([step] + rest)[1..] == rest;
  }

  // ---- The status of the report ------------------------------------------------------------------------------------

  /** The records of the ledger are about the selected paths, one each, and say how they ended; a path without an
      outcome is ended as pending when the report is made. */
  ghost predicate LedgerAgrees(results: seq<Record>, work: Work) {
    && PathsOf(results) == work.seen
    && forall r | r in results ::
      r.status == if r.path in work.outcome then work.outcome[r.path] else Status.Pending
  }

  /** An error for the whole report: a failed authentication of the listing, or whatever made the consumer crash. */
  predicate GlobalError(s: State) {
    s.authFailed || s.place == Left(Crashed)
  }

  lemma VerifiedRecords(results: seq<Record>, work: Work)
    requires LedgerAgrees(results, work)
    ensures AllVerified(work) <==> forall r | r in results :: r.status == Verified
  {
    forall path | path in work.seen ensures exists r :: r in results && r.path == path {
      PathsAreTheirs(results, path);
      var i :| 0 <= i < |results| && results[i].path == path;
      assert results[i] in results;
    }
    forall r | r in results ensures r.path in work.seen {
      PathsAreTheirs(results, r.path);
    }
    if forall r | r in results :: r.status == Verified {
      forall path | path in work.seen ensures path in work.outcome && work.outcome[path] == Verified {
        var r :| r in results && r.path == path;
        assert r.status == Verified;
      }
    }
  }

  /** The protocol's notion of a complete report is the ledger's. */
  lemma CompleteIsTheLedgers(s: State, results: seq<Record>)
    requires s.place.Left? && LedgerAgrees(results, s.work)
    ensures Complete(s) <==>
      && s.place != Left(Interrupted) && s.work.listingComplete && !GlobalError(s)
      && forall r | r in results :: r.status == Verified
  {
    VerifiedRecords(results, s.work);
    var exit := s.place.exit;
    assert s.place == Left(exit) && (exit.Normal? || exit.Interrupted? || exit.Crashed?);
  }

  // ---- Progress ----------------------------------------------------------------------------------------------------

  function JobsLeft(jobs: seq<Job>): nat {
    if jobs == [] then 0 else JobsLeft(jobs[..|jobs| - 1]) + (if jobs[|jobs| - 1].finished then 1 else 2)
  }

  /** What is left to do, apart from where the consumer is. */
  function WorkLeft(s: State): nat {
    5 * |s.feed.todo| + 4 * |s.feed.queue| + JobsLeft(s.work.jobs) + (if s.feed.done then 0 else 1)
  }

  /** How far the consumer is from its next useful step, or from the way out when there is none. */
  function Distance(s: State): nat {
    match s.place
    case Left(_) => 0
    case TestedProducer => 2
    case TestedJobs => 3
    case Testing => 4
    case Filling => if s.work.jobs == [] && s.feed.queue == [] then 5 else 1
    case Waiting => if s.work.jobs == [] then 5 else 0
  }

  function FirstFinished(jobs: seq<Job>): (i: nat)
    ensures i <= |jobs| && (i < |jobs| ==> jobs[i].finished)
    ensures forall k | 0 <= k < i :: !jobs[k].finished
  {
    if jobs == [] then 0
    else
      var i := FirstFinished(jobs[..|jobs| - 1]);
      if i < |jobs| - 1 || jobs[|jobs| - 1].finished then i else |jobs|
  }

  /** What the producer can do, if it can do anything. */
  function ProducerStep(limits: Limits, s: State): Option<Step> {
    if s.feed.done then None
    else if s.feed.todo == [] then Some(SayDone)
    else if s.stop then Some(DropItem)
    else if |s.feed.queue| < limits.queue then Some(Put)
    else None
  }

  /** What brings the consumer or a worker on. */
  function ConsumerStep(limits: Limits, s: State): Step
    requires !s.place.Left?
  {
    match s.place
    case Filling => if s.feed.queue != [] && |s.work.jobs| < limits.jobs then Take else StopFilling
    case Waiting =>
      if s.work.jobs == [] then StopWaiting
      else
        var i := FirstFinished(s.work.jobs);
        if i < |s.work.jobs| then Collect(i) else EndJob(0, Verified, false)
    case _ => Test
  }

  function NextStep(limits: Limits, s: State): Step
    requires !s.place.Left?
  {
    var p := ProducerStep(limits, s);
    if p.Some? then p.value else ConsumerStep(limits, s)
  }

  lemma {:induction false} JobsLeftUpdate(jobs: seq<Job>, i: nat, job: Job)
    requires i < |jobs| && !jobs[i].finished && job.finished
    ensures JobsLeft(jobs[i := job]) < JobsLeft(jobs)
  {
    var n := |jobs| - 1;
    if i < n {
      JobsLeftUpdate(jobs[..n], i, job);
      assert jobs[i := job][..n] == jobs[..n][i := job];
    } else {
      assert jobs[i := job][..n] == jobs[..n];
    }
  }

  lemma {:induction false} JobsLeftRemove(jobs: seq<Job>, i: nat)
    requires i < |jobs|
    ensures JobsLeft(jobs[..i] + jobs[i + 1..]) < JobsLeft(jobs)
    decreases |jobs|
  {
    var n := |jobs| - 1;
    var rest := jobs[..i] + jobs[i + 1..];
    if i < n {
      JobsLeftRemove(jobs[..n], i);
      assert rest[..|rest| - 1] == jobs[..n][..i] + jobs[..n][i + 1..];
    } else {
      assert rest == jobs[..n];
    }
  }

  lemma JobsLeftAdd(jobs: seq<Job>, job: Job)
    ensures JobsLeft(jobs + [job]) <= JobsLeft(jobs) + 2
  {
    assert (jobs + [job])[..|jobs|] == jobs;
  }

  /** The consumer looks around and goes on. */
  predicate Polls(limits: Limits, s: State, step: Step)
    requires Enabled(limits, s, step)
  {
    step.StopFilling? || step.StopWaiting? || (step.Test? && !PlaceAfter(limits, s, step).Left?)
  }

  /** The steps of a run that are more than a look. */
  function Busy(limits: Limits, s: State, steps: seq<Step>): nat
    requires IsRun(limits, s, steps)
    decreases |steps|
  {
    if steps == [] then 0
    else (if Polls(limits, s, steps[0]) then 0 else 1) + Busy(limits, Apply(limits, s, steps[0]), steps[1..])
  }

  /** What producer, workers and consumer can still do. */
  function Effort(s: State): nat {
    WorkLeft(s) + (if s.walkFailed then 0 else 1) + (if s.place.Left? then 0 else 1)
  }

  lemma StepTakesEffort(limits: Limits, s: State, step: Step)
    requires Enabled(limits, s, step)
    ensures Effort(Apply(limits, s, step)) + (if Polls(limits, s, step) then 0 else 1) <= Effort(s)
  {
    match step
    case Take => TakingLeavesLess(s.work, s.feed.queue[0]);
    case Collect(i) => JobsLeftRemove(s.work.jobs, i);
    case EndJob(i, _, fatal) => JobsLeftUpdate(s.work.jobs, i, Job(s.work.jobs[i].path, true, fatal));
    case _ =>
  }

  /** However producer, workers and consumer take turns, a run has at most five steps per listed item, and three, that
      are more than a look of the consumer. */
  lemma RunsAreBounded(limits: Limits, items: seq<Item>, steps: seq<Step>)
    requires IsRun(limits, Start(items), steps)
    ensures Busy(limits, Start(items), steps) <= 5 * |items| + 3
  {
    BusyTakesEffort(limits, Start(items), steps);
  }

  lemma {:induction false} BusyTakesEffort(limits: Limits, s: State, steps: seq<Step>)
    requires IsRun(limits, s, steps)
    ensures Busy(limits, s, steps) + Effort(After(limits, s, steps)) <= Effort(s)
    decreases |steps|
  {
    if steps != [] {
      StepTakesEffort(limits, s, steps[0]);
      BusyTakesEffort(limits, Apply(limits, s, steps[0]), steps[1..]);
    }
  }

  /** Once the producer is done and queue and pool are empty, every run ends after five steps at most, and the consumer
      has left when nothing more can happen. */
  lemma {:induction false} IdleRunsEnd(limits: Limits, s: State, steps: seq<Step>)
    requires IsRun(limits, s, steps) && s.feed.done && s.feed.queue == [] && s.work.jobs == []
    ensures |steps| + Distance(After(limits, s, steps)) <= Distance(s) <= 5
    ensures Distance(After(limits, s, steps)) == 0 ==> After(limits, s, steps).place.Left?
    decreases |steps|
  {
    if steps != [] {
      IdleRunsEnd(limits, Apply(limits, s, steps[0]), steps[1..]);
    }
  }

  predicate NoFatal(jobs: seq<Job>) {
    forall job | job in jobs :: !job.fatal
  }

  /** The step can be taken, it is no interruption, and it brings the end nearer. */
  ghost predicate Advances(limits: Limits, s: State, step: Step) {
    && Enabled(limits, s, step) && step != Interrupt
    && var t := Apply(limits, s, step);
    && (NoFatal(s.work.jobs) ==> NoFatal(t.work.jobs) && t.place != Left(Crashed))
    && (t.place.Left? || WorkLeft(t) < WorkLeft(s) || (WorkLeft(t) == WorkLeft(s) && Distance(t) < Distance(s)))
  }

  lemma ProducerAdvances(limits: Limits, items: seq<Item>, s: State)
    requires Inv(limits, items, s) && !s.place.Left? && ProducerStep(limits, s).Some?
    ensures Advances(limits, s, ProducerStep(limits, s).value)
  {
  }

  lemma ConsumerAdvances(limits: Limits, items: seq<Item>, s: State)
    requires Inv(limits, items, s) && !s.place.Left? && limits.queue > 0 && limits.jobs > 0
    requires ProducerStep(limits, s) == None
    ensures Advances(limits, s, ConsumerStep(limits, s))
  {
    var step, jobs := ConsumerStep(limits, s), s.work.jobs;
    match step
    case Take => TakeAdvances(limits, s);
    case Collect(i) => CollectAdvances(limits, s, i);
    case EndJob(i, status, fatal) =>
      JobsLeftUpdate(jobs, i, Job(jobs[i].path, true, fatal));
    case _ =>
  }

  lemma TakingLeavesLess(work: Work, item: Item)
    ensures JobsLeft(Taking(work, item).jobs) <= JobsLeft(work.jobs) + 2
    ensures NoFatal(work.jobs) ==> NoFatal(Taking(work, item).jobs)
  {
    if item.File? {
      JobsLeftAdd(work.jobs, Job(item.path, false, false));
    }
  }

  lemma TakeAdvances(limits: Limits, s: State)
    requires Enabled(limits, s, Take)
    ensures Advances(limits, s, Take)
  {
    TakingLeavesLess(s.work, s.feed.queue[0]);
    var t := Apply(limits, s, Take);
    assert t.work == Taking(s.work, s.feed.queue[0]) && |t.feed.queue| == |s.feed.queue| - 1;
  }

  lemma CollectAdvances(limits: Limits, s: State, i: nat)
    requires Enabled(limits, s, Collect(i))
    ensures Advances(limits, s, Collect(i))
  {
    JobsLeftRemove(s.work.jobs, i);
    assert s.work.jobs[i] in s.work.jobs;
  }

  /** No run is stuck: from every state that can be reached, however the event came to be set, the consumer can still
      leave the loop without being interrupted, and by its own test unless a job that raises was already there. */
  lemma {:induction false} CanFinish(limits: Limits, items: seq<Item>, s: State) returns (steps: seq<Step>)
    requires Inv(limits, items, s) && limits.queue > 0 && limits.jobs > 0
    ensures IsRun(limits, s, steps) && Interrupt !in steps && After(limits, s, steps).place.Left?
    ensures NoFatal(s.work.jobs) && !s.place.Left? ==> After(limits, s, steps).place == Left(Normal)
    decreases WorkLeft(s), Distance(s)
  {
    if s.place.Left? {
      return [];
    }
    var step := NextStep(limits, s);
    if ProducerStep(limits, s).Some? {
      ProducerAdvances(limits, items, s);
    } else {
      ConsumerAdvances(limits, items, s);
    }
    StepKeepsInv(limits, items, s, step);
    var t := Apply(limits, s, step);
    var rest;
    if t.place.Left? {
      rest := [];
    } else {
      rest := CanFinish(limits, items, t);
    }
    OneMore(limits, s, step, rest);
    steps := [step] + rest;
  }
}
