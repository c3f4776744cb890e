/** Finding the internal storage region of a download route: one probe per route at a time, shared by all threads. */
module RegionProbe {
  import opened Options

  /** Repository, type, revision and redirect endpoint, as one key. */
  type Route = string

  /** Where a route was found: nothing internal, the local region, or a peer region. */
  datatype Source = Default | Local(region: Option<string>) | Peer(region: Option<string>)

  /** What the threads share under the lock.  Events are numbered in the order they are made; `raised` holds those
      that have been set. */
  datatype Shared = Shared(cache: map<Route, Source>, inflight: map<Route, nat>, raised: set<nat>, made: nat)

  datatype Entry = Cached(source: Source) | Join(event: nat) | Own(event: nat)

  /** One pass under the lock: take the cached answer, join the probe under way, or become its owner. */
  function Entering(shared: Shared, route: Route): (Entry, Shared) {
    if route in shared.cache then (Cached(shared.cache[route]), shared)
    else if route in shared.inflight then (Join(shared.inflight[route]), shared)
    else (Own(shared.made), shared.(inflight := shared.inflight[route := shared.made], made := shared.made + 1))
  }

  /** Only a confirmed internal resolution is remembered. */
  function Storing(shared: Shared, route: Route, source: Source): Shared {
    if source == Default then shared else shared.(cache := shared.cache[route := source])
  }

  /** The end of a probe, successful or not: the entry goes and its event is set, in one critical section. */
  function Releasing(shared: Shared, route: Route, event: nat): Shared {
    shared.(inflight := shared.inflight - {route}, raised := shared.raised + {event})
  }

  function Lookup(inflight: map<Route, nat>, route: Route): Option<nat> {
    if route in inflight then Some(inflight[route]) else None
  }

  ghost predicate Flies(inflight: map<Route, nat>, event: nat) {
    exists route :: route in inflight && inflight[route] == event
  }

  /** An event is unset exactly while a route is in flight under it, and no two routes are in flight under the same
      one. */
  ghost predicate EventsMatch(inflight: map<Route, nat>, raised: set<nat>, made: nat) {
    && (forall e | e in raised :: e < made)
    && (forall route | route in inflight :: inflight[route] < made && inflight[route] !in raised)
    && (forall one, other | one in inflight && other in inflight && one != other :: inflight[one] != inflight[other])
    && (forall e: nat | e < made && e !in raised :: Flies(inflight, e))
  }

  lemma OwningKeepsMatch(inflight: map<Route, nat>, raised: set<nat>, made: nat, route: Route)
    requires EventsMatch(inflight, raised, made) && route !in inflight
    ensures EventsMatch(inflight[route := made], raised, made + 1) && made !in raised && made !in inflight.Values
  {
    var next := inflight[route := made];
    forall e: nat | e < made + 1 && e !in raised ensures Flies(next, e) {
      if e == made {
        assert next[route] == e;
      } else {
        var r :| r in inflight && inflight[r] == e;
        assert next[r] == e;
      }
    }
  }

  lemma ReleasingKeepsMatch(inflight: map<Route, nat>, raised: set<nat>, made: nat, route: Route)
    requires EventsMatch(inflight, raised, made) && route in inflight
    ensures EventsMatch(inflight - {route}, raised + {inflight[route]}, made)
  {
    var next := inflight - {route};
    forall e: nat | e < made && e !in raised + {inflight[route]} ensures Flies(next, e) {
      var r :| r in inflight && inflight[r] == e;
      assert r in next && next[r] == e;
    }
  }

  /** The dictionaries of the download manager, which its threads update in place. */
  class RegionRoutes {
    var cache: map<Route, Source>
    var inflight: map<Route, nat>
    ghost var raised: set<nat>
    var made: nat

    ghost function View(): Shared
      reads this
    {
      Shared(cache, inflight, raised, made)
    }

    ghost predicate Valid()
      reads this
    {
      (forall route | route in cache :: cache[route] != Default) && EventsMatch(inflight, raised, made)
    }

    constructor ()
      ensures Valid() && View() == Shared(map[], map[], {}, 0)
    {
      cache, inflight, raised, made := map[], map[], {}, 0;
    }

    /** A cached answer is an internal one.  Without one, a caller either joins the probe under way, whose event is
        unset, or becomes the only owner of the route under an event that nobody else can be waiting for. */
    method Enter(route: Route) returns (entry: Entry)
      requires Valid()
      modifies `inflight, `made
      ensures Valid() && (entry, View()) == Entering(old(View()), route)
      ensures entry.Cached? ==> entry.source != Default && old(View()) == View()
      ensures entry.Join? ==> entry.event !in raised && old(View()) == View()
      ensures entry.Own? ==>
        && route !in old(inflight) && entry.event !in raised && entry.event !in old(inflight).Values
        && (forall other | other != route :: Lookup(inflight, other) == Lookup(old(inflight), other))
      ensures !entry.Cached? ==> route !in cache && Lookup(inflight, route) == Some(entry.event)
    {
      if route in cache {
        return Cached(cache[route]);
      }
      if route in inflight {
        return Join(inflight[route]);
      }
      entry := Own(made);
      OwningKeepsMatch(inflight, raised, made, route);
      inflight, made := inflight[route := made], made + 1;
    }

    /** An internal resolution answers every later caller of its route; anything else leaves the next caller to
        probe. */
    method Store(route: Route, source: Source)
      requires Valid()
      modifies `cache
      ensures Valid() && View() == Storing(old(View()), route, source)
      ensures source == Default ==> cache == old(cache)
      ensures source != Default ==> Entering(View(), route).0 == Cached(source)
      ensures forall other | other != route :: Entering(View(), other).0 == Entering(old(View()), other).0
    {
      if source != Default {
        cache := cache[route := source];
      }
    }

    /** The event of the probe is set in the moment in which the route stops being in flight, so nobody can join a probe
        that is over: the next caller finds the answer or owns the route.  No other probe notices. */
    method Release(route: Route, event: nat)
      requires Valid() && Lookup(inflight, route) == Some(event)
      modifies `inflight, `raised
      ensures Valid() && View() == Releasing(old(View()), route, event)
      ensures event in raised && !Entering(View(), route).0.Join?
      ensures forall other | other != route :: Entering(View(), other).0 == Entering(old(View()), other).0
    {
      ReleasingKeepsMatch(inflight, raised, made, route);
      inflight := inflight - {route};
      raised := raised + {event};
    }
  }

  // ---- All threads -------------------------------------------------------------------------------------------------

  /** A thread looks for an answer, waits for an event, probes, has finished probing but not released yet, or is out of
      the loop with an answer or without one. */
  datatype Thread =
    | Looking(route: Route)
    | Waiting(route: Route, event: nat)
    | Probing(route: Route, event: nat)
    | Probed(route: Route, event: nat, found: Source)
    | Gone(answer: Source)

  datatype State = State(shared: Shared, threads: seq<Thread>)

  datatype Step = Enter(t: nat) | Wake(t: nat) | GiveUp(t: nat) | EndProbe(t: nat, found: Source) | Release(t: nat)

  predicate Probes(thread: Thread) { thread.Probing? || thread.Probed? }

  /** A waiting thread wakes when its event is set, and may be cancelled at any time; a failed probe ends like one that
      found nothing. */
  predicate Enabled(s: State, step: Step) {
    step.t < |s.threads| &&
    var thread := s.threads[step.t];
    match step
    case Enter(_) => thread.Looking?
    case Wake(_) => thread.Waiting? && thread.event in s.shared.raised
    case GiveUp(_) => thread.Waiting?
    case EndProbe(_, _) => thread.Probing?
    case Release(_) => thread.Probed?
  }

  function Apply(s: State, step: Step): State
    requires Enabled(s, step)
  {
    var thread := s.threads[step.t];
    match step
    case Enter(_) =>
      var (entry, shared) := Entering(s.shared, thread.route);
      Moved(s, step.t, shared, match entry
                               case Cached(source) => Gone(source)
                               case Join(event) => Waiting(thread.route, event)
                               case Own(event) => Probing(thread.route, event))
    case Wake(_) => Moved(s, step.t, s.shared, Looking(thread.route))
    case GiveUp(_) => Moved(s, step.t, s.shared, Gone(Default))
    case EndProbe(_, found) =>
      Moved(s, step.t, Storing(s.shared, thread.route, found), Probed(thread.route, thread.event, found))
    case Release(_) => Moved(s, step.t, Releasing(s.shared, thread.route, thread.event), Gone(thread.found))
  }

  function Moved(s: State, t: nat, shared: Shared, thread: Thread): State
    requires t < |s.threads|
  {
    State(shared, s.threads[t := thread])
  }

  predicate Holds(inflight: map<Route, nat>, thread: Thread) {
    Probes(thread) ==> Lookup(inflight, thread.route) == Some(thread.event)
  }

  predicate Apart(one: Thread, other: Thread) {
    Probes(one) && Probes(other) ==> one.route != other.route && one.event != other.event
  }

  /** Every prober holds the entry of its route, and no two probe the same route or under the same
      event. */
  predicate ProbersHold(s: State) {
    && (forall t | 0 <= t < |s.threads| :: Holds(s.shared.inflight, s.threads[t]))
    && (forall t, u | 0 <= t < u < |s.threads| :: Apart(s.threads[t], s.threads[u]))
  }

  predicate ProbesFor(thread: Thread, route: Route, event: nat) {
    Probes(thread) && thread.route == route && thread.event == event
  }

  /** An entry exists exactly while its event is unset, and then some thread is probing under it. */
  ghost predicate EntriesLive(s: State) {
    forall route | route in s.shared.inflight :: EntryLives(s, route, s.shared.inflight[route])
  }

  ghost predicate EntryLives(s: State, route: Route, event: nat) {
    && event < s.shared.made && event !in s.shared.raised
    && exists t :: 0 <= t < |s.threads| && ProbesFor(s.threads[t], route, event)
  }

  /** Every event is set or belongs to an entry, so no waiter waits for an event that nobody will set. */
  predicate WaitersCovered(s: State) {
    && (forall e | e in s.shared.raised :: e < s.shared.made)
    && forall t | 0 <= t < |s.threads| && s.threads[t].Waiting? ::
      var w := s.threads[t];
      w.event in s.shared.raised || Lookup(s.shared.inflight, w.route) == Some(w.event)
  }

  predicate CacheConfirmed(shared: Shared) {
    forall route | route in shared.cache :: shared.cache[route] != Default
  }

  ghost predicate Inv(s: State) {
    ProbersHold(s) && EntriesLive(s) && WaitersCovered(s) && CacheConfirmed(s.shared)
  }

  lemma StepKeepsHolding(s: State, step: Step, t: nat)
    requires Inv(s) && Enabled(s, step) && t < |s.threads|
    ensures Holds(Apply(s, step).shared.inflight, Apply(s, step).threads[t])
  {
    assert Holds(s.shared.inflight, s.threads[t]) && Holds(s.shared.inflight, s.threads[step.t]);
    assert t < step.t ==> Apart(s.threads[t], s.threads[step.t]);
    assert step.t < t ==> Apart(s.threads[step.t], s.threads[t]);
  }

  lemma StepKeepsApart(s: State, step: Step, t: nat, u: nat)
    requires Inv(s) && Enabled(s, step) && t < u < |s.threads|
    ensures Apart(Apply(s, step).threads[t], Apply(s, step).threads[u])
  {
    assert Apart(s.threads[t], s.threads[u]);
    if Probes(s.threads[t]) {
      HeldEntry(s, t);
    }
    if Probes(s.threads[u]) {
      HeldEntry(s, u);
    }
  }

  lemma HeldEntry(s: State, t: nat)
    requires Inv(s) && t < |s.threads| && Probes(s.threads[t])
    ensures s.threads[t].route in s.shared.inflight && s.threads[t].event < s.shared.made
  {
    assert Holds(s.shared.inflight, s.threads[t]);
    assert EntryLives(s, s.threads[t].route, s.threads[t].event);
  }

  lemma StepKeepsEntries(s: State, step: Step)
    requires Inv(s) && Enabled(s, step)
    ensures EntriesLive(Apply(s, step))
  {
    var next := Apply(s, step);
    forall route | route in next.shared.inflight
      ensures EntryLives(next, route, next.shared.inflight[route])
    {
      var event := next.shared.inflight[route];
      if route in s.shared.inflight && s.shared.inflight[route] == event {
        assert EntryLives(s, route, event);
        var t :| 0 <= t < |s.threads| && ProbesFor(s.threads[t], route, event);
        assert t < step.t ==> Apart(s.threads[t], s.threads[step.t]);
        assert step.t < t ==> Apart(s.threads[step.t], s.threads[t]);
        assert ProbesFor(next.threads[t], route, event);
      } else {
        assert ProbesFor(next.threads[step.t], route, event);
      }
    }
  }

  lemma StepKeepsWaiters(s: State, step: Step)
    requires Inv(s) && Enabled(s, step)
    ensures WaitersCovered(Apply(s, step)) && CacheConfirmed(Apply(s, step).shared)
  {
  }

  lemma StepKeepsInv(s: State, step: Step)
    requires Inv(s) && Enabled(s, step)
    ensures Inv(Apply(s, step))
  {
    forall t: nat | t < |s.threads| {
      StepKeepsHolding(s, step, t);
    }
    forall t: nat, u: nat | t < u < |s.threads| {
      StepKeepsApart(s, step, t, u);
    }
    StepKeepsEntries(s, step);
    StepKeepsWaiters(s, step);
  }

  predicate IsRun(s: State, steps: seq<Step>)
    decreases |steps|
  {
    steps == [] || (Enabled(s, steps[0]) && IsRun(Apply(s, steps[0]), steps[1..]))
  }

  function After(s: State, steps: seq<Step>): State
    requires IsRun(s, steps)
    decreases |steps|
  {
    if steps == [] then s else After(Apply(s, steps[0]), steps[1..])
  }

  predicate Initial(s: State) {
    s.shared == Shared(map[], map[], {}, 0) && forall thread | thread in s.threads :: thread.Looking?
  }

  lemma {:induction false} RunKeepsInv(s: State, steps: seq<Step>)
    requires Inv(s) && IsRun(s, steps)
    ensures Inv(After(s, steps))
    decreases |steps|
  {
    if steps != [] {
      StepKeepsInv(s, steps[0]);
      RunKeepsInv(Apply(s, steps[0]), steps[1..]);
    }
  }

  /** In every interleaving: at most one thread probes a route at any time; an entry is in flight exactly while one
      does, under an event that is not set; and only internal resolutions are cached. */
  lemma ProbingIsSingleFlight(s: State, steps: seq<Step>)
    requires Initial(s) && IsRun(s, steps)
    ensures var now := After(s, steps);
      && (forall t, u | 0 <= t < u < |now.threads| :: Apart(now.threads[t], now.threads[u]))
      && (forall t | 0 <= t < |now.threads| && Probes(now.threads[t]) ::
            EntryLives(now, now.threads[t].route, now.threads[t].event))
      && (forall route | route in now.shared.inflight :: EntryLives(now, route, now.shared.inflight[route]))
      && CacheConfirmed(now.shared)
  {
    StartKeepsInv(s);
    RunKeepsInv(s, steps);
    var now := After(s, steps);
    forall t | 0 <= t < |now.threads| && Probes(now.threads[t])
      ensures EntryLives(now, now.threads[t].route, now.threads[t].event)
    {
      assert Holds(now.shared.inflight, now.threads[t]);
    }
  }

  lemma StartKeepsInv(s: State)
    requires Initial(s)
    ensures Inv(s)
  {
    forall t | 0 <= t < |s.threads| ensures s.threads[t].Looking? {
      assert s.threads[t] in s.threads;
    }
  }

  /** No waiter is left behind: a waiting thread either can wake already, or some thread is still probing under the
      event it waits for. */
  lemma WaitersAreCovered(s: State, steps: seq<Step>, w: nat)
    requires Initial(s) && IsRun(s, steps)
    requires w < |After(s, steps).threads| && After(s, steps).threads[w].Waiting?
    ensures var now := After(s, steps);
      Enabled(now, Wake(w)) || EntryLives(now, now.threads[w].route, now.threads[w].event)
  {
    StartKeepsInv(s);
    RunKeepsInv(s, steps);
  }

  /** While a waiting thread does not move, nothing else moves it; the thread that probes under its event keeps probing
      until it releases the route; and from then on, whatever happens, the waiting thread can wake. */
  lemma {:induction false} ReleaseWakesForGood(s: State, steps: seq<Step>, p: nat, w: nat)
    requires IsRun(s, steps) && p < |s.threads| && w < |s.threads| && s.threads[w].Waiting?
    requires ProbesFor(s.threads[p], s.threads[w].route, s.threads[w].event) || Enabled(s, Wake(w))
    requires forall step | step in steps :: step.t != w
    ensures var now := After(s, steps);
      && |now.threads| == |s.threads| && now.threads[w] == s.threads[w]
      && (Release(p) in steps || Enabled(s, Wake(w)) ==> Enabled(now, Wake(w)))
      && (Release(p) !in steps && !Enabled(s, Wake(w)) ==>
            Enabled(now, Wake(w)) || ProbesFor(now.threads[p], s.threads[w].route, s.threads[w].event))
    decreases |steps|
  {
    if steps != [] {
      var next := Apply(s, steps[0]);
      assert steps[0] in steps && forall step | step in steps[1..] :: step in steps;
      assert steps == [steps[0]] + steps[1..];
      ReleaseWakesForGood(next, steps[1..], p, w);
    }
  }

  /** Nobody is stuck: as long as some thread is inside, a thread can go on without being cancelled. */
  lemma SomeThreadCanGoOn(s: State, steps: seq<Step>, t: nat)
    requires Initial(s) && IsRun(s, steps) && t < |After(s, steps).threads| && !After(s, steps).threads[t].Gone?
    ensures exists step :: Enabled(After(s, steps), step) && !step.GiveUp?
  {
    var now := After(s, steps);
    match now.threads[t]
    case Looking(_) => assert Enabled(now, Enter(t));
    case Probing(_, _) => assert Enabled(now, EndProbe(t, Default));
    case Probed(_, _, _) => assert Enabled(now, Release(t));
    case Waiting(route, event) =>
      WaitersAreCovered(s, steps, t);
      if !Enabled(now, Wake(t)) {
        var u :| 0 <= u < |now.threads| && ProbesFor(now.threads[u], route, event);
        assert if now.threads[u].Probing? then Enabled(now, EndProbe(u, Default)) else Enabled(now, Release(u));
      } else {
        assert Enabled(now, Wake(t));
      }
  }

  ghost predicate BeingProbed(s: State, route: Route) {
    exists u :: 0 <= u < |s.threads| && Probes(s.threads[u]) && s.threads[u].route == route
  }

  /** A thread that looks at a cached route leaves with the answer; one that looks at a route nobody probes becomes
      its only prober; any other waits for the prober there is. */
  lemma LookingThreadProbesOnlyAlone(s: State, t: nat)
    requires Inv(s) && Enabled(s, Enter(t))
    ensures var route, next := s.threads[t].route, Apply(s, Enter(t)).threads[t];
      && (next.Gone? <==> route in s.shared.cache) && (next.Gone? ==> next.answer != Default)
      && (next.Probing? <==> route !in s.shared.cache && !BeingProbed(s, route))
  {
    var route := s.threads[t].route;
    forall u | 0 <= u < |s.threads| && Probes(s.threads[u]) && s.threads[u].route == route
      ensures route in s.shared.inflight
    {
      assert Holds(s.shared.inflight, s.threads[u]);
    }
    if route in s.shared.inflight {
      assert EntryLives(s, route, s.shared.inflight[route]);
      var u :| 0 <= u < |s.threads| && ProbesFor(s.threads[u], route, s.shared.inflight[route]);
      assert Probes(s.threads[u]);
    }
  }
}
