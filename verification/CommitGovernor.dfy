/** The sliding-window limiter that paces commits below an hourly budget. */
module CommitGovernance {

  const WINDOW := 3600.0

  function After(stamps: seq<real>, cutoff: real): seq<real> {
    if stamps == [] then []
    else (if stamps[0] > cutoff then [stamps[0]] else []) + After(stamps[1..], cutoff)
  }

  ghost predicate Ascending(stamps: seq<real>) {
    forall i, j | 0 <= i <= j < |stamps| :: stamps[i] <= stamps[j]
  }

  lemma {:induction false} AllAfter(stamps: seq<real>, cutoff: real)
    requires forall i | 0 <= i < |stamps| :: stamps[i] > cutoff
    ensures After(stamps, cutoff) == stamps
  {
    if stamps != [] {
      AllAfter(stamps[1..], cutoff);
    }
  }

  /** In an ascending list the stamps after a cutoff are a suffix, and everything before it is too old. */
  lemma {:induction false} AfterIsSuffix(stamps: seq<real>, cutoff: real)
    requires Ascending(stamps)
    ensures |After(stamps, cutoff)| <= |stamps|
    ensures var d := |stamps| - |After(stamps, cutoff)|;
      && After(stamps, cutoff) == stamps[d..]
      && (forall i | 0 <= i < d :: stamps[i] <= cutoff)
      && (forall i | d <= i < |stamps| :: stamps[i] > cutoff)
  {
    if stamps != [] && stamps[0] > cutoff {
      AllAfter(stamps, cutoff);
    } else if stamps != [] {
      var rest := stamps[1..];
      AfterIsSuffix(rest, cutoff);
      var e := |rest| - |After(rest, cutoff)|;
      assert After(stamps, cutoff) == rest[e..] == stamps[e + 1..];
      forall i | 0 <= i < |stamps| ensures stamps[i] > cutoff <==> i >= e + 1 {
        assert i > 0 ==> stamps[i] == rest[i - 1];
      }
    }
  }

  /** No window of 3600 seconds holds more than n grants: grant k + n comes at least that long after grant k. */
  ghost predicate Spaced(grants: seq<real>, n: nat) {
    forall k | 0 <= k && k + n < |grants| :: grants[k + n] - grants[k] >= WINDOW
  }

  /** The list holds the newest grants, oldest first; a grant left out of it is out of every later window. */
  ghost predicate Tracks(grants: seq<real>, stamps: seq<real>, seen: real) {
    && Ascending(grants) && (forall i | 0 <= i < |grants| :: grants[i] <= seen)
    && |stamps| <= |grants| && stamps == grants[|grants| - |stamps|..]
    && forall i | 0 <= i < |grants| - |stamps| :: grants[i] <= seen - WINDOW
  }

  lemma Prune(grants: seq<real>, stamps: seq<real>, seen: real, now: real)
    requires Tracks(grants, stamps, seen) && seen <= now
    ensures Tracks(grants, After(stamps, now - WINDOW), now)
    ensures |After(stamps, now - WINDOW)| <= |stamps|
    ensures var kept := After(stamps, now - WINDOW); kept != [] ==> now - WINDOW < kept[0] <= now
  {
    AfterIsSuffix(stamps, now - WINDOW);
  }

  /** The pruned list loses nothing: it shows the same window as the history of all grants. */
  lemma WindowIsExact(grants: seq<real>, stamps: seq<real>, seen: real, now: real)
    requires Tracks(grants, stamps, seen) && seen <= now
    ensures After(grants, now - WINDOW) == After(stamps, now - WINDOW)
  {
    AfterIsSuffix(grants, now - WINDOW);
    AfterIsSuffix(stamps, now - WINDOW);
    var d, e := |grants| - |After(grants, now - WINDOW)|, |stamps| - |After(stamps, now - WINDOW)|;
    var gap := |grants| - |stamps|;
    assert d < |grants| ==> grants[d] > now - WINDOW;
    assert d >= gap;
    assert d < |grants| ==> grants[d] == stamps[d - gap];
    assert e < |stamps| ==> grants[gap + e] == stamps[e] > now - WINDOW;
    assert d == gap + e;
  }

  lemma Grant(grants: seq<real>, stamps: seq<real>, now: real, n: nat)
    requires Tracks(grants, stamps, now) && Spaced(grants, n) && |stamps| < n
    ensures Tracks(grants + [now], stamps + [now], now) && Spaced(grants + [now], n)
  {
    var k := |grants| - n;
    if k >= 0 {
      assert grants[k] <= now - WINDOW;
    }
  }

  ghost predicate SlotFree(stamps: seq<real>, now: real, n: nat) {
    |After(stamps, now - WINDOW)| < n
  }

  /** Once the oldest of n stamps has expired, a slot is free. */
  lemma SleepFreesASlot(stamps: seq<real>, now: real)
    requires Ascending(stamps) && stamps != [] && stamps[0] <= now - WINDOW
    ensures SlotFree(stamps, now, |stamps|)
  {
    AfterIsSuffix(stamps, now - WINDOW);
  }

  /** A caller that found the window full finds a free slot whenever it comes back after the oldest stamp expired. */
  lemma RefusalEnds(grants: seq<real>, stamps: seq<real>, now: real, n: nat)
    requires Tracks(grants, stamps, now) && |stamps| == n > 0
    ensures forall later: real | later >= now && later >= stamps[0] + WINDOW :: SlotFree(grants, later, n)
  {
    forall later: real | later >= now && later >= stamps[0] + WINDOW ensures SlotFree(grants, later, n) {
      SleepFreesASlot(stamps, later);
      WindowIsExact(grants, stamps, now, later);
    }
  }

  class CommitRateGovernor {
    const maxPerHour: int
    var timestamps: seq<real>
    ghost var grants: seq<real>   // all grants ever
    ghost var seen: real          // latest clock reading

    ghost predicate Valid()
      reads this
    {
      Tracks(grants, timestamps, seen) && (maxPerHour > 0 ==> |timestamps| <= maxPerHour && Spaced(grants, maxPerHour))
    }

    constructor (maxPerHour: int)
      ensures Valid() && grants == [] && this.maxPerHour == maxPerHour
    {
      this.maxPerHour := maxPerHour;
      timestamps, grants, seen := [], [], 0.0;
    }

    /** One pass of the loop under the lock, by any caller.  A slot is granted exactly when fewer than the budget
        were granted in the last 3600 seconds; otherwise the caller learns when the oldest of them expires. */
    method TryAcquire(now: real) returns (granted: bool, sleepFor: real)
      requires Valid() && maxPerHour > 0 && seen <= now
      modifies this
      ensures Valid() && seen == now
      ensures granted <==> SlotFree(old(grants), now, maxPerHour)
      ensures grants == if granted then old(grants) + [now] else old(grants)
      ensures timestamps == After(old(timestamps), now - WINDOW) + if granted then [now] else []
      ensures !granted ==> |timestamps| == maxPerHour && 0.0 < sleepFor == timestamps[0] - (now - WINDOW) <= WINDOW
      ensures !granted ==> forall later: real | later >= now + sleepFor :: SlotFree(grants, later, maxPerHour)
    {
      Prune(grants, timestamps, seen, now);
      WindowIsExact(grants, timestamps, seen, now);
      timestamps := Kept(timestamps, now - WINDOW);
      seen := now;
      if |timestamps| < maxPerHour {
        Grant(grants, timestamps, now, maxPerHour);
        timestamps := timestamps + [now];
        grants := grants + [now];
        return true, 0.0;
      }
      sleepFor := timestamps[0] - (now - WINDOW);
      RefusalEnds(grants, timestamps, now, maxPerHour);
      return false, sleepFor;
    }

    /** A caller that has the governor to itself waits at most once, and waits exactly when the window is full.
        The sleep may overrun by any amount. */
    method Acquire(start: real, overrun: real) returns (waited: real)
      requires Valid() && seen <= start && overrun >= 0.0
      modifies this
      ensures Valid()
      ensures maxPerHour <= 0 ==> waited == 0.0 && grants == old(grants)
      ensures maxPerHour > 0 ==> |grants| == |old(grants)| + 1 && grants[|grants| - 1] >= start + waited
      ensures maxPerHour > 0 ==> (waited == 0.0 <==> SlotFree(old(grants), start, maxPerHour))
      ensures waited <= WINDOW + 0.1
    {
      waited := 0.0;
      if maxPerHour <= 0 {
        return;
      }
      var now, passes := start, 0;
      while true
        invariant Valid() && seen <= now && 0 <= passes <= 1 && grants == old(grants)
        invariant passes == 0 ==> now == start && waited == 0.0
        invariant passes == 1 ==> now >= start + waited && 0.0 < waited <= WINDOW + 0.1
        invariant passes == 1 ==> !SlotFree(old(grants), start, maxPerHour) && SlotFree(grants, now, maxPerHour)
        decreases 1 - passes
      {
        var granted, sleepFor := TryAcquire(now);
        if granted {
          return;
        }
        var sleep := if sleepFor > 0.1 then sleepFor else 0.1;
        now := now + sleep + overrun;
        waited := waited + sleep;
        passes := passes + 1;
      }
    }
  }

  method Kept(stamps: seq<real>, cutoff: real) returns (r: seq<real>)
    ensures r == After(stamps, cutoff)
  {
    r := [];
    var left := stamps;
    while left != []
      invariant r + After(left, cutoff) == After(stamps, cutoff)
    {
      if left[0] > cutoff {
        r := r + [left[0]];
      }
      left := left[1..];
    }
  }
}
