/** ThreadInfo and one poll of the watchdog as objects updated in place, with the workers standing still;
    the module Watchdog lets them run in between. */
module WatchdogPoll {
  import opened Watchdog

  class ThreadInfo {
    var state: Word
    var waitStart: int
    var activeStart: int
    var totalWaitMs: int
    var starveCount: nat

    constructor ()
      ensures state == INIT && waitStart == activeStart == totalWaitMs == 0 && starveCount == 0
    {
      state, waitStart, activeStart, totalWaitMs, starveCount := INIT, 0, 0, 0, 0;
    }

    method EnterWaiting(now: int)
      modifies this`state, this`waitStart
      ensures state == WAITING && waitStart == now
    {
      waitStart := now;
      state := WAITING;
    }

    method EnterActive(now: int)
      modifies this`state, this`activeStart, this`totalWaitMs
      ensures state == ACTIVE && activeStart == now && totalWaitMs == old(totalWaitMs) + (now - waitStart)
    {
      activeStart := now;
      totalWaitMs := totalWaitMs + (activeStart - waitStart);
      state := ACTIVE;
    }

    method EnterReleasing()
      modifies this`state
      ensures state == RELEASING
    {
      state := RELEASING;
    }

    /** The wait so far, and 0 for a thread that is not published as waiting. */
    function WaitMs(now: int): int
      reads this
    {
      if state == WAITING then now - waitStart else 0
    }

    predicate Starving(now: int, threshold: int)
      reads this
    {
      state == WAITING && now - waitStart >= threshold
    }

    /** What the watchdog does with one thread of its registry, up to counting the event. */
    method Inspect(now: int, threshold: int) returns (flag: bool)
      modifies this`state, this`starveCount
      ensures Flagged(this, now, threshold) && flag == old(Starving(now, threshold))
    {
      flag := false;
      if state == WAITING {
        var waitMs := WaitMs(now);
        if waitMs >= threshold {
          state := BLOCKED;
          starveCount := starveCount + 1;
          flag := true;
        }
      }
    }

    /** However many flags of the watchdog land in between, one lock call adds exactly its own wait. */
    method OneWait(a: int, b: int, flags: nat)
      modifies this
      ensures state == RELEASING && waitStart == a && activeStart == b
      ensures totalWaitMs == old(totalWaitMs) + (b - a) && starveCount == old(starveCount) + flags
    {
      EnterWaiting(a);
      if flags > 0 {
        state := BLOCKED;
        starveCount := starveCount + flags;
      }
      EnterActive(b);
      EnterReleasing();
    }
  }

  /** The threads of registry[..k] that have to be flagged, the clock showing clock[i] when thread i is measured. */
  ghost function StarvingIn(registry: seq<ThreadInfo?>, clock: seq<int>, threshold: int, k: nat): set<nat>
    requires k <= |clock| == |registry|
    reads registry
  {
    set i: nat | i < k && registry[i] != null && registry[i].Starving(clock[i], threshold)
  }

  /** Their number, counted from the front of the registry. */
  ghost function StarvingCount(registry: seq<ThreadInfo?>, clock: seq<int>, threshold: int, k: nat): nat
    requires k <= |clock| == |registry|
    reads registry
  {
    if k == 0 then 0
    else
      var last := registry[k-1];
      StarvingCount(registry, clock, threshold, k - 1) +
      if last != null && last.Starving(clock[k-1], threshold) then 1 else 0
  }

  lemma {:induction false} CountIsSize(registry: seq<ThreadInfo?>, clock: seq<int>, threshold: int, k: nat)
    requires k <= |clock| == |registry|
    ensures StarvingCount(registry, clock, threshold, k) == |StarvingIn(registry, clock, threshold, k)|
  {
    if k == 0 {
    } else {
      CountIsSize(registry, clock, threshold, k - 1);
      var due := registry[k-1] != null && registry[k-1].Starving(clock[k-1], threshold);
      assert StarvingIn(registry, clock, threshold, k) ==
        StarvingIn(registry, clock, threshold, k - 1) + if due then {k - 1} else {};
    }
  }

  ghost predicate Distinct(registry: seq<ThreadInfo?>)
  {
    forall i, j :: 0 <= i < j < |registry| && registry[i] != null ==> registry[i] != registry[j]
  }

  twostate predicate Flagged(info: ThreadInfo, now: int, threshold: int)
    reads info
  {
    && info.waitStart == old(info.waitStart) && info.activeStart == old(info.activeStart)
    && info.totalWaitMs == old(info.totalWaitMs)
    && if old(info.Starving(now, threshold))
       then info.state == BLOCKED && info.starveCount == old(info.starveCount) + 1
       else info.state == old(info.state) && info.starveCount == old(info.starveCount)
  }

  lemma NobodyStarving(registry: seq<ThreadInfo?>, clock: seq<int>, threshold: int)
    requires |clock| == |registry|
    requires forall i :: 0 <= i < |registry| && registry[i] != null ==> !registry[i].Starving(clock[i], threshold)
    ensures StarvingIn(registry, clock, threshold, |registry|) == {}
  {
  }

  class Poller {
    var totalEvents: nat

    constructor ()
      ensures totalEvents == 0
    {
      totalEvents := 0;
    }

    /** One pass over the registry, with a reading of the clock per thread: every thread published as waiting for
        at least the threshold at its reading is set to BLOCKED and counted once, every other thread is left
        alone, and a second pass with the same readings would find nobody. */
    method Poll(registry: seq<ThreadInfo?>, clock: seq<int>, threshold: int)
      requires Distinct(registry) && |clock| == |registry|
      modifies this, registry
      ensures forall i :: 0 <= i < |registry| && registry[i] != null ==> Flagged(registry[i], clock[i], threshold)
      ensures totalEvents == old(totalEvents) + |old(StarvingIn(registry, clock, threshold, |registry|))|
      ensures StarvingIn(registry, clock, threshold, |registry|) == {}
    {
      CountIsSize(registry, clock, threshold, |registry|);
      for k := 0 to |registry|
        invariant forall i :: 0 <= i < k && registry[i] != null ==> Flagged(registry[i], clock[i], threshold)
        invariant forall i :: k <= i < |registry| && registry[i] != null ==> unchanged(registry[i])
        invariant totalEvents == old(totalEvents) + old(StarvingCount(registry, clock, threshold, k))
      {
        var info := registry[k];
        if info != null {
          var flag := info.Inspect(clock[k], threshold);
          if flag {
            totalEvents := totalEvents + 1;
          }
        }
      }
      NobodyStarving(registry, clock, threshold);
    }
  }
}
