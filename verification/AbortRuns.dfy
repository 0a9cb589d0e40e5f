/** What the abort signal does to its target over whole runs: thread readers, the first writer. */
module AbortRuns {
  import opened RwSpec
  import opened Simulation
  import opened SimulationRuns
  import L = RwLock

  /** Past the test of the flag under the lock, and not yet through with the write. */
  predicate Committed(w: Work)
  {
    match w
    case Load | Store(_) | CLoad | CStore(_) | WDone => true
    case _ => false
  }

  /** Tickets held or still to be claimed: past the test at the loop head only one more can be taken. */
  function Claimable(th: Thread): nat
  {
    Granted(th) + if th.work == Claim then 1 else 0
  }

  /** Writes done or still to be done. */
  function Writable(th: Thread): nat
  {
    th.done + if Committed(th.work) then 1 else 0
  }

  lemma TargetWorks(s: Sys, t: nat)
    requires t < |s.threads| && t < L.Size(s.lock) && s.abort && s.threads[t].target && s.threads[t].role == Writer
    requires AbortOk(s.threads[t], true) && !s.threads[t].work.RDone?
    ensures var s', th := WorkStep(s, t), s.threads[t];
      && |s'.threads| == |s.threads| && th.done <= s'.threads[t].done && Granted(th) <= Granted(s'.threads[t])
      && Claimable(s'.threads[t]) <= Claimable(th) && Writable(s'.threads[t]) <= Writable(th)
  {
    hide L.Size, L.Call, L.Release;
  }

  lemma TargetLocks(s: Sys, t: nat, w: nat)
    requires CanStep(s, t, w) && (s.threads[t].work.Want? || s.threads[t].work.Exit?)
    requires s.threads[t].target && s.threads[t].role == Writer
    ensures var s', th := LockStep(s, t, w), s.threads[t];
      && |s'.threads| == |s.threads| && s'.threads[t].done == th.done && Granted(th) == Granted(s'.threads[t])
      && Claimable(s'.threads[t]) <= Claimable(th) && Writable(s'.threads[t]) <= Writable(th)
  {
    hide L.Size, L.Exec, L.Enabled, L.Choice, L.PhaseAt;
  }

  lemma OthersKeepTarget(s: Sys, t: nat, w: nat, k: nat)
    requires CanStep(s, t, w) && k < |s.threads| && k != t
    ensures k < |Simulation.Step(s, t, w).threads| && Simulation.Step(s, t, w).threads[k] == s.threads[k]
  {
    hide L.Size, L.Exec, L.Enabled, L.Choice, L.PhaseAt, L.Call, L.Release;
  }

  /** What an action can do to the target once the signal is up. */
  ghost predicate WindsDown(a: Thread, b: Thread)
  {
    a.done <= b.done && Granted(a) <= Granted(b) && Claimable(b) <= Claimable(a) && Writable(b) <= Writable(a)
  }

  lemma StepWindsDown(s: Sys, cfg: Config, t: nat, w: nat)
    requires Inv(s, cfg) && CanStep(s, t, w) && s.abort && cfg.abortTest && cfg.writers > 0
    ensures var k := cfg.readers;
      k < |s.threads| == |Simulation.Step(s, t, w).threads| && Simulation.Step(s, t, w).abort &&
      WindsDown(s.threads[k], Simulation.Step(s, t, w).threads[k])
  {
    hide L.Inv, L.PhaseAt, L.Size, L.Exec, L.Enabled, L.Choice, L.Call, L.Release;
    hide Data, Reads, WorkStep, LockStep, Granted;
    var k := cfg.readers;
    ShapeAt(s, cfg, k);
    BudgetAt(s, cfg, k);
    StepKeepsFlag(s, t, w);
    if t != k {
      OthersKeepTarget(s, t, w, k);
    } else if s.threads[t].work.Want? || s.threads[t].work.Exit? {
      TargetLocks(s, t, w);
    } else {
      TargetWorks(s, t);
    }
  }

  lemma StepKeepsFlag(s: Sys, t: nat, w: nat)
    requires CanStep(s, t, w)
    ensures Simulation.Step(s, t, w).abort == s.abort && |Simulation.Step(s, t, w).threads| == |s.threads|
  {
    hide L.Size, L.Exec, L.Enabled, L.Choice, L.PhaseAt, L.Call, L.Release;
  }

  lemma DoWindsDown(s: Sys, cfg: Config, a: Act)
    requires Inv(s, cfg) && Can(s, a) && s.abort && cfg.abortTest && cfg.writers > 0
    ensures var k := cfg.readers;
      k < |s.threads| == |Do(s, a).threads| && Do(s, a).abort && WindsDown(s.threads[k], Do(s, a).threads[k])
  {
    hide L.Inv, L.Can, L.Do, L.PhaseAt, Budget, Data, Reads, Simulation.Step, CanStep, Granted, Claimable, Writable;
    if a.Thr? {
      StepWindsDown(s, cfg, a.t, a.w);
    }
  }

  lemma {:induction false} RunWindsDown(tr: seq<Sys>, acts: seq<Act>, cfg: Config, i: nat, j: nat)
    requires Run(tr, acts, cfg) && i <= j < |tr| && tr[i].abort && cfg.abortTest && cfg.writers > 0
    ensures var k := cfg.readers;
      k < |tr[i].threads| == |tr[j].threads| && tr[j].abort && WindsDown(tr[i].threads[k], tr[j].threads[k])
    decreases j
  {
    hide Inv, Can, Do, Init, Measure, Granted, Claimable, Writable;
    if i == j {
      RunInv(tr, acts, cfg, i);
      TargetExists(tr[i], cfg);
    } else {
      RunWindsDown(tr, acts, cfg, i, j - 1);
      RunInv(tr, acts, cfg, j - 1);
      DoWindsDown(tr[j-1], cfg, acts[j-1]);
    }
  }

  lemma TargetExists(s: Sys, cfg: Config)
    requires Inv(s, cfg) && cfg.writers > 0
    ensures cfg.readers < |s.threads|
  {
  }

  /** From any position of any run at which the signal is up, to any later one: the target takes at most one more
      ticket, and that only if it had already passed the test of the flag at the loop head; and it performs at most
      one more write, and that only if it had already passed the test under the lock, so that otherwise it never gets
      to the resource again. */
  lemma SignalStopsTarget(tr: seq<Sys>, acts: seq<Act>, cfg: Config, i: nat, j: nat)
    requires Run(tr, acts, cfg) && i <= j < |tr| && tr[i].abort && cfg.abortTest && cfg.writers > 0
    ensures cfg.readers < |tr[i].threads| == |tr[j].threads|
    ensures var a, b := tr[i].threads[cfg.readers], tr[j].threads[cfg.readers];
      Granted(a) <= Granted(b) <= Granted(a) + if a.work == Claim then 1 else 0
    ensures var a, b := tr[i].threads[cfg.readers], tr[j].threads[cfg.readers];
      match a.work
      case Load | Store(_) | CLoad | CStore(_) | WDone => a.done <= b.done <= a.done + 1
      case _ => b.done == a.done && !(b.work.Load? || b.work.Store? || b.work.CLoad? || b.work.CStore? || b.work.WDone?)
  {
    hide Can, Do, Init, Granted;
    RunWindsDown(tr, acts, cfg, i, j);
  }
}
