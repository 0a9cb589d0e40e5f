/** The claims inside the worker loops are the claim protocol of FetchSubBudget, step by step. */
module SharedBudget {
  import opened Counting
  import opened Simulation
  import opened SimulationRuns
  import L = RwLock
  import F = FetchSubBudget

  /** A worker as the claim protocol sees it. */
  function Seen(w: Work): F.Pc
  {
    match w
    case Head | Claim => F.Top
    case AddBack => F.AddBack
    case Done => F.Gone
    case _ => F.Busy
  }

  /** The counter, and where each worker stands with respect to it. */
  ghost function Project(s: Sys): F.State
  {
    F.State(s.remaining, seq(|s.threads|, i requires 0 <= i < |s.threads| => Seen(s.threads[i].work)),
            seq(|s.threads|, i requires 0 <= i < |s.threads| => Granted(s.threads[i])))
  }

  ghost predicate SameOrStep(a: F.State, b: F.State)
  {
    a == b || exists t: nat :: F.Enabled(a, t) && b == F.Exec(a, t)
  }

  lemma MovesOne(s: Sys, s': Sys, t: nat)
    requires t < |s.threads| && |s'.threads| == |s.threads| && s'.threads == s.threads[t := s'.threads[t]]
    ensures Project(s').pc == Project(s).pc[t := Seen(s'.threads[t].work)]
    ensures Project(s').took == Project(s).took[t := Granted(s'.threads[t])]
  {
    hide Seen, Granted;
  }

  lemma WorkStepClaims(s: Sys, t: nat)
    requires t < |s.threads| && t < L.Size(s.lock) && !s.abort && AbortOk(s.threads[t], false)
    requires !s.threads[t].work.Want? && !s.threads[t].work.Exit? && !s.threads[t].work.Done?
    ensures SameOrStep(Project(s), Project(WorkStep(s, t)))
  {
    var s', th := WorkStep(s, t), s.threads[t];
    hide L.Size, L.Call, L.Release;
    MovesOne(s, s', t);
    assert Project(s') == Project(s) || (F.Enabled(Project(s), t) && Project(s') == F.Exec(Project(s), t));
  }

  lemma LockStepClaims(s: Sys, t: nat, w: nat)
    requires CanStep(s, t, w) && (s.threads[t].work.Want? || s.threads[t].work.Exit?) && AbortOk(s.threads[t], false)
    ensures SameOrStep(Project(s), Project(LockStep(s, t, w)))
  {
    var s' := LockStep(s, t, w);
    hide L.Size, L.Exec, L.Enabled, L.Choice, L.PhaseAt;
    MovesOne(s, s', t);
    assert Project(s).pc[t := Project(s).pc[t]] == Project(s).pc;
    assert Project(s).took[t := Project(s).took[t]] == Project(s).took;
    assert Project(s') == Project(s) || (F.Enabled(Project(s), t) && Project(s') == F.Exec(Project(s), t));
  }

  lemma DoClaims(s: Sys, cfg: Config, a: Act)
    requires Inv(s, cfg) && Can(s, a) && !Do(s, a).abort
    ensures SameOrStep(Project(s), Project(Do(s, a)))
  {
    match a {
      case Thr(t, w) =>
        hide SameOrStep, Project, L.Inv, L.PhaseAt, L.Size, L.Enabled, L.Choice, Data, Reads, WorkStep, LockStep;
        ShapeAt(s, cfg, t);
        BudgetAt(s, cfg, t);
        AbortStays(s, t, w);
        if s.threads[t].work.Want? || s.threads[t].work.Exit? {
          LockStepClaims(s, t, w);
        } else {
          WorkStepClaims(s, t);
        }
      case Wake(t) => assert Project(Do(s, a)) == Project(s);
    }
  }

  lemma AbortStays(s: Sys, t: nat, w: nat)
    requires CanStep(s, t, w)
    ensures Simulation.Step(s, t, w).abort == s.abort
  {
  }

  lemma InitClaims(cfg: Config)
    ensures Project(Init(cfg)) == F.Init(cfg.totalOps, cfg.readers + cfg.writers)
  {
    InitShape(cfg);
    InitFields(cfg);
    hide Init;
  }

  /** Every run without the signal, of any of the three locks, is a run of the claim protocol: its steps are steps of
      FetchSubBudget, or leave the budget alone. */
  lemma RunClaims(tr: seq<Sys>, acts: seq<Act>, cfg: Config)
    requires Run(tr, acts, cfg) && forall i :: 0 <= i < |tr| ==> !tr[i].abort
    ensures Project(tr[0]) == F.Init(cfg.totalOps, cfg.readers + cfg.writers)
    ensures forall i :: 0 <= i < |acts| ==> SameOrStep(Project(tr[i]), Project(tr[i+1]))
  {
    hide Inv, Can, Do, Init, SameOrStep, Project, Measure;
    InitClaims(cfg);
    forall i | 0 <= i < |acts| ensures SameOrStep(Project(tr[i]), Project(tr[i+1])) {
      RunInv(tr, acts, cfg, i);
      assert Can(tr[i], acts[i]) && tr[i+1] == Do(tr[i], acts[i]);
      DoClaims(tr[i], cfg, acts[i]);
    }
  }
}
