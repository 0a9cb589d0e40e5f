/** Exactly which configurations of the closed system can fail to finish. */
module StuckConfigs {
  import opened Counting
  import opened RwSpec
  import opened Simulation
  import opened SimulationRuns
  import L = RwLock
  import FA = FairMorris

  /** What a user can check before a run: the monitor needs a reader, two writers and three operations to
      get stuck; the semaphore locks never do. */
  predicate Safe(cfg: Config)
  {
    cfg.algo != L.Morris || cfg.readers == 0 || cfg.writers <= 1 || cfg.totalOps <= 2
  }

  /** Some operation has been counted or abandoned. */
  ghost predicate Returned(s: Sys)
  {
    exists t :: 0 <= t < |s.threads| && (s.threads[t].done > 0 || s.threads[t].aborted)
  }

  /** Why the monitor is not frozen in a safe configuration. */
  ghost predicate Reasons(s: Sys, cfg: Config)
  {
    && (forall t :: 0 <= t < |s.threads| && s.threads[t].work.Exit? ==> s.threads[t].done > 0 || s.threads[t].aborted)
    && (s.lock.Fa? ==> (cfg.writers <= 1 ==> FA.Solo(s.lock.fa, cfg.readers)) && (Returned(s) || FA.Caused(s.lock.fa)))
  }

  lemma InitReasons(cfg: Config)
    ensures Reasons(Init(cfg), cfg)
  {
    InitShape(cfg);
  }

  lemma WorkStepCounts(s: Sys, t: nat)
    requires t < |s.threads| && t < L.Size(s.lock)
    ensures var s', th := WorkStep(s, t), s.threads[t];
      && s'.threads == s.threads[t := s'.threads[t]]
      && th.done <= s'.threads[t].done && (th.aborted ==> s'.threads[t].aborted)
      && (s'.threads[t].work.Exit? ==> th.work.Exit? || s'.threads[t].done > 0 || s'.threads[t].aborted)
      && (if CallsLock(s, th) then s'.lock == L.Call(s.lock, t, th.role)
          else if CallsUnlock(s, th) then s'.lock == L.Release(s.lock, t)
          else s'.lock == s.lock)
  {
    hide L.Size, L.Call, L.Release;
  }

  lemma ReturnedStays(s: Sys, s': Sys, t: nat)
    requires Returned(s) && t < |s.threads| && t < |s'.threads| && s'.threads == s.threads[t := s'.threads[t]]
    requires s.threads[t].done <= s'.threads[t].done && (s.threads[t].aborted ==> s'.threads[t].aborted)
    ensures Returned(s')
  {
    var i :| 0 <= i < |s.threads| && (s.threads[i].done > 0 || s.threads[i].aborted);
    assert s'.threads[i].done > 0 || s'.threads[i].aborted;
  }

  lemma LockReasons(s: Sys, cfg: Config, t: nat)
    requires Inv(s, cfg) && Reasons(s, cfg) && s.lock.Fa? && t < |s.threads| && t < L.Size(s.lock)
    ensures var l := WorkStep(s, t).lock;
      l.Fa? && (cfg.writers <= 1 ==> FA.Solo(l.fa, cfg.readers)) && (FA.Caused(s.lock.fa) ==> FA.Caused(l.fa))
  {
    hide L.Inv, Budget, Data, Reads, FA.Solo, FA.Caused, FA.Call, FA.Release, WorkStep, FA.PhaseOf;
    WorkStepCounts(s, t);
    var th := s.threads[t];
    assert Coupled(L.PhaseAt(s.lock, t), th);
    if CallsLock(s, th) {
      assert s.lock.fa.pc[t] == FA.Idle by { OutsideIsIdle(s.lock.fa.pc[t]); }
      FA.CausedCall(s.lock.fa, t, th.role);
      if cfg.writers <= 1 { FA.SoloCall(s.lock.fa, t, th.role, cfg.readers); }
    } else if CallsUnlock(s, th) {
      FA.CausedRelease(s.lock.fa, t);
      if cfg.writers <= 1 { FA.SoloRelease(s.lock.fa, t, cfg.readers); }
    }
  }

  lemma OutsideIsIdle(p: FA.Pc)
    ensures FA.PhaseOf(p) == Outside ==> p == FA.Idle
  {
  }

  lemma WorkStepReasons(s: Sys, cfg: Config, t: nat)
    requires Inv(s, cfg) && Reasons(s, cfg) && t < |s.threads| && !s.threads[t].work.Exit?
    ensures t < L.Size(s.lock) && Reasons(WorkStep(s, t), cfg)
  {
    hide L.Inv, L.PhaseAt, Shape, Budget, Data, Reads, FA.Solo, FA.Caused;
    hide WorkStep, Returned, L.Call, L.Release, Coupled, CallsLock, CallsUnlock;
    ShapeAt(s, cfg, t);
    WorkStepCounts(s, t);
    KindStays(s, t);
    if s.lock.Fa? {
      LockReasons(s, cfg, t);
      if Returned(s) { ReturnedStays(s, WorkStep(s, t), t); }
    }
  }

  lemma KindStays(s: Sys, t: nat)
    requires t < |s.threads| && t < L.Size(s.lock)
    ensures WorkStep(s, t).lock.Fa? == s.lock.Fa?
  {
  }

  lemma LockStepCounts(s: Sys, t: nat, w: nat)
    requires CanStep(s, t, w) && (s.threads[t].work.Want? || s.threads[t].work.Exit?)
    ensures var s', th := LockStep(s, t, w), s.threads[t];
      && s'.threads == s.threads[t := s'.threads[t]] && s'.lock == L.Exec(s.lock, t, w)
      && s'.threads[t].done == th.done && s'.threads[t].aborted == th.aborted
      && (s'.threads[t].work.Exit? ==> th.work.Exit?)
  {
    hide L.Exec, L.Size, L.PhaseAt, L.Enabled, L.Choice;
  }

  lemma LockStepReasons(s: Sys, cfg: Config, t: nat, w: nat)
    requires Inv(s, cfg) && Reasons(s, cfg) && CanStep(s, t, w) && (s.threads[t].work.Want? || s.threads[t].work.Exit?)
    ensures Reasons(LockStep(s, t, w), cfg)
  {
    hide LockStep, FA.Solo, FA.Caused, L.Exec, L.Size, L.Enabled, L.Choice, Inv;
    LockStepCounts(s, t, w);
    if s.lock.Fa? {
      LockExecReasons(s, cfg, t, w);
      if Returned(s) { ReturnedStays(s, LockStep(s, t, w), t); }
    } else {
      StaysSemaphore(s, t, w);
    }
  }

  lemma StaysSemaphore(s: Sys, t: nat, w: nat)
    requires CanStep(s, t, w) && !s.lock.Fa? && (s.threads[t].work.Want? || s.threads[t].work.Exit?)
    ensures !LockStep(s, t, w).lock.Fa?
  {
    hide L.Size, L.PhaseAt;
  }

  lemma LockExecReasons(s: Sys, cfg: Config, t: nat, w: nat)
    requires Inv(s, cfg) && Reasons(s, cfg) && s.lock.Fa?
    requires CanStep(s, t, w) && (s.threads[t].work.Want? || s.threads[t].work.Exit?)
    ensures var l := L.Exec(s.lock, t, w);
      l.Fa? && (cfg.writers <= 1 ==> FA.Solo(l.fa, cfg.readers)) && (Returned(s) || FA.Caused(l.fa))
  {
    var f := s.lock.fa;
    hide FA.Solo, FA.Caused, FA.Exec, FA.Inv, Budget, Data, Reads, FA.Enabled, FA.Choice;
    if cfg.writers <= 1 { FA.SoloExec(f, t, w, cfg.readers); }
    if s.threads[t].work.Exit? {
      assert Returned(s);
    } else if !Returned(s) {
      assert Coupled(L.PhaseAt(s.lock, t), s.threads[t]);
      FA.ExecFollows(f, t, w);
      FA.CausedExec(f, t, w);
    }
  }

  lemma {:induction false} RunReasons(tr: seq<Sys>, acts: seq<Act>, cfg: Config, i: nat)
    requires Run(tr, acts, cfg) && i < |tr|
    ensures Reasons(tr[i], cfg)
    decreases i
  {
    hide Inv, Reasons, Measure, Init, CanStep, LockStep, WorkStep;
    if i == 0 {
      InitReasons(cfg);
    } else {
      var s := tr[i-1];
      RunReasons(tr, acts, cfg, i - 1);
      RunInv(tr, acts, cfg, i - 1);
      assert Can(s, acts[i-1]) && tr[i] == Do(s, acts[i-1]);
      match acts[i-1] {
        case Thr(t, w) =>
          assert t < |s.threads| by { StepRange(s, t, w); }
          if s.threads[t].work.Want? || s.threads[t].work.Exit? { LockStepReasons(s, cfg, t, w); }
          else { WorkStepReasons(s, cfg, t); }
        case Sig => SigReasons(s, cfg);
        case Wake(t) => WakeReasons(s, cfg, t);
      }
    }
  }

  lemma StepRange(s: Sys, t: nat, w: nat)
    requires CanStep(s, t, w)
    ensures t < |s.threads|
  {
  }

  lemma SigReasons(s: Sys, cfg: Config)
    requires Reasons(s, cfg)
    ensures Reasons(s.(abort := true), cfg)
  {
    hide FA.Solo, FA.Caused;
  }

  lemma WakeReasons(s: Sys, cfg: Config, t: nat)
    requires Reasons(s, cfg) && Can(s, Wake(t))
    ensures Reasons(Do(s, Wake(t)), cfg)
  {
    hide FA.Solo, FA.Caused, FA.Spurious;
    FA.CausedSpurious(s.lock.fa, t);
    if cfg.writers <= 1 { FA.SoloSpurious(s.lock.fa, t, cfg.readers); }
  }

  // ----- safe configurations are never frozen -----

  /** In a frozen monitor a reader and a writer wait. */
  lemma FrozenWaiters(f: FA.State) returns (r: nat, w: nat)
    requires FA.Frozen(f)
    ensures r < |f.pc| && FA.PhaseOf(f.pc[r]) == Acquiring(Reader) && !FA.AdmittedPc(f.pc[r])
    ensures w < |f.pc| && f.pc[w] == FA.WAsleep
  {
    hide Count;
    w := CountWitness(f.pc, FA.WAsleep);
    if Count(f.pc, FA.RGuard) > 0 { r := CountWitness(f.pc, FA.RGuard); return; }
    if Count(f.pc, FA.RWait) > 0 { r := CountWitness(f.pc, FA.RWait); return; }
    if Count(f.pc, FA.RAsleep) > 0 { r := CountWitness(f.pc, FA.RAsleep); return; }
    r := CountWitness(f.pc, FA.RWoken);
  }

  lemma AcquiringIsGranted(s: Sys, cfg: Config, t: nat)
    requires Shape(s, cfg) && t < |s.threads| && L.PhaseAt(s.lock, t).Acquiring?
    ensures Granted(s.threads[t]) >= 1 + s.threads[t].done + (if s.threads[t].aborted then 1 else 0)
  {
    hide L.Inv, L.PhaseAt;
    ShapeAt(s, cfg, t);
  }

  lemma AdmittedIsGranted(s: Sys, cfg: Config, t: nat)
    requires Shape(s, cfg) && Reasons(s, cfg) && t < |s.threads| && s.lock.Fa? && FA.AdmittedPc(s.lock.fa.pc[t])
    ensures Granted(s.threads[t]) >= 1
  {
    hide L.Inv, Returned, FA.Solo, FA.Caused;
    ShapeAt(s, cfg, t);
  }

  /** A frozen monitor has taken at least three tickets: the reader's, the writer's, and that of the
      operation the writer went to sleep behind. */
  lemma FrozenTookThree(s: Sys, cfg: Config)
    requires Inv(s, cfg) && Reasons(s, cfg) && L.Frozen(s.lock)
    ensures Sum(s.threads, Granted) >= 3
  {
    var f := s.lock.fa;
    var r, w := FrozenWaiters(f);
    hide Sum, FA.Frozen, FA.Solo, Budget, Data, Reads, L.Inv, Granted;
    AcquiringIsGranted(s, cfg, r);
    AcquiringIsGranted(s, cfg, w);
    if Returned(s) {
      var k :| 0 <= k < |s.threads| && (s.threads[k].done > 0 || s.threads[k].aborted);
      if k == r || k == w {
        SumTwo(s.threads, Granted, r, w);
      } else {
        assert Granted(s.threads[k]) >= 1 by { CountedIsGranted(s.threads[k]); }
        SumThree(s.threads, Granted, r, w, k);
      }
    } else {
      assert FA.WAsleep in f.pc;
      var k :| 0 <= k < |f.pc| && FA.AdmittedPc(f.pc[k]);
      AdmittedIsGranted(s, cfg, k);
      SumThree(s.threads, Granted, r, w, k);
    }
  }

  lemma CountedIsGranted(th: Thread)
    ensures Granted(th) >= th.done + (if th.aborted then 1 else 0)
  {
  }

  lemma SafeIsNotFrozen(s: Sys, cfg: Config)
    requires Inv(s, cfg) && Reasons(s, cfg) && Safe(cfg) && (s.lock.Fa? ==> cfg.algo == L.Morris)
    ensures !L.Frozen(s.lock)
  {
    if L.Frozen(s.lock) {
      var r, w := FrozenWaiters(s.lock.fa);
      FrozenTookThree(s, cfg);
      hide Sum, FA.Frozen, Data, Reads;
      assert Coupled(L.PhaseAt(s.lock, r), s.threads[r]);
      if cfg.writers <= 1 {
        FA.SoloNotFrozen(s.lock.fa, cfg.readers);
      }
    }
  }

  lemma {:induction false} RunKeepsAlgo(tr: seq<Sys>, acts: seq<Act>, cfg: Config, i: nat)
    requires Run(tr, acts, cfg) && i < |tr|
    ensures tr[i].lock.Fa? <==> cfg.algo == L.Morris
    decreases i
  {
    if i == 0 {
    } else {
      RunKeepsAlgo(tr, acts, cfg, i - 1);
      assert Can(tr[i-1], acts[i-1]) && tr[i] == Do(tr[i-1], acts[i-1]);
      DoKeepsKind(tr[i-1], acts[i-1]);
    }
  }

  lemma DoKeepsKind(s: Sys, a: Act)
    requires Can(s, a)
    ensures Do(s, a).lock.Fa? <==> s.lock.Fa?
  {
    hide FA.Exec, L.RP.Exec, L.WP.Exec, L.PhaseAt;
  }

  /** Every maximal run of a safe configuration finishes all its threads: for the semaphore locks always,
      for the monitor when it has no reader, at most one writer, or at most two operations. */
  lemma SafeRunsFinish(tr: seq<Sys>, acts: seq<Act>, cfg: Config)
    requires Run(tr, acts, cfg) && Safe(cfg) && Stuck(tr[|acts|])
    ensures AllDone(tr[|acts|])
  {
    hide Inv, Reasons, Stuck, Init, Measure, Can, Do;
    RunInv(tr, acts, cfg, |acts|);
    RunReasons(tr, acts, cfg, |acts|);
    RunKeepsAlgo(tr, acts, cfg, |acts|);
    SafeIsNotFrozen(tr[|acts|], cfg);
    StuckIsDoneOrFrozen(tr[|acts|], cfg);
  }

  // ----- every other configuration can freeze -----

  ghost predicate Reach(cfg: Config, s: Sys)
  {
    exists tr, acts :: Run(tr, acts, cfg) && s == tr[|acts|]
  }

  lemma ReachInit(cfg: Config)
    ensures Reach(cfg, Init(cfg))
  {
    assert Run([Init(cfg)], [], cfg);
  }

  lemma ReachStep(cfg: Config, s: Sys, t: nat, w: nat)
    requires Reach(cfg, s) && CanStep(s, t, w)
    ensures Reach(cfg, Simulation.Step(s, t, w))
  {
    hide Init, CanStep, Simulation.Step;
    var tr, acts :| Run(tr, acts, cfg) && s == tr[|acts|];
    var tr', acts' := tr + [Simulation.Step(s, t, w)], acts + [Thr(t, w)];
    assert Run(tr', acts', cfg) by {
      forall i | 0 <= i < |acts'| ensures Can(tr'[i], acts'[i]) && tr'[i+1] == Do(tr'[i], acts'[i]) {
        if i < |acts| { assert tr'[i] == tr[i] && tr'[i+1] == tr[i+1]; }
      }
    }
  }

  /** The monitor f with thread t moved to p and the rest of f given by g. */
  function Moved(s: Sys, t: nat, work: Work, g: FA.State, p: FA.Pc): Sys
    requires t < |s.threads| && t < |g.pc|
  {
    s.(lock := L.Fa(g.(pc := g.pc[t := p])), threads := s.threads[t := s.threads[t].(work := work)])
  }

  /** A thread at the top of its loop claims a ticket and calls the lock. */
  lemma ClaimStage(cfg: Config, s: Sys, t: nat)
    requires Reach(cfg, s) && s.lock.Fa? && t < |s.threads| && t < |s.lock.fa.pc| && !s.abort && s.remaining > 0
    requires s.lock.fa.pc[t] == FA.Idle && FA.WAsleep !in s.lock.fa.pc && s.threads[t].work == Top(s.threads[t].target)
    ensures var p := if s.threads[t].role == Reader then FA.RLock else FA.WLock;
      Reach(cfg, Moved(s, t, Want, s.lock.fa, p).(remaining := s.remaining - 1))
  {
    var s1 := s;
    var th := s.threads[t];
    if th.target {
      ReachStep(cfg, s, t, 0);
      s1 := Simulation.Step(s, t, 0);
      assert s1 == Put(s, t, th.(work := Claim));
    }
    assert s1 == Put(s, t, th.(work := Claim)) by { assert s.threads[t := s.threads[t]] == s.threads; }
    ReachStep(cfg, s1, t, 0);
    assert s1.threads[t := th.(work := Want)] == s.threads[t := th.(work := Want)];
  }

  /** One operation of a thread that is still acquiring. */
  lemma WantStage(cfg: Config, s: Sys, t: nat)
    requires Reach(cfg, s) && s.lock.Fa? && t < |s.threads| && s.threads[t].work == Want
    requires FA.Enabled(s.lock.fa, t) && FA.WAsleep !in s.lock.fa.pc
    requires FA.PhaseOf(s.lock.fa.pc[t]) == Acquiring(s.threads[t].role)
    ensures var f := FA.Exec(s.lock.fa, t, 0);
      |f.pc| == |s.lock.fa.pc| &&
      Reach(cfg, s.(lock := L.Fa(f), threads := s.threads[t := s.threads[t].(work :=
        if !FA.PhaseOf(f.pc[t]).Inside? then Want else if s.threads[t].role == Writer then Check else Read)]))
  {
    ReachStep(cfg, s, t, 0);
    FA.ExecFollows(s.lock.fa, t, 0);
  }

  /** The same, for a thread whose monitor operation takes (g, p) to (g2, p2). */
  lemma MovedStage(cfg: Config, s: Sys, t: nat, g: FA.State, p: FA.Pc, g2: FA.State, p2: FA.Pc, work: Work)
    requires t < |s.threads| && t < |g.pc| && g2.pc == g.pc && FA.WAsleep !in g.pc && p != FA.WAsleep
    requires Reach(cfg, Moved(s, t, Want, g, p)) && FA.PhaseOf(p) == Acquiring(s.threads[t].role)
    requires FA.Enabled(g.(pc := g.pc[t := p]), t) && FA.Exec(g.(pc := g.pc[t := p]), t, 0) == g2.(pc := g.pc[t := p2])
    requires work == if !FA.PhaseOf(p2).Inside? then Want else if s.threads[t].role == Writer then Check else Read
    ensures Reach(cfg, Moved(s, t, work, g2, p2))
  {
    hide Reach, FA.Exec, FA.Enabled, FA.PhaseOf;
    var s1 := Moved(s, t, Want, g, p);
    WantStage(cfg, s1, t);
    assert s1.threads[t := s1.threads[t].(work := work)] == s.threads[t := s.threads[t].(work := work)];
  }

  /** A writer finds the lock free and gets it. */
  lemma AdmitStage(cfg: Config, s: Sys, t: nat, f: FA.State)
    requires t < |s.threads| && s.threads[t].role == Writer && t < |f.pc|
    requires Reach(cfg, Moved(s, t, Want, f, FA.WLock))
    requires FA.WAsleep !in f.pc && !f.mtx && !f.activeWriter && f.activeReaders == 0
    ensures Reach(cfg, Moved(s, t, Check, f.(activeWriter := true), FA.WIn))
  {
    hide Reach, Moved;
    var held, taken := f.(mtx := true), f.(mtx := true, activeWriter := true);
    MovedStage(cfg, s, t, f, FA.WLock, held, FA.WGuard, Want);
    MovedStage(cfg, s, t, held, FA.WGuard, held, FA.WAdmit, Want);
    MovedStage(cfg, s, t, held, FA.WAdmit, taken, FA.WUnlock, Want);
    MovedStage(cfg, s, t, taken, FA.WUnlock, f.(activeWriter := true), FA.WIn, Check);
  }

  /** A reader finds a writer active and goes to sleep. */
  lemma ReaderSleepStage(cfg: Config, s: Sys, t: nat, f: FA.State)
    requires t < |s.threads| && s.threads[t].role == Reader && t < |f.pc|
    requires Reach(cfg, Moved(s, t, Want, f, FA.RLock)) && FA.WAsleep !in f.pc && !f.mtx && f.activeWriter
    ensures Reach(cfg, Moved(s, t, Want, f.(waitingReaders := f.waitingReaders + 1), FA.RAsleep))
  {
    hide Reach, Moved;
    var held := f.(mtx := true);
    MovedStage(cfg, s, t, f, FA.RLock, held, FA.RGuard, Want);
    MovedStage(cfg, s, t, held, FA.RGuard, held, FA.RWait, Want);
    MovedStage(cfg, s, t, held, FA.RWait, f.(waitingReaders := f.waitingReaders + 1), FA.RAsleep, Want);
  }

  /** A writer finds a writer active and goes to sleep. */
  lemma WriterSleepStage(cfg: Config, s: Sys, t: nat, f: FA.State)
    requires t < |s.threads| && s.threads[t].role == Writer && t < |f.pc|
    requires Reach(cfg, Moved(s, t, Want, f, FA.WLock)) && FA.WAsleep !in f.pc && !f.mtx && f.activeWriter
    ensures Reach(cfg, Moved(s, t, Want, f.(waitingWriters := f.waitingWriters + 1), FA.WAsleep))
  {
    hide Reach, Moved;
    var held := f.(mtx := true);
    MovedStage(cfg, s, t, f, FA.WLock, held, FA.WGuard, Want);
    MovedStage(cfg, s, t, held, FA.WGuard, held, FA.WWait, Want);
    MovedStage(cfg, s, t, held, FA.WWait, f.(waitingWriters := f.waitingWriters + 1), FA.WAsleep, Want);
  }

  /** Nobody but the threads in busy has started, and no writer sleeps yet. */
  ghost predicate Opening(cfg: Config, s: Sys, busy: set<nat>)
  {
    && s.lock.Fa? && !s.abort && |s.threads| == |s.lock.fa.pc| == cfg.readers + cfg.writers
    && FA.WAsleep !in s.lock.fa.pc && FA.RxSignal !in s.lock.fa.pc
    && !s.lock.fa.mtx && s.lock.fa.activeReaders == 0
    && (forall i :: 0 <= i < |s.threads| && i !in busy ==> s.threads[i] == Spawn(cfg, i) && s.lock.fa.pc[i] == FA.Idle)
  }

  lemma OpeningInit(cfg: Config)
    requires cfg.algo == L.Morris
    ensures Opening(cfg, Init(cfg), {}) && Init(cfg).remaining == cfg.totalOps && !Init(cfg).lock.fa.activeWriter
  {
    InitShape(cfg);
  }

  /** The first writer gets the lock. */
  lemma FirstWriter(cfg: Config, s: Sys) returns (s': Sys)
    requires Reach(cfg, s) && Opening(cfg, s, {}) && cfg.writers > 0 && s.remaining > 0 && !s.lock.fa.activeWriter
    ensures Reach(cfg, s') && Opening(cfg, s', {cfg.readers})
    ensures s'.remaining == s.remaining - 1 && s'.lock.fa.activeWriter
  {
    var a, f, s0 := cfg.readers, s.lock.fa, s.(remaining := s.remaining - 1);
    assert s.threads[a] == Spawn(cfg, a);
    ClaimStage(cfg, s, a);
    assert Moved(s, a, Want, f, FA.WLock).(remaining := s.remaining - 1) == Moved(s0, a, Want, f, FA.WLock);
    AdmitStage(cfg, s0, a, f);
    s' := Moved(s0, a, Check, f.(activeWriter := true), FA.WIn);
  }

  /** A reader queues behind it. */
  lemma FirstReader(cfg: Config, s: Sys) returns (s': Sys)
    requires Reach(cfg, s) && Opening(cfg, s, {cfg.readers})
    requires cfg.readers > 0 && s.remaining > 0 && s.lock.fa.activeWriter
    ensures Reach(cfg, s') && Opening(cfg, s', {cfg.readers, 0})
    ensures s'.remaining == s.remaining - 1 && s'.lock.fa.activeWriter
    ensures FA.RAsleep in s'.lock.fa.pc
  {
    var f, s0 := s.lock.fa, s.(remaining := s.remaining - 1);
    assert s.threads[0] == Spawn(cfg, 0);
    ClaimStage(cfg, s, 0);
    assert Moved(s, 0, Want, f, FA.RLock).(remaining := s.remaining - 1) == Moved(s0, 0, Want, f, FA.RLock);
    ReaderSleepStage(cfg, s0, 0, f);
    s' := Moved(s0, 0, Want, f.(waitingReaders := f.waitingReaders + 1), FA.RAsleep);
    assert s'.lock.fa.pc[0] == FA.RAsleep;
  }

  /** A second writer queues too, and the lock is frozen. */
  lemma SecondWriter(cfg: Config, s: Sys) returns (s': Sys)
    requires Reach(cfg, s) && Opening(cfg, s, {cfg.readers, 0}) && cfg.readers > 0 && cfg.writers > 1 && s.remaining > 0
    requires s.lock.fa.activeWriter && FA.RAsleep in s.lock.fa.pc
    ensures Reach(cfg, s') && L.Frozen(s'.lock)
  {
    var b, f, s0 := cfg.readers + 1, s.lock.fa, s.(remaining := s.remaining - 1);
    assert s.threads[b] == Spawn(cfg, b);
    ClaimStage(cfg, s, b);
    assert Moved(s, b, Want, f, FA.WLock).(remaining := s.remaining - 1) == Moved(s0, b, Want, f, FA.WLock);
    WriterSleepStage(cfg, s0, b, f);
    s' := Moved(s0, b, Want, f.(waitingWriters := f.waitingWriters + 1), FA.WAsleep);
    FrozenByMembers(f, b);
  }

  lemma FrozenByMembers(f: FA.State, b: nat)
    requires b < |f.pc| && f.pc[b] == FA.Idle && f.activeReaders == 0 && FA.RAsleep in f.pc && FA.RxSignal !in f.pc
    ensures FA.Frozen(f.(pc := f.pc[b := FA.WAsleep], waitingWriters := f.waitingWriters + 1))
  {
    CountIn(f.pc, FA.RAsleep);
    CountIn(f.pc, FA.RxSignal);
    hide Count;
    CountMove(f.pc, b, FA.WAsleep);
  }

  /** With a reader, two writers and three operations the monitor can freeze. */
  lemma UnsafeReachesFrozen(cfg: Config) returns (s: Sys)
    requires !Safe(cfg)
    ensures Reach(cfg, s) && L.Frozen(s.lock)
  {
    hide Reach, Opening, Init, L.Frozen;
    ReachInit(cfg);
    OpeningInit(cfg);
    s := FirstWriter(cfg, Init(cfg));
    s := FirstReader(cfg, s);
    s := SecondWriter(cfg, s);
  }

  lemma WorkStepFrozen(s: Sys, cfg: Config, t: nat)
    requires Inv(s, cfg) && L.Frozen(s.lock) && t < |s.threads| && t < L.Size(s.lock)
    ensures L.Frozen(WorkStep(s, t).lock)
  {
    hide FA.Inv, Budget, Data, Reads, FA.Frozen, FA.Call, FA.Release, WorkStep;
    WorkStepCounts(s, t);
    var th := s.threads[t];
    assert Coupled(L.PhaseAt(s.lock, t), th);
    if CallsLock(s, th) {
      OutsideIsIdle(s.lock.fa.pc[t]);
      FA.FrozenCall(s.lock.fa, t, th.role);
    } else if CallsUnlock(s, th) {
      FA.FrozenRelease(s.lock.fa, t);
    }
  }

  /** No step of the closed system leaves the frozen region. */
  lemma StepStaysFrozen(s: Sys, cfg: Config, t: nat, w: nat)
    requires Inv(s, cfg) && L.Frozen(s.lock) && CanStep(s, t, w)
    ensures L.Frozen(Simulation.Step(s, t, w).lock)
  {
    hide FA.Inv, Budget, Data, Reads, FA.Frozen, FA.Exec, WorkStep;
    if s.threads[t].work.Want? || s.threads[t].work.Exit? {
      FA.FrozenExec(s.lock.fa, t, w);
    } else {
      WorkStepFrozen(s, cfg, t);
    }
  }

  /** A frozen run continues to its end, and ends frozen. */
  lemma {:induction false} FrozenEndsStuck(cfg: Config, s: Sys) returns (e: Sys)
    requires Reach(cfg, s) && L.Frozen(s.lock)
    ensures Reach(cfg, e) && Stuck(e) && L.Frozen(e.lock) && Inv(e, cfg)
    decreases Measure(s)
  {
    hide Inv, L.Frozen, Measure, Simulation.Step, CanStep;
    assert Inv(s, cfg) by {
      var tr, acts :| Run(tr, acts, cfg) && s == tr[|acts|];
      RunInv(tr, acts, cfg, |acts|);
    }
    if t, w :| CanStep(s, t, w) {
      ReachStep(cfg, s, t, w);
      StepMeasure(s, cfg, t, w);
      StepStaysFrozen(s, cfg, t, w);
      e := FrozenEndsStuck(cfg, Simulation.Step(s, t, w));
    } else {
      e := s;
    }
  }

  /** "No deadlock" (Readme.md, TC-06 and the conclusion), decided for every configuration: every run that
      cannot be continued has finished all threads if and only if the configuration is safe. */
  lemma FinishesIffSafe(cfg: Config)
    ensures Safe(cfg) <==> forall s :: Reach(cfg, s) && Stuck(s) ==> AllDone(s)
  {
    hide Stuck, AllDone, Safe, L.Frozen, Inv;
    if Safe(cfg) {
      forall s | Reach(cfg, s) && Stuck(s) ensures AllDone(s) {
        var tr, acts :| Run(tr, acts, cfg) && s == tr[|acts|];
        SafeRunsFinish(tr, acts, cfg);
      }
    } else {
      var s := UnsafeReachesFrozen(cfg);
      var e := FrozenEndsStuck(cfg, s);
      FrozenIsNotDone(e, cfg);
    }
  }

  /** The frozen region can be entered exactly in the unsafe configurations. */
  lemma FrozenReachableIffUnsafe(cfg: Config)
    ensures !Safe(cfg) <==> exists s :: Reach(cfg, s) && L.Frozen(s.lock)
  {
    hide Safe, L.Frozen, Inv, Reasons;
    if !Safe(cfg) {
      var s := UnsafeReachesFrozen(cfg);
    } else {
      forall s | Reach(cfg, s) ensures !L.Frozen(s.lock) {
        var tr, acts :| Run(tr, acts, cfg) && s == tr[|acts|];
        RunInv(tr, acts, cfg, |acts|);
        RunReasons(tr, acts, cfg, |acts|);
        RunKeepsAlgo(tr, acts, cfg, |acts|);
        SafeIsNotFrozen(s, cfg);
      }
    }
  }

  /** The whole simulation, end to end: a maximal run of a safe configuration without an abort has finished
      every thread, completed exactly totalOps operations, and left data_ and writeCount_ at the number of
      writes among them. */
  lemma EndToEnd(tr: seq<Sys>, acts: seq<Act>, cfg: Config)
    requires Run(tr, acts, cfg) && Safe(cfg) && Stuck(tr[|acts|]) && !tr[|acts|].abort
    requires cfg.readers + cfg.writers > 0 && cfg.totalOps >= 0
    ensures var s := tr[|acts|];
      && AllDone(s) && Sum(s.threads, Completed) == cfg.totalOps && s.remaining == 0
      && s.data == s.writeCount == Sum(s.threads, WriterOps)
  {
    hide Init, Can, Do, Stuck, Safe, Sum;
    SafeRunsFinish(tr, acts, cfg);
    FinishedRunCompletesAll(tr, acts, cfg);
    DataIntegrity(tr, acts, cfg, |acts|);
  }
}
