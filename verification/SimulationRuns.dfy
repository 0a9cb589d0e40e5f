/** Whole runs of the closed system: every run is finite, where runs end, what a finished run has done, and
    what the workers' unprotected increments leave behind. */
module SimulationRuns {
  import opened Counting
  import opened RwSpec
  import opened Simulation
  import L = RwLock
  import FA = FairMorris

  /** A step of a thread, the arrival of the abort signal, or a spurious return of a condition wait. */
  datatype Act = Thr(t: nat, w: nat) | Sig | Wake(t: nat)

  predicate Can(s: Sys, a: Act)
  {
    match a
    case Thr(t, w) => CanStep(s, t, w)
    case Sig => !s.abort
    case Wake(t) => L.Can(s.lock, L.Wake(t))
  }

  function Do(s: Sys, a: Act): Sys
    requires Can(s, a)
  {
    match a
    case Thr(t, w) => Simulation.Step(s, t, w)
    case Sig => s.(abort := true)
    case Wake(t) => s.(lock := L.Do(s.lock, L.Wake(t)))
  }

  ghost predicate Run(tr: seq<Sys>, acts: seq<Act>, cfg: Config)
  {
    && |tr| == |acts| + 1 && tr[0] == Init(cfg)
    && forall i :: 0 <= i < |acts| ==> Can(tr[i], acts[i]) && tr[i+1] == Do(tr[i], acts[i])
  }

  ghost predicate Stuck(s: Sys)
  {
    forall t, w :: !CanStep(s, t, w)
  }

  predicate AllDone(s: Sys)
  {
    forall t :: 0 <= t < |s.threads| ==> s.threads[t].work == Done
  }

  lemma SigInv(s: Sys, cfg: Config)
    requires Inv(s, cfg) && !s.abort
    ensures Inv(s.(abort := true), cfg) && Measure(s.(abort := true)) < Measure(s)
  {
    var s' := s.(abort := true);
    hide Sum, L.Inv, L.PhaseAt, L.MajorSum, L.MinorSum, Coupled, AbortOk, GaveUp;
    assert Budget(s', cfg) by {
      forall t | 0 <= t < |s.threads|
        ensures AbortOk(s.threads[t], true) && (GaveUp(s.threads[t], true) ==> GaveUp(s.threads[t], false))
      {
        AbortMonotone(s.threads[t], false, true);
      }
    }
    assert Data(s') by {
      forall t | 0 <= t < |s.threads| ensures Knows(s', s.threads[t].work, Sum(s.threads, WriterOps)) {
        KnowsFrame(s, s', s.threads[t].work, Sum(s.threads, WriterOps), Sum(s.threads, WriterOps));
      }
    }
    MeasureDropsByOne(Major(s), 3 * |s.threads|, L.MinorSum(s.lock));
  }

  lemma MeasureDropsByOne(a: nat, m: nat, x: nat)
    requires a > 0
    ensures Weigh(a - 1, m, x) < Weigh(a, m, x)
  {
    assert a * (m + 1) == (a - 1) * (m + 1) + (m + 1);
  }

  lemma WakeShape(s: Sys, cfg: Config, t: nat)
    requires Shape(s, cfg) && Can(s, Wake(t))
    ensures Shape(Do(s, Wake(t)), cfg)
  {
    hide L.Inv, L.PhaseAt, L.Do, L.View;
    L.WakeOk(s.lock, t);
    WakeRange(s.lock, t);
    ShapeMove(s, Do(s, Wake(t)), cfg, t, L.PhaseAt(s.lock, t));
  }

  lemma WakeRange(l: L.Lock, t: nat)
    requires L.Can(l, L.Wake(t))
    ensures t < L.Size(l)
  {
  }

  lemma LockOnlyBudget(s: Sys, cfg: Config, l: L.Lock)
    requires Budget(s, cfg)
    ensures Budget(s.(lock := l), cfg)
  {
    hide Sum, GaveUp, AbortOk;
  }

  lemma LockOnlyData(s: Sys, l: L.Lock)
    requires Data(s)
    ensures Data(s.(lock := l))
  {
    hide Sum, Knows, Writing;
    var k := Sum(s.threads, WriterOps);
    forall i | 0 <= i < |s.threads| ensures Knows(s.(lock := l), s.threads[i].work, k) {
      KnowsFrame(s, s.(lock := l), s.threads[i].work, k, k);
    }
  }

  lemma LockOnlyReads(s: Sys, l: L.Lock)
    requires Reads(s)
    ensures Reads(s.(lock := l))
  {
    hide Sum;
  }

  /** A spurious wakeup changes nothing outside the lock. */
  lemma WakeInv(s: Sys, cfg: Config, t: nat)
    requires Inv(s, cfg) && Can(s, Wake(t))
    ensures Inv(Do(s, Wake(t)), cfg)
  {
    hide Shape, Budget, Data, Reads, L.Can, L.Do;
    WakeShape(s, cfg, t);
    LockOnlyBudget(s, cfg, L.Do(s.lock, L.Wake(t)));
    LockOnlyData(s, L.Do(s.lock, L.Wake(t)));
    LockOnlyReads(s, L.Do(s.lock, L.Wake(t)));
  }

  lemma WakeCosts(s: Sys, t: nat)
    requires Can(s, Wake(t))
    ensures Measure(Do(s, Wake(t))) <= Measure(s) + 3
  {
    hide Sum, L.Can, L.Do, L.MajorSum, L.MinorSum;
    L.WakeMeasure(s.lock, t);
    assert Major(Do(s, Wake(t))) == Major(s);
  }

  /** Every action keeps the invariant; a spurious wakeup gives back at most three steps, any other action
      uses one up. */
  lemma DoInv(s: Sys, cfg: Config, a: Act)
    requires Inv(s, cfg) && Can(s, a)
    ensures Inv(Do(s, a), cfg)
    ensures if a.Wake? then Measure(Do(s, a)) <= Measure(s) + 3 else Measure(Do(s, a)) < Measure(s)
  {
    hide Inv, Measure, Simulation.Step, CanStep, L.Can, L.Do;
    match a {
      case Thr(t, w) => StepInv(s, cfg, t, w); StepMeasure(s, cfg, t, w);
      case Sig => SigInv(s, cfg);
      case Wake(t) => WakeInv(s, cfg, t); WakeCosts(s, t);
    }
  }

  /** How many of the actions are spurious wakeups. */
  function Wakes(acts: seq<Act>): nat
  {
    if acts == [] then 0 else Wakes(acts[..|acts|-1]) + (if acts[|acts|-1].Wake? then 1 else 0)
  }

  lemma {:induction false} RunInv(tr: seq<Sys>, acts: seq<Act>, cfg: Config, i: nat)
    requires Run(tr, acts, cfg) && i < |tr|
    ensures Inv(tr[i], cfg) && Measure(tr[i]) + i <= Measure(Init(cfg)) + 4 * Wakes(acts[..i])
    decreases i
  {
    hide Inv, Measure, Can, Do, Init;
    if i == 0 {
      InitInv(cfg);
    } else {
      RunInv(tr, acts, cfg, i - 1);
      DoInv(tr[i-1], cfg, acts[i-1]);
      assert acts[..i][..i-1] == acts[..i-1] && acts[..i][i-1] == acts[i-1];
    }
  }

  /** The number of steps that n threads need for ops operations, whatever the schedule. */
  function Bound(ops: int, n: nat): nat
  {
    (32 * (if ops > 0 then ops else 0) + 3 * n + 1) * (3 * n + 1)
  }

  lemma InitMajor(cfg: Config)
    ensures var n := cfg.readers + cfg.writers;
      |Init(cfg).threads| == n && L.MinorSum(Init(cfg).lock) == 0 &&
      Major(Init(cfg)) <= 32 * (if cfg.totalOps > 0 then cfg.totalOps else 0) + 3 * n + 1
  {
    hide Init, Sum, L.MajorSum, L.MinorSum, L.Init, Shape;
    var s, n := Init(cfg), cfg.readers + cfg.writers;
    InitShape(cfg);
    InitFields(cfg);
    InitLock(cfg.algo, n);
    SumZero(s.threads, Pending);
    SumBound(s.threads, WorkRank, 3);
  }

  lemma InitMeasure(cfg: Config)
    ensures Measure(Init(cfg)) <= Bound(cfg.totalOps, cfg.readers + cfg.writers)
  {
    hide Init, Major, L.MinorSum;
    InitMajor(cfg);
    var n := cfg.readers + cfg.writers;
    MulMonotone(Major(Init(cfg)), 32 * (if cfg.totalOps > 0 then cfg.totalOps else 0) + 3 * n + 1, 3 * n + 1);
  }

  lemma MulMonotone(a: nat, b: nat, c: nat)
    requires a <= b
    ensures a * c <= b * c
  {
  }

  lemma InitLock(algo: L.Algo, n: nat)
    ensures L.MajorSum(L.Init(algo, n)) == 0 && L.MinorSum(L.Init(algo, n)) == 0
  {
    match algo {
      case ReaderFirst => SumBound(L.Init(algo, n).rp.pc, L.RP.Rank, 0);
      case WriterFirst => SumBound(L.Init(algo, n).wp.pc, L.WP.Rank, 0);
      case Morris => SumBound(L.Init(algo, n).fa.pc, L.FA.Major, 0); SumBound(L.Init(algo, n).fa.pc, L.FA.Minor, 0);
    }
  }

  /** No schedule of any of the three locks takes more than Bound steps, and four more for every spurious wakeup.
      So every run without unboundedly many spurious wakeups is finite. */
  lemma EveryRunIsFinite(tr: seq<Sys>, acts: seq<Act>, cfg: Config)
    requires Run(tr, acts, cfg)
    ensures |acts| <= Bound(cfg.totalOps, cfg.readers + cfg.writers) + 4 * Wakes(acts)
  {
    hide Inv, Measure, Can, Do, Init, Bound, Wakes;
    RunInv(tr, acts, cfg, |acts|);
    assert acts[..|acts|] == acts;
    InitMeasure(cfg);
  }

  // ----- where runs end -----

  lemma EnabledIsInCall(l: L.Lock, t: nat)
    requires L.Enabled(l, t)
    ensures t < L.Size(l) && (L.PhaseAt(l, t).Acquiring? || L.PhaseAt(l, t).Releasing?)
  {
  }

  /** A state in which no thread can move has all threads finished, or the monitor is frozen. */
  lemma StuckIsDoneOrFrozen(s: Sys, cfg: Config)
    requires Inv(s, cfg) && Stuck(s)
    ensures AllDone(s) || L.Frozen(s.lock)
  {
    hide L.Inv, L.Frozen, L.PhaseAt, L.Enabled, L.Size, L.Choice, Budget, Data, Reads;
    if c :| 0 <= c < |s.threads| && s.threads[c].work != Done {
      var w := L.SomeChoice(s.lock);
      assert !CanStep(s, c, w);
      var t := L.Progress(s.lock, c);
      assert !CanStep(s, t, w);
      if L.Enabled(s.lock, t) {
        EnabledIsInCall(s.lock, t);
      }
    }
  }

  lemma FrozenIsNotDone(s: Sys, cfg: Config)
    requires Inv(s, cfg) && L.Frozen(s.lock)
    ensures !AllDone(s)
  {
    hide L.Inv, Budget, Data, Reads;
    var w := CountWitness(s.lock.fa.pc, FA.WAsleep);
    assert Coupled(L.PhaseAt(s.lock, w), s.threads[w]);
  }

  /** A run that cannot be continued has finished all its threads, except exactly when it is frozen. */
  lemma MaximalRunFinishesUnlessFrozen(tr: seq<Sys>, acts: seq<Act>, cfg: Config)
    requires Run(tr, acts, cfg) && Stuck(tr[|acts|])
    ensures AllDone(tr[|acts|]) <==> !L.Frozen(tr[|acts|].lock)
  {
    hide Inv, Can, Do, Init, L.Frozen, CanStep;
    RunInv(tr, acts, cfg, |acts|);
    StuckIsDoneOrFrozen(tr[|acts|], cfg);
    if L.Frozen(tr[|acts|].lock) {
      FrozenIsNotDone(tr[|acts|], cfg);
    }
  }

  function Completed(th: Thread): nat
  {
    th.done
  }

  /** Conservation: in every state of every run the budget is the counter, plus the failed claims not yet
      added back, plus the operations in flight, completed and abandoned. */
  lemma Conservation(tr: seq<Sys>, acts: seq<Act>, cfg: Config, i: nat)
    requires Run(tr, acts, cfg) && i < |tr|
    ensures var s := tr[i]; cfg.totalOps == s.remaining + Sum(s.threads, Pending) + Sum(s.threads, Granted)
    ensures forall t :: 0 <= t < |tr[i].threads| && GaveUp(tr[i].threads[t], tr[i].abort) ==>
      Sum(tr[i].threads, Granted) >= cfg.totalOps
  {
    hide Shape, Data, Reads, Measure, Can, Do, Init, GaveUp, Sum;
    RunInv(tr, acts, cfg, i);
  }

  /** A finished run without an abort has completed exactly totalOps operations. */
  lemma FinishedRunCompletesAll(tr: seq<Sys>, acts: seq<Act>, cfg: Config)
    requires Run(tr, acts, cfg) && AllDone(tr[|acts|]) && !tr[|acts|].abort
    requires cfg.readers + cfg.writers > 0 && cfg.totalOps >= 0
    ensures Sum(tr[|acts|].threads, Completed) == cfg.totalOps && tr[|acts|].remaining == 0
  {
    var s := tr[|acts|];
    RunInv(tr, acts, cfg, |acts|);
    hide L.Inv, L.PhaseAt, L.Size, Data, Reads, Measure, Can, Do, Init, Sum, Coupled;
    assert |s.threads| > 0;
    assert s.threads[0].work == Done && GaveUp(s.threads[0], s.abort);
    SumEqual(s.threads, Granted, Completed);
    SumZero(s.threads, Pending);
  }

  function Abandoned(th: Thread): nat
  {
    if th.aborted then 1 else 0
  }

  function CompletedOrAbandoned(th: Thread): nat
  {
    th.done + Abandoned(th)
  }

  lemma AbandonedAtMostOne(s: Sys, cfg: Config)
    requires Inv(s, cfg)
    ensures Sum(s.threads, Abandoned) <= 1
  {
    hide L.Inv, L.PhaseAt, L.Size, Data, Reads, Sum, Coupled;
    assert forall t :: 0 <= t < |s.threads| && t != cfg.readers ==>
      !s.threads[t].target && AbortOk(s.threads[t], s.abort);
    SumOnly(s.threads, Abandoned, cfg.readers);
  }

  /** In every state of every run at most one operation has been abandoned. */
  lemma AtMostOneAbandoned(tr: seq<Sys>, acts: seq<Act>, cfg: Config, i: nat)
    requires Run(tr, acts, cfg) && i < |tr|
    ensures Sum(tr[i].threads, Abandoned) <= 1
  {
    hide Inv, Measure, Can, Do, Init, Sum;
    RunInv(tr, acts, cfg, i);
    AbandonedAtMostOne(tr[i], cfg);
  }

  /** A budget of zero or less is not worked on at all. */
  function Ops(cfg: Config): nat
  {
    if cfg.totalOps > 0 then cfg.totalOps else 0
  }

  /** Every finished run, with or without the signal, accounts for the whole budget. */
  ghost predicate AlwaysAccounts(cfg: Config)
  {
    forall tr: seq<Sys>, acts :: Run(tr, acts, cfg) && AllDone(tr[|acts|]) ==>
      Sum(tr[|acts|].threads, CompletedOrAbandoned) == Ops(cfg)
  }

  /** Nothing to do, or some worker is not the abort target. */
  predicate SomeoneWorks(cfg: Config)
  {
    cfg.totalOps <= 0 || cfg.readers > 0 || cfg.writers > 1 || (cfg.writers == 1 && !cfg.abortTest)
  }

  lemma GrantedWhenFinished(s: Sys, cfg: Config)
    requires Inv(s, cfg) && AllDone(s) && SomeoneWorks(cfg)
    ensures Sum(s.threads, Granted) == Ops(cfg)
  {
    hide L.Inv, L.PhaseAt, L.Size, Data, Reads, Sum, Coupled, AbortOk;
    if cfg.totalOps > 0 {
      var other := if cfg.readers > 0 || cfg.writers == 1 then 0 else 1;
      assert s.threads[other].work == Done && !s.threads[other].target;
      assert GaveUp(s.threads[other], s.abort);
      SumZero(s.threads, Pending);
    }
  }

  lemma FinishedRunAccounts(tr: seq<Sys>, acts: seq<Act>, cfg: Config)
    requires Run(tr, acts, cfg) && AllDone(tr[|acts|]) && SomeoneWorks(cfg)
    ensures Sum(tr[|acts|].threads, CompletedOrAbandoned) == Ops(cfg)
  {
    hide Inv, Can, Do, Init, Sum, SomeoneWorks;
    RunInv(tr, acts, cfg, |acts|);
    GrantedWhenFinished(tr[|acts|], cfg);
    SumEqual(tr[|acts|].threads, Granted, CompletedOrAbandoned);
  }

  lemma InitAlone(cfg: Config)
    requires cfg.readers == 0 && cfg.writers == 1 && cfg.abortTest
    ensures var s := Init(cfg); L.Size(s.lock) == 1 && s.threads == [Thread(Writer, true, Head, 0, false)] && !s.abort
  {
    hide L.Init, L.Inv, Shape;
    InitShape(cfg);
    InitFields(cfg);
    L.InitOk(cfg.algo, 1);
  }

  /** A lone writer that is the abort target and sees the signal before its first claim leaves at once: the
      whole budget is neither completed nor abandoned. */
  lemma LoneTargetLosesAll(cfg: Config) returns (tr: seq<Sys>, acts: seq<Act>)
    requires cfg.readers == 0 && cfg.writers == 1 && cfg.abortTest
    ensures Run(tr, acts, cfg) && AllDone(tr[|acts|]) && Sum(tr[|acts|].threads, CompletedOrAbandoned) == 0
  {
    hide Init, L.Choice, L.Size, Sum;
    InitAlone(cfg);
    var s0 := Init(cfg);
    var s1 := Do(s0, Sig);
    var w := L.SomeChoice(s1.lock);
    var s2 := Do(s1, Thr(0, w));
    assert s2.threads == [Thread(Writer, true, Done, 0, false)];
    SumZero(s2.threads, CompletedOrAbandoned);
    tr, acts := [s0, s1, s2], [Sig, Thr(0, w)];
  }

  lemma NobodyWorks(cfg: Config)
    requires !SomeoneWorks(cfg)
    ensures !AlwaysAccounts(cfg)
  {
    hide Init, Sum, Can, Do;
    if cfg.writers == 1 {
      hide Run, AllDone;
      var tr, acts := LoneTargetLosesAll(cfg);
    } else {
      InitFields(cfg);
      var s := Init(cfg);
      SumZero(s.threads, CompletedOrAbandoned);
      assert Run([s], [], cfg) && AllDone([s][0]);
    }
  }

  /** The abort loses at most the target's one operation in exactly these configurations: every finished run
      accounts for the whole budget, completed or abandoned, if and only if there is nothing to do or some
      worker is not the abort target. */
  lemma AbortLosesAtMostOne(cfg: Config)
    ensures AlwaysAccounts(cfg) <==> SomeoneWorks(cfg)
  {
    hide Can, Do, Init, AllDone, Sum, SomeoneWorks;
    if SomeoneWorks(cfg) {
      forall tr: seq<Sys>, acts | Run(tr, acts, cfg) && AllDone(tr[|acts|])
        ensures Sum(tr[|acts|].threads, CompletedOrAbandoned) == Ops(cfg)
      {
        FinishedRunAccounts(tr, acts, cfg);
      }
    } else {
      NobodyWorks(cfg);
    }
  }

  // ----- the shared resource -----

  /** Whenever no writer is in its critical section, data_ and writeCount_ are both the number of writes
      counted in opsCompleted, under each of the three locks; readCount_ never exceeds the reads. */
  lemma DataIntegrity(tr: seq<Sys>, acts: seq<Act>, cfg: Config, i: nat)
    requires Run(tr, acts, cfg) && i < |tr|
    ensures (forall t :: 0 <= t < |tr[i].threads| ==> !Writing(tr[i].threads[t].work)) ==>
      tr[i].data == tr[i].writeCount == Sum(tr[i].threads, WriterOps)
    ensures tr[i].readCount <= Sum(tr[i].threads, ReaderOps)
  {
    hide Shape, Budget, Measure, Can, Do, Init, Sum, Knows, Writing;
    RunInv(tr, acts, cfg, i);
  }

  lemma OnlyStoreWrites(s: Sys, t: nat, w: nat)
    requires CanStep(s, t, w) && !s.threads[t].work.Store?
    ensures Simulation.Step(s, t, w).data == s.data
  {
    hide L.PhaseAt, L.Size, L.Call, L.Release, L.Exec, L.Enabled, L.Choice;
  }

  lemma DataStays(s: Sys, cfg: Config, a: Act, r: nat)
    requires Inv(s, cfg) && Can(s, a) && r < |s.threads| && Reading(s.threads[r].work)
    ensures Do(s, a).data == s.data
  {
    if a.Thr? {
      hide Inv, Simulation.Step, L.Size, L.Enabled, L.Choice;
      if s.threads[a.t].work.Store? {
        Alone(s, cfg, a.t, r);
        assert false;
      } else {
        OnlyStoreWrites(s, a.t, a.w);
      }
    }
  }

  /** data_ does not change while a reader is in its critical section. */
  lemma {:induction false} ReaderSeesConstantData(tr: seq<Sys>, acts: seq<Act>, cfg: Config, r: nat, i: nat, j: nat)
    requires Run(tr, acts, cfg) && i <= j < |tr|
    requires forall k :: i <= k < j ==> r < |tr[k].threads| && Reading(tr[k].threads[r].work)
    ensures tr[j].data == tr[i].data
    decreases j
  {
    hide Inv, Can, Do, Init, Measure;
    if i == j {
    } else {
      ReaderSeesConstantData(tr, acts, cfg, r, i, j - 1);
      RunInv(tr, acts, cfg, j - 1);
      DataStays(tr[j-1], cfg, acts[j-1], r);
    }
  }
}
