/** The reads counter of the shared resource: readers increment it side by side with a plain load and store, so it
    is exact in just those configurations in which two reads can never overlap. */
module ReadCounter {
  import opened Counting
  import opened RwSpec
  import opened Simulation
  import opened SimulationRuns
  import opened StuckConfigs
  import L = RwLock
  import RP = ReaderPriority
  import WP = WriterPriority
  import FA = FairMorris

  /** What a user can check before a run: one reader, or one operation. */
  predicate OneAtATime(cfg: Config)
  {
    cfg.readers <= 1 || cfg.totalOps <= 1
  }

  /** No reader is between its load and its store. */
  predicate NobodyStores(s: Sys)
  {
    forall t :: 0 <= t < |s.threads| ==> !s.threads[t].work.RStore?
  }

  ghost predicate ReadsExact(cfg: Config)
  {
    forall s :: Reach(cfg, s) && NobodyStores(s) ==> s.readCount == Sum(s.threads, ReaderOps)
  }

  // ----- where reads cannot overlap -----

  /** The counter is exact, and a reader about to store still holds its current value. */
  ghost predicate Exact(s: Sys)
  {
    s.readCount == Sum(s.threads, ReaderOps) &&
    forall t :: 0 <= t < |s.threads| && s.threads[t].work.RStore? ==> s.threads[t].work.c == s.readCount
  }

  lemma OneStores(s: Sys, cfg: Config, t: nat, i: nat)
    requires Inv(s, cfg) && OneAtATime(cfg) && t < |s.threads| && i < |s.threads|
    requires s.threads[t].work.RStore? && s.threads[i].work.RStore?
    ensures t == i
  {
    hide L.Inv, L.PhaseAt, Data, Reads, Sum;
    ShapeAt(s, cfg, t);
    ShapeAt(s, cfg, i);
    if t != i {
      SumTwo(s.threads, Granted, t, i);
    }
  }

  lemma ExactMove(s: Sys, s': Sys, t: nat)
    requires Exact(s) && t < |s.threads| && |s'.threads| == |s.threads| && s'.threads == s.threads[t := s'.threads[t]]
    requires s'.threads[t].work.RStore? ==> s'.threads[t].work.c == s'.readCount
    requires s'.readCount - s.readCount == ReaderOps(s'.threads[t]) - ReaderOps(s.threads[t])
    requires s'.readCount != s.readCount ==>
      forall i :: 0 <= i < |s.threads| && i != t ==> !s.threads[i].work.RStore?
    ensures Exact(s')
  {
    hide Sum, ReaderOps;
    SumUpdate(s.threads, t, s'.threads[t], ReaderOps);
  }

  /** What one operation outside the lock calls does to the counter. */
  lemma WorkStepReadCount(s: Sys, t: nat)
    requires t < |s.threads| && t < L.Size(s.lock) && (s.threads[t].work.WDone? ==> s.threads[t].role == Writer)
    requires s.threads[t].work.RStore? ==> s.threads[t].role == Reader && s.threads[t].work.c == s.readCount
    ensures var s' := WorkStep(s, t);
      |s'.threads| == |s.threads| && s'.readCount - s.readCount == ReaderOps(s'.threads[t]) - ReaderOps(s.threads[t])
  {
    hide L.Size, L.Call, L.Release;
  }

  lemma WorkStepLoads(s: Sys, t: nat)
    requires t < |s.threads| && t < L.Size(s.lock)
    ensures var s', th := WorkStep(s, t), s.threads[t];
      && (s'.threads[t].work.RStore? ==> s'.threads[t].work.c == s'.readCount == s.readCount && !th.work.RStore?)
      && (s'.readCount != s.readCount ==> th.work.RStore?)
  {
    hide L.Size, L.Call, L.Release;
  }

  lemma WorkStepExact(s: Sys, cfg: Config, t: nat)
    requires Inv(s, cfg) && OneAtATime(cfg) && Exact(s) && t < |s.threads|
    ensures t < L.Size(s.lock) && Exact(WorkStep(s, t))
  {
    hide L.Inv, L.PhaseAt, L.Size, Shape, Budget, Data, Reads, Sum, WorkStep, ReaderOps, CallsLock, CallsUnlock;
    ShapeAt(s, cfg, t);
    WorkStepCounts(s, t);
    WorkStepReadCount(s, t);
    WorkStepLoads(s, t);
    if s.threads[t].work.RStore? {
      forall i | 0 <= i < |s.threads| && i != t ensures !s.threads[i].work.RStore? {
        if s.threads[i].work.RStore? { OneStores(s, cfg, t, i); }
      }
    }
    ExactMove(s, WorkStep(s, t), t);
  }

  lemma LockStepExact(s: Sys, t: nat, w: nat)
    requires Exact(s) && CanStep(s, t, w) && (s.threads[t].work.Want? || s.threads[t].work.Exit?)
    ensures Exact(LockStep(s, t, w))
  {
    hide L.PhaseAt, L.Size, L.Exec, L.Enabled, L.Choice, Exact;
    ExactMove(s, LockStep(s, t, w), t);
  }

  lemma DoExact(s: Sys, cfg: Config, a: Act)
    requires Inv(s, cfg) && OneAtATime(cfg) && Exact(s) && Can(s, a)
    ensures Exact(Do(s, a))
  {
    if a.Thr? {
      hide Inv, Exact, LockStep, WorkStep, L.Enabled, L.Choice, L.Size;
      if s.threads[a.t].work.Want? || s.threads[a.t].work.Exit? {
        LockStepExact(s, a.t, a.w);
      } else {
        WorkStepExact(s, cfg, a.t);
      }
    }
  }

  lemma InitExact(cfg: Config)
    ensures Exact(Init(cfg))
  {
    InitShape(cfg);
    InitFields(cfg);
    hide Init, Sum;
    SumZero(Init(cfg).threads, ReaderOps);
  }

  lemma {:induction false} RunExact(tr: seq<Sys>, acts: seq<Act>, cfg: Config, i: nat)
    requires Run(tr, acts, cfg) && OneAtATime(cfg) && i < |tr|
    ensures Exact(tr[i])
    decreases i
  {
    hide Inv, Exact, Can, Do, Init, Measure;
    if i == 0 {
      InitExact(cfg);
    } else {
      RunExact(tr, acts, cfg, i - 1);
      RunInv(tr, acts, cfg, i - 1);
      DoExact(tr[i-1], cfg, acts[i-1]);
    }
  }

  // ----- two readers inside together -----

  /** A reader that comes now meets nobody: under each lock only readers, none of them in a call. */
  predicate Calm(l: L.Lock)
  {
    match l
    case Rp(s) => s.mutex == 1 && s.readCount >= 0 && (s.readCount == 0 ==> s.wrt == 1)
    case Wp(s) => s.readTry == s.rsem == s.mutex1 == 1 && s.readCount >= 0 && (s.readCount == 0 ==> s.wrt == 1)
    case Fa(s) => !s.mtx && !s.activeWriter && s.waitingWriters == 0
  }

  /** Thread t is on its way in, and whatever is taken is taken by it. */
  predicate Entering(l: L.Lock, t: nat)
  {
    t < L.Size(l) &&
    match l
    case Rp(s) => EnteringRp(s, t)
    case Wp(s) => EnteringWp(s, t)
    case Fa(s) => EnteringFa(s, t)
  }

  predicate EnteringRp(s: RP.State, t: nat)
    requires t < |s.pc|
  {
    match s.pc[t]
    case RMutex => s.mutex == 1 && s.readCount >= 0 && (s.readCount == 0 ==> s.wrt == 1)
    case RInc => s.mutex == 0 && s.readCount >= 0 && (s.readCount == 0 ==> s.wrt == 1)
    case RWrt => s.mutex == 0 && s.readCount == s.wrt == 1
    case RPost => s.mutex == 0 && s.readCount >= 1
    case _ => false
  }

  predicate EnteringWp(s: WP.State, t: nat)
    requires t < |s.pc|
  {
    match s.pc[t]
    case RTry => s.readTry == s.rsem == s.mutex1 == 1 && s.readCount >= 0 && (s.readCount == 0 ==> s.wrt == 1)
    case RGate => s.rsem == s.mutex1 == 1 && s.readTry == 0 && s.readCount >= 0 && (s.readCount == 0 ==> s.wrt == 1)
    case RMutex => s.mutex1 == 1 && s.readTry == s.rsem == 0 && s.readCount >= 0 && (s.readCount == 0 ==> s.wrt == 1)
    case RInc => s.readTry == s.rsem == s.mutex1 == 0 && s.readCount >= 0 && (s.readCount == 0 ==> s.wrt == 1)
    case RWrt => s.readTry == s.rsem == s.mutex1 == 0 && s.readCount == s.wrt == 1
    case RPostMutex => s.readTry == s.rsem == s.mutex1 == 0 && s.readCount >= 1
    case RPostGate => s.readTry == s.rsem == 0 && s.mutex1 == 1 && s.readCount >= 1
    case RPostTry => s.readTry == 0 && s.rsem == s.mutex1 == 1 && s.readCount >= 1
    case _ => false
  }

  predicate EnteringFa(s: FA.State, t: nat)
    requires t < |s.pc|
  {
    !s.activeWriter && s.waitingWriters == 0 &&
    match s.pc[t]
    case RLock => !s.mtx
    case RGuard | RAdmit | RUnlock => s.mtx
    case _ => false
  }

  lemma InitCalm(algo: L.Algo, n: nat)
    ensures Calm(L.Init(algo, n))
  {
  }

  lemma CallEnters(l: L.Lock, t: nat)
    requires Calm(l) && t < L.Size(l)
    ensures Entering(L.Call(l, t, Reader), t) && L.Size(L.Call(l, t, Reader)) == L.Size(l)
  {
  }

  /** It is never kept waiting, and stays on its way or is in. */
  lemma EnteringStep(l: L.Lock, t: nat, w: nat)
    requires Entering(l, t)
    ensures L.Enabled(l, t) && L.Size(L.Exec(l, t, w)) == L.Size(l)
    ensures var l' := L.Exec(l, t, w); if L.PhaseAt(l', t).Inside? then Calm(l') else Entering(l', t)
  {
    match l {
      case Rp(s) =>
      case Wp(s) => EnteringWpStep(s, t);
      case Fa(s) =>
    }
  }

  lemma EnteringWpStep(s: WP.State, t: nat)
    requires t < |s.pc| && EnteringWp(s, t)
    ensures WP.Enabled(s, t) && |WP.Exec(s, t).pc| == |s.pc|
    ensures var l' := L.Wp(WP.Exec(s, t)); if L.PhaseAt(l', t).Inside? then Calm(l') else Entering(l', t)
  {
  }

  /** s with thread t at work. */
  function AtWork(s: Sys, t: nat, work: Work): seq<Thread>
    requires t < |s.threads|
  {
    s.threads[t := s.threads[t].(work := work)]
  }

  /** The lock is calm, and fits the threads. */
  predicate Ready(s: Sys)
  {
    Calm(s.lock) && |s.threads| == L.Size(s.lock)
  }

  lemma LockStepGoesOn(s: Sys, t: nat, w: nat)
    requires t < |s.threads| && |s.threads| == L.Size(s.lock)
    requires s.threads[t].work == Want && s.threads[t].role == Reader
    requires Entering(s.lock, t) && L.Choice(s.lock, w)
    ensures CanStep(s, t, w)
    ensures var s', l' := Simulation.Step(s, t, w), L.Exec(s.lock, t, w);
      && s' == s.(lock := l', threads := s'.threads) && |s'.threads| == L.Size(l')
      && s'.threads == AtWork(s, t, if L.PhaseAt(l', t).Inside? then Read else Want)
      && if L.PhaseAt(l', t).Inside? then Calm(l') else Entering(l', t)
  {
    EnteringStep(s.lock, t, w);
    hide L.Exec, L.Enabled, L.PhaseAt, L.Choice, Entering, Calm;
  }

  lemma {:induction false} GoesIn(cfg: Config, s: Sys, t: nat) returns (s': Sys)
    requires Reach(cfg, s) && t < |s.threads| && |s.threads| == L.Size(s.lock)
    requires s.threads[t].work == Want && s.threads[t].role == Reader && Entering(s.lock, t)
    ensures Reach(cfg, s') && Ready(s') && s' == s.(lock := s'.lock, threads := AtWork(s, t, Read))
    decreases L.MajorSum(s.lock), L.MinorSum(s.lock)
  {
    hide Reach, L.Exec, L.Enabled, L.PhaseAt, L.Choice, L.Size, L.MajorSum, L.MinorSum;
    hide Entering, Calm, CanStep, Simulation.Step;
    var w := L.SomeChoice(s.lock);
    LockStepGoesOn(s, t, w);
    EnteringStep(s.lock, t, w);
    L.ExecMeasure(s.lock, t, w);
    ReachStep(cfg, s, t, w);
    s' := Simulation.Step(s, t, w);
    if !L.PhaseAt(s'.lock, t).Inside? {
      assert AtWork(s', t, Read) == AtWork(s, t, Read);
      s' := GoesIn(cfg, s', t);
    }
  }

  /** An operation of thread t outside the lock calls. */
  lemma WorkGoesOn(cfg: Config, s: Sys, t: nat) returns (s': Sys)
    requires Reach(cfg, s) && t < |s.threads| && t < L.Size(s.lock)
    requires !s.threads[t].work.Want? && !s.threads[t].work.Exit? && !s.threads[t].work.Done?
    ensures Reach(cfg, s') && s' == WorkStep(s, t)
  {
    hide Reach, L.Choice, L.Size, WorkStep;
    var w := L.SomeChoice(s.lock);
    ReachStep(cfg, s, t, w);
    s' := Simulation.Step(s, t, w);
  }

  /** A reader claims an operation, goes in, and loads the counter. */
  lemma ReaderLoads(cfg: Config, s: Sys, t: nat) returns (s': Sys)
    requires Reach(cfg, s) && Ready(s) && t < |s.threads| && s.remaining > 0
    requires s.threads[t].work == Claim && s.threads[t].role == Reader
    ensures Reach(cfg, s') && Ready(s') && s'.readCount == s.readCount && s'.remaining == s.remaining - 1
    ensures s'.threads == AtWork(s, t, RStore(s.data, s.readCount))
  {
    hide Reach, Entering, Calm, L.Call, L.Size;
    CallEnters(s.lock, t);
    s' := WorkGoesOn(cfg, s, t);
    s' := GoesIn(cfg, s', t);
    s' := WorkGoesOn(cfg, s', t);
    s' := WorkGoesOn(cfg, s', t);
  }

  lemma InitReady(cfg: Config)
    ensures Ready(Init(cfg)) && Init(cfg).readCount == 0 && Init(cfg).remaining == cfg.totalOps
    ensures |Init(cfg).threads| == cfg.readers + cfg.writers
    ensures forall t :: 0 <= t < |Init(cfg).threads| ==> Init(cfg).threads[t] == Spawn(cfg, t)
  {
    InitShape(cfg);
    InitCalm(cfg.algo, cfg.readers + cfg.writers);
    hide Calm, L.Inv, L.Init;
  }

  /** Two readers have both loaded 0. */
  lemma BothLoad(cfg: Config) returns (s: Sys)
    requires !OneAtATime(cfg)
    ensures Reach(cfg, s) && |s.threads| == L.Size(s.lock) == cfg.readers + cfg.writers
    ensures forall t :: 0 <= t < |s.threads| ==> s.threads[t].role == Spawn(cfg, t).role
    ensures forall t :: 0 <= t < |s.threads| ==>
      if t < 2 then s.threads[t].work.RStore? && s.threads[t].work.c == 0 else s.threads[t].work == Spawn(cfg, t).work
  {
    hide Reach, Calm, L.Size, Init;
    ReachInit(cfg);
    InitReady(cfg);
    s := ReaderLoads(cfg, Init(cfg), 0);
    s := ReaderLoads(cfg, s, 1);
  }

  /** Both store 1, and one of the two reads is not counted. */
  lemma OneReadIsLost(cfg: Config) returns (s: Sys)
    requires !OneAtATime(cfg)
    ensures Reach(cfg, s) && NobodyStores(s) && s.readCount < Sum(s.threads, ReaderOps)
  {
    hide Reach, L.Size, Sum;
    s := BothLoad(cfg);
    s := WorkGoesOn(cfg, s, 0);
    s := WorkGoesOn(cfg, s, 1);
    SumTwo(s.threads, ReaderOps, 0, 1);
  }

  /** Under each of the three locks: whenever no reader is between its load and its store, readCount_ is the number
      of reads performed, if and only if there is at most one reader or at most one operation. */
  lemma ReadsExactIffOneAtATime(cfg: Config)
    ensures ReadsExact(cfg) <==> OneAtATime(cfg)
  {
    hide OneAtATime, NobodyStores, Can, Do, Init, Sum;
    if OneAtATime(cfg) {
      forall s | Reach(cfg, s) && NobodyStores(s) ensures s.readCount == Sum(s.threads, ReaderOps) {
        var tr, acts :| Run(tr, acts, cfg) && s == tr[|acts|];
        RunExact(tr, acts, cfg, |acts|);
      }
    } else {
      var s := OneReadIsLost(cfg);
    }
  }
}
