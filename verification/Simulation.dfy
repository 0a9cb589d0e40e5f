/** The closed system of main.cpp: reader and writer threads that claim operations from a shared budget,
    take the lock, touch the shared resource and loop.  One step per atomic or lock operation; the
    resource's plain ++ is a separate load and store. */
module Simulation {
  import opened Counting
  import opened RwSpec
  import L = RwLock

  datatype Config = Config(algo: L.Algo, readers: nat, writers: nat, totalOps: int, abortTest: bool)

  /** What a worker does next. */
  datatype Work =
    | Head                    // abort target: tests the abort flag at the loop head
    | Claim                   // opsRemaining->fetch_sub
    | AddBack                 // failed claim: opsRemaining->fetch_add
    | Want                    // inside readLock / writeLock
    | Check                   // writer: tests the abort flag under the lock
    | Load | Store(v: int)    // data_ = data_ + 1
    | CLoad | CStore(c: int)  // writeCount_ = writeCount_ + 1
    | WDone                   // opsCompleted++, then calls writeUnlock
    | Read                    // value = data_
    | RLoad(v: int) | RStore(v: int, c: int)  // readCount_ = readCount_ + 1
    | RDone(v: int)           // opsCompleted++, then calls readUnlock
    | Exit(again: bool)       // inside readUnlock / writeUnlock
    | Done

  datatype Thread = Thread(role: Role, target: bool, work: Work, done: nat, aborted: bool)

  datatype Sys = Sys(lock: L.Lock, threads: seq<Thread>, remaining: int, abort: bool,
                     data: int, writeCount: int, readCount: int)

  function Top(target: bool): Work
  {
    if target then Head else Claim
  }

  function Spawn(cfg: Config, i: nat): Thread
  {
    var target := cfg.abortTest && i == cfg.readers;
    Thread(if i < cfg.readers then Reader else Writer, target, Top(target), 0, false)
  }

  function Init(cfg: Config): Sys
  {
    var n := cfg.readers + cfg.writers;
    Sys(L.Init(cfg.algo, n), seq(n, i => if i >= 0 then Spawn(cfg, i) else Spawn(cfg, 0)), cfg.totalOps, false, 0, 0, 0)
  }

  predicate CanStep(s: Sys, t: nat, w: nat)
  {
    && t < |s.threads| && t < L.Size(s.lock) && L.Choice(s.lock, w)
    && match s.threads[t].work
       case Done => false
       case Want | Exit(_) => L.Enabled(s.lock, t)
       case _ => true
  }

  function Put(s: Sys, t: nat, th: Thread): Sys
    requires t < |s.threads|
  {
    s.(threads := s.threads[t := th])
  }

  /** One operation of thread t outside the lock calls. */
  function WorkStep(s: Sys, t: nat): Sys
    requires t < |s.threads| && t < L.Size(s.lock)
  {
    var th := s.threads[t];
    match th.work
    case Head => Put(s, t, th.(work := if s.abort then Done else Claim))
    case Claim =>
      if s.remaining <= 0 then Put(s, t, th.(work := AddBack)).(remaining := s.remaining - 1)
      else Put(s, t, th.(work := Want)).(remaining := s.remaining - 1, lock := L.Call(s.lock, t, th.role))
    case AddBack => Put(s, t, th.(work := Done)).(remaining := s.remaining + 1)
    case Check =>
      if th.target && s.abort then Put(s, t, th.(work := Exit(false), aborted := true)).(lock := L.Release(s.lock, t))
      else Put(s, t, th.(work := Load))
    case Load => Put(s, t, th.(work := Store(s.data)))
    case Store(v) => Put(s, t, th.(work := CLoad)).(data := v + 1)
    case CLoad => Put(s, t, th.(work := CStore(s.writeCount)))
    case CStore(c) => Put(s, t, th.(work := WDone)).(writeCount := c + 1)
    case Read => Put(s, t, th.(work := RLoad(s.data)))
    case RLoad(v) => Put(s, t, th.(work := RStore(v, s.readCount)))
    case RStore(v, c) => Put(s, t, th.(work := RDone(v))).(readCount := c + 1)
    case WDone | RDone(_) => Put(s, t, th.(work := Exit(true), done := th.done + 1)).(lock := L.Release(s.lock, t))
    case Want | Exit(_) | Done => s
  }

  /** One operation of thread t inside a lock call, and its return when that was the last one. */
  function LockStep(s: Sys, t: nat, w: nat): Sys
    requires CanStep(s, t, w) && (s.threads[t].work.Want? || s.threads[t].work.Exit?)
  {
    var th := s.threads[t];
    var lock := L.Exec(s.lock, t, w);
    var p := if t < L.Size(lock) then L.PhaseAt(lock, t) else Outside;
    var work := if th.work.Want?
                then (if !p.Inside? then Want else if th.role == Writer then Check else Read)
                else (if p != Outside then th.work else if th.work.again then Top(th.target) else Done);
    Put(s, t, th.(work := work)).(lock := lock)
  }

  function Step(s: Sys, t: nat, w: nat): Sys
    requires CanStep(s, t, w)
  {
    if s.threads[t].work.Want? || s.threads[t].work.Exit? then LockStep(s, t, w) else WorkStep(s, t)
  }

  // ----- the invariant -----

  /** Where a worker stands fits where the lock says it is. */
  predicate Coupled(p: Phase, th: Thread)
  {
    match th.work
    case Head => p == Outside && th.target
    case Claim | AddBack | Done => p == Outside
    case Want => p == Acquiring(th.role)
    case Check | Load | Store(_) | CLoad | CStore(_) | WDone => p == Inside(Writer) && th.role == Writer
    case Read | RLoad(_) | RStore(_, _) | RDone(_) => p == Inside(Reader) && th.role == Reader
    case Exit(_) => p == Releasing(th.role)
  }

  ghost predicate Shape(s: Sys, cfg: Config)
  {
    && L.Inv(s.lock)
    && |s.threads| == L.Size(s.lock) == cfg.readers + cfg.writers
    && (forall t :: 0 <= t < |s.threads| ==> Coupled(L.PhaseAt(s.lock, t), s.threads[t]))
    && (forall t :: 0 <= t < |s.threads| ==>
          s.threads[t].role == Spawn(cfg, t).role && s.threads[t].target == Spawn(cfg, t).target)
  }

  /** Holds a ticket whose operation is not yet counted in opsCompleted. */
  predicate InFlight(w: Work)
  {
    match w
    case Head | Claim | AddBack | Exit(_) | Done => false
    case _ => true
  }

  /** Tickets taken by a thread: completed, abandoned after an abort, or in flight. */
  function Granted(th: Thread): nat
  {
    th.done + (if th.aborted then 1 else 0) + (if InFlight(th.work) then 1 else 0)
  }

  /** Failed claims still to be added back. */
  function Pending(th: Thread): nat
  {
    if th.work == AddBack then 1 else 0
  }

  ghost function Ungranted(s: Sys): int
  {
    s.remaining + Sum(s.threads, Pending)
  }

  /** The thread gave up because the budget was used up. */
  predicate GaveUp(th: Thread, abort: bool)
  {
    th.work == AddBack || (th.work == Done && !(th.target && abort))
  }

  /** Only the abort target abandons an operation, and only after the signal. */
  predicate AbortOk(th: Thread, abort: bool)
  {
    && (th.work == Exit(false) ==> th.target && abort)
    && (th.aborted ==> th.target && abort && (th.work == Exit(false) || th.work == Done))
  }

  ghost predicate Budget(s: Sys, cfg: Config)
  {
    && Ungranted(s) + Sum(s.threads, Granted) == cfg.totalOps
    && (Ungranted(s) >= 0 || Sum(s.threads, Granted) == 0)
    && (forall t :: 0 <= t < |s.threads| && GaveUp(s.threads[t], s.abort) ==> Ungranted(s) <= 0)
    && (forall t :: 0 <= t < |s.threads| ==> AbortOk(s.threads[t], s.abort))
  }

  /** The writer is between writeLock and the call of writeUnlock. */
  predicate Writing(w: Work)
  {
    match w
    case Check | Load | Store(_) | CLoad | CStore(_) | WDone => true
    case _ => false
  }

  predicate Reading(w: Work)
  {
    match w
    case Read | RLoad(_) | RStore(_, _) | RDone(_) => true
    case _ => false
  }

  /** Writes performed and counted by a thread. */
  function WriterOps(th: Thread): nat
  {
    if th.role == Writer then th.done else 0
  }

  /** What a thread in its critical section knows, k being the number of completed writes. */
  predicate Knows(s: Sys, w: Work, k: int)
  {
    match w
    case Check | Load => s.data == k && s.writeCount == k
    case Store(v) => s.data == k && s.writeCount == k && v == k
    case CLoad => s.data == k + 1 && s.writeCount == k
    case CStore(c) => s.data == k + 1 && s.writeCount == k && c == k
    case WDone => s.data == k + 1 && s.writeCount == k + 1
    case RLoad(v) => v == s.data
    case RStore(v, _) => v == s.data
    case RDone(v) => v == s.data
    case _ => true
  }

  ghost predicate Data(s: Sys)
  {
    var k := Sum(s.threads, WriterOps);
    && (forall t :: 0 <= t < |s.threads| ==> Knows(s, s.threads[t].work, k))
    && ((forall t :: 0 <= t < |s.threads| ==> !Writing(s.threads[t].work)) ==> s.data == k && s.writeCount == k)
  }

  /** Reads whose increment of readCount_ has been stored. */
  function ReaderOps(th: Thread): nat
  {
    if th.role == Reader then th.done + (if th.work.RDone? then 1 else 0) else 0
  }

  ghost predicate Reads(s: Sys)
  {
    var r := Sum(s.threads, ReaderOps);
    s.readCount <= r && forall t :: 0 <= t < |s.threads| && s.threads[t].work.RStore? ==> s.threads[t].work.c <= r
  }

  ghost predicate Inv(s: Sys, cfg: Config)
  {
    Shape(s, cfg) && Budget(s, cfg) && Data(s) && Reads(s)
  }

  // ----- initial state -----

  lemma InitShape(cfg: Config)
    ensures Shape(Init(cfg), cfg)
    ensures forall t :: 0 <= t < |Init(cfg).threads| ==> Init(cfg).threads[t] == Spawn(cfg, t)
  {
    hide L.Inv, L.Init;
    L.InitOk(cfg.algo, cfg.readers + cfg.writers);
  }

  lemma {:induction false} SumZero(s: seq<Thread>, f: Thread -> nat)
    requires forall t :: 0 <= t < |s| ==> f(s[t]) == 0
    ensures Sum(s, f) == 0
  {
    SumBound(s, f, 0);
  }

  lemma InitInv(cfg: Config)
    ensures Inv(Init(cfg), cfg)
  {
    hide Shape, Init;
    InitShape(cfg);
    var s := Init(cfg);
    assert s.remaining == cfg.totalOps && s.data == s.writeCount == s.readCount == 0 by { InitFields(cfg); }
    hide Sum;
    SumZero(s.threads, Pending);
    SumZero(s.threads, Granted);
    SumZero(s.threads, WriterOps);
    SumZero(s.threads, ReaderOps);
  }

  lemma InitFields(cfg: Config)
    ensures var s := Init(cfg); s.remaining == cfg.totalOps && s.data == s.writeCount == s.readCount == 0 && !s.abort
    ensures Init(cfg).lock == L.Init(cfg.algo, cfg.readers + cfg.writers)
    ensures |Init(cfg).threads| == cfg.readers + cfg.writers
  {
  }

  // ----- steps keep the shape -----

  lemma ShapeMove(s: Sys, s': Sys, cfg: Config, t: nat, q: Phase)
    requires Shape(s, cfg) && t < |s.threads| && |s'.threads| == |s.threads|
    requires s'.threads == s.threads[t := s'.threads[t]]
    requires L.Inv(s'.lock) && L.Size(s'.lock) == L.Size(s.lock) && L.View(s'.lock) == L.View(s.lock)[t := q]
    requires Coupled(q, s'.threads[t])
    requires s'.threads[t].role == s.threads[t].role && s'.threads[t].target == s.threads[t].target
    ensures Shape(s', cfg)
  {
    hide L.Inv, Coupled, L.PhaseAt, L.Size;
    forall i | 0 <= i < |s'.threads| ensures Coupled(L.PhaseAt(s'.lock, i), s'.threads[i]) {
      assert L.View(s'.lock)[i] == L.PhaseAt(s'.lock, i);
      assert L.View(s.lock)[i] == L.PhaseAt(s.lock, i);
    }
  }

  lemma SizeOk(l: L.Lock, t: nat, role: Role)
    requires t < L.Size(l)
    ensures L.Size(L.Call(l, t, role)) == L.Size(l) == L.Size(L.Release(l, t))
  {
  }

  /** The operations that call the lock. */
  predicate CallsUnlock(s: Sys, th: Thread)
  {
    th.work.WDone? || th.work.RDone? || (th.work.Check? && th.target && s.abort)
  }

  predicate CallsLock(s: Sys, th: Thread)
  {
    th.work.Claim? && s.remaining > 0
  }

  lemma QuietStep(s: Sys, t: nat, p: Phase)
    requires t < |s.threads| && t < L.Size(s.lock) && Coupled(p, s.threads[t])
    requires !CallsLock(s, s.threads[t]) && !CallsUnlock(s, s.threads[t])
    ensures var s' := WorkStep(s, t);
      s'.lock == s.lock && Put(s, t, s'.threads[t]).threads == s'.threads && Coupled(p, s'.threads[t]) &&
      s'.threads[t].role == s.threads[t].role && s'.threads[t].target == s.threads[t].target
  {
  }

  lemma CallingStep(s: Sys, t: nat, p: Phase)
    requires t < |s.threads| && t < L.Size(s.lock) && Coupled(p, s.threads[t])
    requires CallsLock(s, s.threads[t]) || CallsUnlock(s, s.threads[t])
    ensures var s', th := WorkStep(s, t), s.threads[t];
      Put(s, t, s'.threads[t]).threads == s'.threads &&
      s'.threads[t].role == th.role && s'.threads[t].target == th.target &&
      if CallsLock(s, th)
      then s'.lock == L.Call(s.lock, t, th.role) && p == Outside && Coupled(Acquiring(th.role), s'.threads[t])
      else s'.lock == L.Release(s.lock, t) && p == Inside(th.role) && Coupled(Releasing(th.role), s'.threads[t])
  {
    hide L.Size, L.Call, L.Release;
  }

  lemma SameView(l: L.Lock, t: nat)
    requires t < L.Size(l)
    ensures L.View(l)[t := L.PhaseAt(l, t)] == L.View(l)
  {
    assert L.View(l)[t] == L.PhaseAt(l, t);
  }

  lemma WorkStepShape(s: Sys, cfg: Config, t: nat)
    requires Shape(s, cfg) && t < |s.threads|
    ensures t < L.Size(s.lock) && Shape(WorkStep(s, t), cfg)
  {
    var th := s.threads[t];
    hide L.Inv, L.PhaseAt, L.Size, L.Call, L.Release, L.View, Shape, WorkStep, Coupled, CallsLock, CallsUnlock;
    ShapeAt(s, cfg, t);
    SizeOk(s.lock, t, th.role);
    if CallsLock(s, th) {
      CallingStep(s, t, L.PhaseAt(s.lock, t));
      L.CallOk(s.lock, t, th.role);
      ShapeMove(s, WorkStep(s, t), cfg, t, Acquiring(th.role));
    } else if CallsUnlock(s, th) {
      CallingStep(s, t, L.PhaseAt(s.lock, t));
      L.ReleaseOk(s.lock, t);
      ShapeMove(s, WorkStep(s, t), cfg, t, Releasing(th.role));
    } else {
      QuietStep(s, t, L.PhaseAt(s.lock, t));
      SameView(s.lock, t);
      ShapeMove(s, WorkStep(s, t), cfg, t, L.PhaseAt(s.lock, t));
    }
  }

  lemma ShapeAt(s: Sys, cfg: Config, t: nat)
    requires Shape(s, cfg) && t < |s.threads|
    ensures L.Inv(s.lock) && |s.threads| == L.Size(s.lock) && Coupled(L.PhaseAt(s.lock, t), s.threads[t])
  {
  }

  lemma LockStepShape(s: Sys, cfg: Config, t: nat, w: nat)
    requires Shape(s, cfg) && CanStep(s, t, w) && (s.threads[t].work.Want? || s.threads[t].work.Exit?)
    ensures Shape(LockStep(s, t, w), cfg)
  {
    hide L.Inv, L.PhaseAt, L.Size, L.Exec, L.Enabled, L.Choice, Shape;
    ShapeAt(s, cfg, t);
    L.ExecOk(s.lock, t, w);
    ShapeMove(s, LockStep(s, t, w), cfg, t, L.PhaseAt(L.Exec(s.lock, t, w), t));
  }

  // ----- steps keep the budget -----

  /** One thread changed; the tickets balance. */
  lemma BudgetMove(s: Sys, s': Sys, cfg: Config, t: nat)
    requires Budget(s, cfg) && t < |s.threads| && |s'.threads| == |s.threads|
    requires s'.threads == s.threads[t := s'.threads[t]]
    requires s.abort ==> s'.abort
    requires var th, th' := s.threads[t], s'.threads[t];
      && s'.remaining + Pending(th') + Granted(th') == s.remaining + Pending(th) + Granted(th)
      && Granted(th) <= Granted(th')
      && (Granted(th) < Granted(th') ==> s.remaining > 0 && Granted(th') == Granted(th) + 1)
      && AbortOk(th', s'.abort)
      && (GaveUp(th', s'.abort) ==> GaveUp(th, s.abort) || s.remaining <= 0)
    ensures Budget(s', cfg)
  {
    hide Sum, Granted, Pending, GaveUp, AbortOk;
    var th, th' := s.threads[t], s'.threads[t];
    SumUpdate(s.threads, t, th', Granted);
    SumUpdate(s.threads, t, th', Pending);
    assert Ungranted(s') == Ungranted(s) - (Granted(th') - Granted(th));
    assert s.remaining <= 0 ==> Ungranted(s) <= 0 by {
      if s.remaining <= 0 { FailedClaimMeansNoneLeft(s, cfg); }
    }
    forall i | 0 <= i < |s'.threads|
      ensures (GaveUp(s'.threads[i], s'.abort) ==> Ungranted(s') <= 0) && AbortOk(s'.threads[i], s'.abort)
    {
      if i != t { AbortMonotone(s.threads[i], s.abort, s'.abort); }
    }
  }

  lemma AbortMonotone(th: Thread, a: bool, b: bool)
    requires AbortOk(th, a) && (a ==> b)
    ensures AbortOk(th, b) && (GaveUp(th, b) ==> GaveUp(th, a))
  {
  }

  /** A claim that finds the counter at or below zero really finds the budget used up, even while other
      failed claims hold it transiently negative. */
  lemma FailedClaimMeansNoneLeft(s: Sys, cfg: Config)
    requires Budget(s, cfg) && s.remaining <= 0
    ensures Ungranted(s) <= 0
  {
    hide Sum;
    if Sum(s.threads, Pending) > 0 {
      var i := SumWitness(s.threads, Pending);
      assert GaveUp(s.threads[i], s.abort);
    }
  }

  lemma WorkStepBudget(s: Sys, cfg: Config, t: nat)
    requires Shape(s, cfg) && Budget(s, cfg) && t < |s.threads|
    ensures t < L.Size(s.lock) && Budget(WorkStep(s, t), cfg)
  {
    hide L.Inv, L.PhaseAt, L.Size, L.Call, L.Release, L.View, Shape, Sum, WorkStep, Budget;
    ShapeAt(s, cfg, t);
    assert AbortOk(s.threads[t], s.abort) by { BudgetAt(s, cfg, t); }
    Tickets(s, t);
    BudgetMove(s, WorkStep(s, t), cfg, t);
  }

  lemma BudgetAt(s: Sys, cfg: Config, t: nat)
    requires Budget(s, cfg) && t < |s.threads|
    ensures AbortOk(s.threads[t], s.abort)
  {
    hide Sum, AbortOk, GaveUp;
  }

  /** What one operation outside the lock calls does to the tickets. */
  lemma Tickets(s: Sys, t: nat)
    requires t < |s.threads| && t < L.Size(s.lock) && AbortOk(s.threads[t], s.abort)
    requires (s.threads[t].work.Head? ==> s.threads[t].target)
    ensures var s', th := WorkStep(s, t), s.threads[t];
      && s'.threads == s.threads[t := s'.threads[t]] && s'.abort == s.abort
      && s'.remaining + Pending(s'.threads[t]) + Granted(s'.threads[t]) == s.remaining + Pending(th) + Granted(th)
      && Granted(th) <= Granted(s'.threads[t]) <= Granted(th) + (if s.remaining > 0 then 1 else 0)
      && AbortOk(s'.threads[t], s.abort)
      && (GaveUp(s'.threads[t], s.abort) ==> GaveUp(th, s.abort) || s.remaining <= 0)
  {
    hide L.Size, L.Call, L.Release;
  }

  lemma LockStepBudget(s: Sys, cfg: Config, t: nat, w: nat)
    requires Budget(s, cfg) && CanStep(s, t, w) && (s.threads[t].work.Want? || s.threads[t].work.Exit?)
    ensures Budget(LockStep(s, t, w), cfg)
  {
    hide L.PhaseAt, L.Size, L.Exec, L.Enabled, L.Choice, Sum;
    BudgetMove(s, LockStep(s, t, w), cfg, t);
  }

  // ----- steps keep the data -----

  /** Exclusion of the lock, seen from the workers. */
  lemma Alone(s: Sys, cfg: Config, t: nat, i: nat)
    requires Shape(s, cfg) && t < |s.threads| && i < |s.threads| && i != t
    ensures Writing(s.threads[t].work) ==> !Writing(s.threads[i].work) && !Reading(s.threads[i].work)
  {
    hide L.Inv, L.PhaseAt, L.Size, Shape;
    ShapeAt(s, cfg, t);
    ShapeAt(s, cfg, i);
    L.InvExclusive(s.lock);
    assert L.View(s.lock)[t] == L.PhaseAt(s.lock, t) && L.View(s.lock)[i] == L.PhaseAt(s.lock, i);
  }

  lemma KnowsFrame(s: Sys, s': Sys, w: Work, k: int, k': int)
    requires Knows(s, w, k)
    requires (s'.data == s.data && s'.writeCount == s.writeCount && k' == k) || (!Writing(w) && !Reading(w))
    ensures Knows(s', w, k')
  {
  }

  /** A step that changes neither the resource nor the number of counted writes. */
  lemma CalmMove(s: Sys, s': Sys, t: nat)
    requires Data(s) && t < |s.threads| && |s'.threads| == |s.threads| && s'.threads == s.threads[t := s'.threads[t]]
    requires s'.data == s.data && s'.writeCount == s.writeCount && !Writing(s.threads[t].work)
    requires WriterOps(s'.threads[t]) == WriterOps(s.threads[t])
    requires Knows(s', s'.threads[t].work, Sum(s.threads, WriterOps))
    ensures Data(s')
  {
    hide Sum, Knows, Writing, WriterOps;
    SumUpdate(s.threads, t, s'.threads[t], WriterOps);
    var k := Sum(s.threads, WriterOps);
    forall i | 0 <= i < |s'.threads| ensures Knows(s', s'.threads[i].work, k) {
      if i != t { KnowsFrame(s, s', s.threads[i].work, k, k); }
    }
    if forall i :: 0 <= i < |s'.threads| ==> !Writing(s'.threads[i].work) {
      assert forall i :: 0 <= i < |s.threads| && i != t ==> s'.threads[i] == s.threads[i];
    }
  }

  /** A step of the one writer in its critical section. */
  lemma WriterMove(s: Sys, s': Sys, cfg: Config, t: nat)
    requires Shape(s, cfg) && Data(s) && t < |s.threads| && Writing(s.threads[t].work)
    requires |s'.threads| == |s.threads| && s'.threads == s.threads[t := s'.threads[t]]
    requires var k' := Sum(s.threads, WriterOps) - WriterOps(s.threads[t]) + WriterOps(s'.threads[t]);
      Knows(s', s'.threads[t].work, k') && (!Writing(s'.threads[t].work) ==> s'.data == k' && s'.writeCount == k')
    ensures Data(s')
  {
    hide Sum, Knows, WriterOps, Shape, Writing, Reading;
    SumUpdate(s.threads, t, s'.threads[t], WriterOps);
    var k, k' := Sum(s.threads, WriterOps), Sum(s'.threads, WriterOps);
    forall i | 0 <= i < |s'.threads| ensures Knows(s', s'.threads[i].work, k') {
      if i != t {
        Alone(s, cfg, t, i);
        KnowsFrame(s, s', s.threads[i].work, k, k');
      }
    }
  }

  lemma WriterStepData(s: Sys, cfg: Config, t: nat)
    requires Shape(s, cfg) && Data(s) && t < |s.threads| && t < L.Size(s.lock) && Writing(s.threads[t].work)
    requires s.threads[t].role == Writer
    ensures Data(WorkStep(s, t))
  {
    hide L.Size, L.Call, L.Release, Shape, Sum;
    WriterMove(s, WorkStep(s, t), cfg, t);
  }

  lemma CalmStepData(s: Sys, t: nat)
    requires Data(s) && t < |s.threads| && t < L.Size(s.lock) && !Writing(s.threads[t].work)
    requires s.threads[t].work.RDone? ==> s.threads[t].role == Reader
    ensures Data(WorkStep(s, t))
  {
    hide L.Size, L.Call, L.Release, Sum, Data;
    assert Knows(s, s.threads[t].work, Sum(s.threads, WriterOps)) by { DataAt(s, t); }
    CalmMove(s, WorkStep(s, t), t);
  }

  lemma DataAt(s: Sys, t: nat)
    requires Data(s) && t < |s.threads|
    ensures Knows(s, s.threads[t].work, Sum(s.threads, WriterOps))
  {
  }

  lemma WorkStepData(s: Sys, cfg: Config, t: nat)
    requires Shape(s, cfg) && Data(s) && t < |s.threads|
    ensures t < L.Size(s.lock) && Data(WorkStep(s, t))
  {
    hide L.Inv, L.PhaseAt, L.Size, Shape, WorkStep, Data;
    ShapeAt(s, cfg, t);
    if Writing(s.threads[t].work) {
      WriterStepData(s, cfg, t);
    } else {
      CalmStepData(s, t);
    }
  }

  lemma LockStepData(s: Sys, cfg: Config, t: nat, w: nat)
    requires Shape(s, cfg) && Data(s) && CanStep(s, t, w) && (s.threads[t].work.Want? || s.threads[t].work.Exit?)
    ensures Data(LockStep(s, t, w))
  {
    var s' := LockStep(s, t, w);
    LockStepShape(s, cfg, t, w);
    hide L.Inv, L.PhaseAt, L.Size, L.Exec, L.Enabled, L.Choice, Shape, Sum;
    if Writing(s'.threads[t].work) {
      forall i | 0 <= i < |s.threads| ensures !Writing(s.threads[i].work) {
        if i != t {
          Alone(s', cfg, t, i);
          assert s'.threads[i] == s.threads[i];
        }
      }
    }
    CalmMove(s, s', t);
  }

  // ----- steps keep the bound on readCount_ -----

  lemma ReadsMove(s: Sys, s': Sys, t: nat)
    requires Reads(s) && t < |s.threads| && |s'.threads| == |s.threads| && s'.threads == s.threads[t := s'.threads[t]]
    requires var th, th' := s.threads[t], s'.threads[t];
      && ReaderOps(th) <= ReaderOps(th')
      && (|| s'.readCount == s.readCount
          || (th.work.RStore? && s'.readCount == th.work.c + 1 && ReaderOps(th') == ReaderOps(th) + 1))
      && (th'.work.RStore? ==> th'.work.c == s.readCount)
    ensures Reads(s')
  {
    hide Sum, ReaderOps;
    SumUpdate(s.threads, t, s'.threads[t], ReaderOps);
  }

  lemma WorkStepReads(s: Sys, cfg: Config, t: nat)
    requires Shape(s, cfg) && Reads(s) && t < |s.threads| && !s.threads[t].work.Want? && !s.threads[t].work.Exit?
    ensures t < L.Size(s.lock) && Reads(WorkStep(s, t))
  {
    hide L.Inv, L.PhaseAt, L.Size, L.Call, L.Release, Shape, Reads;
    ShapeAt(s, cfg, t);
    ReadsMove(s, WorkStep(s, t), t);
  }

  lemma LockStepReads(s: Sys, t: nat, w: nat)
    requires Reads(s) && CanStep(s, t, w) && (s.threads[t].work.Want? || s.threads[t].work.Exit?)
    ensures Reads(LockStep(s, t, w))
  {
    hide L.PhaseAt, L.Size, L.Exec, L.Enabled, L.Choice, Reads;
    ReadsMove(s, LockStep(s, t, w), t);
  }

  /** Every step of every thread keeps the invariant of the closed system. */
  lemma StepInv(s: Sys, cfg: Config, t: nat, w: nat)
    requires Inv(s, cfg) && CanStep(s, t, w)
    ensures Inv(Step(s, t, w), cfg)
  {
    hide Shape, Budget, Data, Reads, LockStep, WorkStep;
    if s.threads[t].work.Want? || s.threads[t].work.Exit? {
      LockStepShape(s, cfg, t, w);
      LockStepBudget(s, cfg, t, w);
      LockStepData(s, cfg, t, w);
      LockStepReads(s, t, w);
    } else {
      WorkStepShape(s, cfg, t);
      WorkStepBudget(s, cfg, t);
      WorkStepData(s, cfg, t);
      WorkStepReads(s, cfg, t);
    }
  }

  // ----- termination -----

  /** Operations a worker still has before it, up to its next claim. */
  function WorkRank(th: Thread): nat
  {
    match th.work
    case Want => 11
    case Check => 10 case Load => 9 case Store(_) => 8 case CLoad => 7 case CStore(_) => 6 case WDone => 5
    case Read => 8 case RLoad(_) => 7 case RStore(_, _) => 6 case RDone(_) => 5
    case Exit(_) => 4 case Head => 3 case Claim => 2 case AddBack => 1 case Done => 0
  }

  ghost function Left(s: Sys): nat
  {
    if Ungranted(s) > 0 then Ungranted(s) else 0
  }

  /** Everything but the monitor's guard loops. */
  ghost function Major(s: Sys): nat
  {
    32 * Left(s) + Sum(s.threads, WorkRank) + L.MajorSum(s.lock) + (if s.abort then 0 else 1)
  }

  /** An upper bound on the number of steps the system can still take. */
  ghost function Measure(s: Sys): nat
  {
    Weigh(Major(s), 3 * |s.threads|, L.MinorSum(s.lock))
  }

  /** A pair (a, x) with x <= m, ordered lexicographically. */
  function Weigh(a: nat, m: nat, x: nat): nat
  {
    assert a * (m + 1) >= 0;
    a * (m + 1) + x
  }

  lemma MeasureDrops(a: nat, b: nat, m: nat, x: nat, y: nat)
    requires b < a && y <= m
    ensures Weigh(b, m, y) < Weigh(a, m, x)
  {
    assert a * (m + 1) == (b + 1) * (m + 1) + (a - b - 1) * (m + 1);
    assert (a - b - 1) * (m + 1) >= 0;
  }

  lemma LeftMove(s: Sys, s': Sys, t: nat)
    requires t < |s.threads| && |s'.threads| == |s.threads| && s'.threads == s.threads[t := s'.threads[t]]
    requires var d := s'.remaining + Pending(s'.threads[t]) - s.remaining - Pending(s.threads[t]);
      d == 0 || (d == -1 && s.remaining > 0)
    ensures Left(s') == Left(s) + (s'.remaining + Pending(s'.threads[t]) - s.remaining - Pending(s.threads[t]))
  {
    hide Sum, Pending;
    SumUpdate(s.threads, t, s'.threads[t], Pending);
  }

  /** Ranks along one operation outside the lock calls: a claim pays for the whole round that follows it. */
  lemma WorkStepRank(s: Sys, t: nat)
    requires t < |s.threads| && t < L.Size(s.lock)
    requires !s.threads[t].work.Want? && !s.threads[t].work.Exit? && !s.threads[t].work.Done?
    ensures var s', th := WorkStep(s, t), s.threads[t];
      && s'.threads == s.threads[t := s'.threads[t]] && s'.abort == s.abort
      && (if CallsLock(s, th)
          then s'.remaining + Pending(s'.threads[t]) == s.remaining + Pending(th) - 1 && s.remaining > 0 &&
               WorkRank(s'.threads[t]) == WorkRank(th) + 9 && s'.lock == L.Call(s.lock, t, th.role)
          else s'.remaining + Pending(s'.threads[t]) == s.remaining + Pending(th) &&
               WorkRank(s'.threads[t]) < WorkRank(th) &&
               s'.lock == if CallsUnlock(s, th) then L.Release(s.lock, t) else s.lock)
  {
    hide L.Size, L.Call, L.Release;
  }

  lemma WorkStepMajor(s: Sys, cfg: Config, t: nat)
    requires Shape(s, cfg) && t < |s.threads|
    requires !s.threads[t].work.Want? && !s.threads[t].work.Exit? && !s.threads[t].work.Done?
    ensures t < L.Size(s.lock) && Major(WorkStep(s, t)) < Major(s)
  {
    hide L.Inv, L.PhaseAt, L.Size, L.Call, L.Release, L.MajorSum, Shape, Sum, Left, WorkStep, Pending, WorkRank;
    var th := s.threads[t];
    ShapeAt(s, cfg, t);
    var s' := WorkStep(s, t);
    WorkStepRank(s, t);
    LeftMove(s, s', t);
    SumUpdate(s.threads, t, s'.threads[t], WorkRank);
    if CallsLock(s, th) {
      L.CallMeasure(s.lock, t, th.role);
    } else if CallsUnlock(s, th) {
      L.ReleaseMeasure(s.lock, t);
    }
  }

  lemma LockStepRank(s: Sys, t: nat, w: nat)
    requires CanStep(s, t, w) && (s.threads[t].work.Want? || s.threads[t].work.Exit?)
    ensures var s' := LockStep(s, t, w);
      && s'.threads == s.threads[t := s'.threads[t]] && s'.remaining == s.remaining && s'.abort == s.abort
      && s'.lock == L.Exec(s.lock, t, w)
      && Pending(s'.threads[t]) == Pending(s.threads[t]) && WorkRank(s'.threads[t]) <= WorkRank(s.threads[t])
  {
    hide L.PhaseAt, L.Size, L.Exec, L.Enabled, L.Choice;
  }

  lemma LockStepMajor(s: Sys, t: nat, w: nat)
    requires CanStep(s, t, w) && (s.threads[t].work.Want? || s.threads[t].work.Exit?)
    ensures var s' := LockStep(s, t, w);
      Major(s') < Major(s) || (Major(s') == Major(s) && L.MinorSum(s'.lock) < L.MinorSum(s.lock))
  {
    var s' := LockStep(s, t, w);
    LockStepRank(s, t, w);
    hide L.PhaseAt, L.Size, L.Exec, L.MajorSum, L.MinorSum, L.Choice, LockStep, Sum, Left, WorkRank, Pending;
    LeftMove(s, s', t);
    SumUpdate(s.threads, t, s'.threads[t], WorkRank);
    L.ExecMeasure(s.lock, t, w);
  }

  lemma LockStepMeasure(s: Sys, t: nat, w: nat)
    requires CanStep(s, t, w) && (s.threads[t].work.Want? || s.threads[t].work.Exit?) && |s.threads| == L.Size(s.lock)
    requires L.Size(L.Exec(s.lock, t, w)) == L.Size(s.lock)
    ensures Measure(LockStep(s, t, w)) < Measure(s)
  {
    var s' := LockStep(s, t, w);
    LockStepRank(s, t, w);
    LockStepMajor(s, t, w);
    hide L.Size, L.Exec, L.MinorSum, LockStep, Major;
    L.MinorBound(s'.lock);
    if Major(s') < Major(s) {
      hide Weigh;
      MeasureDrops(Major(s), Major(s'), 3 * |s.threads|, L.MinorSum(s.lock), L.MinorSum(s'.lock));
    }
  }

  /** Every step of every thread lowers the measure. */
  lemma StepMeasure(s: Sys, cfg: Config, t: nat, w: nat)
    requires Inv(s, cfg) && CanStep(s, t, w)
    ensures Measure(Step(s, t, w)) < Measure(s)
  {
    hide L.Inv, L.PhaseAt, L.Exec, L.MinorSum, Budget, Data, Reads, LockStep, WorkStep, Major, Weigh;
    if s.threads[t].work.Want? || s.threads[t].work.Exit? {
      L.ExecOk(s.lock, t, w);
      LockStepMeasure(s, t, w);
    } else {
      var s' := WorkStep(s, t);
      WorkStepMajor(s, cfg, t);
      WorkStepShape(s, cfg, t);
      L.MinorBound(s'.lock);
      MeasureDrops(Major(s), Major(s'), 3 * |s.threads|, L.MinorSum(s.lock), L.MinorSum(s'.lock));
    }
  }
}
