/** The three locks behind one interface, as RWLockBase does, and the open system in which any number of
    threads call them in any order.  Theorems here are about whole runs. */
module RwLock {
  import opened Counting
  import opened RwSpec
  import RP = ReaderPriority
  import WP = WriterPriority
  import FA = FairMorris

  datatype Algo = ReaderFirst | WriterFirst | Morris

  datatype Lock = Rp(rp: RP.State) | Wp(wp: WP.State) | Fa(fa: FA.State)

  function Init(algo: Algo, n: nat): Lock
  {
    match algo
    case ReaderFirst => Rp(RP.Init(n))
    case WriterFirst => Wp(WP.Init(n))
    case Morris => Fa(FA.Init(n))
  }

  function Size(l: Lock): nat
  {
    match l
    case Rp(s) => |s.pc|
    case Wp(s) => |s.pc|
    case Fa(s) => |s.pc|
  }

  function PhaseAt(l: Lock, t: nat): Phase
    requires t < Size(l)
  {
    match l
    case Rp(s) => RP.PhaseOf(s.pc[t])
    case Wp(s) => WP.PhaseOf(s.pc[t])
    case Fa(s) => FA.PhaseOf(s.pc[t])
  }

  ghost function View(l: Lock): seq<Phase>
  {
    seq(Size(l), t requires 0 <= t < Size(l) => PhaseAt(l, t))
  }

  function Call(l: Lock, t: nat, role: Role): Lock
    requires t < Size(l)
  {
    match l
    case Rp(s) => Rp(RP.Call(s, t, role))
    case Wp(s) => Wp(WP.Call(s, t, role))
    case Fa(s) => Fa(FA.Call(s, t, role))
  }

  function Release(l: Lock, t: nat): Lock
    requires t < Size(l)
  {
    match l
    case Rp(s) => Rp(RP.Release(s, t))
    case Wp(s) => Wp(WP.Release(s, t))
    case Fa(s) => Fa(FA.Release(s, t))
  }

  predicate Enabled(l: Lock, t: nat)
  {
    match l
    case Rp(s) => RP.Enabled(s, t)
    case Wp(s) => WP.Enabled(s, t)
    case Fa(s) => FA.Enabled(s, t)
  }

  /** w is a legal pick for a pthread_cond_signal; the semaphore locks make no such pick. */
  predicate Choice(l: Lock, w: nat)
  {
    l.Fa? ==> FA.Choice(l.fa, w)
  }

  function Exec(l: Lock, t: nat, w: nat): Lock
    requires Enabled(l, t)
  {
    match l
    case Rp(s) => Rp(RP.Exec(s, t))
    case Wp(s) => Wp(WP.Exec(s, t))
    case Fa(s) => Fa(FA.Exec(s, t, w))
  }

  ghost predicate Inv(l: Lock)
  {
    match l
    case Rp(s) => RP.Inv(s)
    case Wp(s) => WP.Inv(s)
    case Fa(s) => FA.Inv(s)
  }

  ghost predicate Frozen(l: Lock)
  {
    l.Fa? && FA.Frozen(l.fa)
  }

  lemma InitOk(algo: Algo, n: nat)
    ensures Inv(Init(algo, n)) && !Frozen(Init(algo, n)) && Size(Init(algo, n)) == n
    ensures forall t :: 0 <= t < n ==> PhaseAt(Init(algo, n), t) == Outside
  {
    hide RP.Inv, WP.Inv, FA.Inv, FA.Frozen;
    match algo {
      case ReaderFirst => RP.InitInv(n);
      case WriterFirst => WP.InitInv(n);
      case Morris => FA.InitInv(n);
    }
  }

  lemma CallOk(l: Lock, t: nat, role: Role)
    requires Inv(l) && t < Size(l) && PhaseAt(l, t) == Outside
    ensures Inv(Call(l, t, role)) && View(Call(l, t, role)) == View(l)[t := Acquiring(role)]
  {
    hide RP.Inv, WP.Inv, FA.Inv;
    match l {
      case Rp(s) => RP.CallInv(s, t, role);
      case Wp(s) => WP.CallInv(s, t, role);
      case Fa(s) => FA.CallInv(s, t, role);
    }
    assert forall i :: 0 <= i < Size(l) && i != t ==> PhaseAt(Call(l, t, role), i) == PhaseAt(l, i);
  }

  lemma ReleaseOk(l: Lock, t: nat)
    requires Inv(l) && t < Size(l) && PhaseAt(l, t).Inside?
    ensures Inv(Release(l, t)) && View(Release(l, t)) == View(l)[t := Releasing(PhaseAt(l, t).role)]
  {
    hide RP.Inv, WP.Inv, FA.Inv;
    match l {
      case Rp(s) => RP.ReleaseInv(s, t);
      case Wp(s) => WP.ReleaseInv(s, t);
      case Fa(s) => FA.ReleaseInv(s, t);
    }
    assert forall i :: 0 <= i < Size(l) && i != t ==> PhaseAt(Release(l, t), i) == PhaseAt(l, i);
  }

  lemma ExecOk(l: Lock, t: nat, w: nat)
    requires Inv(l) && Enabled(l, t) && Choice(l, w)
    ensures Inv(Exec(l, t, w)) && Size(Exec(l, t, w)) == Size(l) && t < Size(l)
    ensures Follows(PhaseAt(l, t), PhaseAt(Exec(l, t, w), t))
    ensures View(Exec(l, t, w)) == View(l)[t := PhaseAt(Exec(l, t, w), t)]
  {
    hide RP.Inv, WP.Inv, FA.Inv, RP.Exec, WP.Exec, FA.Exec, RP.PhaseOf, WP.PhaseOf, FA.PhaseOf, Follows;
    match l {
      case Rp(s) => RP.ExecInv(s, t); RP.ExecMoves(s, t); RP.ExecFollows(s, t);
      case Wp(s) => WP.ExecInv(s, t); WP.ExecMoves(s, t); WP.ExecFollows(s, t);
      case Fa(s) => FA.ExecInv(s, t, w); FA.ExecKeepsOthers(s, t, w); FA.ExecFollows(s, t, w);
    }
    assert forall i :: 0 <= i < Size(l) && i != t ==> PhaseAt(Exec(l, t, w), i) == PhaseAt(l, i);
  }

  lemma InvExclusive(l: Lock)
    requires Inv(l)
    ensures Exclusive(View(l))
  {
    hide RP.Inv, WP.Inv, FA.Inv;
    match l {
      case Rp(s) => RP.InvExclusive(s); assert View(l) == RP.View(s);
      case Wp(s) => WP.InvExclusive(s); assert View(l) == WP.View(s);
      case Fa(s) => FA.InvExclusive(s); assert View(l) == FA.View(s);
    }
  }

  /** While some thread is in a call or holds the lock, some thread can step or release; the monitor alone
      has an exception, and only when it is frozen. */
  lemma Progress(l: Lock, c: nat) returns (t: nat)
    requires Inv(l) && c < Size(l) && PhaseAt(l, c) != Outside
    ensures t < Size(l) && (Enabled(l, t) || PhaseAt(l, t).Inside? || Frozen(l))
  {
    hide RP.Inv, WP.Inv, FA.Inv, FA.Frozen;
    match l {
      case Rp(s) => t := RP.Progress(s, c);
      case Wp(s) => t := WP.Progress(s, c);
      case Fa(s) => t := FA.Progress(s, c);
    }
  }

  // ----- how much a lock still has to do -----

  ghost function MajorSum(l: Lock): nat
  {
    match l
    case Rp(s) => Sum(s.pc, RP.Rank)
    case Wp(s) => Sum(s.pc, WP.Rank)
    case Fa(s) => Sum(s.pc, FA.Major)
  }

  ghost function MinorSum(l: Lock): nat
  {
    if l.Fa? then Sum(l.fa.pc, FA.Minor) else 0
  }

  lemma MinorBound(l: Lock)
    ensures MinorSum(l) <= 3 * Size(l)
  {
    if l.Fa? {
      SumBound(l.fa.pc, FA.Minor, 3);
    }
  }

  lemma CallMeasure(l: Lock, t: nat, role: Role)
    requires t < Size(l) && PhaseAt(l, t) == Outside
    ensures MajorSum(Call(l, t, role)) <= MajorSum(l) + 13
  {
    hide Sum;
    match l {
      case Rp(s) => SumUpdate(s.pc, t, RP.Call(s, t, role).pc[t], RP.Rank);
      case Wp(s) => SumUpdate(s.pc, t, WP.Call(s, t, role).pc[t], WP.Rank);
      case Fa(s) => SumUpdate(s.pc, t, FA.Call(s, t, role).pc[t], FA.Major);
    }
  }

  lemma ReleaseMeasure(l: Lock, t: nat)
    requires t < Size(l) && PhaseAt(l, t).Inside?
    ensures MajorSum(Release(l, t)) <= MajorSum(l)
  {
    hide Sum;
    match l {
      case Rp(s) => SumUpdate(s.pc, t, RP.Release(s, t).pc[t], RP.Rank);
      case Wp(s) => SumUpdate(s.pc, t, WP.Release(s, t).pc[t], WP.Rank);
      case Fa(s) => SumUpdate(s.pc, t, FA.Release(s, t).pc[t], FA.Major);
    }
  }

  /** Every operation of every lock lowers (MajorSum, MinorSum) lexicographically. */
  lemma ExecMeasure(l: Lock, t: nat, w: nat)
    requires Enabled(l, t)
    ensures var l' := Exec(l, t, w);
      || MajorSum(l') < MajorSum(l)
      || (MajorSum(l') == MajorSum(l) && MinorSum(l') < MinorSum(l))
  {
    hide Sum, RP.Exec, WP.Exec, FA.Exec;
    match l {
      case Rp(s) => RP.ExecMoves(s, t); SumUpdate(s.pc, t, RP.Exec(s, t).pc[t], RP.Rank);
      case Wp(s) => WP.ExecMoves(s, t); SumUpdate(s.pc, t, WP.Exec(s, t).pc[t], WP.Rank);
      case Fa(s) =>
        var s' := FA.Exec(s, t, w);
        FA.ExecMoves(s, t, w);
        FA.ExecKeepsOthers(s, t, w);
        SumAgree(s.pc, s'.pc, t, FA.Major);
        if s'.pc == s.pc[t := s'.pc[t]] {
          SumUpdate(s.pc, t, s'.pc[t], FA.Minor);
        }
    }
  }

  lemma SomeChoice(l: Lock) returns (w: nat)
    ensures Choice(l, w)
  {
    w := 0;
    if l.Fa? && FA.WAsleep in l.fa.pc {
      w :| w < |l.fa.pc| && l.fa.pc[w] == FA.WAsleep;
    }
  }

  // ----- the open system -----

  /** What the environment can make happen next. */
  datatype Action = Enter(t: nat, role: Role) | Leave(t: nat) | Go(t: nat, w: nat) | Wake(t: nat)

  predicate Can(l: Lock, a: Action)
  {
    match a
    case Enter(t, _) => t < Size(l) && PhaseAt(l, t) == Outside
    case Leave(t) => t < Size(l) && PhaseAt(l, t).Inside?
    case Go(t, w) => Enabled(l, t) && Choice(l, w)
    case Wake(t) => l.Fa? && t < Size(l) && (l.fa.pc[t] == FA.RAsleep || l.fa.pc[t] == FA.WAsleep)
  }

  function Do(l: Lock, a: Action): Lock
    requires Can(l, a)
  {
    match a
    case Enter(t, role) => Call(l, t, role)
    case Leave(t) => Release(l, t)
    case Go(t, w) => Exec(l, t, w)
    case Wake(t) => Fa(FA.Spurious(l.fa, t))
  }

  ghost predicate Run(tr: seq<Lock>, acts: seq<Action>)
  {
    |tr| == |acts| + 1 && forall i :: 0 <= i < |acts| ==> Can(tr[i], acts[i]) && tr[i+1] == Do(tr[i], acts[i])
  }

  /** Each action keeps the invariant and moves one thread along its phases. */
  lemma DoOk(l: Lock, a: Action) returns (q: Phase)
    requires Inv(l) && Can(l, a)
    ensures Inv(Do(l, a)) && Size(Do(l, a)) == Size(l) && a.t < Size(l)
    ensures Follows(PhaseAt(l, a.t), q) && View(Do(l, a)) == View(l)[a.t := q]
  {
    hide Inv, View, PhaseAt;
    match a {
      case Enter(t, role) => CallOk(l, t, role); SizeOk(l, a); q := Acquiring(role);
      case Leave(t) => ReleaseOk(l, t); SizeOk(l, a); q := Releasing(PhaseAt(l, t).role);
      case Go(t, w) => ExecOk(l, t, w); q := PhaseAt(Exec(l, t, w), t);
      case Wake(t) => WakeOk(l, t); q := PhaseAt(l, t);
    }
  }

  lemma SizeOk(l: Lock, a: Action)
    requires Can(l, a) && !a.Go?
    ensures Size(Do(l, a)) == Size(l)
  {
  }

  lemma WakeOk(l: Lock, t: nat)
    requires Inv(l) && Can(l, Wake(t))
    ensures var l' := Do(l, Wake(t)); Inv(l') && Size(l') == Size(l) && View(l') == View(l)[t := PhaseAt(l, t)]
    ensures PhaseAt(l, t).Acquiring?
  {
    hide FA.Inv;
    FA.SpuriousInv(l.fa, t);
    assert forall i :: 0 <= i < Size(l) ==> PhaseAt(Do(l, Wake(t)), i) == PhaseAt(l, i);
  }

  /** A spurious wakeup costs the monitor at most one more round of a guard loop. */
  lemma WakeMeasure(l: Lock, t: nat)
    requires Can(l, Wake(t))
    ensures MajorSum(Do(l, Wake(t))) == MajorSum(l) && MinorSum(Do(l, Wake(t))) <= MinorSum(l) + 3
  {
    hide Sum;
    var s := l.fa;
    SumUpdate(s.pc, t, FA.Spurious(s, t).pc[t], FA.Major);
    SumUpdate(s.pc, t, FA.Spurious(s, t).pc[t], FA.Minor);
  }

  lemma {:induction false} RunInv(tr: seq<Lock>, acts: seq<Action>, algo: Algo, n: nat, i: nat)
    requires Run(tr, acts) && tr[0] == Init(algo, n) && i < |tr|
    ensures Inv(tr[i]) && Size(tr[i]) == n
    decreases i
  {
    hide Inv, Init, Can, Do, Size;
    if i == 0 {
      InitOk(algo, n);
    } else {
      RunInv(tr, acts, algo, n, i - 1);
      var q := DoOk(tr[i-1], acts[i-1]);
    }
  }

  /** Mutual exclusion in every state of every run of each of the three locks, spurious wakeups included. */
  lemma MutualExclusion(tr: seq<Lock>, acts: seq<Action>, algo: Algo, n: nat)
    requires Run(tr, acts) && tr[0] == Init(algo, n)
    ensures forall i :: 0 <= i < |tr| ==> Exclusive(View(tr[i]))
  {
    hide Inv, Init, Can, Do, Size, View, Exclusive;
    forall i | 0 <= i < |tr| ensures Exclusive(View(tr[i])) {
      RunInv(tr, acts, algo, n, i);
      InvExclusive(tr[i]);
    }
  }

  /** Every run of each of the three locks projects, step by step, to a run of the one abstract lock. */
  lemma RefinesAbstractLock(tr: seq<Lock>, acts: seq<Action>, algo: Algo, n: nat)
    requires Run(tr, acts) && tr[0] == Init(algo, n)
    ensures Holders(View(tr[0])) == Rw({}, {})
    ensures forall i :: 0 <= i < |acts| ==> RwSpec.Step(Holders(View(tr[i])), Holders(View(tr[i+1])))
  {
    hide Inv, Init, Can, Do, Exclusive, RwSpec.Step;
    InitOk(algo, n);
    forall i | 0 <= i < |acts| ensures RwSpec.Step(Holders(View(tr[i])), Holders(View(tr[i+1]))) {
      RunInv(tr, acts, algo, n, i);
      RunInv(tr, acts, algo, n, i + 1);
      InvExclusive(tr[i]);
      InvExclusive(tr[i+1]);
      var q := DoOk(tr[i], acts[i]);
      MoveIsStep(View(tr[i]), acts[i].t, q);
    }
  }

  /** The semaphore locks never deadlock: in every state of every run in which some thread is in a call or
      holds the lock, an operation of a call or a release is possible.  The monitor can only lose this in
      its frozen region. */
  lemma NoDeadlock(tr: seq<Lock>, acts: seq<Action>, algo: Algo, n: nat, i: nat, c: nat)
    requires Run(tr, acts) && tr[0] == Init(algo, n) && i < |tr|
    requires c < Size(tr[i]) && PhaseAt(tr[i], c) != Outside
    ensures (exists a: Action :: (a.Go? || a.Leave?) && Can(tr[i], a)) || (algo == Morris && Frozen(tr[i]))
  {
    RunInv(tr, acts, algo, n, i);
    RunAlgo(tr, acts, algo, n, i);
    var l := tr[i];
    hide Inv, FA.Frozen;
    var t := Progress(l, c);
    if PhaseAt(l, t).Inside? {
      assert Can(l, Leave(t));
    } else if Enabled(l, t) {
      var w := SomeChoice(l);
      assert Can(l, Go(t, w));
    }
  }

  lemma {:induction false} RunAlgo(tr: seq<Lock>, acts: seq<Action>, algo: Algo, n: nat, i: nat)
    requires Run(tr, acts) && tr[0] == Init(algo, n) && i < |tr|
    ensures (tr[i].Rp? <==> algo == ReaderFirst)
    ensures (tr[i].Wp? <==> algo == WriterFirst) && (tr[i].Fa? <==> algo == Morris)
    decreases i
  {
    hide RP.Exec, WP.Exec, FA.Exec;
    if i == 0 {
    } else {
      RunAlgo(tr, acts, algo, n, i - 1);
      assert tr[i] == Do(tr[i-1], acts[i-1]);
    }
  }

  // ----- the monitor over whole runs -----

  /** No lost wakeup outside the frozen region, in every state of every run in which mtx_ is free: a
      sleeping writer has an active reader, an active writer or a woken writer before it, and a sleeping
      reader an active or a waiting writer.  So the lock is never free with sleepers only. */
  lemma NoLostWakeup(tr: seq<Lock>, acts: seq<Action>, n: nat, i: nat)
    requires Run(tr, acts) && tr[0] == Init(Morris, n) && i < |tr| && tr[i].Fa? && !tr[i].fa.mtx
    ensures var s := tr[i].fa;
      && (FA.RAsleep in s.pc ==> s.activeWriter || s.waitingWriters > 0)
      && (FA.WAsleep in s.pc && !FA.Frozen(s) ==> s.activeReaders > 0 || s.activeWriter || FA.WWoken in s.pc)
  {
    RunInv(tr, acts, Morris, n, i);
    NoLostWakeupHere(tr[i].fa);
  }

  lemma NoLostWakeupHere(s: FA.State)
    requires FA.Inv(s) && !s.mtx
    ensures FA.RAsleep in s.pc ==> s.activeWriter || s.waitingWriters > 0
    ensures FA.WAsleep in s.pc && !FA.Frozen(s) ==> s.activeReaders > 0 || s.activeWriter || FA.WWoken in s.pc
  {
    hide Count;
    CountIn(s.pc, FA.RAsleep);
    CountIn(s.pc, FA.WAsleep);
    CountIn(s.pc, FA.WWoken);
  }

  /** Not a spurious wakeup of a writer. */
  ghost predicate Fresh(l: Lock, a: Action)
  {
    a.Wake? ==> l.Fa? && a.t < |l.fa.pc| && l.fa.pc[a.t] == FA.RAsleep
  }

  lemma FrozenDo(l: Lock, a: Action)
    requires l.Fa? && Inv(l) && Frozen(l) && Can(l, a) && Fresh(l, a)
    ensures Do(l, a).Fa? && Frozen(Do(l, a)) && FA.SleepersStay(l.fa, Do(l, a).fa)
  {
    hide FA.Inv, FA.Frozen, FA.SleepersStay, FA.Exec, FA.Call, FA.Release, FA.Spurious;
    match a {
      case Enter(t, role) => FA.FrozenCall(l.fa, t, role);
      case Leave(t) => FA.FrozenRelease(l.fa, t);
      case Go(t, w) => FA.FrozenExec(l.fa, t, w);
      case Wake(t) => FA.FrozenSpuriousReader(l.fa, t);
    }
  }

  /** From a frozen state on, whatever any old or new thread does, writer u never wakes and no reader is
      ever admitted: the FIFO and no-starvation claims for this lock do not hold. */
  lemma {:induction false} FreezeIsPermanent(tr: seq<Lock>, acts: seq<Action>, n: nat, k: nat, u: nat, j: nat)
    requires Run(tr, acts) && tr[0] == Init(Morris, n) && k <= j < |tr|
    requires Frozen(tr[k]) && u < |tr[k].fa.pc| && tr[k].fa.pc[u] == FA.WAsleep
    requires forall i :: k <= i < |acts| ==> Fresh(tr[i], acts[i])
    ensures Frozen(tr[j]) && u < |tr[j].fa.pc| && tr[j].fa.pc[u] == FA.WAsleep
    ensures forall t :: 0 <= t < Size(tr[j]) ==> PhaseAt(tr[j], t) != Inside(Reader)
    decreases j
  {
    hide Inv, FA.Frozen, Init, Can, Do;
    RunInv(tr, acts, Morris, n, j);
    if j == k {
    } else {
      RunInv(tr, acts, Morris, n, j - 1);
      FreezeIsPermanent(tr, acts, n, k, u, j - 1);
      FrozenDo(tr[j-1], acts[j-1]);
    }
    forall t | 0 <= t < Size(tr[j]) ensures PhaseAt(tr[j], t) != Inside(Reader) {
      FrozenNoReaderHere(tr[j], t);
    }
  }

  lemma FrozenNoReaderHere(l: Lock, t: nat)
    requires Inv(l) && Frozen(l) && t < Size(l)
    ensures PhaseAt(l, t) != Inside(Reader)
  {
    FA.FrozenNoReader(l.fa, t);
  }

  lemma WaitingWriterDo(l: Lock, a: Action)
    requires l.Fa? && Inv(l) && Can(l, a) && l.fa.waitingWriters > 0
    ensures Do(l, a).Fa? && Do(l, a).fa.activeReaders <= l.fa.activeReaders
  {
    hide FA.Inv, FA.Exec;
    if a.Go? {
      FA.NoAdmissionPastWriter(l.fa, a.t, a.w);
    }
  }

  /** Over any stretch of a run in which a writer is counted as waiting, activeReaders_ never grows. */
  lemma {:induction false} ReadersYieldToWaitingWriter(tr: seq<Lock>, acts: seq<Action>, n: nat, k: nat, j: nat)
    requires Run(tr, acts) && tr[0] == Init(Morris, n) && k <= j < |tr|
    requires forall i :: k <= i < j ==> tr[i].Fa? && tr[i].fa.waitingWriters > 0
    ensures tr[k].Fa? && tr[j].Fa? && tr[j].fa.activeReaders <= tr[k].fa.activeReaders
    decreases j
  {
    hide Inv, Init, Can, Do;
    RunAlgo(tr, acts, Morris, n, k);
    if j == k {
    } else {
      ReadersYieldToWaitingWriter(tr, acts, n, k, j - 1);
      RunInv(tr, acts, Morris, n, j - 1);
      WaitingWriterDo(tr[j-1], acts[j-1]);
    }
  }

  /** Whenever mtx_ is free, in every state of every run, the four shared variables are the numbers of threads
      that read or are about to release, write or are about to release, and sleep or have been woken. */
  lemma MonitorCounters(tr: seq<Lock>, acts: seq<Action>, n: nat, i: nat)
    requires Run(tr, acts) && tr[0] == Init(Morris, n) && i < |tr| && tr[i].Fa? && !tr[i].fa.mtx
    ensures var s := tr[i].fa;
      && s.activeReaders == Count(s.pc, FA.RIn) + Count(s.pc, FA.RxLock)
      && (if s.activeWriter then 1 else 0) == Count(s.pc, FA.WIn) + Count(s.pc, FA.WxLock)
      && s.waitingReaders == Count(s.pc, FA.RAsleep) + Count(s.pc, FA.RWoken)
      && s.waitingWriters == Count(s.pc, FA.WAsleep) + Count(s.pc, FA.WWoken)
  {
    RunInv(tr, acts, Morris, n, i);
    hide Count, Run, FA.Guards, FA.Wakeups;
  }

  /** In no run does the broadcast of readUnlock wake anyone: whenever a leaving last reader finds no writer
      counted, its signalling operation moves nobody but itself. */
  lemma ReadUnlockBroadcastWakesNobody(tr: seq<Lock>, acts: seq<Action>, n: nat, i: nat)
    requires Run(tr, acts) && tr[0] == Init(Morris, n) && i < |acts| && acts[i].Go?
    requires tr[i].Fa? && acts[i].t < |tr[i].fa.pc|
    requires tr[i].fa.pc[acts[i].t] == FA.RxSignal && tr[i].fa.waitingWriters <= 0
    ensures tr[i+1] == Fa(tr[i].fa.(pc := tr[i].fa.pc[acts[i].t := FA.RxUnlock]))
  {
    hide FA.Inv, FA.Exec, Init;
    RunInv(tr, acts, Morris, n, i);
    FA.ReadUnlockBroadcastIsIdle(tr[i].fa, acts[i].t, acts[i].w);
  }

  // ----- the semaphore locks over whole runs -----

  /** ReaderPriorityLock, in every state of every run: semaphores stay 0 or 1, a reader waiting for wrt_ means
      that no reader reads, and writerActive_ leaves at most that one reader counted. */
  lemma ReaderPriorityStates(tr: seq<Lock>, acts: seq<Action>, n: nat, i: nat)
    requires Run(tr, acts) && tr[0] == Init(ReaderFirst, n) && i < |tr|
    ensures tr[i].Rp?
    ensures var s := tr[i].rp;
      && s.mutex <= 1 && s.wrt <= 1
      && (RP.RWrt in s.pc ==> RP.RIn !in s.pc)
      && (s.writerActive ==> 0 <= s.readCount <= 1 && (s.readCount == 1 <==> RP.RWrt in s.pc))
  {
    hide Run, RP.Inv;
    RunAlgo(tr, acts, ReaderFirst, n, i);
    RunInv(tr, acts, ReaderFirst, n, i);
    RP.InvFacts(tr[i].rp);
  }

  /** WriterPriorityLock, in every state of every run: the group tokens rsem_ and wrt_ are each 1 minus the one
      group that holds them, a first reader never blocks on wrt_, writerActive_ means no reader is counted,
      and at most one thread is blocked on rsem_. */
  lemma WriterPriorityStates(tr: seq<Lock>, acts: seq<Action>, n: nat, i: nat)
    requires Run(tr, acts) && tr[0] == Init(WriterFirst, n) && i < |tr|
    ensures tr[i].Wp?
    ensures var s := tr[i].wp;
      && (s.rsem == 1 || s.rsem == 0) && (s.rsem == 0 <==> (WP.ReaderGate(s) == 1) != (WP.WriterGate(s) > 0))
      && (s.wrt == 1 || s.wrt == 0) && (s.wrt == 0 <==> (WP.WriterHold(s) == 1) != (WP.ReaderGroup(s) > 0))
      && (WP.RWrt in s.pc ==> s.wrt == 1)
      && (s.writerActive ==> s.readCount == 0)
      && (s.rsem == 0 ==>
            forall u, v :: 0 <= u < v < |s.pc| && s.pc[u] in {WP.RGate, WP.WGate} ==> s.pc[v] !in {WP.RGate, WP.WGate})
  {
    hide Run, WP.Inv;
    RunAlgo(tr, acts, WriterFirst, n, i);
    RunInv(tr, acts, WriterFirst, n, i);
    var s := tr[i].wp;
    WP.InvFacts(s);
    Tokens(s);
    if s.rsem == 0 {
      forall u, v | 0 <= u < v < |s.pc| && s.pc[u] in {WP.RGate, WP.WGate} ensures s.pc[v] !in {WP.RGate, WP.WGate} {
        if s.pc[v] in {WP.RGate, WP.WGate} { WP.OneBlockedOnGate(s, u, v); }
      }
    }
  }

  lemma Tokens(s: WP.State)
    requires WP.Inv(s)
    ensures s.rsem <= 1 && (s.rsem == 0 <==> (WP.ReaderGate(s) == 1) != (WP.WriterGate(s) > 0))
    ensures s.wrt <= 1 && (s.wrt == 0 <==> (WP.WriterHold(s) == 1) != (WP.ReaderGroup(s) > 0))
  {
    hide WP.ReaderInv, WP.WriterInv, WP.ReaderGate, WP.WriterGate, WP.WriterHold, WP.ReaderGroup;
  }
}
