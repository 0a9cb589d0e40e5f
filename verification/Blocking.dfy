/** Who keeps whom waiting: in every reachable state of each lock a thread in a call can go on exactly if nobody holds
    what its next operation asks for. */
module Blocking {
  import opened Counting
  import opened RwSpec
  import opened RwLock
  import FA = FairMorris
  import RP = ReaderPriority
  import WP = WriterPriority

  // ----- ReaderPriorityLock -----

  /** Between mutex_.wait() and mutex_.post(). */
  predicate RpInMutex(p: RP.Pc)
  {
    match p
    case RInc | RWrt | RPost | RxDec | RxWrt | RxPost => true
    case _ => false
  }

  /** A reader of the group that holds wrt_, or the writer that does. */
  predicate RpHasWrt(p: RP.Pc)
  {
    match p
    case RPost | RIn | RxMutex | RxDec | RxWrt => true
    case WStore | WIn | WxStore | WxWrt => true
    case _ => false
  }

  /** A thread at q holds what a thread at p asks for. */
  predicate RpBlocks(p: RP.Pc, q: RP.Pc)
  {
    match p
    case RMutex | RxMutex => RpInMutex(q)
    case RWrt | WWrt => RpHasWrt(q)
    case _ => false
  }

  lemma RpMutexHeld(s: RP.State)
    ensures RP.InMutex(s) > 0 <==> exists u: nat :: u < |s.pc| && RpInMutex(s.pc[u])
  {
    hide Count;
    if u: nat :| u < |s.pc| && RpInMutex(s.pc[u]) {
      CountMove(s.pc, u, RP.Idle);
    } else {
      forall p: RP.Pc | RpInMutex(p) ensures Count(s.pc, p) == 0 { CountIn(s.pc, p); }
    }
  }

  lemma RpWrtHeld(s: RP.State)
    ensures RP.ReaderGroup(s) + RP.WriterHold(s) > 0 <==> exists u: nat :: u < |s.pc| && RpHasWrt(s.pc[u])
  {
    hide Count;
    if u: nat :| u < |s.pc| && RpHasWrt(s.pc[u]) {
      CountMove(s.pc, u, RP.Idle);
    } else {
      forall p: RP.Pc | RpHasWrt(p) ensures Count(s.pc, p) == 0 { CountIn(s.pc, p); }
    }
  }

  lemma RpGoesIff(s: RP.State, t: nat)
    requires RP.Inv(s) && t < |s.pc| && (RP.PhaseOf(s.pc[t]).Acquiring? || RP.PhaseOf(s.pc[t]).Releasing?)
    ensures RP.Enabled(s, t) <==> forall u: nat :: u < |s.pc| && u != t ==> !RpBlocks(s.pc[t], s.pc[u])
  {
    hide Count, RP.InMutex, RP.ReaderGroup, RP.WriterHold;
    RpMutexHeld(s);
    RpWrtHeld(s);
  }

  // ----- WriterPriorityLock -----

  predicate WpInTry(p: WP.Pc)
  {
    match p
    case RGate | RMutex | RInc | RWrt | RPostMutex | RPostGate | RPostTry => true
    case _ => false
  }

  predicate WpInMutex1(p: WP.Pc)
  {
    match p
    case RInc | RWrt | RPostMutex | RxDec | RxWrt | RxPost => true
    case _ => false
  }

  predicate WpInMutex2(p: WP.Pc)
  {
    match p
    case WInc | WGate | WPost | WxDec | WxGate | WxPost => true
    case _ => false
  }

  /** A reader past rsem_.wait(), or a writer of the group that holds rsem_. */
  predicate WpHasGate(p: WP.Pc)
  {
    match p
    case RMutex | RInc | RWrt | RPostMutex | RPostGate => true
    case WPost | WWrt | WStore | WIn | WxStore | WxWrt | WxMutex | WxDec | WxGate => true
    case _ => false
  }

  predicate WpHasWrt(p: WP.Pc)
  {
    match p
    case RPostMutex | RPostGate | RPostTry | RIn | RxMutex | RxDec | RxWrt => true
    case WStore | WIn | WxStore | WxWrt => true
    case _ => false
  }

  predicate WpBlocks(p: WP.Pc, q: WP.Pc)
  {
    match p
    case RTry => WpInTry(q)
    case RGate | WGate => WpHasGate(q)
    case RMutex | RxMutex => WpInMutex1(q)
    case WMutex | WxMutex => WpInMutex2(q)
    case RWrt | WWrt => WpHasWrt(q)
    case _ => false
  }

  lemma WpTryHeld(s: WP.State)
    ensures WP.InTry(s) > 0 <==> exists u: nat :: u < |s.pc| && WpInTry(s.pc[u])
  {
    hide Count;
    if u: nat :| u < |s.pc| && WpInTry(s.pc[u]) {
      CountMove(s.pc, u, WP.Idle);
    } else {
      forall p: WP.Pc | WpInTry(p) ensures Count(s.pc, p) == 0 { CountIn(s.pc, p); }
    }
  }

  lemma WpMutex1Held(s: WP.State)
    ensures WP.InMutex1(s) > 0 <==> exists u: nat :: u < |s.pc| && WpInMutex1(s.pc[u])
  {
    hide Count;
    if u: nat :| u < |s.pc| && WpInMutex1(s.pc[u]) {
      CountMove(s.pc, u, WP.Idle);
    } else {
      forall p: WP.Pc | WpInMutex1(p) ensures Count(s.pc, p) == 0 { CountIn(s.pc, p); }
    }
  }

  lemma WpMutex2Held(s: WP.State)
    ensures WP.InMutex2(s) > 0 <==> exists u: nat :: u < |s.pc| && WpInMutex2(s.pc[u])
  {
    hide Count;
    if u: nat :| u < |s.pc| && WpInMutex2(s.pc[u]) {
      CountMove(s.pc, u, WP.Idle);
    } else {
      forall p: WP.Pc | WpInMutex2(p) ensures Count(s.pc, p) == 0 { CountIn(s.pc, p); }
    }
  }

  lemma WpGateHeld(s: WP.State)
    ensures WP.ReaderGate(s) + WP.WriterGate(s) > 0 <==> exists u: nat :: u < |s.pc| && WpHasGate(s.pc[u])
  {
    hide Count;
    if u: nat :| u < |s.pc| && WpHasGate(s.pc[u]) {
      CountMove(s.pc, u, WP.Idle);
    } else {
      forall p: WP.Pc | WpHasGate(p) ensures Count(s.pc, p) == 0 { CountIn(s.pc, p); }
    }
  }

  lemma WpWrtHeld(s: WP.State)
    ensures WP.ReaderGroup(s) + WP.WriterHold(s) > 0 <==> exists u: nat :: u < |s.pc| && WpHasWrt(s.pc[u])
  {
    hide Count;
    if u: nat :| u < |s.pc| && WpHasWrt(s.pc[u]) {
      CountMove(s.pc, u, WP.Idle);
    } else {
      forall p: WP.Pc | WpHasWrt(p) ensures Count(s.pc, p) == 0 { CountIn(s.pc, p); }
    }
  }

  lemma WpGoesIff(s: WP.State, t: nat)
    requires WP.Inv(s) && t < |s.pc| && (WP.PhaseOf(s.pc[t]).Acquiring? || WP.PhaseOf(s.pc[t]).Releasing?)
    ensures WP.Enabled(s, t) <==> forall u: nat :: u < |s.pc| && u != t ==> !WpBlocks(s.pc[t], s.pc[u])
  {
    hide Count, WP.InTry, WP.InMutex1, WP.InMutex2, WP.ReaderGate, WP.WriterGate, WP.ReaderGroup, WP.WriterHold;
    WpTryHeld(s);
    WpMutex1Held(s);
    WpMutex2Held(s);
    WpGateHeld(s);
    WpWrtHeld(s);
  }

  // ----- FairMorrisLock -----

  predicate FaInMtx(p: FA.Pc)
  {
    match p
    case RGuard | RWait | RAdmit | RUnlock | RxDec | RxSignal | RxUnlock => true
    case WGuard | WWait | WAdmit | WUnlock | WxStore | WxSignal | WxUnlock => true
    case _ => false
  }

  predicate FaBlocks(p: FA.Pc, q: FA.Pc)
  {
    match p
    case RLock | RWoken | RxLock | WLock | WWoken | WxLock => FaInMtx(q)
    case _ => false
  }

  lemma FaMtxHeld(s: FA.State)
    ensures FA.InMtx(s) > 0 <==> exists u: nat :: u < |s.pc| && FaInMtx(s.pc[u])
  {
    hide Count;
    if u: nat :| u < |s.pc| && FaInMtx(s.pc[u]) {
      CountMove(s.pc, u, FA.Idle);
    } else {
      forall p: FA.Pc | FaInMtx(p) ensures Count(s.pc, p) == 0 { CountIn(s.pc, p); }
    }
  }

  lemma FaGoesIff(s: FA.State, t: nat)
    requires FA.Inv(s) && t < |s.pc| && (FA.PhaseOf(s.pc[t]).Acquiring? || FA.PhaseOf(s.pc[t]).Releasing?)
    ensures FA.Enabled(s, t) <==>
      && s.pc[t] != FA.RAsleep && s.pc[t] != FA.WAsleep
      && forall u: nat :: u < |s.pc| && u != t ==> !FaBlocks(s.pc[t], s.pc[u])
  {
    hide Count, FA.InMtx, FA.Guards, FA.Wakeups;
    FaMtxHeld(s);
  }

  // ----- the three locks over whole runs -----

  /** Thread u holds the semaphore or mutex that thread t's next operation takes. */
  predicate Blocks(l: Lock, t: nat, u: nat)
    requires t < Size(l) && u < Size(l)
  {
    match l
    case Rp(s) => RpBlocks(s.pc[t], s.pc[u])
    case Wp(s) => WpBlocks(s.pc[t], s.pc[u])
    case Fa(s) => FaBlocks(s.pc[t], s.pc[u])
  }

  /** On one of the monitor's condition variables. */
  predicate Asleep(l: Lock, t: nat)
    requires t < Size(l)
  {
    l.Fa? && (l.fa.pc[t] == FA.RAsleep || l.fa.pc[t] == FA.WAsleep)
  }

  predicate InCall(l: Lock, t: nat)
  {
    t < Size(l) && (PhaseAt(l, t).Acquiring? || PhaseAt(l, t).Releasing?)
  }

  lemma EnabledIff(l: Lock, t: nat)
    requires Inv(l) && InCall(l, t)
    ensures Enabled(l, t) <==> !Asleep(l, t) && forall u: nat :: u < Size(l) && u != t ==> !Blocks(l, t, u)
  {
    hide RP.Inv, WP.Inv, FA.Inv, RP.Enabled, WP.Enabled, FA.Enabled, RpBlocks, WpBlocks, FaBlocks;
    match l {
      case Rp(s) =>
        RpGoesIff(s, t);
        assert forall u: nat :: u < |s.pc| ==> Blocks(l, t, u) == RpBlocks(s.pc[t], s.pc[u]);
      case Wp(s) =>
        WpGoesIff(s, t);
        assert forall u: nat :: u < |s.pc| ==> Blocks(l, t, u) == WpBlocks(s.pc[t], s.pc[u]);
      case Fa(s) =>
        FaGoesIff(s, t);
        assert forall u: nat :: u < |s.pc| ==> Blocks(l, t, u) == FaBlocks(s.pc[t], s.pc[u]);
    }
  }

  /** In every state of every run of each lock: a thread in a call can take its next operation if and only if it is not
      asleep on a condition and no other thread holds the semaphore or mutex which that operation takes. */
  lemma WaitsOnlyForHolders(tr: seq<Lock>, acts: seq<Action>, algo: Algo, n: nat, i: nat, t: nat)
    requires Run(tr, acts) && tr[0] == Init(algo, n) && i < |tr| && InCall(tr[i], t)
    ensures (exists w :: Can(tr[i], Go(t, w))) <==>
      !Asleep(tr[i], t) && forall u: nat :: u < Size(tr[i]) && u != t ==> !Blocks(tr[i], t, u)
  {
    hide Inv, Init, Do, Blocks, Asleep, InCall, Enabled, Choice;
    RunInv(tr, acts, algo, n, i);
    EnabledIff(tr[i], t);
    var w := SomeChoice(tr[i]);
    assert Enabled(tr[i], t) ==> Can(tr[i], Go(t, w));
  }

  // ----- a call that nobody disturbs -----

  predicate Alone(l: Lock, t: nat)
  {
    forall u :: 0 <= u < Size(l) && u != t ==> PhaseAt(l, u) == Outside
  }

  /** The actions lead from l to l2. */
  ghost predicate Reaches(l: Lock, acts: seq<Action>, l2: Lock)
    decreases |acts|
  {
    if acts == [] then l == l2 else Can(l, acts[0]) && Reaches(Do(l, acts[0]), acts[1..], l2)
  }

  lemma IdleBlocksNobody(l: Lock, t: nat)
    requires Alone(l, t) && InCall(l, t)
    ensures forall u: nat :: u < Size(l) && u != t ==> !Blocks(l, t, u)
  {
    forall u: nat | u < Size(l) && u != t ensures !Blocks(l, t, u) {
      assert PhaseAt(l, u) == Outside;
    }
  }

  lemma OnlyOne(s: FA.State, t: nat, p: FA.Pc)
    requires t < |s.pc| && (forall u :: 0 <= u < |s.pc| && u != t ==> s.pc[u] == FA.Idle)
    requires p != FA.Idle && p != s.pc[t]
    ensures Count(s.pc, p) == 0
  {
    CountIn(s.pc, p);
  }

  lemma NotAsleepAlone(s: FA.State, t: nat)
    requires FA.Inv(s) && t < |s.pc| && forall u :: 0 <= u < |s.pc| && u != t ==> s.pc[u] == FA.Idle
    ensures s.pc[t] != FA.RAsleep && s.pc[t] != FA.WAsleep
  {
    if s.pc[t] == FA.RAsleep || s.pc[t] == FA.WAsleep {
      hide Count, FA.Inv;
      forall p: FA.Pc | p != FA.Idle && p != s.pc[t] ensures Count(s.pc, p) == 0 { OnlyOne(s, t, p); }
      CountMove(s.pc, t, FA.Idle);
      SleepsNotAlone(s, t);
      assert false;
    }
  }

  lemma SleepsNotAlone(s: FA.State, t: nat)
    requires FA.Inv(s) && t < |s.pc| && (s.pc[t] == FA.RAsleep || s.pc[t] == FA.WAsleep) && Count(s.pc, s.pc[t]) > 0
    ensures exists p: FA.Pc :: p != FA.Idle && p != s.pc[t] && Count(s.pc, p) > 0
  {
    hide Count, FA.InMtx, FA.Guards;
    if forall p: FA.Pc :: p != FA.Idle && p != s.pc[t] ==> Count(s.pc, p) == 0 {
      assert false;
    }
  }

  lemma AloneGoes(l: Lock, t: nat)
    requires Inv(l) && Alone(l, t) && InCall(l, t)
    ensures Enabled(l, t)
  {
    if l.Fa? {
      forall u | 0 <= u < |l.fa.pc| && u != t ensures FA.PhaseOf(l.fa.pc[u]) == Outside {
        assert PhaseAt(l, u) == Outside;
      }
      OutsideIsIdle(l.fa, t);
      hide FA.Inv;
      NotAsleepAlone(l.fa, t);
    }
    hide Inv, Enabled, Blocks, InCall, Alone;
    IdleBlocksNobody(l, t);
    EnabledIff(l, t);
  }

  lemma OutsideIsIdle(s: FA.State, t: nat)
    requires forall u :: 0 <= u < |s.pc| && u != t ==> FA.PhaseOf(s.pc[u]) == Outside
    ensures forall u :: 0 <= u < |s.pc| && u != t ==> s.pc[u] == FA.Idle
  {
  }

  lemma StaysAlone(l: Lock, t: nat, w: nat)
    requires Inv(l) && Alone(l, t) && InCall(l, t) && Enabled(l, t) && Choice(l, w)
    ensures Inv(Exec(l, t, w)) && Size(Exec(l, t, w)) == Size(l) && Alone(Exec(l, t, w), t)
    ensures Follows(PhaseAt(l, t), PhaseAt(Exec(l, t, w), t))
  {
    hide Inv, Exec, Enabled, Choice, PhaseAt, Size, Follows;
    ExecOk(l, t, w);
    var l' := Exec(l, t, w);
    forall u | 0 <= u < Size(l') && u != t ensures PhaseAt(l', u) == Outside {
      assert View(l')[u] == PhaseAt(l', u) && View(l)[u] == PhaseAt(l, u);
    }
  }

  /** Where a call of a thread in this phase ends. */
  function EndOf(p: Phase): Phase
    requires p.Acquiring? || p.Releasing?
  {
    if p.Acquiring? then Inside(p.role) else Outside
  }

  /** A call during which every other thread stays outside is never kept waiting and completes by its own operations. */
  lemma {:induction false} UndisturbedCall(l: Lock, t: nat) returns (acts: seq<Action>, l2: Lock)
    requires Inv(l) && Alone(l, t) && InCall(l, t)
    ensures Reaches(l, acts, l2) && t < Size(l2) && PhaseAt(l2, t) == EndOf(PhaseAt(l, t))
    ensures forall i :: 0 <= i < |acts| ==> acts[i].Go? && acts[i].t == t
    decreases MajorSum(l), MinorSum(l)
  {
    hide Inv, Exec, Enabled, Choice, PhaseAt, Size, MajorSum, MinorSum, Alone;
    AloneGoes(l, t);
    var w := SomeChoice(l);
    ExecMeasure(l, t, w);
    StaysAlone(l, t, w);
    var l1 := Exec(l, t, w);
    if PhaseAt(l1, t) == EndOf(PhaseAt(l, t)) {
      acts, l2 := [Go(t, w)], l1;
      assert [Go(t, w)][1..] == [];
    } else {
      var more;
      more, l2 := UndisturbedCall(l1, t);
      acts := [Go(t, w)] + more;
      assert acts[1..] == more;
    }
  }

  /** In every reachable state of each of the three locks in which nobody is in a call or inside, a reader or a writer
      that calls the lock is never kept waiting and gets in by its own operations. */
  lemma UncontendedLock(tr: seq<Lock>, acts: seq<Action>, algo: Algo, n: nat, i: nat, t: nat, role: Role)
    returns (go: seq<Action>, l2: Lock)
    requires Run(tr, acts) && tr[0] == Init(algo, n) && i < |tr| && t < Size(tr[i])
    requires forall u :: 0 <= u < Size(tr[i]) ==> PhaseAt(tr[i], u) == Outside
    ensures Can(tr[i], Enter(t, role)) && Reaches(Do(tr[i], Enter(t, role)), go, l2)
    ensures t < Size(l2) && PhaseAt(l2, t) == Inside(role) && forall k :: 0 <= k < |go| ==> go[k].Go? && go[k].t == t
  {
    var l := tr[i];
    hide Inv, Init, Reaches;
    RunInv(tr, acts, algo, n, i);
    CallOk(l, t, role);
    CalledAlone(l, t, role);
    go, l2 := UndisturbedCall(Call(l, t, role), t);
  }

  lemma CalledAlone(l: Lock, t: nat, role: Role)
    requires t < Size(l) && forall u :: 0 <= u < Size(l) ==> PhaseAt(l, u) == Outside
    ensures var l' := Call(l, t, role);
      Size(l') == Size(l) && Alone(l', t) && PhaseAt(l', t) == Acquiring(role)
  {
    var l' := Call(l, t, role);
    forall u | 0 <= u < Size(l') && u != t ensures PhaseAt(l', u) == Outside {
      assert PhaseAt(l, u) == Outside;
    }
  }

  // ----- whom the monitor wakes -----

  /** When a writer is signalled, it can be any of those asleep: the condition variable keeps no order. */
  lemma AnySleeperCanBeSignalled(tr: seq<Lock>, acts: seq<Action>, n: nat, i: nat, t: nat, u: nat)
    requires Run(tr, acts) && tr[0] == Init(Morris, n) && i < |tr| && tr[i].Fa?
    requires t < |tr[i].fa.pc| && u < |tr[i].fa.pc| && tr[i].fa.pc[u] == FA.WAsleep
    requires tr[i].fa.pc[t] == FA.RxSignal || (tr[i].fa.pc[t] == FA.WxSignal && tr[i].fa.waitingReaders == 0)
    ensures Can(tr[i], Go(t, u)) && Do(tr[i], Go(t, u)).Fa? && u < |Do(tr[i], Go(t, u)).fa.pc|
    ensures Do(tr[i], Go(t, u)).fa.pc[u] == FA.WWoken
  {
    hide Init;
    RunInv(tr, acts, Morris, n, i);
    var s := tr[i].fa;
    assert s.waitingWriters > 0 by {
      hide Count;
      CountMove(s.pc, u, FA.Idle);
    }
    hide Run, FA.Inv;
  }

  /** Any sleeper can also return from its wait spuriously. */
  lemma AnySleeperCanWake(l: Lock, t: nat)
    requires l.Fa? && t < |l.fa.pc| && Asleep(l, t)
    ensures Can(l, Wake(t)) && Do(l, Wake(t)).Fa?
    ensures Do(l, Wake(t)).fa == l.fa.(pc := l.fa.pc[t := if l.fa.pc[t] == FA.RAsleep then FA.RWoken else FA.WWoken])
  {
  }

  /** A releasing writer that finds readers waiting wakes every one of them, and no writer. */
  lemma BroadcastWakesAllReaders(tr: seq<Lock>, acts: seq<Action>, n: nat, i: nat, t: nat, w: nat)
    requires Run(tr, acts) && tr[0] == Init(Morris, n) && i < |tr| && tr[i].Fa? && Can(tr[i], Go(t, w))
    requires tr[i].fa.pc[t] == FA.WxSignal && tr[i].fa.waitingReaders > 0
    ensures var pc, pc' := tr[i].fa.pc, Do(tr[i], Go(t, w)).fa.pc;
      && |pc'| == |pc|
      && forall u :: 0 <= u < |pc| && u != t ==> pc'[u] == if pc[u] == FA.RAsleep then FA.RWoken else pc[u]
  {
  }
}
