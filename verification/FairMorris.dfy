/** FairMorrisLock: a monitor with one mutex, two condition variables and four shared counters.
    Waiting threads are kept in three classes: asleep on the condition, woken but not yet owning mtx_,
    and back inside the monitor at the guard.  Plain integers are updated together with the adjacent
    mutex or condition operation, since mtx_ is held there. */
module FairMorris {
  import opened Counting
  import opened RwSpec

  datatype Pc =
    | Idle
    | RLock     // readLock: pthread_mutex_lock
    | RGuard    // holds mtx_: evaluates the loop guard
    | RWait     // holds mtx_: ++waitingReaders_, pthread_cond_wait(readCond_)
    | RAsleep   // on readCond_
    | RWoken    // woken, has to own mtx_ again; then --waitingReaders_
    | RAdmit    // holds mtx_: activeReaders_.fetch_add
    | RUnlock   // holds mtx_: pthread_mutex_unlock
    | RIn       // reading
    | RxLock    // readUnlock: pthread_mutex_lock
    | RxDec     // holds mtx_: activeReaders_.fetch_sub
    | RxSignal  // holds mtx_, rc == 0: signal a writer or broadcast to readers
    | RxUnlock  // holds mtx_: pthread_mutex_unlock
    | WLock     // writeLock: pthread_mutex_lock
    | WGuard    // holds mtx_: evaluates the loop guard
    | WWait     // holds mtx_: ++waitingWriters_, pthread_cond_wait(writeCond_)
    | WAsleep   // on writeCond_
    | WWoken    // woken, has to own mtx_ again; then --waitingWriters_
    | WAdmit    // holds mtx_: activeWriter_.store(true)
    | WUnlock   // holds mtx_: pthread_mutex_unlock
    | WIn       // writing
    | WxLock    // writeUnlock: pthread_mutex_lock
    | WxStore   // holds mtx_: activeWriter_.store(false)
    | WxSignal  // holds mtx_: broadcast to readers or signal a writer
    | WxUnlock  // holds mtx_: pthread_mutex_unlock

  datatype State = State(pc: seq<Pc>, mtx: bool, activeReaders: int, activeWriter: bool,
                         waitingReaders: int, waitingWriters: int)

  function PhaseOf(p: Pc): Phase
  {
    match p
    case Idle => Outside
    case RLock | RGuard | RWait | RAsleep | RWoken | RAdmit | RUnlock => Acquiring(Reader)
    case RIn => Inside(Reader)
    case RxLock | RxDec | RxSignal | RxUnlock => Releasing(Reader)
    case WLock | WGuard | WWait | WAsleep | WWoken | WAdmit | WUnlock => Acquiring(Writer)
    case WIn => Inside(Writer)
    case WxLock | WxStore | WxSignal | WxUnlock => Releasing(Writer)
  }

  function Init(n: nat): State
  {
    State(seq(n, _ => Idle), false, 0, false, 0, 0)
  }

  function Call(s: State, t: nat, role: Role): State
    requires t < |s.pc|
  {
    s.(pc := s.pc[t := if role == Reader then RLock else WLock])
  }

  function Release(s: State, t: nat): State
    requires t < |s.pc|
  {
    s.(pc := s.pc[t := if s.pc[t] == RIn then RxLock else WxLock])
  }

  /** Taking mtx_ needs it free; a sleeper cannot move by itself; everything else can run at once. */
  predicate Enabled(s: State, t: nat)
  {
    t < |s.pc| &&
    match s.pc[t]
    case Idle | RIn | WIn | RAsleep | WAsleep => false
    case RLock | RWoken | RxLock | WLock | WWoken | WxLock => !s.mtx
    case _ => true
  }

  /** pthread_cond_signal wakes one sleeper if there is one: w is the scheduler's pick. */
  predicate Choice(s: State, w: nat)
  {
    WAsleep in s.pc ==> w < |s.pc| && s.pc[w] == WAsleep
  }

  function Signal(pc: seq<Pc>, w: nat): seq<Pc>
  {
    if w < |pc| && pc[w] == WAsleep then pc[w := WWoken] else pc
  }

  function Broadcast(pc: seq<Pc>): seq<Pc>
  {
    Rename(pc, RAsleep, RWoken)
  }

  /** The next operation of thread t; w is used only where a writer is signalled. */
  function Exec(s: State, t: nat, w: nat): State
    requires Enabled(s, t)
  {
    match s.pc[t]
    case RLock => s.(pc := s.pc[t := RGuard], mtx := true)
    case RGuard => s.(pc := s.pc[t := if s.activeWriter || s.waitingWriters > 0 then RWait else RAdmit])
    case RWait => s.(pc := s.pc[t := RAsleep], waitingReaders := s.waitingReaders + 1, mtx := false)
    case RWoken => s.(pc := s.pc[t := RGuard], waitingReaders := s.waitingReaders - 1, mtx := true)
    case RAdmit => s.(pc := s.pc[t := RUnlock], activeReaders := s.activeReaders + 1)
    case RUnlock => s.(pc := s.pc[t := RIn], mtx := false)
    case RxLock => s.(pc := s.pc[t := RxDec], mtx := true)
    case RxDec =>
      s.(pc := s.pc[t := if s.activeReaders - 1 == 0 then RxSignal else RxUnlock], activeReaders := s.activeReaders - 1)
    case RxSignal =>
      var pc := if s.waitingWriters > 0 then Signal(s.pc, w)
                else if s.waitingReaders > 0 then Broadcast(s.pc)
                else s.pc;
      s.(pc := pc[t := RxUnlock])
    case RxUnlock => s.(pc := s.pc[t := Idle], mtx := false)
    case WLock => s.(pc := s.pc[t := WGuard], mtx := true)
    case WGuard => s.(pc := s.pc[t := if s.activeReaders > 0 || s.activeWriter then WWait else WAdmit])
    case WWait => s.(pc := s.pc[t := WAsleep], waitingWriters := s.waitingWriters + 1, mtx := false)
    case WWoken => s.(pc := s.pc[t := WGuard], waitingWriters := s.waitingWriters - 1, mtx := true)
    case WAdmit => s.(pc := s.pc[t := WUnlock], activeWriter := true)
    case WUnlock => s.(pc := s.pc[t := WIn], mtx := false)
    case WxLock => s.(pc := s.pc[t := WxStore], mtx := true)
    case WxStore => s.(pc := s.pc[t := WxSignal], activeWriter := false)
    case WxSignal =>
      var pc := if s.waitingReaders > 0 then Broadcast(s.pc)
                else if s.waitingWriters > 0 then Signal(s.pc, w)
                else s.pc;
      s.(pc := pc[t := WxUnlock])
    case WxUnlock => s.(pc := s.pc[t := Idle], mtx := false)
  }

  /** A spurious return from pthread_cond_wait. */
  function Spurious(s: State, t: nat): State
    requires t < |s.pc|
  {
    s.(pc := s.pc[t := if s.pc[t] == RAsleep then RWoken else WWoken])
  }

  ghost function InMtx(s: State): nat
  {
    InMtxReader(s) + InMtxWriter(s)
  }

  ghost function InMtxReader(s: State): nat
  {
    Count(s.pc, RGuard) + Count(s.pc, RWait) + Count(s.pc, RAdmit) + Count(s.pc, RUnlock) +
    Count(s.pc, RxDec) + Count(s.pc, RxSignal) + Count(s.pc, RxUnlock)
  }

  ghost function InMtxWriter(s: State): nat
  {
    Count(s.pc, WGuard) + Count(s.pc, WWait) + Count(s.pc, WAdmit) + Count(s.pc, WUnlock) +
    Count(s.pc, WxStore) + Count(s.pc, WxSignal) + Count(s.pc, WxUnlock)
  }

  /** The four shared counters are the sizes of the matching thread sets. */
  ghost predicate Counters(s: State)
  {
    && (if s.mtx then 1 else 0) == InMtx(s)
    && s.activeReaders == Count(s.pc, RUnlock) + Count(s.pc, RIn) + Count(s.pc, RxLock) + Count(s.pc, RxDec)
    && (if s.activeWriter then 1 else 0) ==
       Count(s.pc, WUnlock) + Count(s.pc, WIn) + Count(s.pc, WxLock) + Count(s.pc, WxStore)
    && s.waitingReaders == Count(s.pc, RAsleep) + Count(s.pc, RWoken)
    && s.waitingWriters == Count(s.pc, WAsleep) + Count(s.pc, WWoken)
  }

  /** Readers and writers never overlap, and what a thread saw at the guard stays true while it holds mtx_. */
  ghost predicate Guards(s: State)
  {
    && (s.activeWriter ==> s.activeReaders == 0)
    && (Count(s.pc, RWait) > 0 ==> s.activeWriter || s.waitingWriters > 0)
    && (Count(s.pc, RAdmit) > 0 ==> !s.activeWriter && s.waitingWriters == 0)
    && (Count(s.pc, WWait) > 0 ==> s.activeReaders > 0 || s.activeWriter)
    && (Count(s.pc, WAdmit) > 0 ==> s.activeReaders == 0 && !s.activeWriter)
    && (Count(s.pc, RxSignal) > 0 ==> s.activeReaders == 0 && !s.activeWriter)
    && (Count(s.pc, WxSignal) > 0 ==> s.activeReaders == 0 && !s.activeWriter)
  }

  /** The frozen region: a reader waits, a writer sleeps unsignalled, and no reader is active or about to
      signal.  Every writer that releases prefers the readers, and every reader defers to the writer. */
  ghost predicate Frozen(s: State)
  {
    && s.activeReaders == 0
    && Count(s.pc, RxSignal) == 0
    && Count(s.pc, RGuard) + Count(s.pc, RWait) + Count(s.pc, RAsleep) + Count(s.pc, RWoken) > 0
    && Count(s.pc, WAsleep) > 0
  }

  /** Somebody will see to a sleeping writer. */
  ghost predicate WriterWakeup(s: State)
  {
    Count(s.pc, WAsleep) > 0 ==>
      || s.activeReaders > 0 || s.activeWriter || Count(s.pc, WWoken) > 0
      || Count(s.pc, WGuard) + Count(s.pc, WAdmit) + Count(s.pc, RxSignal) + Count(s.pc, WxSignal) > 0
  }

  /** Somebody will see to a sleeping reader. */
  ghost predicate ReaderWakeup(s: State)
  {
    Count(s.pc, RAsleep) > 0 ==>
      || s.activeWriter || s.waitingWriters > 0
      || Count(s.pc, WGuard) + Count(s.pc, WWait) + Count(s.pc, WAdmit) + Count(s.pc, WxSignal) > 0
  }

  /** No lost wakeup outside the frozen region. */
  ghost predicate Wakeups(s: State)
  {
    ReaderWakeup(s) && (Frozen(s) || WriterWakeup(s))
  }

  ghost predicate Inv(s: State)
  {
    Counters(s) && Guards(s) && Wakeups(s)
  }

  lemma InitInv(n: nat)
    ensures Inv(Init(n)) && !Frozen(Init(n))
  {
    hide Count;
    CountAllIdle(Init(n).pc, Idle);
  }

  lemma CallInv(s: State, t: nat, role: Role)
    requires Inv(s) && t < |s.pc| && s.pc[t] == Idle
    ensures Inv(Call(s, t, role))
  {
    hide Count;
    CountMove(s.pc, t, Call(s, t, role).pc[t]);
  }

  lemma ReleaseInv(s: State, t: nat)
    requires Inv(s) && t < |s.pc| && PhaseOf(s.pc[t]).Inside?
    ensures Inv(Release(s, t))
  {
    hide Count;
    CountMove(s.pc, t, Release(s, t).pc[t]);
  }

  lemma SpuriousInv(s: State, t: nat)
    requires Inv(s) && t < |s.pc| && (s.pc[t] == RAsleep || s.pc[t] == WAsleep)
    ensures Inv(Spurious(s, t))
  {
    hide Count;
    CountMove(s.pc, t, Spurious(s, t).pc[t]);
  }

  lemma BroadcastInv(s: State)
    requires Inv(s)
    ensures Inv(s.(pc := Broadcast(s.pc)))
  {
    hide Count, Rename;
    CountRename(s.pc, RAsleep, RWoken);
  }

  lemma ExecInvReadEnter(s: State, t: nat, w: nat)
    requires Inv(s) && Enabled(s, t) && s.pc[t] in {RLock, RGuard}
    ensures Inv(Exec(s, t, w))
  {
    hide Count;
    CountMove(s.pc, t, Exec(s, t, w).pc[t]);
  }

  lemma ExecInvReadWait(s: State, t: nat, w: nat)
    requires Inv(s) && Enabled(s, t) && s.pc[t] in {RWait, RWoken}
    ensures Inv(Exec(s, t, w))
  {
    hide Count;
    CountMove(s.pc, t, Exec(s, t, w).pc[t]);
  }

  lemma ExecInvReadAdmit(s: State, t: nat, w: nat)
    requires Inv(s) && Enabled(s, t) && s.pc[t] in {RAdmit, RUnlock}
    ensures Inv(Exec(s, t, w))
  {
    hide Count;
    CountMove(s.pc, t, Exec(s, t, w).pc[t]);
  }

  lemma ExecInvReadLeave(s: State, t: nat, w: nat)
    requires Inv(s) && Enabled(s, t) && s.pc[t] in {RxLock, RxDec}
    ensures Inv(Exec(s, t, w))
  {
    hide Count;
    CountMove(s.pc, t, Exec(s, t, w).pc[t]);
  }

  lemma ExecInvWriteEnter(s: State, t: nat, w: nat)
    requires Inv(s) && Enabled(s, t) && s.pc[t] in {WLock, WGuard}
    ensures Inv(Exec(s, t, w))
  {
    hide Count;
    CountMove(s.pc, t, Exec(s, t, w).pc[t]);
  }

  lemma ExecInvWriteWait(s: State, t: nat, w: nat)
    requires Inv(s) && Enabled(s, t) && s.pc[t] in {WWait, WWoken}
    ensures Inv(Exec(s, t, w))
  {
    hide Count;
    CountMove(s.pc, t, Exec(s, t, w).pc[t]);
  }

  lemma ExecInvWriteAdmit(s: State, t: nat, w: nat)
    requires Inv(s) && Enabled(s, t) && s.pc[t] in {WAdmit, WUnlock}
    ensures Inv(Exec(s, t, w))
  {
    hide Count;
    CountMove(s.pc, t, Exec(s, t, w).pc[t]);
  }

  lemma ExecInvWriteLeave(s: State, t: nat, w: nat)
    requires Inv(s) && Enabled(s, t) && s.pc[t] in {WxLock, WxStore}
    ensures Inv(Exec(s, t, w))
  {
    hide Count;
    CountMove(s.pc, t, Exec(s, t, w).pc[t]);
  }

  lemma ExecInvReturn(s: State, t: nat, w: nat)
    requires Inv(s) && Enabled(s, t) && s.pc[t] in {RxUnlock, WxUnlock}
    ensures Inv(Exec(s, t, w))
  {
    hide Count;
    CountMove(s.pc, t, Exec(s, t, w).pc[t]);
  }

  /** What the three possible wakeups do to the counts: nothing, one writer, or all readers. */
  lemma SignalCounts(pc: seq<Pc>, w: nat)
    requires WAsleep in pc ==> w < |pc| && pc[w] == WAsleep
    ensures Count(pc, WAsleep) == 0 ==> Signal(pc, w) == pc
    ensures Count(pc, WAsleep) > 0 ==> Signal(pc, w) == pc[w := WWoken] && w < |pc| && pc[w] == WAsleep
  {
    CountIn(pc, WAsleep);
  }

  lemma SignalInv(s: State, w: nat)
    requires Inv(s) && Choice(s, w)
    ensures var s1 := s.(pc := Signal(s.pc, w)); Inv(s1) && (Count(s1.pc, WAsleep) == 0 || Count(s1.pc, WWoken) > 0)
  {
    hide Count, Inv, Signal;
    SignalCounts(s.pc, w);
    if Count(s.pc, WAsleep) > 0 {
      SpuriousInv(s, w);
      CountMove(s.pc, w, WWoken);
    } else {
      assert s.(pc := s.pc) == s;
    }
  }

  lemma AfterReadSignal(s: State, t: nat)
    requires Inv(s) && t < |s.pc| && s.pc[t] == RxSignal
    requires Count(s.pc, WAsleep) == 0 || Count(s.pc, WWoken) > 0
    ensures Inv(s.(pc := s.pc[t := RxUnlock]))
  {
    hide Count;
    CountMove(s.pc, t, RxUnlock);
  }

  lemma AfterWriteSignal(s: State, t: nat)
    requires Inv(s) && t < |s.pc| && s.pc[t] == WxSignal
    requires Count(s.pc, WAsleep) == 0 || Count(s.pc, WWoken) > 0 || Frozen(s)
    requires Count(s.pc, RAsleep) == 0
    ensures Inv(s.(pc := s.pc[t := WxUnlock]))
  {
    hide Count;
    CountMove(s.pc, t, WxUnlock);
  }

  lemma WakeKeeps(pc: seq<Pc>, t: nat, w: nat)
    requires t < |pc| && pc[t] != RAsleep && pc[t] != WAsleep
    ensures t < |Broadcast(pc)| && Broadcast(pc)[t] == pc[t]
    ensures t < |Signal(pc, w)| && Signal(pc, w)[t] == pc[t]
    ensures |Signal(pc, w)| == |Broadcast(pc)| == |pc|
  {
  }

  lemma BroadcastFreezes(s: State, t: nat)
    requires Inv(s) && t < |s.pc| && s.pc[t] == WxSignal && s.waitingReaders > 0
    ensures Count(Broadcast(s.pc), RAsleep) == 0
    ensures var s1 := s.(pc := Broadcast(s.pc)); Count(s1.pc, WAsleep) == 0 || Frozen(s1)
  {
    hide Count, Rename;
    CountMove(s.pc, t, WxUnlock);
    CountRename(s.pc, RAsleep, RWoken);
  }

  lemma ExecInvReadSignal(s: State, t: nat, w: nat)
    requires Inv(s) && Enabled(s, t) && Choice(s, w) && s.pc[t] == RxSignal
    ensures Inv(Exec(s, t, w))
  {
    hide Count, Inv, Signal, Rename;
    NoSleepers(s);
    CountRenameAt(s.pc, RAsleep, RWoken, WAsleep);
    WakeKeeps(s.pc, t, w);
    if s.waitingWriters > 0 {
      SignalInv(s, w);
      AfterReadSignal(s.(pc := Signal(s.pc, w)), t);
    } else if s.waitingReaders > 0 {
      BroadcastInv(s);
      AfterReadSignal(s.(pc := Broadcast(s.pc)), t);
    } else {
      AfterReadSignal(s, t);
    }
  }

  lemma ExecInvWriteSignal(s: State, t: nat, w: nat)
    requires Inv(s) && Enabled(s, t) && Choice(s, w) && s.pc[t] == WxSignal
    ensures Inv(Exec(s, t, w))
  {
    hide Count, Inv, Signal, Rename, Frozen;
    NoSleepers(s);
    WakeKeeps(s.pc, t, w);
    if s.waitingReaders > 0 {
      BroadcastInv(s);
      BroadcastFreezes(s, t);
      AfterWriteSignal(s.(pc := Broadcast(s.pc)), t);
    } else if s.waitingWriters > 0 {
      SignalInv(s, w);
      SignalReaders(s.pc, w);
      AfterWriteSignal(s.(pc := Signal(s.pc, w)), t);
    } else {
      AfterWriteSignal(s, t);
    }
  }

  lemma NoSleepers(s: State)
    requires Inv(s)
    ensures s.waitingWriters <= 0 ==> Count(s.pc, WAsleep) == 0
    ensures s.waitingReaders <= 0 ==> Count(s.pc, RAsleep) == 0
  {
    hide Count;
  }

  lemma SignalReaders(pc: seq<Pc>, w: nat)
    ensures Count(Signal(pc, w), RAsleep) == Count(pc, RAsleep)
  {
    if w < |pc| {
      CountMove(pc, w, WWoken);
    }
  }

  /** Every operation of every thread keeps the invariant. */
  lemma ExecInv(s: State, t: nat, w: nat)
    requires Inv(s) && Enabled(s, t) && Choice(s, w)
    ensures Inv(Exec(s, t, w))
  {
    hide Inv, Exec;
    match s.pc[t] {
      case RLock | RGuard => ExecInvReadEnter(s, t, w);
      case RWait | RWoken => ExecInvReadWait(s, t, w);
      case RAdmit | RUnlock => ExecInvReadAdmit(s, t, w);
      case RxLock | RxDec => ExecInvReadLeave(s, t, w);
      case WLock | WGuard => ExecInvWriteEnter(s, t, w);
      case WWait | WWoken => ExecInvWriteWait(s, t, w);
      case WAdmit | WUnlock => ExecInvWriteAdmit(s, t, w);
      case WxLock | WxStore => ExecInvWriteLeave(s, t, w);
      case RxUnlock | WxUnlock => ExecInvReturn(s, t, w);
      case RxSignal => ExecInvReadSignal(s, t, w);
      case WxSignal => ExecInvWriteSignal(s, t, w);
    }
  }

  // ----- the frozen region is closed -----

  /** Sleeping writers stay asleep. */
  ghost predicate SleepersStay(s: State, s': State)
  {
    |s'.pc| == |s.pc| && forall u :: 0 <= u < |s.pc| && s.pc[u] == WAsleep ==> s'.pc[u] == WAsleep
  }

  lemma FrozenCall(s: State, t: nat, role: Role)
    requires Inv(s) && Frozen(s) && t < |s.pc| && s.pc[t] == Idle
    ensures Frozen(Call(s, t, role)) && SleepersStay(s, Call(s, t, role))
  {
    hide Count;
    CountMove(s.pc, t, Call(s, t, role).pc[t]);
  }

  lemma FrozenRelease(s: State, t: nat)
    requires Inv(s) && Frozen(s) && t < |s.pc| && PhaseOf(s.pc[t]).Inside?
    ensures Frozen(Release(s, t)) && SleepersStay(s, Release(s, t))
  {
    hide Count;
    CountMove(s.pc, t, Release(s, t).pc[t]);
  }

  /** Even spurious wakeups of readers cannot unfreeze the lock. */
  lemma FrozenSpuriousReader(s: State, t: nat)
    requires Inv(s) && Frozen(s) && t < |s.pc| && s.pc[t] == RAsleep
    ensures Frozen(Spurious(s, t)) && SleepersStay(s, Spurious(s, t))
  {
    hide Count;
    CountMove(s.pc, t, RWoken);
  }

  lemma FrozenReader(s: State, t: nat, w: nat)
    requires Inv(s) && Frozen(s) && Enabled(s, t) && s.pc[t] in {RLock, RGuard, RWait, RWoken, RxUnlock}
    ensures Frozen(Exec(s, t, w)) && SleepersStay(s, Exec(s, t, w))
  {
    hide Count;
    CountMove(s.pc, t, Exec(s, t, w).pc[t]);
  }

  lemma FrozenWriter(s: State, t: nat, w: nat)
    requires Inv(s) && Frozen(s) && Enabled(s, t) && PhaseOf(s.pc[t]).role == Writer && s.pc[t] != WxSignal
    ensures Frozen(Exec(s, t, w)) && SleepersStay(s, Exec(s, t, w))
  {
    hide Count;
    CountMove(s.pc, t, Exec(s, t, w).pc[t]);
  }

  lemma FrozenSignal(s: State, t: nat, w: nat)
    requires Inv(s) && Frozen(s) && Enabled(s, t) && s.pc[t] == WxSignal
    ensures Frozen(Exec(s, t, w)) && SleepersStay(s, Exec(s, t, w))
  {
    hide Count, Signal, InMtxWriter;
    CountMove(s.pc, t, WxUnlock);
    assert s.waitingReaders > 0 by { MtxAlone(s, t); }
    CountRename(s.pc, RAsleep, RWoken);
    CountMove(Broadcast(s.pc), t, WxUnlock);
  }

  /** While a writer holds mtx_ to signal, no reader is inside the monitor. */
  lemma MtxAlone(s: State, t: nat)
    requires Inv(s) && t < |s.pc| && s.pc[t] == WxSignal
    ensures Count(s.pc, RGuard) == Count(s.pc, RWait) == Count(s.pc, RxSignal) == 0
  {
    hide Count;
    CountMove(s.pc, t, WxUnlock);
  }

  /** No reader is past the guard in a frozen state. */
  lemma FrozenNoReader(s: State, t: nat)
    requires Inv(s) && Frozen(s) && t < |s.pc|
    ensures s.pc[t] !in {RAdmit, RUnlock, RIn, RxLock, RxDec, RxSignal}
  {
    hide Count;
    CountMove(s.pc, t, Idle);
  }

  /** The frozen region is closed under every operation of every thread, and no operation from it wakes
      a sleeping writer. */
  lemma FrozenExec(s: State, t: nat, w: nat)
    requires Inv(s) && Frozen(s) && Enabled(s, t)
    ensures Frozen(Exec(s, t, w)) && SleepersStay(s, Exec(s, t, w))
  {
    hide Inv, Exec, Frozen;
    FrozenNoReader(s, t);
    if s.pc[t] == WxSignal {
      FrozenSignal(s, t, w);
    } else if PhaseOf(s.pc[t]).role == Writer {
      FrozenWriter(s, t, w);
    } else {
      FrozenReader(s, t, w);
    }
  }

  /** Whenever mtx_ is free, the frozen region is: no active reader, a waiting reader, a sleeping writer. */
  lemma FrozenWhenFree(s: State)
    requires Inv(s) && !s.mtx
    ensures Frozen(s) <==> s.activeReaders == 0 && s.waitingReaders >= 1 && WAsleep in s.pc
  {
    hide Count;
    CountIn(s.pc, WAsleep);
  }

  // ----- exclusion, admission, progress -----

  ghost function View(s: State): seq<Phase>
  {
    seq(|s.pc|, i requires 0 <= i < |s.pc| => PhaseOf(s.pc[i]))
  }

  lemma InvExclusive(s: State)
    requires Inv(s)
    ensures Exclusive(View(s))
  {
    hide Count, Wakeups, InMtx;
    var v := View(s);
    forall i, j | 0 <= i < |v| && 0 <= j < |v| && i != j && v[i] == Inside(Writer) ensures !v[j].Inside? {
      CountMove(s.pc, i, Idle);
      CountMove(s.pc, j, Idle);
      if s.pc[j] == WIn {
        CountTwo(s.pc, if i < j then i else j, if i < j then j else i);
      }
    }
  }

  /** The broadcast in readUnlock never wakes anyone. */
  lemma ReadUnlockBroadcastIsIdle(s: State, t: nat, w: nat)
    requires Inv(s) && Enabled(s, t) && s.pc[t] == RxSignal && s.waitingWriters <= 0
    ensures Exec(s, t, w) == s.(pc := s.pc[t := RxUnlock])
  {
    assert Count(s.pc, RAsleep) == 0 by {
      hide Count;
      CountMove(s.pc, t, Idle);
    }
    CountIn(s.pc, RAsleep);
    assert Broadcast(s.pc) == s.pc;
  }

  /** While a writer is counted as waiting, no operation admits a reader. */
  lemma NoAdmissionPastWriter(s: State, t: nat, w: nat)
    requires Inv(s) && Enabled(s, t) && s.waitingWriters > 0
    ensures Exec(s, t, w).activeReaders <= s.activeReaders
  {
    hide Count, Signal, Rename;
    CountMove(s.pc, t, Idle);
  }

  /** Threads that can run in the monitor, or whose only obstacle is mtx_. */
  predicate Runs(p: Pc)
  {
    p != Idle && p != RAsleep && p != WAsleep
  }

  lemma OnlySleepers(s: State)
    requires Inv(s) && forall i :: 0 <= i < |s.pc| ==> !Runs(s.pc[i])
    requires exists i :: 0 <= i < |s.pc| && s.pc[i] != Idle
    ensures Frozen(s)
  {
    hide Count;
    forall x: Pc | Runs(x) ensures Count(s.pc, x) == 0 {
      CountIn(s.pc, x);
    }
    var i :| 0 <= i < |s.pc| && s.pc[i] != Idle;
    CountMove(s.pc, i, Idle);
  }

  /** Threads that hold mtx_. */
  predicate Holds(p: Pc)
  {
    match p
    case RGuard | RWait | RAdmit | RUnlock | RxDec | RxSignal | RxUnlock => true
    case WGuard | WWait | WAdmit | WUnlock | WxStore | WxSignal | WxUnlock => true
    case _ => false
  }

  lemma SomeHolder(s: State) returns (t: nat)
    requires Inv(s) && s.mtx
    ensures t < |s.pc| && Holds(s.pc[t])
  {
    hide Count, Guards, Wakeups;
    if i :| 0 <= i < |s.pc| && Holds(s.pc[i]) {
      t := i;
    } else {
      forall x: Pc | Holds(x) ensures Count(s.pc, x) == 0 {
        CountIn(s.pc, x);
      }
      assert false;
    }
  }

  /** While some thread is in a call or holds the lock, some thread can step or release, unless the lock
      is frozen and every thread in a call is asleep. */
  lemma Progress(s: State, c: nat) returns (t: nat)
    requires Inv(s) && c < |s.pc| && s.pc[c] != Idle
    ensures t < |s.pc|
    ensures Enabled(s, t) || PhaseOf(s.pc[t]).Inside? || (Frozen(s) && forall i :: 0 <= i < |s.pc| ==> !Runs(s.pc[i]))
  {
    hide Inv, Frozen;
    if s.mtx {
      t := SomeHolder(s);
    } else if i :| 0 <= i < |s.pc| && Runs(s.pc[i]) {
      t := i;
    } else {
      OnlySleepers(s);
      t := c;
    }
  }

  /** Operations left in the current call, not counting the guard loop. */
  function Major(p: Pc): nat
  {
    match p
    case RLock | RGuard | RWait | RAsleep | RWoken => 8
    case WLock | WGuard | WWait | WAsleep | WWoken => 8
    case RAdmit | WAdmit => 7
    case RUnlock | WUnlock => 6
    case RIn | WIn => 5
    case RxLock | WxLock => 4
    case RxDec | WxStore => 3
    case RxSignal | WxSignal => 2
    case RxUnlock | WxUnlock => 1
    case Idle => 0
  }

  /** Operations until the next sleep in the guard loop. */
  function Minor(p: Pc): nat
  {
    match p
    case RLock | RWoken | WLock | WWoken => 3
    case RGuard | WGuard => 2
    case RWait | WWait => 1
    case _ => 0
  }

  /** A step keeps every other thread's phase and Major. */
  lemma ExecKeepsOthers(s: State, t: nat, w: nat)
    requires Enabled(s, t)
    ensures |Exec(s, t, w).pc| == |s.pc|
    ensures forall i :: 0 <= i < |s.pc| && i != t ==>
      PhaseOf(Exec(s, t, w).pc[i]) == PhaseOf(s.pc[i]) && Major(Exec(s, t, w).pc[i]) == Major(s.pc[i])
  {
    hide PhaseOf, Major;
    assert PhaseOf(RAsleep) == PhaseOf(RWoken) && Major(RAsleep) == Major(RWoken) by { SleepingIsAcquiring(); }
    assert PhaseOf(WAsleep) == PhaseOf(WWoken) && Major(WAsleep) == Major(WWoken) by { SleepingIsAcquiring(); }
  }

  lemma SleepingIsAcquiring()
    ensures PhaseOf(RAsleep) == PhaseOf(RWoken) && Major(RAsleep) == Major(RWoken)
    ensures PhaseOf(WAsleep) == PhaseOf(WWoken) && Major(WAsleep) == Major(WWoken)
  {
  }

  lemma ExecFollows(s: State, t: nat, w: nat)
    requires Enabled(s, t)
    ensures |Exec(s, t, w).pc| == |s.pc| && Follows(PhaseOf(s.pc[t]), PhaseOf(Exec(s, t, w).pc[t]))
  {
  }

  /** A step either lowers its thread's Major, or keeps it, lowers the Minor and moves nobody else. */
  lemma ExecMoves(s: State, t: nat, w: nat)
    requires Enabled(s, t)
    ensures var s' := Exec(s, t, w);
      && |s'.pc| == |s.pc|
      && (|| Major(s'.pc[t]) < Major(s.pc[t])
          || (s'.pc == s.pc[t := s'.pc[t]] && Major(s'.pc[t]) == Major(s.pc[t]) && Minor(s'.pc[t]) < Minor(s.pc[t])))
  {
  }

  // ----- when the frozen region can be entered -----

  /** Only thread u ever writes, and it sleeps only behind readers that will signal it. */
  ghost predicate Solo(s: State, u: nat)
  {
    && (forall i :: 0 <= i < |s.pc| && i != u && !PhaseOf(s.pc[i]).Outside? ==> PhaseOf(s.pc[i]).role == Reader)
    && (u < |s.pc| && s.pc[u] == WAsleep ==> s.activeReaders > 0 || Count(s.pc, RxSignal) > 0)
  }

  lemma SoloSleeps(s: State, u: nat)
    requires Inv(s) && Solo(s, u) && u < |s.pc| && s.pc[u] == WWait
    ensures s.activeReaders > 0
  {
    hide Count, Wakeups, InMtx;
    CountMove(s.pc, u, Idle);
    CountIn(s.pc, WUnlock);
    CountIn(s.pc, WIn);
    CountIn(s.pc, WxLock);
    CountIn(s.pc, WxStore);
  }

  lemma SoloCall(s: State, t: nat, role: Role, u: nat)
    requires Solo(s, u) && t < |s.pc| && s.pc[t] == Idle && (role == Writer ==> t == u)
    ensures Solo(Call(s, t, role), u)
  {
    hide Count;
    CountMove(s.pc, t, Call(s, t, role).pc[t]);
  }

  lemma SoloRelease(s: State, t: nat, u: nat)
    requires Solo(s, u) && t < |s.pc| && PhaseOf(s.pc[t]).Inside?
    ensures Solo(Release(s, t), u)
  {
    hide Count;
    CountMove(s.pc, t, Release(s, t).pc[t]);
  }

  lemma SoloExec(s: State, t: nat, w: nat, u: nat)
    requires Inv(s) && Solo(s, u) && Enabled(s, t) && Choice(s, w)
    ensures Solo(Exec(s, t, w), u)
  {
    ExecFollows(s, t, w);
    ExecKeepsOthers(s, t, w);
    var s' := Exec(s, t, w);
    if u < |s.pc| && s'.pc[u] == WAsleep {
      if s.pc[u] == WWait {
        SoloSleeps(s, u);
      } else {
        SoloStillAsleep(s, t, w, u);
      }
    }
  }

  lemma SoloSpurious(s: State, t: nat, u: nat)
    requires Solo(s, u) && t < |s.pc| && (s.pc[t] == RAsleep || s.pc[t] == WAsleep)
    ensures Solo(Spurious(s, t), u)
  {
    hide Count;
    CountMove(s.pc, t, Spurious(s, t).pc[t]);
  }

  lemma SoloStillAsleep(s: State, t: nat, w: nat, u: nat)
    requires Inv(s) && Solo(s, u) && Enabled(s, t) && Choice(s, w) && u < |s.pc|
    requires s.pc[u] == WAsleep && Exec(s, t, w).pc[u] == WAsleep
    ensures var s' := Exec(s, t, w); s'.activeReaders > 0 || Count(s'.pc, RxSignal) > 0
  {
    var s' := Exec(s, t, w);
    assert s.pc[t] == RxSignal ==> w == u by {
      assert s.pc[u] in s.pc;
    }
    assert s.waitingWriters > 0 by {
      hide Count;
      CountMove(s.pc, u, Idle);
    }
    if Count(s.pc, RxSignal) > 0 {
      var i := CountWitness(s.pc, RxSignal);
      assert false;
    } else if s.pc[t] == RxDec {
      CountIn(s'.pc, RxSignal);
    }
  }

  /** With a single writer the frozen region is never entered. */
  lemma SoloNotFrozen(s: State, u: nat)
    requires Inv(s) && Solo(s, u)
    ensures !Frozen(s)
  {
    if Frozen(s) {
      var i := CountWitness(s.pc, WAsleep);
    }
  }

  /** Admitted and not yet returned. */
  predicate AdmittedPc(p: Pc)
  {
    Major(p) < 7 && p != Idle
  }

  /** Every sleeping writer went to sleep because of an admitted call. */
  ghost predicate Caused(s: State)
  {
    WAsleep in s.pc ==> exists i :: 0 <= i < |s.pc| && AdmittedPc(s.pc[i])
  }

  lemma ActiveIsAdmitted(s: State) returns (i: nat)
    requires Counters(s) && (s.activeReaders > 0 || s.activeWriter)
    ensures i < |s.pc| && AdmittedPc(s.pc[i]) && s.pc[i] != WWait
  {
    hide Count;
    if Count(s.pc, RUnlock) > 0 { i := CountWitness(s.pc, RUnlock); return; }
    if Count(s.pc, RIn) > 0 { i := CountWitness(s.pc, RIn); return; }
    if Count(s.pc, RxLock) > 0 { i := CountWitness(s.pc, RxLock); return; }
    if Count(s.pc, RxDec) > 0 { i := CountWitness(s.pc, RxDec); return; }
    if Count(s.pc, WUnlock) > 0 { i := CountWitness(s.pc, WUnlock); return; }
    if Count(s.pc, WIn) > 0 { i := CountWitness(s.pc, WIn); return; }
    if Count(s.pc, WxLock) > 0 { i := CountWitness(s.pc, WxLock); return; }
    i := CountWitness(s.pc, WxStore);
  }

  lemma CausedCall(s: State, t: nat, role: Role)
    requires t < |s.pc| && s.pc[t] == Idle
    ensures Caused(s) ==> Caused(Call(s, t, role))
  {
    var s' := Call(s, t, role);
    if Caused(s) && WAsleep in s'.pc {
      assert WAsleep in s.pc by { var u :| 0 <= u < |s'.pc| && s'.pc[u] == WAsleep; assert s.pc[u] == WAsleep; }
      var i :| 0 <= i < |s.pc| && AdmittedPc(s.pc[i]);
      assert AdmittedPc(s'.pc[i]);
    }
  }

  lemma CausedRelease(s: State, t: nat)
    requires t < |s.pc| && PhaseOf(s.pc[t]).Inside?
    ensures Caused(s) ==> Caused(Release(s, t))
  {
    var s' := Release(s, t);
    assert AdmittedPc(s'.pc[t]);
  }

  lemma CausedSpurious(s: State, t: nat)
    requires t < |s.pc| && (s.pc[t] == RAsleep || s.pc[t] == WAsleep)
    ensures Caused(s) ==> Caused(Spurious(s, t))
  {
    var s' := Spurious(s, t);
    if Caused(s) && WAsleep in s'.pc {
      assert WAsleep in s.pc by { var u :| 0 <= u < |s'.pc| && s'.pc[u] == WAsleep; assert s.pc[u] == WAsleep; }
      var i :| 0 <= i < |s.pc| && AdmittedPc(s.pc[i]);
      assert AdmittedPc(s'.pc[i]);
    }
  }

  lemma SleepsBehindActive(s: State, t: nat)
    requires Inv(s) && t < |s.pc| && s.pc[t] == WWait
    ensures s.activeReaders > 0 || s.activeWriter
  {
    CountIn(s.pc, WWait);
  }

  /** Only a returning call can leave a sleeping writer without a cause. */
  lemma CausedExec(s: State, t: nat, w: nat)
    requires Inv(s) && Caused(s) && Enabled(s, t)
    ensures Caused(Exec(s, t, w)) || Exec(s, t, w).pc[t] == Idle
  {
    hide AdmittedPc, Guards, Wakeups, InMtx;
    var s' := Exec(s, t, w);
    if WAsleep in s'.pc && s'.pc[t] != Idle {
      if s.pc[t] == WWait {
        SleepsBehindActive(s, t);
        var i := ActiveIsAdmitted(s);
        assert s'.pc[i] == s.pc[i];
      } else {
        SleeperSlept(s, t, w);
        var i :| 0 <= i < |s.pc| && AdmittedPc(s.pc[i]);
        AdmittedStays(s, t, w, i);
      }
    }
  }

  lemma SleeperSlept(s: State, t: nat, w: nat)
    requires Enabled(s, t) && s.pc[t] != WWait && WAsleep in Exec(s, t, w).pc
    ensures WAsleep in s.pc
  {
    var u :| 0 <= u < |Exec(s, t, w).pc| && Exec(s, t, w).pc[u] == WAsleep;
    assert s.pc[u] == WAsleep;
  }

  lemma AdmittedStays(s: State, t: nat, w: nat, i: nat)
    requires Enabled(s, t) && Exec(s, t, w).pc[t] != Idle && i < |s.pc| && AdmittedPc(s.pc[i])
    ensures i < |Exec(s, t, w).pc| && AdmittedPc(Exec(s, t, w).pc[i])
  {
    if i == t {
      ExecMoves(s, t, w);
    } else {
      ExecKeepsOthers(s, t, w);
      assert Exec(s, t, w).pc[i] != Idle;
    }
  }

  /** What one turn of thread t does: it goes on with its call, starts a call of the given role, or starts
      the unlock call; a thread that has to wait stays where it is. */
  function Turn(s: State, t: nat, role: Role, w: nat): State
    requires t < |s.pc|
  {
    match PhaseOf(s.pc[t])
    case Outside => Call(s, t, role)
    case Inside(_) => Release(s, t)
    case _ => if Enabled(s, t) then Exec(s, t, w) else s
  }

  lemma TurnInv(s: State, t: nat, role: Role, w: nat)
    requires Inv(s) && t < |s.pc| && Choice(s, w)
    ensures Inv(Turn(s, t, role, w)) && |Turn(s, t, role, w).pc| == |s.pc|
  {
    hide Inv, Exec, Enabled;
    match PhaseOf(s.pc[t]) {
      case Outside => CallInv(s, t, role);
      case Inside(_) => ReleaseInv(s, t);
      case _ =>
        if Enabled(s, t) {
          ExecInv(s, t, w);
          ExecFollows(s, t, w);
        }
    }
  }

  /** One turn per entry of the schedule; an entry whose pick of a sleeper is not legal is passed over. */
  ghost function Turns(s: State, schedule: seq<(nat, Role, nat)>): State
    decreases |schedule|
  {
    if schedule == [] then s
    else
      var s', (t, role, w) := Turns(s, schedule[..|schedule|-1]), schedule[|schedule|-1];
      if t < |s'.pc| && Choice(s', w) then Turn(s', t, role, w) else s'
  }

  /** The monitor as an object whose methods are run one operation at a time; pc[t] is where thread t stands. */
  class FairMorrisLock {
    var mtx: bool
    var activeReaders: int
    var activeWriter: bool
    var waitingReaders: int
    var waitingWriters: int
    var pc: seq<Pc>

    function Now(): State
      reads this
    {
      State(pc, mtx, activeReaders, activeWriter, waitingReaders, waitingWriters)
    }

    ghost predicate Valid()
      reads this
    {
      Inv(Now())
    }

    constructor (n: nat)
      ensures Now() == Init(n) && Valid()
    {
      pc := seq(n, _ => Idle);
      mtx, activeReaders, activeWriter := false, 0, false;
      waitingReaders, waitingWriters := 0, 0;
      new;
      InitInv(n);
    }

    /** The next operation of thread t in readLock; moved is false when the thread has to wait. */
    method ReadLock(t: nat, w: nat) returns (moved: bool)
      requires Valid() && Choice(Now(), w)
      requires t < |pc| && (pc[t] == Idle || PhaseOf(pc[t]) == Acquiring(Reader))
      modifies this
      ensures Valid()
      ensures old(pc[t] == Idle) ==> moved && Now() == Call(old(Now()), t, Reader)
      ensures old(pc[t] != Idle) ==>
        moved == Enabled(old(Now()), t) && Now() == if moved then Exec(old(Now()), t, w) else old(Now())
    {
      hide Inv;
      TurnInv(Now(), t, Reader, w);
      moved := true;
      match pc[t] {
        case Idle => pc := pc[t := RLock];
        case RLock => if mtx { moved := false; } else { mtx := true; pc := pc[t := RGuard]; }
        case RGuard => pc := pc[t := if activeWriter || waitingWriters > 0 then RWait else RAdmit];
        case RWait => waitingReaders := waitingReaders + 1; mtx := false; pc := pc[t := RAsleep];
        case RAsleep => moved := false;
        case RWoken =>
          if mtx { moved := false; } else { mtx := true; waitingReaders := waitingReaders - 1; pc := pc[t := RGuard]; }
        case RAdmit => activeReaders := activeReaders + 1; pc := pc[t := RUnlock];
        case RUnlock => mtx := false; pc := pc[t := RIn];
      }
    }

    /** The next operation of thread t in readUnlock; moved is false when the thread has to wait. */
    method ReadUnlock(t: nat, w: nat) returns (moved: bool)
      requires Valid() && Choice(Now(), w)
      requires t < |pc| && (pc[t] == RIn || PhaseOf(pc[t]) == Releasing(Reader))
      modifies this
      ensures Valid()
      ensures old(pc[t] == RIn) ==> moved && Now() == Release(old(Now()), t)
      ensures old(pc[t] != RIn) ==>
        moved == Enabled(old(Now()), t) && Now() == if moved then Exec(old(Now()), t, w) else old(Now())
    {
      hide Inv;
      TurnInv(Now(), t, Reader, w);
      moved := true;
      match pc[t] {
        case RIn => pc := pc[t := RxLock];
        case RxLock => if mtx { moved := false; } else { mtx := true; pc := pc[t := RxDec]; }
        case RxDec =>
          activeReaders := activeReaders - 1;
          pc := pc[t := if activeReaders == 0 then RxSignal else RxUnlock];
        case RxSignal =>
          if waitingWriters > 0 { pc := Signal(pc, w); } else if waitingReaders > 0 { pc := Broadcast(pc); }
          pc := pc[t := RxUnlock];
        case RxUnlock => mtx := false; pc := pc[t := Idle];
      }
    }

    /** The next operation of thread t in writeLock; moved is false when the thread has to wait. */
    method WriteLock(t: nat, w: nat) returns (moved: bool)
      requires Valid() && Choice(Now(), w)
      requires t < |pc| && (pc[t] == Idle || PhaseOf(pc[t]) == Acquiring(Writer))
      modifies this
      ensures Valid()
      ensures old(pc[t] == Idle) ==> moved && Now() == Call(old(Now()), t, Writer)
      ensures old(pc[t] != Idle) ==>
        moved == Enabled(old(Now()), t) && Now() == if moved then Exec(old(Now()), t, w) else old(Now())
    {
      hide Inv;
      TurnInv(Now(), t, Writer, w);
      moved := true;
      match pc[t] {
        case Idle => pc := pc[t := WLock];
        case WLock => if mtx { moved := false; } else { mtx := true; pc := pc[t := WGuard]; }
        case WGuard => pc := pc[t := if activeReaders > 0 || activeWriter then WWait else WAdmit];
        case WWait => waitingWriters := waitingWriters + 1; mtx := false; pc := pc[t := WAsleep];
        case WAsleep => moved := false;
        case WWoken =>
          if mtx { moved := false; } else { mtx := true; waitingWriters := waitingWriters - 1; pc := pc[t := WGuard]; }
        case WAdmit => activeWriter := true; pc := pc[t := WUnlock];
        case WUnlock => mtx := false; pc := pc[t := WIn];
      }
    }

    /** The next operation of thread t in writeUnlock; moved is false when the thread has to wait. */
    method WriteUnlock(t: nat, w: nat) returns (moved: bool)
      requires Valid() && Choice(Now(), w)
      requires t < |pc| && (pc[t] == WIn || PhaseOf(pc[t]) == Releasing(Writer))
      modifies this
      ensures Valid()
      ensures old(pc[t] == WIn) ==> moved && Now() == Release(old(Now()), t)
      ensures old(pc[t] != WIn) ==>
        moved == Enabled(old(Now()), t) && Now() == if moved then Exec(old(Now()), t, w) else old(Now())
    {
      hide Inv;
      TurnInv(Now(), t, Writer, w);
      moved := true;
      match pc[t] {
        case WIn => pc := pc[t := WxLock];
        case WxLock => if mtx { moved := false; } else { mtx := true; pc := pc[t := WxStore]; }
        case WxStore => activeWriter := false; pc := pc[t := WxSignal];
        case WxSignal =>
          if waitingReaders > 0 { pc := Broadcast(pc); } else if waitingWriters > 0 { pc := Signal(pc, w); }
          pc := pc[t := WxUnlock];
        case WxUnlock => mtx := false; pc := pc[t := Idle];
      }
    }

    method TakeTurn(t: nat, role: Role, w: nat)
      requires Valid() && Choice(Now(), w) && t < |pc|
      modifies this
      ensures Valid() && Now() == Turn(old(Now()), t, role, w)
    {
      hide Inv, Exec, Call, Release, Enabled;
      var moved;
      match PhaseOf(pc[t]) {
        case Outside => if role == Reader { moved := ReadLock(t, w); } else { moved := WriteLock(t, w); }
        case Inside(holder) => if holder == Reader { moved := ReadUnlock(t, w); } else { moved := WriteUnlock(t, w); }
        case Acquiring(caller) => if caller == Reader { moved := ReadLock(t, w); } else { moved := WriteLock(t, w); }
        case Releasing(caller) =>
          if caller == Reader { moved := ReadUnlock(t, w); } else { moved := WriteUnlock(t, w); }
      }
    }

    /** Runs any interleaving, turn by turn.  No schedule ever breaks exclusion. */
    method Interleave(schedule: seq<(nat, Role, nat)>)
      requires Valid()
      modifies this
      ensures Now() == Turns(old(Now()), schedule)
      ensures Valid() && |pc| == old(|pc|) && Exclusive(View(Now()))
    {
      for i := 0 to |schedule|
        invariant Valid() && |Now().pc| == old(|pc|) && Now() == Turns(old(Now()), schedule[..i])
      {
        hide Inv, Turn;
        assert schedule[..i+1][..i] == schedule[..i];
        var t, role, w := schedule[i].0, schedule[i].1, schedule[i].2;
        if t < |pc| && Choice(Now(), w) {
          TurnInv(Now(), t, role, w);
          TakeTurn(t, role, w);
        }
      }
      assert schedule[..|schedule|] == schedule;
      InvExclusive(Now());
    }
  }
}
