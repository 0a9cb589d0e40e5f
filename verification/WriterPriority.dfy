/** WriterPriorityLock: Problem 2 of Courtois, Heymans and Parnas (1971), with five semaphores.  rsem_ and
    wrt_ are group tokens: one thread takes them and another one posts them, so the invariant counts
    threads per program point instead of naming an owner. */
module WriterPriority {
  import opened Counting
  import opened RwSpec

  datatype Pc =
    | Idle
    | RTry        // readLock: readTry_.wait()
    | RGate       // rsem_.wait()
    | RMutex      // mutex1_.wait()
    | RInc        // ++readCount_
    | RWrt        // first reader: wrt_.wait()
    | RPostMutex  // mutex1_.post()
    | RPostGate   // rsem_.post()
    | RPostTry    // readTry_.post()
    | RIn         // reading
    | RxMutex     // readUnlock: mutex1_.wait()
    | RxDec       // --readCount_
    | RxWrt       // last reader: wrt_.post()
    | RxPost      // mutex1_.post()
    | WMutex      // writeLock: mutex2_.wait()
    | WInc        // ++writeCount_
    | WGate       // first writer: rsem_.wait()
    | WPost       // mutex2_.post()
    | WWrt        // wrt_.wait()
    | WStore      // writerActive_.store(true)
    | WIn         // writing
    | WxStore     // writeUnlock: writerActive_.store(false)
    | WxWrt       // wrt_.post()
    | WxMutex     // mutex2_.wait()
    | WxDec       // --writeCount_
    | WxGate      // last writer: rsem_.post()
    | WxPost      // mutex2_.post()

  datatype State = State(pc: seq<Pc>, readCount: int, writeCount: int, writerActive: bool,
                         mutex1: nat, mutex2: nat, rsem: nat, wrt: nat, readTry: nat)

  function PhaseOf(p: Pc): Phase
  {
    match p
    case Idle => Outside
    case RTry | RGate | RMutex | RInc | RWrt | RPostMutex | RPostGate | RPostTry => Acquiring(Reader)
    case RIn => Inside(Reader)
    case RxMutex | RxDec | RxWrt | RxPost => Releasing(Reader)
    case WMutex | WInc | WGate | WPost | WWrt | WStore => Acquiring(Writer)
    case WIn => Inside(Writer)
    case WxStore | WxWrt | WxMutex | WxDec | WxGate | WxPost => Releasing(Writer)
  }

  function Init(n: nat): State
  {
    State(seq(n, _ => Idle), 0, 0, false, 1, 1, 1, 1, 1)
  }

  function Call(s: State, t: nat, role: Role): State
    requires t < |s.pc|
  {
    s.(pc := s.pc[t := if role == Reader then RTry else WMutex])
  }

  function Release(s: State, t: nat): State
    requires t < |s.pc|
  {
    s.(pc := s.pc[t := if s.pc[t] == RIn then RxMutex else WxStore])
  }

  /** sem_wait can return only while the count is positive; every other operation can run at once. */
  predicate Enabled(s: State, t: nat)
  {
    t < |s.pc| &&
    match s.pc[t]
    case Idle | RIn | WIn => false
    case RTry => s.readTry > 0
    case RGate | WGate => s.rsem > 0
    case RMutex | RxMutex => s.mutex1 > 0
    case RWrt | WWrt => s.wrt > 0
    case WMutex | WxMutex => s.mutex2 > 0
    case _ => true
  }

  /** The next operation of thread t. */
  function Exec(s: State, t: nat): State
    requires Enabled(s, t)
  {
    match s.pc[t]
    case RTry => s.(pc := s.pc[t := RGate], readTry := s.readTry - 1)
    case RGate => s.(pc := s.pc[t := RMutex], rsem := s.rsem - 1)
    case RMutex => s.(pc := s.pc[t := RInc], mutex1 := s.mutex1 - 1)
    case RInc => s.(pc := s.pc[t := if s.readCount + 1 == 1 then RWrt else RPostMutex], readCount := s.readCount + 1)
    case RWrt => s.(pc := s.pc[t := RPostMutex], wrt := s.wrt - 1)
    case RPostMutex => s.(pc := s.pc[t := RPostGate], mutex1 := s.mutex1 + 1)
    case RPostGate => s.(pc := s.pc[t := RPostTry], rsem := s.rsem + 1)
    case RPostTry => s.(pc := s.pc[t := RIn], readTry := s.readTry + 1)
    case RxMutex => s.(pc := s.pc[t := RxDec], mutex1 := s.mutex1 - 1)
    case RxDec => s.(pc := s.pc[t := if s.readCount - 1 == 0 then RxWrt else RxPost], readCount := s.readCount - 1)
    case RxWrt => s.(pc := s.pc[t := RxPost], wrt := s.wrt + 1)
    case RxPost => s.(pc := s.pc[t := Idle], mutex1 := s.mutex1 + 1)
    case WMutex => s.(pc := s.pc[t := WInc], mutex2 := s.mutex2 - 1)
    case WInc => s.(pc := s.pc[t := if s.writeCount + 1 == 1 then WGate else WPost], writeCount := s.writeCount + 1)
    case WGate => s.(pc := s.pc[t := WPost], rsem := s.rsem - 1)
    case WPost => s.(pc := s.pc[t := WWrt], mutex2 := s.mutex2 + 1)
    case WWrt => s.(pc := s.pc[t := WStore], wrt := s.wrt - 1)
    case WStore => s.(pc := s.pc[t := WIn], writerActive := true)
    case WxStore => s.(pc := s.pc[t := WxWrt], writerActive := false)
    case WxWrt => s.(pc := s.pc[t := WxMutex], wrt := s.wrt + 1)
    case WxMutex => s.(pc := s.pc[t := WxDec], mutex2 := s.mutex2 - 1)
    case WxDec => s.(pc := s.pc[t := if s.writeCount - 1 == 0 then WxGate else WxPost], writeCount := s.writeCount - 1)
    case WxGate => s.(pc := s.pc[t := WxPost], rsem := s.rsem + 1)
    case WxPost => s.(pc := s.pc[t := Idle], mutex2 := s.mutex2 + 1)
  }

  ghost function InTry(s: State): nat
  {
    Count(s.pc, RGate) + Count(s.pc, RMutex) + Count(s.pc, RInc) + Count(s.pc, RWrt) +
    Count(s.pc, RPostMutex) + Count(s.pc, RPostGate) + Count(s.pc, RPostTry)
  }

  ghost function InMutex1(s: State): nat
  {
    Count(s.pc, RInc) + Count(s.pc, RWrt) + Count(s.pc, RPostMutex) +
    Count(s.pc, RxDec) + Count(s.pc, RxWrt) + Count(s.pc, RxPost)
  }

  ghost function InMutex2(s: State): nat
  {
    Count(s.pc, WInc) + Count(s.pc, WGate) + Count(s.pc, WPost) +
    Count(s.pc, WxDec) + Count(s.pc, WxGate) + Count(s.pc, WxPost)
  }

  /** Readers between rsem_.wait() and rsem_.post(). */
  ghost function ReaderGate(s: State): nat
  {
    Count(s.pc, RMutex) + Count(s.pc, RInc) + Count(s.pc, RWrt) + Count(s.pc, RPostMutex) + Count(s.pc, RPostGate)
  }

  /** Writers for whose group rsem_ is held. */
  ghost function WriterGate(s: State): nat
  {
    Count(s.pc, WPost) + Count(s.pc, WWrt) + WriterHold(s) +
    Count(s.pc, WxMutex) + Count(s.pc, WxDec) + Count(s.pc, WxGate)
  }

  /** Readers for whose group wrt_ is held. */
  ghost function ReaderGroup(s: State): nat
  {
    Count(s.pc, RPostMutex) + Count(s.pc, RPostGate) + Count(s.pc, RPostTry) + Count(s.pc, RIn) +
    Count(s.pc, RxMutex) + Count(s.pc, RxDec) + Count(s.pc, RxWrt)
  }

  /** Writers that hold wrt_. */
  ghost function WriterHold(s: State): nat
  {
    Count(s.pc, WStore) + Count(s.pc, WIn) + Count(s.pc, WxStore) + Count(s.pc, WxWrt)
  }

  /** What the readers' side of the protocol keeps. */
  ghost predicate ReaderInv(s: State)
  {
    && s.readTry + InTry(s) == 1
    && s.mutex1 + InMutex1(s) == 1
    && s.readCount == Count(s.pc, RWrt) + ReaderGroup(s) - Count(s.pc, RxWrt)
    && (Count(s.pc, RWrt) > 0 ==> s.readCount == 1)
    && (Count(s.pc, RxWrt) > 0 ==> s.readCount == 0)
  }

  /** What the writers' side of the protocol keeps. */
  ghost predicate WriterInv(s: State)
  {
    && s.mutex2 + InMutex2(s) == 1
    && s.writeCount == Count(s.pc, WGate) + WriterGate(s) - Count(s.pc, WxGate)
    && (Count(s.pc, WGate) > 0 ==> s.writeCount == 1)
    && (Count(s.pc, WxGate) > 0 ==> s.writeCount == 0)
    && s.writerActive == (Count(s.pc, WIn) + Count(s.pc, WxStore) > 0)
  }

  /** The two group tokens: each semaphore is 1 minus the one group that holds it. */
  ghost predicate TokenInv(s: State)
  {
    && s.rsem + ReaderGate(s) + (if WriterGate(s) > 0 then 1 else 0) == 1
    && s.wrt + (if ReaderGroup(s) > 0 then 1 else 0) + WriterHold(s) == 1
  }

  ghost predicate Inv(s: State)
  {
    ReaderInv(s) && WriterInv(s) && TokenInv(s)
  }

  lemma InitInv(n: nat)
    ensures Inv(Init(n))
  {
    hide Count;
    CountAllIdle(Init(n).pc, Idle);
  }

  lemma CallInv(s: State, t: nat, role: Role)
    requires Inv(s) && t < |s.pc| && s.pc[t] == Idle
    ensures Inv(Call(s, t, role))
  {
    hide Count;
    CountMove(s.pc, t, Call(s, t, role).pc[t]);
  }

  lemma ReleaseInv(s: State, t: nat)
    requires Inv(s) && t < |s.pc| && PhaseOf(s.pc[t]).Inside?
    ensures Inv(Release(s, t))
  {
    hide Count;
    CountMove(s.pc, t, Release(s, t).pc[t]);
  }

  /** What one side of the protocol does leaves the counts of the other side alone. */
  lemma ReadLockKeepsWriters(s: State, t: nat)
    requires WriterInv(s) && Enabled(s, t) && PhaseOf(s.pc[t]) == Acquiring(Reader)
    ensures WriterInv(Exec(s, t))
  {
    hide Count;
    CountMove(s.pc, t, Exec(s, t).pc[t]);
  }

  lemma ReadUnlockKeepsWriters(s: State, t: nat)
    requires WriterInv(s) && Enabled(s, t) && PhaseOf(s.pc[t]) == Releasing(Reader)
    ensures WriterInv(Exec(s, t))
  {
    hide Count;
    CountMove(s.pc, t, Exec(s, t).pc[t]);
  }

  lemma WriteLockKeepsReaders(s: State, t: nat)
    requires ReaderInv(s) && Enabled(s, t) && PhaseOf(s.pc[t]) == Acquiring(Writer)
    ensures ReaderInv(Exec(s, t))
  {
    hide Count;
    CountMove(s.pc, t, Exec(s, t).pc[t]);
  }

  lemma WriteLeaveKeepsReaders(s: State, t: nat)
    requires ReaderInv(s) && Enabled(s, t) && s.pc[t] in {WxStore, WxWrt, WxMutex}
    ensures ReaderInv(Exec(s, t))
  {
    hide Count;
    CountMove(s.pc, t, Exec(s, t).pc[t]);
  }

  lemma WriteDoneKeepsReaders(s: State, t: nat)
    requires ReaderInv(s) && Enabled(s, t) && s.pc[t] in {WxDec, WxGate, WxPost}
    ensures ReaderInv(Exec(s, t))
  {
    hide Count;
    CountMove(s.pc, t, Exec(s, t).pc[t]);
  }

  lemma ReadEnterCounts(s: State, t: nat)
    requires ReaderInv(s) && Enabled(s, t) && s.pc[t] in {RTry, RGate}
    ensures ReaderInv(Exec(s, t))
  {
    hide Count;
    CountMove(s.pc, t, Exec(s, t).pc[t]);
  }

  lemma ReadEnterTokens(s: State, t: nat)
    requires ReaderInv(s) && TokenInv(s) && Enabled(s, t) && s.pc[t] in {RTry, RGate}
    ensures TokenInv(Exec(s, t))
  {
    hide Count, InTry;
    CountMove(s.pc, t, Exec(s, t).pc[t]);
  }

  lemma ReadCountCounts(s: State, t: nat)
    requires ReaderInv(s) && Enabled(s, t) && s.pc[t] in {RMutex, RInc}
    ensures ReaderInv(Exec(s, t))
  {
    hide Count;
    CountMove(s.pc, t, Exec(s, t).pc[t]);
  }

  lemma ReadCountTokens(s: State, t: nat)
    requires ReaderInv(s) && TokenInv(s) && Enabled(s, t) && s.pc[t] in {RMutex, RInc}
    ensures TokenInv(Exec(s, t))
  {
    hide Count, InTry;
    CountMove(s.pc, t, Exec(s, t).pc[t]);
  }

  lemma ReadWrtCounts(s: State, t: nat)
    requires ReaderInv(s) && Enabled(s, t) && s.pc[t] in {RWrt, RPostMutex}
    ensures ReaderInv(Exec(s, t))
  {
    hide Count;
    CountMove(s.pc, t, Exec(s, t).pc[t]);
  }

  lemma ReadWrtTokens(s: State, t: nat)
    requires ReaderInv(s) && TokenInv(s) && Enabled(s, t) && s.pc[t] in {RWrt, RPostMutex}
    ensures TokenInv(Exec(s, t))
  {
    hide Count, InTry;
    CountMove(s.pc, t, Exec(s, t).pc[t]);
  }

  lemma ReadPostCounts(s: State, t: nat)
    requires ReaderInv(s) && Enabled(s, t) && s.pc[t] in {RPostGate, RPostTry}
    ensures ReaderInv(Exec(s, t))
  {
    hide Count;
    CountMove(s.pc, t, Exec(s, t).pc[t]);
  }

  lemma ReadPostTokens(s: State, t: nat)
    requires ReaderInv(s) && TokenInv(s) && Enabled(s, t) && s.pc[t] in {RPostGate, RPostTry}
    ensures TokenInv(Exec(s, t))
  {
    hide Count, InTry;
    CountMove(s.pc, t, Exec(s, t).pc[t]);
  }

  lemma ReadLeaveCounts(s: State, t: nat)
    requires ReaderInv(s) && Enabled(s, t) && s.pc[t] in {RxMutex, RxDec}
    ensures ReaderInv(Exec(s, t))
  {
    hide Count;
    CountMove(s.pc, t, Exec(s, t).pc[t]);
  }

  lemma ReadLeaveTokens(s: State, t: nat)
    requires ReaderInv(s) && TokenInv(s) && Enabled(s, t) && s.pc[t] in {RxMutex, RxDec}
    ensures TokenInv(Exec(s, t))
  {
    hide Count, InTry;
    CountMove(s.pc, t, Exec(s, t).pc[t]);
  }

  lemma ReadDoneCounts(s: State, t: nat)
    requires ReaderInv(s) && Enabled(s, t) && s.pc[t] in {RxWrt, RxPost}
    ensures ReaderInv(Exec(s, t))
  {
    hide Count;
    CountMove(s.pc, t, Exec(s, t).pc[t]);
  }

  lemma ReadDoneTokens(s: State, t: nat)
    requires ReaderInv(s) && TokenInv(s) && Enabled(s, t) && s.pc[t] in {RxWrt, RxPost}
    ensures TokenInv(Exec(s, t))
  {
    hide Count, InTry;
    CountMove(s.pc, t, Exec(s, t).pc[t]);
  }

  lemma WriteEnterCounts(s: State, t: nat)
    requires WriterInv(s) && TokenInv(s) && Enabled(s, t) && s.pc[t] in {WMutex, WInc}
    ensures WriterInv(Exec(s, t))
  {
    hide Count, ReaderGate, ReaderGroup;
    CountMove(s.pc, t, Exec(s, t).pc[t]);
  }

  lemma WriteEnterTokens(s: State, t: nat)
    requires WriterInv(s) && TokenInv(s) && Enabled(s, t) && s.pc[t] in {WMutex, WInc}
    ensures TokenInv(Exec(s, t))
  {
    hide Count;
    CountMove(s.pc, t, Exec(s, t).pc[t]);
  }

  lemma WriteGateCounts(s: State, t: nat)
    requires WriterInv(s) && TokenInv(s) && Enabled(s, t) && s.pc[t] in {WGate, WPost}
    ensures WriterInv(Exec(s, t))
  {
    hide Count, ReaderGate, ReaderGroup;
    CountMove(s.pc, t, Exec(s, t).pc[t]);
  }

  lemma WriteGateTokens(s: State, t: nat)
    requires WriterInv(s) && TokenInv(s) && Enabled(s, t) && s.pc[t] in {WGate, WPost}
    ensures TokenInv(Exec(s, t))
  {
    hide Count;
    CountMove(s.pc, t, Exec(s, t).pc[t]);
  }

  lemma WriteWrtCounts(s: State, t: nat)
    requires WriterInv(s) && TokenInv(s) && Enabled(s, t) && s.pc[t] in {WWrt, WStore}
    ensures WriterInv(Exec(s, t))
  {
    hide Count, ReaderGate, ReaderGroup;
    CountMove(s.pc, t, Exec(s, t).pc[t]);
  }

  lemma WriteWrtTokens(s: State, t: nat)
    requires WriterInv(s) && TokenInv(s) && Enabled(s, t) && s.pc[t] in {WWrt, WStore}
    ensures TokenInv(Exec(s, t))
  {
    hide Count;
    CountMove(s.pc, t, Exec(s, t).pc[t]);
  }

  lemma WriteLeaveCounts(s: State, t: nat)
    requires WriterInv(s) && TokenInv(s) && Enabled(s, t) && s.pc[t] in {WxStore, WxWrt}
    ensures WriterInv(Exec(s, t))
  {
    hide Count, ReaderGate, ReaderGroup;
    CountMove(s.pc, t, Exec(s, t).pc[t]);
  }

  lemma WriteLeaveTokens(s: State, t: nat)
    requires WriterInv(s) && TokenInv(s) && Enabled(s, t) && s.pc[t] in {WxStore, WxWrt}
    ensures TokenInv(Exec(s, t))
  {
    hide Count;
    CountMove(s.pc, t, Exec(s, t).pc[t]);
  }

  lemma WriteCountCounts(s: State, t: nat)
    requires WriterInv(s) && TokenInv(s) && Enabled(s, t) && s.pc[t] in {WxMutex, WxDec}
    ensures WriterInv(Exec(s, t))
  {
    hide Count, ReaderGate, ReaderGroup;
    CountMove(s.pc, t, Exec(s, t).pc[t]);
  }

  lemma WriteCountTokens(s: State, t: nat)
    requires WriterInv(s) && TokenInv(s) && Enabled(s, t) && s.pc[t] in {WxMutex, WxDec}
    ensures TokenInv(Exec(s, t))
  {
    hide Count;
    CountMove(s.pc, t, Exec(s, t).pc[t]);
  }

  lemma WriteDoneCounts(s: State, t: nat)
    requires WriterInv(s) && TokenInv(s) && Enabled(s, t) && s.pc[t] in {WxGate, WxPost}
    ensures WriterInv(Exec(s, t))
  {
    hide Count, ReaderGate, ReaderGroup;
    CountMove(s.pc, t, Exec(s, t).pc[t]);
  }

  lemma WriteDoneTokens(s: State, t: nat)
    requires WriterInv(s) && TokenInv(s) && Enabled(s, t) && s.pc[t] in {WxGate, WxPost}
    ensures TokenInv(Exec(s, t))
  {
    hide Count;
    CountMove(s.pc, t, Exec(s, t).pc[t]);
  }

  /** Every operation of every thread keeps the counting invariant. */
  lemma ExecInv(s: State, t: nat)
    requires Inv(s) && Enabled(s, t)
    ensures Inv(Exec(s, t))
  {
    hide ReaderInv, WriterInv, TokenInv, Exec;
    match PhaseOf(s.pc[t]) {
      case Acquiring(Reader) => ReadLockKeepsWriters(s, t);
      case Releasing(Reader) => ReadUnlockKeepsWriters(s, t);
      case Acquiring(Writer) => WriteLockKeepsReaders(s, t);
      case Releasing(Writer) =>
        if s.pc[t] in {WxStore, WxWrt, WxMutex} { WriteLeaveKeepsReaders(s, t); } else { WriteDoneKeepsReaders(s, t); }
      case _ =>
    }
    match s.pc[t] {
      case RTry | RGate => ReadEnterCounts(s, t); ReadEnterTokens(s, t);
      case RMutex | RInc => ReadCountCounts(s, t); ReadCountTokens(s, t);
      case RWrt | RPostMutex => ReadWrtCounts(s, t); ReadWrtTokens(s, t);
      case RPostGate | RPostTry => ReadPostCounts(s, t); ReadPostTokens(s, t);
      case RxMutex | RxDec => ReadLeaveCounts(s, t); ReadLeaveTokens(s, t);
      case RxWrt | RxPost => ReadDoneCounts(s, t); ReadDoneTokens(s, t);
      case WMutex | WInc => WriteEnterCounts(s, t); WriteEnterTokens(s, t);
      case WGate | WPost => WriteGateCounts(s, t); WriteGateTokens(s, t);
      case WWrt | WStore => WriteWrtCounts(s, t); WriteWrtTokens(s, t);
      case WxStore | WxWrt => WriteLeaveCounts(s, t); WriteLeaveTokens(s, t);
      case WxMutex | WxDec => WriteCountCounts(s, t); WriteCountTokens(s, t);
      case WxGate | WxPost => WriteDoneCounts(s, t); WriteDoneTokens(s, t);
    }
  }

  ghost function View(s: State): seq<Phase>
  {
    seq(|s.pc|, i requires 0 <= i < |s.pc| => PhaseOf(s.pc[i]))
  }

  lemma InvExclusive(s: State)
    requires Inv(s)
    ensures Exclusive(View(s))
  {
    hide Count;
    var v := View(s);
    forall i, j | 0 <= i < |v| && 0 <= j < |v| && i != j && v[i] == Inside(Writer) ensures !v[j].Inside? {
      CountMove(s.pc, i, Idle);
      CountMove(s.pc, j, Idle);
      if s.pc[j] == WIn {
        CountTwo(s.pc, if i < j then i else j, if i < j then j else i);
      }
    }
  }

  /** No semaphore exceeds 1 (no post can overflow), a first reader at wrt_.wait() always finds wrt_ = 1,
      and while writerActive_ is set no reader is counted. */
  lemma InvFacts(s: State)
    requires Inv(s)
    ensures s.mutex1 <= 1 && s.mutex2 <= 1 && s.rsem <= 1 && s.wrt <= 1 && s.readTry <= 1
    ensures RWrt in s.pc ==> s.wrt == 1
    ensures s.writerActive ==> s.readCount == 0
  {
    hide Count;
    CountIn(s.pc, RWrt);
  }

  /** At most one thread is ever blocked on rsem_: readTry_ lets one reader there, mutex2_ one writer,
      and when both stand there the semaphore is free. */
  lemma OneBlockedOnGate(s: State, i: nat, j: nat)
    requires Inv(s) && s.rsem == 0
    requires i < |s.pc| && s.pc[i] in {RGate, WGate}
    requires j < |s.pc| && s.pc[j] in {RGate, WGate}
    ensures i == j
  {
    hide Count;
    CountMove(s.pc, i, Idle);
    CountMove(s.pc, j, Idle);
    if i != j && s.pc[i] == s.pc[j] {
      CountTwo(s.pc, if i < j then i else j, if i < j then j else i);
    }
  }

  /** Once the writers own rsem_ they keep it for as long as one of them is counted. */
  lemma GateKeptCall(s: State, t: nat, role: Role)
    requires WriterGate(s) > 0 && t < |s.pc| && s.pc[t] == Idle
    ensures WriterGate(Call(s, t, role)) > 0
  {
    hide Count;
    CountMove(s.pc, t, Call(s, t, role).pc[t]);
  }

  lemma GateKeptRelease(s: State, t: nat)
    requires WriterGate(s) > 0 && t < |s.pc| && PhaseOf(s.pc[t]).Inside?
    ensures WriterGate(Release(s, t)) > 0
  {
    hide Count;
    CountMove(s.pc, t, Release(s, t).pc[t]);
  }

  lemma ReaderLeavesGate(s: State, t: nat)
    requires Enabled(s, t) && PhaseOf(s.pc[t]).role == Reader
    ensures WriterGate(Exec(s, t)) == WriterGate(s)
  {
    hide Count;
    CountMove(s.pc, t, Exec(s, t).pc[t]);
  }

  lemma GateKeptEntering(s: State, t: nat)
    requires WriterGate(s) > 0 && Enabled(s, t) && PhaseOf(s.pc[t]) == Acquiring(Writer)
    ensures WriterGate(Exec(s, t)) > 0
  {
    hide Count;
    CountMove(s.pc, t, Exec(s, t).pc[t]);
  }

  lemma GateKeptLeaving(s: State, t: nat)
    requires Inv(s) && WriterGate(s) > 0 && Enabled(s, t) && PhaseOf(s.pc[t]) == Releasing(Writer)
    requires Exec(s, t).writeCount > 0
    ensures WriterGate(Exec(s, t)) > 0
  {
    hide Count, ReaderGate, ReaderGroup, ReaderInv, TokenInv;
    CountMove(s.pc, t, Exec(s, t).pc[t]);
  }

  lemma GateKeptWriter(s: State, t: nat)
    requires Inv(s) && WriterGate(s) > 0 && Enabled(s, t) && PhaseOf(s.pc[t]).role == Writer
    requires Exec(s, t).writeCount > 0
    ensures WriterGate(Exec(s, t)) > 0
  {
    hide Inv, WriterGate, Exec;
    if PhaseOf(s.pc[t]).Acquiring? {
      GateKeptEntering(s, t);
    } else {
      GateKeptLeaving(s, t);
    }
  }

  /** The operations that never block. */
  predicate Free(p: Pc)
  {
    match p
    case Idle | RTry | RGate | RMutex | RxMutex | RWrt | WWrt | WMutex | WGate | WxMutex => false
    case _ => true
  }

  ghost predicate AllBlocking(s: State)
  {
    forall i :: 0 <= i < |s.pc| ==> !Free(s.pc[i])
  }

  lemma BlockedTally(s: State)
    requires AllBlocking(s)
    ensures InMutex1(s) == Count(s.pc, RWrt) && InMutex2(s) == Count(s.pc, WGate)
    ensures WriterHold(s) == 0 && WriterGate(s) == Count(s.pc, WWrt) + Count(s.pc, WxMutex)
    ensures ReaderGroup(s) == Count(s.pc, RxMutex) && ReaderGate(s) == Count(s.pc, RMutex) + Count(s.pc, RWrt)
    ensures InTry(s) == Count(s.pc, RGate) + Count(s.pc, RMutex) + Count(s.pc, RWrt)
    ensures Count(s.pc, RxWrt) == Count(s.pc, WxGate) == 0
  {
    hide Count;
    forall x: Pc | Free(x) ensures Count(s.pc, x) == 0 {
      CountIn(s.pc, x);
    }
  }

  /** With every thread at a semaphore, the chain wrt_ <- mutex1_ <- rsem_ <- mutex2_ has a free end. */
  lemma SomeWaitPasses(s: State, c: nat) returns (t: nat)
    requires Inv(s) && c < |s.pc| && s.pc[c] != Idle && AllBlocking(s)
    ensures Enabled(s, t)
  {
    hide Count, InMutex1, InMutex2, WriterHold, WriterGate, ReaderGroup, ReaderGate, InTry;
    BlockedTally(s);
    CountMove(s.pc, c, Idle);
    if Count(s.pc, RWrt) > 0 { t := CountWitness(s.pc, RWrt); return; }
    if Count(s.pc, RMutex) > 0 { t := CountWitness(s.pc, RMutex); return; }
    if Count(s.pc, RxMutex) > 0 { t := CountWitness(s.pc, RxMutex); return; }
    if Count(s.pc, WGate) > 0 { t := CountWitness(s.pc, WGate); return; }
    if Count(s.pc, WxMutex) > 0 { t := CountWitness(s.pc, WxMutex); return; }
    if Count(s.pc, WWrt) > 0 { t := CountWitness(s.pc, WWrt); return; }
    if Count(s.pc, RGate) > 0 { t := CountWitness(s.pc, RGate); return; }
    t := c;
  }

  /** Deadlock freedom: while some thread is in a call or holds the lock, some thread can take a step
      of its call or is holding the lock and free to release it. */
  lemma Progress(s: State, c: nat) returns (t: nat)
    requires Inv(s) && c < |s.pc| && s.pc[c] != Idle
    ensures t < |s.pc| && (Enabled(s, t) || PhaseOf(s.pc[t]).Inside?)
  {
    if i :| 0 <= i < |s.pc| && Free(s.pc[i]) {
      t := i;
    } else {
      t := SomeWaitPasses(s, c);
    }
  }

  /** Operations left in the current call; the whole protocol is straight-line code. */
  function Rank(p: Pc): nat
  {
    match p
    case RTry => 13 case RGate => 12 case RMutex => 11 case RInc => 10 case RWrt => 9
    case RPostMutex => 8 case RPostGate => 7 case RPostTry => 6 case RIn => 5
    case RxMutex => 4 case RxDec => 3 case RxWrt => 2 case RxPost => 1
    case WMutex => 13 case WInc => 12 case WGate => 11 case WPost => 10 case WWrt => 9 case WStore => 8
    case WIn => 7 case WxStore => 6 case WxWrt => 5 case WxMutex => 4 case WxDec => 3 case WxGate => 2 case WxPost => 1
    case Idle => 0
  }

  lemma ExecFollows(s: State, t: nat)
    requires Enabled(s, t)
    ensures |Exec(s, t).pc| == |s.pc| && Follows(PhaseOf(s.pc[t]), PhaseOf(Exec(s, t).pc[t]))
  {
  }

  /** A step moves only its own thread, forward in its call. */
  lemma ExecMoves(s: State, t: nat)
    requires Enabled(s, t)
    ensures var q := Exec(s, t).pc[t]; Exec(s, t).pc == s.pc[t := q] && Rank(q) < Rank(s.pc[t])
  {
  }

  /** What one turn of thread t does: it goes on with its call, starts a call of the given role, or starts
      the unlock call; a thread that has to wait stays where it is. */
  function Turn(s: State, t: nat, role: Role): State
    requires t < |s.pc|
  {
    match PhaseOf(s.pc[t])
    case Outside => Call(s, t, role)
    case Inside(_) => Release(s, t)
    case _ => if Enabled(s, t) then Exec(s, t) else s
  }

  lemma TurnInv(s: State, t: nat, role: Role)
    requires Inv(s) && t < |s.pc|
    ensures Inv(Turn(s, t, role)) && |Turn(s, t, role).pc| == |s.pc|
  {
    hide Inv, Exec, Enabled;
    match PhaseOf(s.pc[t]) {
      case Outside => CallInv(s, t, role);
      case Inside(_) => ReleaseInv(s, t);
      case _ =>
        if Enabled(s, t) {
          ExecInv(s, t);
          ExecFollows(s, t);
        }
    }
  }

  /** One turn per entry of the schedule. */
  ghost function Turns(s: State, schedule: seq<(nat, Role)>): State
    decreases |schedule|
  {
    if schedule == [] then s
    else
      var s', (t, role) := Turns(s, schedule[..|schedule|-1]), schedule[|schedule|-1];
      if t < |s'.pc| then Turn(s', t, role) else s'
  }

  /** The lock as an object whose methods are run one operation at a time; pc[t] is where thread t stands. */
  class WriterPriorityLock {
    var readCount: int
    var writeCount: int
    var writerActive: bool
    var mutex1: nat
    var mutex2: nat
    var rsem: nat
    var wrt: nat
    var readTry: nat
    var pc: seq<Pc>

    function Now(): State
      reads this
    {
      State(pc, readCount, writeCount, writerActive, mutex1, mutex2, rsem, wrt, readTry)
    }

    ghost predicate Valid()
      reads this
    {
      Inv(Now())
    }

    constructor (n: nat)
      ensures Now() == Init(n) && Valid()
    {
      pc := seq(n, _ => Idle);
      readCount, writeCount, writerActive := 0, 0, false;
      mutex1, mutex2, rsem, wrt, readTry := 1, 1, 1, 1, 1;
      new;
      InitInv(n);
    }

    /** The next operation of thread t in readLock; moved is false when the thread has to wait. */
    method ReadLock(t: nat) returns (moved: bool)
      requires Valid()
      requires t < |pc| && (pc[t] == Idle || PhaseOf(pc[t]) == Acquiring(Reader))
      modifies this
      ensures Valid()
      ensures old(pc[t] == Idle) ==> moved && Now() == Call(old(Now()), t, Reader)
      ensures old(pc[t] != Idle) ==>
        moved == Enabled(old(Now()), t) && Now() == if moved then Exec(old(Now()), t) else old(Now())
    {
      hide Inv;
      TurnInv(Now(), t, Reader);
      moved := true;
      match pc[t] {
        case Idle => pc := pc[t := RTry];
        case RTry => if readTry == 0 { moved := false; } else { readTry := readTry - 1; pc := pc[t := RGate]; }
        case RGate => if rsem == 0 { moved := false; } else { rsem := rsem - 1; pc := pc[t := RMutex]; }
        case RMutex => if mutex1 == 0 { moved := false; } else { mutex1 := mutex1 - 1; pc := pc[t := RInc]; }
        case RInc => readCount := readCount + 1; pc := pc[t := if readCount == 1 then RWrt else RPostMutex];
        case RWrt => if wrt == 0 { moved := false; } else { wrt := wrt - 1; pc := pc[t := RPostMutex]; }
        case RPostMutex => mutex1 := mutex1 + 1; pc := pc[t := RPostGate];
        case RPostGate => rsem := rsem + 1; pc := pc[t := RPostTry];
        case RPostTry => readTry := readTry + 1; pc := pc[t := RIn];
      }
    }

    /** The next operation of thread t in readUnlock; moved is false when the thread has to wait. */
    method ReadUnlock(t: nat) returns (moved: bool)
      requires Valid()
      requires t < |pc| && (pc[t] == RIn || PhaseOf(pc[t]) == Releasing(Reader))
      modifies this
      ensures Valid()
      ensures old(pc[t] == RIn) ==> moved && Now() == Release(old(Now()), t)
      ensures old(pc[t] != RIn) ==>
        moved == Enabled(old(Now()), t) && Now() == if moved then Exec(old(Now()), t) else old(Now())
    {
      hide Inv;
      TurnInv(Now(), t, Reader);
      moved := true;
      match pc[t] {
        case RIn => pc := pc[t := RxMutex];
        case RxMutex => if mutex1 == 0 { moved := false; } else { mutex1 := mutex1 - 1; pc := pc[t := RxDec]; }
        case RxDec => readCount := readCount - 1; pc := pc[t := if readCount == 0 then RxWrt else RxPost];
        case RxWrt => wrt := wrt + 1; pc := pc[t := RxPost];
        case RxPost => mutex1 := mutex1 + 1; pc := pc[t := Idle];
      }
    }

    /** The next operation of thread t in writeLock; moved is false when the thread has to wait. */
    method WriteLock(t: nat) returns (moved: bool)
      requires Valid()
      requires t < |pc| && (pc[t] == Idle || PhaseOf(pc[t]) == Acquiring(Writer))
      modifies this
      ensures Valid()
      ensures old(pc[t] == Idle) ==> moved && Now() == Call(old(Now()), t, Writer)
      ensures old(pc[t] != Idle) ==>
        moved == Enabled(old(Now()), t) && Now() == if moved then Exec(old(Now()), t) else old(Now())
    {
      hide Inv;
      TurnInv(Now(), t, Writer);
      moved := true;
      match pc[t] {
        case Idle => pc := pc[t := WMutex];
        case WMutex => if mutex2 == 0 { moved := false; } else { mutex2 := mutex2 - 1; pc := pc[t := WInc]; }
        case WInc => writeCount := writeCount + 1; pc := pc[t := if writeCount == 1 then WGate else WPost];
        case WGate => if rsem == 0 { moved := false; } else { rsem := rsem - 1; pc := pc[t := WPost]; }
        case WPost => mutex2 := mutex2 + 1; pc := pc[t := WWrt];
        case WWrt => if wrt == 0 { moved := false; } else { wrt := wrt - 1; pc := pc[t := WStore]; }
        case WStore => writerActive := true; pc := pc[t := WIn];
      }
    }

    /** The next operation of thread t in writeUnlock; moved is false when the thread has to wait. */
    method WriteUnlock(t: nat) returns (moved: bool)
      requires Valid()
      requires t < |pc| && (pc[t] == WIn || PhaseOf(pc[t]) == Releasing(Writer))
      modifies this
      ensures Valid()
      ensures old(pc[t] == WIn) ==> moved && Now() == Release(old(Now()), t)
      ensures old(pc[t] != WIn) ==>
        moved == Enabled(old(Now()), t) && Now() == if moved then Exec(old(Now()), t) else old(Now())
    {
      hide Inv;
      TurnInv(Now(), t, Writer);
      moved := true;
      match pc[t] {
        case WIn => pc := pc[t := WxStore];
        case WxStore => writerActive := false; pc := pc[t := WxWrt];
        case WxWrt => wrt := wrt + 1; pc := pc[t := WxMutex];
        case WxMutex => if mutex2 == 0 { moved := false; } else { mutex2 := mutex2 - 1; pc := pc[t := WxDec]; }
        case WxDec => writeCount := writeCount - 1; pc := pc[t := if writeCount == 0 then WxGate else WxPost];
        case WxGate => rsem := rsem + 1; pc := pc[t := WxPost];
        case WxPost => mutex2 := mutex2 + 1; pc := pc[t := Idle];
      }
    }

    method TakeTurn(t: nat, role: Role)
      requires Valid() && t < |pc|
      modifies this
      ensures Valid() && Now() == Turn(old(Now()), t, role)
    {
      hide Inv, Exec, Call, Release, Enabled;
      var moved;
      match PhaseOf(pc[t]) {
        case Outside => if role == Reader { moved := ReadLock(t); } else { moved := WriteLock(t); }
        case Inside(holder) => if holder == Reader { moved := ReadUnlock(t); } else { moved := WriteUnlock(t); }
        case Acquiring(caller) => if caller == Reader { moved := ReadLock(t); } else { moved := WriteLock(t); }
        case Releasing(caller) => if caller == Reader { moved := ReadUnlock(t); } else { moved := WriteUnlock(t); }
      }
    }

    /** Runs any interleaving, turn by turn.  No schedule ever breaks exclusion. */
    method Interleave(schedule: seq<(nat, Role)>)
      requires Valid()
      modifies this
      ensures Now() == Turns(old(Now()), schedule)
      ensures Valid() && |pc| == old(|pc|) && Exclusive(View(Now()))
    {
      for i := 0 to |schedule|
        invariant Valid() && |Now().pc| == old(|pc|) && Now() == Turns(old(Now()), schedule[..i])
      {
        hide Inv, Turn;
        assert schedule[..i+1][..i] == schedule[..i];
        var t, role := schedule[i].0, schedule[i].1;
        if t < |pc| {
          TurnInv(Now(), t, role);
          TakeTurn(t, role);
        }
      }
      assert schedule[..|schedule|] == schedule;
      InvExclusive(Now());
    }
  }
}
