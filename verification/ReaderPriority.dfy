/** ReaderPriorityLock: Problem 1 of Courtois, Heymans and Parnas (1971).  One step per semaphore or
    atomic operation; a thread's Pc names the operation it performs next. */
module ReaderPriority {
  import opened Counting
  import opened RwSpec

  datatype Pc =
    | Idle
    | RMutex    // readLock: mutex_.wait()
    | RInc      // ++readCount_
    | RWrt      // first reader: wrt_.wait()
    | RPost     // mutex_.post()
    | RIn       // reading
    | RxMutex   // readUnlock: mutex_.wait()
    | RxDec     // --readCount_
    | RxWrt     // last reader: wrt_.post()
    | RxPost    // mutex_.post()
    | WWrt      // writeLock: wrt_.wait()
    | WStore    // writerActive_.store(true)
    | WIn       // writing
    | WxStore   // writeUnlock: writerActive_.store(false)
    | WxWrt     // wrt_.post()

  datatype State = State(pc: seq<Pc>, readCount: int, writerActive: bool, mutex: nat, wrt: nat)

  function PhaseOf(p: Pc): Phase
  {
    match p
    case Idle => Outside
    case RMutex | RInc | RWrt | RPost => Acquiring(Reader)
    case RIn => Inside(Reader)
    case RxMutex | RxDec | RxWrt | RxPost => Releasing(Reader)
    case WWrt | WStore => Acquiring(Writer)
    case WIn => Inside(Writer)
    case WxStore | WxWrt => Releasing(Writer)
  }

  function Init(n: nat): State
  {
    State(seq(n, _ => Idle), 0, false, 1, 1)
  }

  function Call(s: State, t: nat, role: Role): State
    requires t < |s.pc|
  {
    s.(pc := s.pc[t := if role == Reader then RMutex else WWrt])
  }

  function Release(s: State, t: nat): State
    requires t < |s.pc|
  {
    s.(pc := s.pc[t := if s.pc[t] == RIn then RxMutex else WxStore])
  }

  /** sem_wait can return only while the count is positive; every other operation can run at once. */
  predicate Enabled(s: State, t: nat)
  {
    t < |s.pc| &&
    match s.pc[t]
    case Idle | RIn | WIn => false
    case RMutex | RxMutex => s.mutex > 0
    case RWrt | WWrt => s.wrt > 0
    case _ => true
  }

  /** The next operation of thread t. */
  function Exec(s: State, t: nat): State
    requires Enabled(s, t)
  {
    match s.pc[t]
    case RMutex => s.(pc := s.pc[t := RInc], mutex := s.mutex - 1)
    case RInc => s.(pc := s.pc[t := if s.readCount + 1 == 1 then RWrt else RPost], readCount := s.readCount + 1)
    case RWrt => s.(pc := s.pc[t := RPost], wrt := s.wrt - 1)
    case RPost => s.(pc := s.pc[t := RIn], mutex := s.mutex + 1)
    case RxMutex => s.(pc := s.pc[t := RxDec], mutex := s.mutex - 1)
    case RxDec => s.(pc := s.pc[t := if s.readCount - 1 == 0 then RxWrt else RxPost], readCount := s.readCount - 1)
    case RxWrt => s.(pc := s.pc[t := RxPost], wrt := s.wrt + 1)
    case RxPost => s.(pc := s.pc[t := Idle], mutex := s.mutex + 1)
    case WWrt => s.(pc := s.pc[t := WStore], wrt := s.wrt - 1)
    case WStore => s.(pc := s.pc[t := WIn], writerActive := true)
    case WxStore => s.(pc := s.pc[t := WxWrt], writerActive := false)
    case WxWrt => s.(pc := s.pc[t := Idle], wrt := s.wrt + 1)
  }

  /** Threads that hold mutex_. */
  ghost function InMutex(s: State): nat
  {
    Count(s.pc, RInc) + Count(s.pc, RWrt) + Count(s.pc, RPost) +
    Count(s.pc, RxDec) + Count(s.pc, RxWrt) + Count(s.pc, RxPost)
  }

  /** Readers for whose group wrt_ is held. */
  ghost function ReaderGroup(s: State): nat
  {
    Count(s.pc, RPost) + Count(s.pc, RIn) + Count(s.pc, RxMutex) + Count(s.pc, RxDec) + Count(s.pc, RxWrt)
  }

  /** Writers that hold wrt_. */
  ghost function WriterHold(s: State): nat
  {
    Count(s.pc, WStore) + Count(s.pc, WIn) + Count(s.pc, WxStore) + Count(s.pc, WxWrt)
  }

  ghost predicate Inv(s: State)
  {
    && s.mutex + InMutex(s) == 1
    && s.readCount ==
       Count(s.pc, RWrt) + Count(s.pc, RPost) + Count(s.pc, RIn) + Count(s.pc, RxMutex) + Count(s.pc, RxDec)
    && (Count(s.pc, RWrt) > 0 ==> s.readCount == 1)
    && (Count(s.pc, RxWrt) > 0 ==> s.readCount == 0)
    && s.wrt + (if ReaderGroup(s) > 0 then 1 else 0) + WriterHold(s) == 1
    && s.writerActive == (Count(s.pc, WIn) + Count(s.pc, WxStore) > 0)
  }

  lemma InitInv(n: nat)
    ensures Inv(Init(n))
  {
    hide Count;
    CountAllIdle(Init(n).pc, Idle);
  }

  lemma CallInv(s: State, t: nat, role: Role)
    requires Inv(s) && t < |s.pc| && s.pc[t] == Idle
    ensures Inv(Call(s, t, role))
  {
    hide Count;
    CountMove(s.pc, t, Call(s, t, role).pc[t]);
  }

  lemma ReleaseInv(s: State, t: nat)
    requires Inv(s) && t < |s.pc| && PhaseOf(s.pc[t]).Inside?
    ensures Inv(Release(s, t))
  {
    hide Count;
    CountMove(s.pc, t, Release(s, t).pc[t]);
  }

  lemma ExecInvReadLock(s: State, t: nat)
    requires Inv(s) && Enabled(s, t) && PhaseOf(s.pc[t]) == Acquiring(Reader)
    ensures Inv(Exec(s, t))
  {
    hide Count;
    CountMove(s.pc, t, Exec(s, t).pc[t]);
  }

  lemma ExecInvReadUnlock(s: State, t: nat)
    requires Inv(s) && Enabled(s, t) && PhaseOf(s.pc[t]) == Releasing(Reader)
    ensures Inv(Exec(s, t))
  {
    hide Count;
    CountMove(s.pc, t, Exec(s, t).pc[t]);
  }

  lemma ExecInvWriter(s: State, t: nat)
    requires Inv(s) && Enabled(s, t) && PhaseOf(s.pc[t]).role == Writer
    ensures Inv(Exec(s, t))
  {
    hide Count;
    CountMove(s.pc, t, Exec(s, t).pc[t]);
  }

  /** Every operation of every thread keeps the counting invariant. */
  lemma ExecInv(s: State, t: nat)
    requires Inv(s) && Enabled(s, t)
    ensures Inv(Exec(s, t))
  {
    hide Inv, Exec;
    match PhaseOf(s.pc[t]) {
      case Acquiring(Reader) => ExecInvReadLock(s, t);
      case Releasing(Reader) => ExecInvReadUnlock(s, t);
      case _ => ExecInvWriter(s, t);
    }
  }

  ghost function View(s: State): seq<Phase>
  {
    seq(|s.pc|, i requires 0 <= i < |s.pc| => PhaseOf(s.pc[i]))
  }

  lemma InvExclusive(s: State)
    requires Inv(s)
    ensures Exclusive(View(s))
  {
    hide Count;
    var v := View(s);
    forall i, j | 0 <= i < |v| && 0 <= j < |v| && i != j && v[i] == Inside(Writer) ensures !v[j].Inside? {
      CountMove(s.pc, i, Idle);
      CountMove(s.pc, j, Idle);
      if s.pc[j] == WIn {
        CountTwo(s.pc, if i < j then i else j, if i < j then j else i);
      }
    }
  }

  /** Semaphore counts stay 0 or 1 (no post can overflow), a first reader waiting for wrt_ means that no
      reader is reading, and while writerActive_ is set the only counted reader is the one at wrt_. */
  lemma InvFacts(s: State)
    requires Inv(s)
    ensures s.mutex <= 1 && s.wrt <= 1
    ensures RWrt in s.pc ==> RIn !in s.pc && s.mutex == 0 && s.readCount == 1
    ensures s.writerActive ==> 0 <= s.readCount <= 1 && (s.readCount == 1 <==> RWrt in s.pc)
  {
    hide Count;
    forall x: Pc ensures x in s.pc <==> Count(s.pc, x) > 0 {
      CountIn(s.pc, x);
    }
  }

  /** Deadlock freedom: while some thread is in a call or holds the lock, some thread can take a step
      of its call or is holding the lock and free to release it. */
  lemma Progress(s: State, c: nat) returns (t: nat)
    requires Inv(s) && c < |s.pc| && s.pc[c] != Idle
    ensures t < |s.pc| && (Enabled(s, t) || PhaseOf(s.pc[t]).Inside?)
  {
    hide Count;
    var who := s.pc[c];
    CountMove(s.pc, c, Idle);
    if who != RMutex && who != RxMutex && who != RWrt && who != WWrt {
      return c;
    }
    if Count(s.pc, RInc) > 0 { t := CountWitness(s.pc, RInc); return; }
    if Count(s.pc, RPost) > 0 { t := CountWitness(s.pc, RPost); return; }
    if Count(s.pc, RIn) > 0 { t := CountWitness(s.pc, RIn); return; }
    if Count(s.pc, RxDec) > 0 { t := CountWitness(s.pc, RxDec); return; }
    if Count(s.pc, RxWrt) > 0 { t := CountWitness(s.pc, RxWrt); return; }
    if Count(s.pc, RxPost) > 0 { t := CountWitness(s.pc, RxPost); return; }
    if Count(s.pc, WStore) > 0 { t := CountWitness(s.pc, WStore); return; }
    if Count(s.pc, WIn) > 0 { t := CountWitness(s.pc, WIn); return; }
    if Count(s.pc, WxStore) > 0 { t := CountWitness(s.pc, WxStore); return; }
    if Count(s.pc, WxWrt) > 0 { t := CountWitness(s.pc, WxWrt); return; }
    if Count(s.pc, RWrt) > 0 { t := CountWitness(s.pc, RWrt); return; }
    if Count(s.pc, RxMutex) > 0 { t := CountWitness(s.pc, RxMutex); return; }
    t := c;
  }

  /** Operations left in the current call; the whole protocol is straight-line code. */
  function Rank(p: Pc): nat
  {
    match p
    case RMutex => 9 case RInc => 8 case RWrt => 7 case RPost => 6 case RIn => 5
    case RxMutex => 4 case RxDec => 3 case RxWrt => 2 case RxPost => 1
    case WWrt => 5 case WStore => 4 case WIn => 3 case WxStore => 2 case WxWrt => 1
    case Idle => 0
  }

  lemma ExecFollows(s: State, t: nat)
    requires Enabled(s, t)
    ensures |Exec(s, t).pc| == |s.pc| && Follows(PhaseOf(s.pc[t]), PhaseOf(Exec(s, t).pc[t]))
  {
  }

  /** A step moves only its own thread, forward in its call. */
  lemma ExecMoves(s: State, t: nat)
    requires Enabled(s, t)
    ensures var q := Exec(s, t).pc[t]; Exec(s, t).pc == s.pc[t := q] && Rank(q) < Rank(s.pc[t])
  {
  }

  /** What one turn of thread t does: it goes on with its call, starts a call of the given role, or starts
      the unlock call; a thread that has to wait stays where it is. */
  function Turn(s: State, t: nat, role: Role): State
    requires t < |s.pc|
  {
    match PhaseOf(s.pc[t])
    case Outside => Call(s, t, role)
    case Inside(_) => Release(s, t)
    case _ => if Enabled(s, t) then Exec(s, t) else s
  }

  lemma TurnInv(s: State, t: nat, role: Role)
    requires Inv(s) && t < |s.pc|
    ensures Inv(Turn(s, t, role)) && |Turn(s, t, role).pc| == |s.pc|
  {
    hide Inv, Exec, Enabled;
    match PhaseOf(s.pc[t]) {
      case Outside => CallInv(s, t, role);
      case Inside(_) => ReleaseInv(s, t);
      case _ =>
        if Enabled(s, t) {
          ExecInv(s, t);
          ExecFollows(s, t);
        }
    }
  }

  /** One turn per entry of the schedule. */
  ghost function Turns(s: State, schedule: seq<(nat, Role)>): State
    decreases |schedule|
  {
    if schedule == [] then s
    else
      var s', (t, role) := Turns(s, schedule[..|schedule|-1]), schedule[|schedule|-1];
      if t < |s'.pc| then Turn(s', t, role) else s'
  }

  /** The lock as an object whose methods are run one operation at a time; pc[t] is where thread t stands. */
  class ReaderPriorityLock {
    var readCount: int
    var writerActive: bool
    var mutex: nat
    var wrt: nat
    var pc: seq<Pc>

    function Now(): State
      reads this
    {
      State(pc, readCount, writerActive, mutex, wrt)
    }

    ghost predicate Valid()
      reads this
    {
      Inv(Now())
    }

    constructor (n: nat)
      ensures Now() == Init(n) && Valid()
    {
      pc := seq(n, _ => Idle);
      readCount, writerActive := 0, false;
      mutex, wrt := 1, 1;
      new;
      InitInv(n);
    }

    /** The next operation of thread t in readLock; moved is false when the thread has to wait. */
    method ReadLock(t: nat) returns (moved: bool)
      requires Valid()
      requires t < |pc| && (pc[t] == Idle || PhaseOf(pc[t]) == Acquiring(Reader))
      modifies this
      ensures Valid()
      ensures old(pc[t] == Idle) ==> moved && Now() == Call(old(Now()), t, Reader)
      ensures old(pc[t] != Idle) ==>
        moved == Enabled(old(Now()), t) && Now() == if moved then Exec(old(Now()), t) else old(Now())
    {
      hide Inv;
      TurnInv(Now(), t, Reader);
      moved := true;
      match pc[t] {
        case Idle => pc := pc[t := RMutex];
        case RMutex => if mutex == 0 { moved := false; } else { mutex := mutex - 1; pc := pc[t := RInc]; }
        case RInc => readCount := readCount + 1; pc := pc[t := if readCount == 1 then RWrt else RPost];
        case RWrt => if wrt == 0 { moved := false; } else { wrt := wrt - 1; pc := pc[t := RPost]; }
        case RPost => mutex := mutex + 1; pc := pc[t := RIn];
      }
    }

    /** The next operation of thread t in readUnlock; moved is false when the thread has to wait. */
    method ReadUnlock(t: nat) returns (moved: bool)
      requires Valid()
      requires t < |pc| && (pc[t] == RIn || PhaseOf(pc[t]) == Releasing(Reader))
      modifies this
      ensures Valid()
      ensures old(pc[t] == RIn) ==> moved && Now() == Release(old(Now()), t)
      ensures old(pc[t] != RIn) ==>
        moved == Enabled(old(Now()), t) && Now() == if moved then Exec(old(Now()), t) else old(Now())
    {
      hide Inv;
      TurnInv(Now(), t, Reader);
      moved := true;
      match pc[t] {
        case RIn => pc := pc[t := RxMutex];
        case RxMutex => if mutex == 0 { moved := false; } else { mutex := mutex - 1; pc := pc[t := RxDec]; }
        case RxDec => readCount := readCount - 1; pc := pc[t := if readCount == 0 then RxWrt else RxPost];
        case RxWrt => wrt := wrt + 1; pc := pc[t := RxPost];
        case RxPost => mutex := mutex + 1; pc := pc[t := Idle];
      }
    }

    /** The next operation of thread t in writeLock; moved is false when the thread has to wait. */
    method WriteLock(t: nat) returns (moved: bool)
      requires Valid()
      requires t < |pc| && (pc[t] == Idle || PhaseOf(pc[t]) == Acquiring(Writer))
      modifies this
      ensures Valid()
      ensures old(pc[t] == Idle) ==> moved && Now() == Call(old(Now()), t, Writer)
      ensures old(pc[t] != Idle) ==>
        moved == Enabled(old(Now()), t) && Now() == if moved then Exec(old(Now()), t) else old(Now())
    {
      hide Inv;
      TurnInv(Now(), t, Writer);
      moved := true;
      match pc[t] {
        case Idle => pc := pc[t := WWrt];
        case WWrt => if wrt == 0 { moved := false; } else { wrt := wrt - 1; pc := pc[t := WStore]; }
        case WStore => writerActive := true; pc := pc[t := WIn];
      }
    }

    /** The next operation of thread t in writeUnlock; moved is false when the thread has to wait. */
    method WriteUnlock(t: nat) returns (moved: bool)
      requires Valid()
      requires t < |pc| && (pc[t] == WIn || PhaseOf(pc[t]) == Releasing(Writer))
      modifies this
      ensures Valid()
      ensures old(pc[t] == WIn) ==> moved && Now() == Release(old(Now()), t)
      ensures old(pc[t] != WIn) ==>
        moved == Enabled(old(Now()), t) && Now() == if moved then Exec(old(Now()), t) else old(Now())
    {
      hide Inv;
      TurnInv(Now(), t, Writer);
      moved := true;
      match pc[t] {
        case WIn => pc := pc[t := WxStore];
        case WxStore => writerActive := false; pc := pc[t := WxWrt];
        case WxWrt => wrt := wrt + 1; pc := pc[t := Idle];
      }
    }

    method TakeTurn(t: nat, role: Role)
      requires Valid() && t < |pc|
      modifies this
      ensures Valid() && Now() == Turn(old(Now()), t, role)
    {
      hide Inv, Exec, Call, Release, Enabled;
      var moved;
      match PhaseOf(pc[t]) {
        case Outside => if role == Reader { moved := ReadLock(t); } else { moved := WriteLock(t); }
        case Inside(holder) => if holder == Reader { moved := ReadUnlock(t); } else { moved := WriteUnlock(t); }
        case Acquiring(caller) => if caller == Reader { moved := ReadLock(t); } else { moved := WriteLock(t); }
        case Releasing(caller) => if caller == Reader { moved := ReadUnlock(t); } else { moved := WriteUnlock(t); }
      }
    }

    /** Runs any interleaving, turn by turn.  No schedule ever breaks exclusion. */
    method Interleave(schedule: seq<(nat, Role)>)
      requires Valid()
      modifies this
      ensures Now() == Turns(old(Now()), schedule)
      ensures Valid() && |pc| == old(|pc|) && Exclusive(View(Now()))
    {
      for i := 0 to |schedule|
        invariant Valid() && |Now().pc| == old(|pc|) && Now() == Turns(old(Now()), schedule[..i])
      {
        hide Inv, Turn;
        assert schedule[..i+1][..i] == schedule[..i];
        var t, role := schedule[i].0, schedule[i].1;
        if t < |pc| {
          TurnInv(Now(), t, role);
          TakeTurn(t, role);
        }
      }
      assert schedule[..|schedule|] == schedule;
      InvExclusive(Now());
    }
  }
}
