/** What include/config.hpp:37 claims for WriterPriorityLock, "a queued writer blocks all new readers", when
    sem_post only makes the count positive: runs in which it fails, and exactly the states from which it holds. */
module QueuedWriter {
  import opened Casts
  import opened Counting
  import opened RwSpec
  import opened RwLock
  import opened Overtaking
  import WP = WriterPriority

  // ----- where the claim fails: readers can pass a writer at the gate -----

  /** k reads can start and complete while a writer, already counted, stands at rsem_.wait(). */
  ghost predicate ReadsPassGate(c: Cast, k: nat)
  {
    exists u :: Pass(WriterFirst, c, Reader, k, AtGate(u))
  }

  /** Reader x at px, writer u at pu, and the shared variables. */
  predicate GateAt(s: WP.State, x: nat, u: nat, px: WP.Pc, pu: WP.Pc,
                   count: int, readTry: nat, rsem: nat, mutex1: nat, wrt: nat)
  {
    && x < |s.pc| && s.pc[x] == px && u < |s.pc| && s.pc[u] == pu && x != u
    && s.readCount == count && s.readTry == readTry && s.rsem == rsem && s.mutex1 == mutex1 && s.wrt == wrt
  }

  ghost predicate GateScene(p: Plot, l: Lock, k: nat, x: nat, u: nat, px: WP.Pc, pu: WP.Pc,
                            count: int, readTry: nat, rsem: nat, mutex1: nat, wrt: nat)
  {
    && p.algo == WriterFirst && p.role == Reader && (p.o == Nobody || p.o == AtGate(u)) && Story(p, l, k)
    && RoleOf(p.c, x) == Reader && RoleOf(p.c, u) == Writer
    && l.Wp? && GateAt(l.wp, x, u, px, pu, count, readTry, rsem, mutex1, wrt)
  }

  lemma ReaderPassesGate(p: Plot, l: Lock, k: nat, x: nat, u: nat) returns (l': Lock)
    requires GateScene(p, l, k, x, u, WP.Idle, WP.WGate, 0, 1, 1, 1, 1)
    ensures GateScene(p, l', k, x, u, WP.RWrt, WP.WGate, 1, 0, 0, 0, 1)
  {
    hide Story;
    var k';
    l', k' := StoryGoesOn(p, l, k, Enter(x, Reader));
    l' := WpStep(p, l', k, x);
    l' := WpStep(p, l', k, x);
    l' := WpStep(p, l', k, x);
    l' := WpStep(p, l', k, x);
  }

  lemma ReaderIsAdmitted(p: Plot, l: Lock, k: nat, x: nat, u: nat) returns (l': Lock)
    requires GateScene(p, l, k, x, u, WP.RWrt, WP.WGate, 1, 0, 0, 0, 1)
    ensures GateScene(p, l', k, x, u, WP.RIn, WP.WGate, 1, 1, 1, 1, 0)
  {
    hide Story;
    l' := WpStep(p, l, k, x);
    l' := WpStep(p, l', k, x);
    l' := WpStep(p, l', k, x);
    l' := WpStep(p, l', k, x);
  }

  lemma ReaderGoes(p: Plot, l: Lock, k: nat, x: nat, u: nat) returns (l': Lock)
    requires GateScene(p, l, k, x, u, WP.RIn, WP.WGate, 1, 1, 1, 1, 0)
    ensures GateScene(p, l', k, x, u, WP.RxPost, WP.WGate, 0, 1, 1, 0, 1)
  {
    hide Story;
    var k';
    l', k' := StoryGoesOn(p, l, k, Leave(x));
    l' := WpStep(p, l', k, x);
    l' := WpStep(p, l', k, x);
    l' := WpStep(p, l', k, x);
  }

  lemma ReaderIsGone(p: Plot, l: Lock, k: nat, x: nat, u: nat) returns (l': Lock)
    requires GateScene(p, l, k, x, u, WP.RxPost, WP.WGate, 0, 1, 1, 0, 1)
    ensures GateScene(p, l', k + 1, x, u, WP.Idle, WP.WGate, 0, 1, 1, 1, 1)
  {
    hide Story;
    var k';
    l', k' := StoryGoesOn(p, l, k, Go(x, 0));
  }

  lemma {:induction false} ReadersKeepPassing(p: Plot, l: Lock, n: nat, x: nat, u: nat) returns (l': Lock)
    requires GateScene(p, l, 0, x, u, WP.Idle, WP.WGate, 0, 1, 1, 1, 1)
    ensures GateScene(p, l', n, x, u, WP.Idle, WP.WGate, 0, 1, 1, 1, 1)
    decreases n
  {
    hide GateScene;
    if n == 0 {
      l' := l;
    } else {
      l' := ReadersKeepPassing(p, l, n - 1, x, u);
      l' := ReaderPassesGate(p, l', n - 1, x, u);
      l' := ReaderIsAdmitted(p, l', n - 1, x, u);
      l' := ReaderGoes(p, l', n - 1, x, u);
      l' := ReaderIsGone(p, l', n - 1, x, u);
    }
  }

  lemma WriterCalls(p: Plot, x: nat, u: nat) returns (l: Lock)
    requires p.algo == WriterFirst && p.role == Reader && p.o == Nobody && u < p.c.readers + p.c.writers
    requires RoleOf(p.c, x) == Reader && RoleOf(p.c, u) == Writer
    ensures GateScene(p, l, 0, x, u, WP.Idle, WP.WMutex, 0, 1, 1, 1, 1) && l.wp.mutex2 == 1 && l.wp.writeCount == 0
  {
    hide Story;
    StoryStarts(p);
    var k;
    l, k := StoryGoesOn(p, Init(WriterFirst, p.c.readers + p.c.writers), 0, Enter(u, Writer));
  }

  lemma WriterStandsAtGate(p: Plot, l: Lock, x: nat, u: nat) returns (l': Lock)
    requires GateScene(p, l, 0, x, u, WP.Idle, WP.WMutex, 0, 1, 1, 1, 1) && l.wp.mutex2 == 1 && l.wp.writeCount == 0
    requires p.o == Nobody
    ensures GateScene(p.(o := AtGate(u)), l', 0, x, u, WP.Idle, WP.WGate, 0, 1, 1, 1, 1)
  {
    hide Story;
    l' := WpStep(p, l, 0, u);
    l' := WpStep(p, l', 0, u);
    StoryWatches(p, l', 0, AtGate(u));
  }

  lemma GateSceneStory(p: Plot, l: Lock, k: nat, x: nat, u: nat)
    requires GateScene(p, l, k, x, u, WP.Idle, WP.WGate, 0, 1, 1, 1, 1)
    ensures Story(p, l, k)
  {
  }

  /** With a reader and a writer, any number of reads can start and complete while the writer is queued. */
  lemma ReadersCanPassQueuedWriter(c: Cast, k: nat)
    requires c.readers >= 1 && c.writers >= 1
    ensures ReadsPassGate(c, k)
  {
    hide Story, Pass, GateScene;
    var p, u := Plot(WriterFirst, c, Reader, Nobody), c.readers;
    var l := WriterCalls(p, 0, u);
    l := WriterStandsAtGate(p, l, 0, u);
    p := p.(o := AtGate(u));
    l := ReadersKeepPassing(p, l, k, 0, u);
    GateSceneStory(p, l, k, 0, u);
    StoryPasses(p, l, k);
  }

  lemma {:induction false} NoReadCompletes(tr: seq<Lock>, acts: seq<Action>, c: Cast, i: nat, o: Watch, j: nat)
    requires HeldFrom(tr, acts, WriterFirst, c, i, o) && c.readers == 0 && i <= j <= |acts|
    ensures Completed(tr, acts, Reader, i, j) == 0
    decreases j
  {
    hide Inv, Can, Do, Plays, Init, InRole, Completes, Holds, Begins;
    if i == j {
    } else {
      NoReadCompletes(tr, acts, c, i, o, j - 1);
      RunInRole(tr, acts, WriterFirst, c, j - 1);
      NotAReader(c, tr[j-1], acts[j-1], tr[j]);
    }
  }

  lemma NotAReader(c: Cast, l: Lock, a: Action, l': Lock)
    requires InRole(c, l) && c.readers == 0
    ensures !Completes(l, a, l', Reader)
  {
    if a.t < Size(l) {
      RoleAt(c, l, a.t);
    }
  }

  lemma QueuedIsWriter(c: Cast, l: Lock, u: nat)
    requires InRole(c, l) && Holds(l, AtGate(u))
    ensures c.writers >= 1
  {
    RoleAt(c, l, u);
  }

  lemma NoReadPasses(c: Cast)
    requires c.readers == 0 || c.writers == 0
    ensures !ReadsPassGate(c, 1)
  {
    hide CastRun, Completed, InRole, Inv, Holds, Begins;
    if u :| Pass(WriterFirst, c, Reader, 1, AtGate(u)) {
      var tr, acts, i: nat :| HeldFrom(tr, acts, WriterFirst, c, i, AtGate(u)) &&
        Completed(tr, acts, Reader, i, |acts|) >= 1;
      RunInRole(tr, acts, WriterFirst, c, i);
      QueuedIsWriter(c, tr[i], u);
      NoReadCompletes(tr, acts, c, i, AtGate(u), |acts|);
    }
  }

  /** The claim fails for every cast that it is about: any number of reads can start and complete while one writer
      is queued at the gate, if and only if there is a reader and a writer. */
  lemma ReadsPassGateIff(c: Cast)
    ensures (forall k: nat :: ReadsPassGate(c, k)) <==> c.readers >= 1 && c.writers >= 1
  {
    hide ReadsPassGate;
    if c.readers >= 1 && c.writers >= 1 {
      forall k: nat ensures ReadsPassGate(c, k) {
        ReadersCanPassQueuedWriter(c, k);
      }
    } else {
      NoReadPasses(c);
    }
  }

  // ----- exactly where the claim holds -----

  predicate Legal(l: Lock, acts: seq<Action>)
    decreases |acts|
  {
    acts == [] || (Can(l, acts[0]) && Legal(Do(l, acts[0]), acts[1..]))
  }

  /** p holds before, between and after the actions. */
  predicate Throughout(l: Lock, acts: seq<Action>, p: Lock -> bool)
    requires Legal(l, acts)
    decreases |acts|
  {
    p(l) && (acts == [] || Throughout(Do(l, acts[0]), acts[1..], p))
  }

  /** Some writer is counted in writeCount_. */
  predicate WritersCounted(l: Lock)
  {
    l.Wp? && l.wp.writeCount > 0
  }

  /** The action increments readCount_: a reader is admitted. */
  predicate Admits(l: Lock, a: Action)
  {
    l.Wp? && a.Go? && a.t < |l.wp.pc| && l.wp.pc[a.t] == WP.RInc
  }

  predicate SomeAdmitted(l: Lock, acts: seq<Action>)
    requires Legal(l, acts)
    decreases |acts|
  {
    acts != [] && (Admits(l, acts[0]) || SomeAdmitted(Do(l, acts[0]), acts[1..]))
  }

  /** However the system goes on, no reader is admitted while writers are counted. */
  ghost predicate ReadersKeptOut(l: Lock)
  {
    forall acts :: Legal(l, acts) && Throughout(l, acts, WritersCounted) ==> !SomeAdmitted(l, acts)
  }

  /** Every thread is the writer at the gate or a writer that waits behind it for mutex2_. */
  predicate OnlyWritersWait(s: WP.State)
  {
    forall t :: 0 <= t < |s.pc| ==> s.pc[t] == WP.WGate || s.pc[t] == WP.WMutex
  }

  ghost predicate Shut(s: WP.State)
  {
    WP.WriterGate(s) > 0 || OnlyWritersWait(s)
  }

  lemma ShutAdmitsNone(s: WP.State, t: nat)
    requires WP.Inv(s) && Shut(s) && t < |s.pc|
    ensures s.pc[t] != WP.RInc
  {
    hide Count;
    CountMove(s.pc, t, WP.Idle);
  }

  /** Behind the writer at the gate nobody gets mutex2_, so only that writer can move. */
  lemma OnlyWritersStep(s: WP.State, t: nat)
    requires WP.Inv(s) && WP.WriterGate(s) == 0 && OnlyWritersWait(s) && WP.Enabled(s, t) && s.writeCount > 0
    ensures WP.WriterGate(WP.Exec(s, t)) > 0
  {
    hide Count, WP.WriterHold, WP.ReaderGate, WP.ReaderGroup, WP.ReaderInv;
    CountMove(s.pc, t, WP.Exec(s, t).pc[t]);
  }

  lemma ShutGo(s: WP.State, t: nat)
    requires WP.Inv(s) && Shut(s) && WP.Enabled(s, t) && s.writeCount > 0 && WP.Exec(s, t).writeCount > 0
    ensures Shut(WP.Exec(s, t))
  {
    hide WP.Inv, WP.WriterGate, WP.Exec, OnlyWritersWait;
    if WP.WriterGate(s) == 0 {
      OnlyWritersStep(s, t);
    } else if WP.PhaseOf(s.pc[t]).role == Reader {
      WP.ReaderLeavesGate(s, t);
    } else {
      WP.GateKeptWriter(s, t);
    }
  }

  lemma ShutDo(l: Lock, a: Action)
    requires WritersCounted(l) && Inv(l) && Shut(l.wp) && Can(l, a) && WritersCounted(Do(l, a))
    ensures Shut(Do(l, a).wp) && !Admits(l, a)
  {
    hide WP.Inv, WP.WriterGate, WP.Exec, WP.Enabled, OnlyWritersWait;
    var s := l.wp;
    match a {
      case Enter(t, role) => if WP.WriterGate(s) > 0 { WP.GateKeptCall(s, t, role); } else { NobodyElse(s, t); }
      case Leave(t) => if WP.WriterGate(s) > 0 { WP.GateKeptRelease(s, t); } else { NobodyElse(s, t); }
      case Go(t, w) => EnabledIndex(s, t); ShutGo(s, t); ShutAdmitsNone(s, t);
    }
  }

  lemma EnabledIndex(s: WP.State, t: nat)
    requires WP.Enabled(s, t)
    ensures t < |s.pc|
  {
  }

  lemma NobodyElse(s: WP.State, t: nat)
    requires OnlyWritersWait(s) && t < |s.pc|
    ensures s.pc[t] == WP.WGate || s.pc[t] == WP.WMutex
  {
  }

  lemma {:induction false} ShutKeepsOut(l: Lock, acts: seq<Action>)
    requires WritersCounted(l) && Inv(l) && Shut(l.wp) && Legal(l, acts) && Throughout(l, acts, WritersCounted)
    ensures !SomeAdmitted(l, acts)
    decreases |acts|
  {
    hide Inv, Shut, Can, Do, Admits;
    if acts == [] {
    } else {
      var q := DoOk(l, acts[0]);
      ShutDo(l, acts[0]);
      ShutKeepsOut(Do(l, acts[0]), acts[1..]);
    }
  }

  // ----- how a reader gets past the writer at the gate -----

  /** A reader, or a thread that can become one. */
  predicate CanRead(p: WP.Pc)
  {
    WP.PhaseOf(p) == Outside || WP.PhaseOf(p).role == Reader
  }

  /** Not yet on the way in. */
  function Stage(p: WP.Pc): nat
  {
    match p
    case RTry | RGate | RMutex | RInc => 0
    case _ => 1
  }

  ghost predicate Open(s: WP.State)
  {
    s.writeCount > 0 && WP.WriterGate(s) == 0
  }

  /** Thread r is a reader that can go on, or one that can leave. */
  predicate Moves(s: WP.State, r: nat)
  {
    r < |s.pc| && s.pc[r] != WP.Idle && CanRead(s.pc[r]) && (WP.Enabled(s, r) || s.pc[r] == WP.RIn)
  }

  /** The semaphore that the operation at p waits for is positive. */
  predicate Ready(s: WP.State, p: WP.Pc)
  {
    match p
    case RTry => s.readTry > 0
    case RGate => s.rsem > 0
    case RMutex | RxMutex => s.mutex1 > 0
    case RWrt => s.wrt > 0
    case _ => WP.Free(p)
  }

  lemma ReaderAt(s: WP.State, p: WP.Pc) returns (r: nat)
    requires Count(s.pc, p) > 0 && CanRead(p) && Ready(s, p)
    ensures Moves(s, r)
  {
    r := CountWitness(s.pc, p);
  }

  ghost predicate NoFreeReader(s: WP.State)
  {
    forall p: WP.Pc :: CanRead(p) && WP.Free(p) ==> Count(s.pc, p) == 0
  }

  lemma ReaderTally(s: WP.State)
    requires NoFreeReader(s)
    ensures WP.InMutex1(s) == Count(s.pc, WP.RWrt) && WP.ReaderGate(s) == Count(s.pc, WP.RMutex) + Count(s.pc, WP.RWrt)
    ensures WP.InTry(s) == Count(s.pc, WP.RGate) + Count(s.pc, WP.RMutex) + Count(s.pc, WP.RWrt)
  {
    hide Count;
  }

  lemma BlockedReader(s: WP.State, t: nat)
    requires NoFreeReader(s) && t < |s.pc| && s.pc[t] != WP.Idle && CanRead(s.pc[t])
    ensures Count(s.pc, WP.RWrt) > 0 || Count(s.pc, WP.RMutex) > 0 || Count(s.pc, WP.RxMutex) > 0 ||
            Count(s.pc, WP.RGate) > 0 || Count(s.pc, WP.RTry) > 0
  {
    hide Count;
    CountMove(s.pc, t, WP.Idle);
  }

  /** Some reader can move: the chain readTry_ <- rsem_ <- mutex1_ ends at one. */
  lemma SomeReaderMoves(s: WP.State, t: nat) returns (r: nat)
    requires WP.Inv(s) && Open(s) && t < |s.pc| && s.pc[t] != WP.Idle && CanRead(s.pc[t])
    ensures Moves(s, r)
  {
    if NoFreeReader(s) {
      r := BlockedReaderMoves(s, t);
    } else {
      var p: WP.Pc :| CanRead(p) && WP.Free(p) && Count(s.pc, p) > 0;
      r := ReaderAt(s, p);
    }
  }

  lemma BlockedReaderMoves(s: WP.State, t: nat) returns (r: nat)
    requires WP.Inv(s) && Open(s) && t < |s.pc| && s.pc[t] != WP.Idle && CanRead(s.pc[t]) && NoFreeReader(s)
    ensures Moves(s, r)
  {
    hide Count, Moves, NoFreeReader, WP.InMutex1, WP.InMutex2, WP.InTry;
    hide WP.WriterGate, WP.ReaderGate, WP.WriterHold, WP.ReaderGroup;
    WP.InvFacts(s);
    CountIn(s.pc, WP.RWrt);
    ReaderTally(s);
    BlockedReader(s, t);
    if Count(s.pc, WP.RWrt) > 0 { r := ReaderAt(s, WP.RWrt); return; }
    if Count(s.pc, WP.RMutex) > 0 { r := ReaderAt(s, WP.RMutex); return; }
    if Count(s.pc, WP.RxMutex) > 0 { r := ReaderAt(s, WP.RxMutex); return; }
    if Count(s.pc, WP.RGate) > 0 { r := ReaderAt(s, WP.RGate); return; }
    r := ReaderAt(s, WP.RTry);
  }

  // ----- one step of the readers -----

  /** A reader's operation leaves writeCount_ and the writers' group alone. */
  lemma ReaderExecOpen(s: WP.State, r: nat)
    requires Open(s) && WP.Enabled(s, r) && WP.PhaseOf(s.pc[r]).role == Reader
    ensures Open(WP.Exec(s, r))
  {
    hide WP.WriterGate;
    WP.ReaderLeavesGate(s, r);
  }

  lemma ReaderLeaveOpen(s: WP.State, r: nat)
    requires Open(s) && r < |s.pc| && s.pc[r] == WP.RIn
    ensures Open(WP.Release(s, r))
  {
    hide Count;
    CountMove(s.pc, r, WP.RxMutex);
  }

  lemma ReaderCallOpen(s: WP.State, t: nat)
    requires Open(s) && t < |s.pc| && s.pc[t] == WP.Idle
    ensures Open(WP.Call(s, t, Reader))
  {
    hide Count;
    CountMove(s.pc, t, WP.RTry);
  }

  /** The next action of the readers: thread r takes its operation, or leaves. */
  function ReaderAct(s: WP.State, r: nat): Action
    requires Moves(s, r)
  {
    if s.pc[r] == WP.RIn then Leave(r) else Go(r, 0)
  }

  ghost function Work(l: Lock): nat
    requires l.Wp?
  {
    Sum(l.wp.pc, WP.Rank)
  }

  lemma ReaderLeaves(s: WP.State, r: nat)
    requires Open(s) && r < |s.pc| && s.pc[r] == WP.RIn
    ensures var s' := WP.Release(s, r);
      Open(s') && s'.pc == s.pc[r := WP.RxMutex] && Sum(s'.pc, WP.Rank) < Sum(s.pc, WP.Rank)
  {
    hide Open, Sum;
    ReaderLeaveOpen(s, r);
    SumUpdate(s.pc, r, WP.RxMutex, WP.Rank);
  }

  lemma ReaderExecutes(s: WP.State, r: nat)
    requires Open(s) && WP.Enabled(s, r) && WP.PhaseOf(s.pc[r]).role == Reader && s.pc[r] != WP.RInc
    ensures var s', q := WP.Exec(s, r), WP.Exec(s, r).pc[r];
      && Open(s') && s'.pc == s.pc[r := q] && Sum(s'.pc, WP.Rank) < Sum(s.pc, WP.Rank)
      && CanRead(q) && Stage(q) <= Stage(s.pc[r])
  {
    hide Open, Sum;
    ReaderExecOpen(s, r);
    WP.ExecMoves(s, r);
    SumUpdate(s.pc, r, WP.Exec(s, r).pc[r], WP.Rank);
  }

  lemma ReaderActs(l: Lock, r: nat)
    requires l.Wp? && Inv(l) && Open(l.wp) && Moves(l.wp, r) && l.wp.pc[r] != WP.RInc
    ensures var a := ReaderAct(l.wp, r);
      && Can(l, a) && Do(l, a).Wp? && Open(Do(l, a).wp) && Work(Do(l, a)) < Work(l)
      && Do(l, a).wp.pc == l.wp.pc[r := Do(l, a).wp.pc[r]]
      && CanRead(Do(l, a).wp.pc[r]) && Stage(Do(l, a).wp.pc[r]) <= Stage(l.wp.pc[r])
  {
    hide Open, Sum, WP.Exec, WP.Inv;
    if l.wp.pc[r] == WP.RIn {
      ReaderLeaves(l.wp, r);
    } else {
      ReaderExecutes(l.wp, r);
    }
  }

  // ----- the whole way in -----

  lemma Prepend(l: Lock, a: Action, acts: seq<Action>)
    requires WritersCounted(l) && Can(l, a)
    requires Legal(Do(l, a), acts) && Throughout(Do(l, a), acts, WritersCounted)
    ensures Legal(l, [a] + acts) && Throughout(l, [a] + acts, WritersCounted)
    ensures SomeAdmitted(l, [a] + acts) <==> Admits(l, a) || SomeAdmitted(Do(l, a), acts)
  {
    hide Can, Do, WritersCounted, Admits;
    assert ([a] + acts)[0] == a && ([a] + acts)[1..] == acts;
  }

  /** A thread outside starts a read. */
  lemma ReaderCalls(l: Lock, t: nat)
    requires l.Wp? && Inv(l) && Open(l.wp) && t < Size(l) && l.wp.pc[t] == WP.Idle
    ensures var a := Enter(t, Reader);
      Can(l, a) && Do(l, a).Wp? && Open(Do(l, a).wp) && Do(l, a).wp.pc == l.wp.pc[t := WP.RTry]
  {
    hide Open;
    ReaderCallOpen(l.wp, t);
  }

  /** Reader r increments readCount_ now. */
  lemma ReaderEnters(l: Lock, r: nat)
    requires l.Wp? && Open(l.wp) && r < Size(l) && l.wp.pc[r] == WP.RInc
    ensures var a := Go(r, 0); Can(l, a) && Admits(l, a) && WritersCounted(Do(l, a))
  {
    ReaderExecOpen(l.wp, r);
  }

  /** Thread t is no writer, and from l to m it comes nearer to readCount_, or the others get out of its way. */
  ghost predicate Nearer(l: Lock, m: Lock, t: nat)
    requires l.Wp? && t < Size(l)
  {
    m.Wp? && Open(m.wp) && t < Size(m) && CanRead(m.wp.pc[t]) &&
    (Stage(m.wp.pc[t]) < Stage(l.wp.pc[t]) || (Stage(m.wp.pc[t]) == Stage(l.wp.pc[t]) && Work(m) < Work(l)))
  }

  /** Before any writer has passed the gate there is always an action of the readers that admits one of them or
      brings thread t nearer: t may first have to finish a read and start another one. */
  lemma NextReaderAct(l: Lock, t: nat) returns (a: Action)
    requires l.Wp? && Inv(l) && Open(l.wp) && t < Size(l) && CanRead(l.wp.pc[t])
    ensures Can(l, a) && WritersCounted(Do(l, a)) && (Admits(l, a) || Nearer(l, Do(l, a), t))
  {
    hide WP.Inv, Can, Do, WP.WriterGate, Moves, Sum;
    if l.wp.pc[t] == WP.Idle {
      ReaderCalls(l, t);
      a := Enter(t, Reader);
    } else {
      var r := SomeReaderMoves(l.wp, t);
      if l.wp.pc[r] == WP.RInc {
        ReaderEnters(l, r);
        a := Go(r, 0);
      } else {
        ReaderActs(l, r);
        a := ReaderAct(l.wp, r);
      }
    }
  }

  lemma {:induction false} ReaderGetsIn(l: Lock, t: nat) returns (acts: seq<Action>)
    requires l.Wp? && Inv(l) && Open(l.wp) && t < Size(l) && CanRead(l.wp.pc[t])
    ensures Legal(l, acts) && Throughout(l, acts, WritersCounted) && SomeAdmitted(l, acts)
    decreases Stage(l.wp.pc[t]), Work(l)
  {
    hide Inv, Can, Do, WP.WriterGate, Sum, CanRead, Admits, Work, Stage;
    var a := NextReaderAct(l, t);
    var q := DoOk(l, a);
    var more := [];
    if !Admits(l, a) {
      more := ReaderGetsIn(Do(l, a), t);
    }
    Prepend(l, a, more);
    acts := [a] + more;
  }

  /** Before the first counted writer is past the gate, whoever is not a waiting writer can read. */
  lemma OutsiderCanRead(s: WP.State, t: nat)
    requires WP.Inv(s) && Open(s) && t < |s.pc| && s.pc[t] != WP.WGate && s.pc[t] != WP.WMutex
    ensures CanRead(s.pc[t])
  {
    hide Count, WP.ReaderInv, WP.ReaderGate, WP.ReaderGroup;
    CountMove(s.pc, t, WP.Idle);
  }

  /** "A queued writer blocks all new readers" holds exactly from the moment the first writer's rsem_.wait() has
      returned, or while there is no thread left but waiting writers: from any state of any run with a counted
      writer, no continuation admits a reader while writers are counted if and only if some writer has passed
      the gate, or every thread is the writer at the gate or queues behind it for mutex2_. */
  lemma QueuedWriterBlocksReaders(tr: seq<Lock>, acts: seq<Action>, n: nat, i: nat)
    requires Run(tr, acts) && tr[0] == Init(WriterFirst, n) && i < |tr| && WritersCounted(tr[i])
    ensures ReadersKeptOut(tr[i]) <==> WP.WriterGate(tr[i].wp) > 0 || OnlyWritersWait(tr[i].wp)
  {
    hide WP.Inv, Init, Can, Do, WP.WriterGate, CanRead, SomeAdmitted, Legal, Throughout;
    RunInv(tr, acts, WriterFirst, n, i);
    var l := tr[i];
    if Shut(l.wp) {
      forall more | Legal(l, more) && Throughout(l, more, WritersCounted) ensures !SomeAdmitted(l, more) {
        ShutKeepsOut(l, more);
      }
    } else {
      var t: nat :| t < Size(l) && l.wp.pc[t] != WP.WGate && l.wp.pc[t] != WP.WMutex;
      OutsiderCanRead(l.wp, t);
      var more := ReaderGetsIn(l, t);
    }
  }
}
