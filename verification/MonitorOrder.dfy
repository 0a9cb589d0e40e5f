/** FairMorrisLock is documented as first-come-first-served and free of starvation.  Exactly which casts of threads
    let later operations pass a waiting thread without bound. */
module MonitorOrder {
  import opened Casts
  import opened Counting
  import opened RwSpec
  import opened RwLock
  import FA = FairMorris

  /** k writes can complete while a thread that has gone to sleep is never admitted. */
  ghost predicate WritesPassWaiting(c: Cast, k: nat)
  {
    exists u :: Pass(Morris, c, Writer, k, Waits(u))
  }

  /** k operations can complete while a writer sleeps throughout. */
  ghost predicate OperationsPassSleeper(c: Cast, k: nat)
  {
    exists tr, acts, i: nat, u :: HeldFrom(tr, acts, Morris, c, i, Sleeps(u)) &&
      Completed(tr, acts, Reader, i, |acts|) + Completed(tr, acts, Writer, i, |acts|) >= k
  }

  // ----- one writer keeps passing -----

  /** Writer y keeps coming back, z of role r goes to sleep behind it again and again, and x stays at px. */
  datatype Part = Part(p: Plot, y: nat, z: nat, r: Role, x: nat, px: FA.Pc)

  ghost predicate Fits(d: Part)
  {
    && d.p.algo == Morris && d.p.role == Writer
    && d.y != d.z && d.x != d.y && d.x != d.z && RoleOf(d.p.c, d.y) == Writer && RoleOf(d.p.c, d.z) == d.r
    && (d.px == FA.Idle || d.px == FA.WAsleep)
    && match d.p.o
       case Nobody => true
       case Waits(u) => u == d.z
       case Sleeps(u) => u == d.x && d.px == FA.WAsleep
       case _ => false
  }

  /** y is at py, z at pz and counted n times as waiting, and no reader is active. */
  predicate At(s: FA.State, d: Part, py: FA.Pc, pz: FA.Pc, mtx: bool, writing: bool, n: nat)
  {
    && d.y < |s.pc| && s.pc[d.y] == py && d.z < |s.pc| && s.pc[d.z] == pz && (d.x < |s.pc| ==> s.pc[d.x] == d.px)
    && s.mtx == mtx && s.activeReaders == 0 && s.activeWriter == writing
    && s.waitingReaders == (if d.r == Reader then n else 0)
    && s.waitingWriters == (if d.r == Writer then n else 0) + (if d.px == FA.WAsleep then 1 else 0)
  }

  ghost predicate Scene(d: Part, l: Lock, k: nat, py: FA.Pc, pz: FA.Pc, mtx: bool, writing: bool, n: nat)
  {
    Fits(d) && Story(d.p, l, k) && l.Fa? && Holds(l, d.p.o) && At(l.fa, d, py, pz, mtx, writing, n)
  }

  function Guard(r: Role): FA.Pc
  {
    if r == Reader then FA.RGuard else FA.WGuard
  }

  function Dozing(r: Role): FA.Pc
  {
    if r == Reader then FA.RAsleep else FA.WAsleep
  }

  function Woken(r: Role): FA.Pc
  {
    if r == Reader then FA.RWoken else FA.WWoken
  }

  /** The operation at p wakes nobody and does not end a call. */
  predicate Quiet(p: FA.Pc)
  {
    match p
    case RxSignal | WxSignal | RxUnlock | WxUnlock => false
    case _ => true
  }

  lemma QuietStep(p: Plot, l: Lock, k: nat, t: nat) returns (l': Lock)
    requires Story(p, l, k) && l.Fa? && FA.Enabled(l.fa, t) && Quiet(l.fa.pc[t])
    requires Holds(Fa(FA.Exec(l.fa, t, 0)), p.o)
    ensures l' == Fa(FA.Exec(l.fa, t, 0)) && Story(p, l', k)
  {
    hide Story, Holds;
    var w := SomeChoice(l);
    var k';
    l', k' := StoryGoesOn(p, l, k, Go(t, w));
  }

  lemma WriterPassesGuard(d: Part, l: Lock, k: nat, pz: FA.Pc, n: nat) returns (l': Lock)
    requires Scene(d, l, k, FA.Idle, pz, false, false, n) && (d.p.o.Waits? ==> FA.PhaseOf(pz).Acquiring?)
    ensures Scene(d, l', k, FA.WAdmit, pz, true, false, n)
  {
    hide Story;
    var k';
    l', k' := StoryGoesOn(d.p, l, k, Enter(d.y, Writer));
    l' := QuietStep(d.p, l', k', d.y);
    l' := QuietStep(d.p, l', k', d.y);
  }

  lemma WriterGoesIn(d: Part, l: Lock, k: nat, pz: FA.Pc, n: nat) returns (l': Lock)
    requires Scene(d, l, k, FA.WAdmit, pz, true, false, n) && (d.p.o.Waits? ==> FA.PhaseOf(pz).Acquiring?)
    ensures Scene(d, l', k, FA.WIn, pz, false, true, n)
  {
    hide Story;
    l' := QuietStep(d.p, l, k, d.y);
    l' := QuietStep(d.p, l', k, d.y);
  }

  /** z finds y inside and falls asleep. */
  lemma SleeperSleeps(d: Part, l: Lock, k: nat) returns (l': Lock)
    requires Scene(d, l, k, FA.WIn, Guard(d.r), true, true, 0)
    ensures Scene(d, l', k, FA.WIn, Dozing(d.r), false, true, 1)
  {
    hide Story;
    l' := QuietStep(d.p, l, k, d.z);
    l' := QuietStep(d.p, l', k, d.z);
  }

  lemma WriterReleases(d: Part, l: Lock, k: nat) returns (l': Lock)
    requires Scene(d, l, k, FA.WIn, Dozing(d.r), false, true, 1)
    ensures Scene(d, l', k, FA.WxSignal, Dozing(d.r), true, false, 1)
  {
    hide Story;
    var k';
    l', k' := StoryGoesOn(d.p, l, k, Leave(d.y));
    l' := QuietStep(d.p, l', k, d.y);
    l' := QuietStep(d.p, l', k, d.y);
  }

  /** The broadcast wakes reader z and not x; the signal may pick writer z and not x. */
  lemma WriterSignals(d: Part, l: Lock, k: nat) returns (l': Lock)
    requires Scene(d, l, k, FA.WxSignal, Dozing(d.r), true, false, 1)
    ensures Scene(d, l', k, FA.WxUnlock, Woken(d.r), true, false, 1)
  {
    hide Story;
    var w, k' := d.z, k;
    if d.r == Reader {
      w := SomeChoice(l);
    }
    l', k' := StoryGoesOn(d.p, l, k, Go(d.y, w));
  }

  lemma WriterReturns(d: Part, l: Lock, k: nat) returns (l': Lock)
    requires Scene(d, l, k, FA.WxUnlock, Woken(d.r), true, false, 1)
    ensures Scene(d, l', k + 1, FA.Idle, Woken(d.r), false, false, 1)
  {
    hide Story;
    var w := SomeChoice(l);
    var k';
    l', k' := StoryGoesOn(d.p, l, k, Go(d.y, w));
  }

  lemma SleeperWakes(d: Part, l: Lock, k: nat) returns (l': Lock)
    requires Scene(d, l, k, FA.WIn, Woken(d.r), false, true, 1)
    ensures Scene(d, l', k, FA.WIn, Guard(d.r), true, true, 0)
  {
    hide Story;
    l' := QuietStep(d.p, l, k, d.z);
  }

  /** Round after round, y writes while z is woken too late. */
  lemma {:induction false} WriterKeepsPassing(d: Part, l: Lock, n: nat) returns (l': Lock)
    requires Scene(d, l, 0, FA.WIn, Dozing(d.r), false, true, 1)
    ensures Scene(d, l', n, FA.WIn, Dozing(d.r), false, true, 1)
    decreases n
  {
    hide Scene;
    if n == 0 {
      l' := l;
    } else {
      l' := WriterKeepsPassing(d, l, n - 1);
      l' := WriterReleases(d, l', n - 1);
      l' := WriterSignals(d, l', n - 1);
      l' := WriterReturns(d, l', n - 1);
      l' := WriterPassesGuard(d, l', n, Woken(d.r), 1);
      l' := WriterGoesIn(d, l', n, Woken(d.r), 1);
      l' := SleeperWakes(d, l', n);
      l' := SleeperSleeps(d, l', n);
    }
  }

  // ----- how it comes to that -----

  lemma SceneStarts(d: Part) returns (l: Lock)
    requires Fits(d) && d.p.o == Nobody && d.px == FA.Idle
    requires d.y < d.p.c.readers + d.p.c.writers && d.z < d.p.c.readers + d.p.c.writers
    ensures Scene(d, l, 0, FA.Idle, FA.Idle, false, false, 0) && Size(l) == d.p.c.readers + d.p.c.writers
  {
    l := Init(Morris, d.p.c.readers + d.p.c.writers);
    StoryStarts(d.p);
  }

  lemma SleeperCalls(d: Part, l: Lock, k: nat) returns (l': Lock)
    requires Scene(d, l, k, FA.WIn, FA.Idle, false, true, 0) && !d.p.o.Waits?
    ensures Scene(d, l', k, FA.WIn, Guard(d.r), true, true, 0)
  {
    hide Story;
    var k';
    l', k' := StoryGoesOn(d.p, l, k, Enter(d.z, d.r));
    l' := QuietStep(d.p, l', k, d.z);
  }

  /** While y writes, z calls and falls asleep. */
  lemma SleeperComes(d: Part, l: Lock, k: nat) returns (l': Lock)
    requires Scene(d, l, k, FA.WIn, FA.Idle, false, true, 0) && !d.p.o.Waits?
    ensures Scene(d, l', k, FA.WIn, Dozing(d.r), false, true, 1)
  {
    hide Scene;
    l' := SleeperCalls(d, l, k);
    l' := SleeperSleeps(d, l', k);
  }

  /** y writes, and z sleeps behind it. */
  lemma OneSleeps(d: Part) returns (l: Lock)
    requires Fits(d) && d.p.o == Nobody && d.px == FA.Idle
    requires d.y < d.p.c.readers + d.p.c.writers && d.z < d.p.c.readers + d.p.c.writers
    ensures Scene(d, l, 0, FA.WIn, Dozing(d.r), false, true, 1)
  {
    hide Scene;
    l := SceneStarts(d);
    l := WriterPassesGuard(d, l, 0, FA.Idle, 0);
    l := WriterGoesIn(d, l, 0, FA.Idle, 0);
    l := SleeperComes(d, l, 0);
  }

  /** From now on the run keeps an eye on z, or on x. */
  lemma SceneWatches(d: Part, l: Lock, o: Watch)
    requires Scene(d, l, 0, FA.WIn, Dozing(d.r), false, true, 1) && d.p.o == Nobody
    requires Fits(d.(p := d.p.(o := o))) && Holds(l, o)
    ensures Scene(d.(p := d.p.(o := o)), l, 0, FA.WIn, Dozing(d.r), false, true, 1)
  {
    hide Story;
    StoryWatches(d.p, l, 0, o);
  }

  /** With a writer and another thread, whose call goes to sleep behind the writer, any number of later writes
      can complete before that thread is admitted. */
  lemma LateWritersPassWaiting(c: Cast, k: nat)
    requires c.writers >= 1 && c.readers + c.writers >= 2
    ensures WritesPassWaiting(c, k)
  {
    hide Story, Pass;
    var n := c.readers + c.writers;
    var d := Part(Plot(Morris, c, Writer, Nobody), n - 1, 0, RoleOf(c, 0), n, FA.Idle);
    var l := OneSleeps(d);
    SceneWatches(d, l, Waits(0));
    d := d.(p := Plot(Morris, c, Writer, Waits(0)));
    l := WriterKeepsPassing(d, l, k);
    StoryPasses(d.p, l, k);
  }

  /** The sleeper becomes the one to watch, and thread z the next to come. */
  lemma SceneTurns(d: Part, l: Lock)
    requires Scene(d, l, 0, FA.WIn, Dozing(d.r), false, true, 1)
    requires d.p.o == Nobody && d.r == Writer && d.px == FA.Idle && d.x < d.y
    ensures var e := d.(z := d.x, r := RoleOf(d.p.c, d.x), x := d.z, px := FA.WAsleep);
      Scene(e, l, 0, FA.WIn, FA.Idle, false, true, 0)
  {
    hide Story;
  }

  /** Both other threads can sleep behind the last writer, one of them a writer. */
  lemma TwoSleep(d: Part) returns (l: Lock)
    requires Fits(d) && d.p.o == Nobody && d.px == FA.WAsleep && RoleOf(d.p.c, d.x) == Writer
    requires d.z < d.y && d.x < d.y < d.p.c.readers + d.p.c.writers
    ensures Scene(d, l, 0, FA.WIn, Dozing(d.r), false, true, 1)
  {
    var first := d.(z := d.x, r := Writer, x := d.z, px := FA.Idle);
    l := OneSleeps(first);
    SceneTurns(first, l);
    assert first.(z := first.x, r := RoleOf(d.p.c, first.x), x := first.z, px := FA.WAsleep) == d;
    hide Scene;
    l := SleeperComes(d, l, 0);
  }

  /** With two writers and a third thread, any number of later writes can complete while a writer that came before
      them sleeps throughout. */
  lemma LateWritersPassSleeper(c: Cast, k: nat)
    requires c.writers >= 2 && c.readers + c.writers >= 3
    ensures OperationsPassSleeper(c, k)
  {
    hide Story, HeldFrom;
    var n := c.readers + c.writers;
    var x := n - 2;
    var d := Part(Plot(Morris, c, Writer, Nobody), n - 1, 0, RoleOf(c, 0), x, FA.WAsleep);
    var l := TwoSleep(d);
    SceneWatches(d, l, Sleeps(x));
    d := d.(p := Plot(Morris, c, Writer, Sleeps(x)));
    l := WriterKeepsPassing(d, l, k);
    StoryPasses(d.p, l, k);
    SumIsMore(c, k, x);
  }

  lemma SumIsMore(c: Cast, k: nat, u: nat)
    requires Pass(Morris, c, Writer, k, Sleeps(u))
    ensures OperationsPassSleeper(c, k)
  {
    hide HeldFrom, Completed;
  }

  // ----- where the number is bounded -----

  lemma {:induction false} NoWriteCompletes(tr: seq<Lock>, acts: seq<Action>, c: Cast, i: nat, u: nat, j: nat)
    requires HeldFrom(tr, acts, Morris, c, i, Waits(u))
    requires (c.writers == 0 || c.readers + c.writers <= 1) && i <= j <= |acts|
    ensures Completed(tr, acts, Writer, i, j) == 0
    decreases j
  {
    hide Inv, Can, Do, Plays, PhaseAt, Init, InRole, Completes, Holds, Begins;
    if i == j {
    } else {
      NoWriteCompletes(tr, acts, c, i, u, j - 1);
      RunInRole(tr, acts, Morris, c, j - 1);
      NotTheOne(c, tr[j-1], acts[j-1], tr[j], u);
    }
  }

  lemma NotTheOne(c: Cast, l: Lock, a: Action, l': Lock, u: nat)
    requires InRole(c, l) && Holds(l, Waits(u)) && (c.writers == 0 || c.readers + c.writers <= 1)
    ensures !Completes(l, a, l', Writer)
  {
    RoleAt(c, l, u);
    if a.t < Size(l) {
      RoleAt(c, l, a.t);
    }
  }

  lemma NoWritePasses(c: Cast)
    requires c.writers == 0 || c.readers + c.writers <= 1
    ensures !WritesPassWaiting(c, 1)
  {
    hide CastRun, Holds, Begins, Completed;
    if u :| Pass(Morris, c, Writer, 1, Waits(u)) {
      var tr, acts, i: nat :| HeldFrom(tr, acts, Morris, c, i, Waits(u)) && Completed(tr, acts, Writer, i, |acts|) >= 1;
      NoWriteCompletes(tr, acts, c, i, u, |acts|);
    }
  }

  /** For every k, k writes can complete while a thread that has gone to sleep is never admitted, if and only if there
      is a writer and another thread. */
  lemma WritesPassWaitingIff(c: Cast)
    ensures (forall k: nat :: WritesPassWaiting(c, k)) <==> c.writers >= 1 && c.readers + c.writers >= 2
  {
    hide WritesPassWaiting;
    if c.writers >= 1 && c.readers + c.writers >= 2 {
      forall k: nat ensures WritesPassWaiting(c, k) {
        LateWritersPassWaiting(c, k);
      }
    } else {
      NoWritePasses(c);
    }
  }

  /** A reader that has been admitted and has not yet returned. */
  function Owes(p: FA.Pc): nat
  {
    match p
    case RUnlock | RIn | RxLock | RxDec | RxSignal | RxUnlock => 1
    case _ => 0
  }

  /** While the only writer sleeps, no reader is admitted, so a reader's operation never adds to what is owed. */
  lemma ReaderOwes(s: FA.State, t: nat, w: nat, u: nat)
    requires FA.Inv(s) && FA.Enabled(s, t) && u < |s.pc| && s.pc[u] == FA.WAsleep && FA.PhaseOf(s.pc[t]).role == Reader
    ensures |FA.Exec(s, t, w).pc| == |s.pc|
    ensures var p' := FA.Exec(s, t, w).pc[t]; Owes(p') + (if p' == FA.Idle then 1 else 0) <= Owes(s.pc[t])
    ensures forall i :: 0 <= i < |s.pc| && i != t ==> Owes(FA.Exec(s, t, w).pc[i]) == Owes(s.pc[i])
  {
    assert s.pc[t] != FA.RAdmit by {
      hide Count;
      CountMove(s.pc, u, FA.Idle);
      CountMove(s.pc, t, FA.Idle);
    }
  }

  /** 1 if the action completes an operation of either role. */
  function Returned(l: Lock, a: Action, l': Lock): nat
  {
    (if Completes(l, a, l', Reader) then 1 else 0) + (if Completes(l, a, l', Writer) then 1 else 0)
  }

  ghost function Debt(l: Lock): nat
    requires l.Fa?
  {
    Sum(l.fa.pc, Owes)
  }

  lemma OwesGo(c: Cast, l: Lock, t: nat, w: nat, u: nat)
    requires InRole(c, l) && Inv(l) && c.writers <= 1 && Can(l, Go(t, w)) && Holds(l, Sleeps(u))
    ensures var l' := Do(l, Go(t, w)); Debt(l') + Returned(l, Go(t, w), l') <= Debt(l)
  {
    hide Sum, FA.Inv, FA.Exec, FA.Choice;
    RoleAt(c, l, u);
    RoleAt(c, l, t);
    assert PhaseAt(l, u).role == Writer && PhaseAt(l, t) != Outside;
    ReaderOwes(l.fa, t, w, u);
    SumAgree(l.fa.pc, FA.Exec(l.fa, t, w).pc, t, Owes);
  }

  lemma OwesOther(l: Lock, a: Action)
    requires l.Fa? && Can(l, a) && !a.Go?
    ensures Do(l, a).Fa? && Debt(Do(l, a)) <= Debt(l) && Returned(l, a, Do(l, a)) == 0
  {
    hide Sum;
    var s := l.fa;
    SumUpdate(s.pc, a.t, Do(l, a).fa.pc[a.t], Owes);
  }

  /** While the only writer sleeps, every completion was owed before. */
  lemma {:induction false} SleepersAreOwed(tr: seq<Lock>, acts: seq<Action>, c: Cast, i: nat, u: nat, j: nat)
    requires HeldFrom(tr, acts, Morris, c, i, Sleeps(u)) && c.writers <= 1 && i <= j <= |acts|
    ensures |acts| < |tr|
    ensures Completed(tr, acts, Reader, i, j) + Completed(tr, acts, Writer, i, j) + Debt(tr[j]) <= Debt(tr[i])
    decreases j
  {
    hide Inv, Can, Do, Plays, Init, InRole, Debt, Completes;
    if i == j {
    } else {
      SleepersAreOwed(tr, acts, c, i, u, j - 1);
      RunInRole(tr, acts, Morris, c, j - 1);
      match acts[j-1] {
        case Go(t, w) => OwesGo(c, tr[j-1], t, w, u);
        case _ => OwesOther(tr[j-1], acts[j-1]);
      }
    }
  }

  lemma DebtBound(l: Lock)
    requires l.Fa?
    ensures Debt(l) <= Size(l)
  {
    SumBound(l.fa.pc, Owes, 1);
  }

  // ----- two writers alone -----

  /** Active, and about to signal. */
  predicate Covers(p: FA.Pc)
  {
    match p
    case WUnlock | WIn | WxLock | WxStore | WxSignal => true
    case _ => false
  }

  /** If one of two writers sleeps, the other one will signal it before it returns. */
  predicate Paired(s: FA.State)
  {
    && |s.pc| == 2 && s.waitingReaders == 0
    && (s.pc[0] == FA.WAsleep ==> Covers(s.pc[1])) && (s.pc[1] == FA.WAsleep ==> Covers(s.pc[0]))
  }

  /** What goes to sleep does so behind an active writer. */
  lemma SleepsBehindWriter(s: FA.State, t: nat)
    requires FA.Inv(s) && |s.pc| == 2 && t < 2 && s.pc[t] == FA.WWait
    requires FA.PhaseOf(s.pc[1 - t]) == Outside || FA.PhaseOf(s.pc[1 - t]).role == Writer
    ensures Covers(s.pc[1 - t])
  {
    FA.SleepsBehindActive(s, t);
    var i := FA.ActiveIsAdmitted(s);
  }

  lemma SleeperIsCounted(s: FA.State, u: nat)
    requires FA.Inv(s) && u < |s.pc| && s.pc[u] == FA.WAsleep
    ensures s.waitingWriters > 0 && FA.WAsleep in s.pc
  {
    hide Count, FA.Guards, FA.Wakeups, FA.InMtx;
    CountMove(s.pc, u, FA.Idle);
  }

  /** A covering writer goes on, and wakes the sleeper when it signals. */
  lemma CoverGoes(s: FA.State, t: nat, w: nat)
    requires Paired(s) && FA.Enabled(s, t) && FA.Choice(s, w) && s.waitingWriters > 0 && FA.WAsleep in s.pc
    requires t < 2 && s.pc[1 - t] == FA.WAsleep && Covers(s.pc[t])
    ensures Paired(FA.Exec(s, t, w))
  {
  }

  lemma FreeGoes(s: FA.State, t: nat, w: nat)
    requires Paired(s) && FA.Enabled(s, t) && s.pc[1 - t] != FA.WAsleep && FA.PhaseOf(s.pc[t]).role == Writer
    requires s.pc[t] == FA.WWait ==> Covers(s.pc[1 - t])
    ensures Paired(FA.Exec(s, t, w))
  {
  }

  lemma PairedGo(s: FA.State, t: nat, w: nat)
    requires FA.Inv(s) && Paired(s) && FA.Enabled(s, t) && FA.Choice(s, w)
    requires forall i :: 0 <= i < 2 ==> FA.PhaseOf(s.pc[i]) == Outside || FA.PhaseOf(s.pc[i]).role == Writer
    ensures Paired(FA.Exec(s, t, w))
  {
    hide FA.Inv, FA.Exec;
    if s.pc[1 - t] == FA.WAsleep {
      SleeperIsCounted(s, 1 - t);
      CoverGoes(s, t, w);
    } else {
      if s.pc[t] == FA.WWait { SleepsBehindWriter(s, t); }
      FreeGoes(s, t, w);
    }
  }

  lemma PairedMove(s: FA.State, t: nat, q: FA.Pc)
    requires Paired(s) && t < 2 && q != FA.WAsleep && (s.pc[1 - t] == FA.WAsleep ==> Covers(q))
    ensures Paired(s.(pc := s.pc[t := q]))
  {
  }

  lemma PairedDo(c: Cast, l: Lock, a: Action)
    requires InRole(c, l) && Inv(l) && c.readers == 0 && l.Fa? && Paired(l.fa) && Can(l, a) && Plays(c, a)
    ensures Do(l, a).Fa? && Paired(Do(l, a).fa)
  {
    hide FA.Inv, FA.Exec, FA.Enabled, FA.Choice, InRole;
    if a.Go? {
      RoleAt(c, l, 0);
      RoleAt(c, l, 1);
      PairedGo(l.fa, a.t, a.w);
    } else {
      hide Inv;
      PairedMove(l.fa, a.t, Do(l, a).fa.pc[a.t]);
    }
  }

  lemma {:induction false} RunPaired(tr: seq<Lock>, acts: seq<Action>, c: Cast, i: nat)
    requires CastRun(tr, acts, Morris, c) && c.readers == 0 && c.writers == 2 && i < |tr|
    ensures tr[i].Fa? && Paired(tr[i].fa)
    decreases i
  {
    hide Inv, Can, Do, Plays, Paired, InRole;
    if i == 0 {
      InitPaired();
    } else {
      RunPaired(tr, acts, c, i - 1);
      RunInRole(tr, acts, Morris, c, i - 1);
      PairedDo(c, tr[i-1], acts[i-1]);
    }
  }

  lemma InitPaired()
    ensures Init(Morris, 2).Fa? && Paired(Init(Morris, 2).fa)
  {
  }

  lemma PairedReturnsNot(l: Lock, a: Action, l': Lock, u: nat)
    requires l.Fa? && Paired(l.fa) && Holds(l, Sleeps(u)) && Can(l, a) && l' == Do(l, a)
    ensures Returned(l, a, l') == 0
  {
  }

  lemma {:induction false} NothingCompletes(tr: seq<Lock>, acts: seq<Action>, c: Cast, i: nat, u: nat, j: nat)
    requires HeldFrom(tr, acts, Morris, c, i, Sleeps(u)) && c.readers == 0 && c.writers == 2 && i <= j <= |acts|
    ensures |acts| < |tr| && Completed(tr, acts, Reader, i, j) + Completed(tr, acts, Writer, i, j) == 0
    decreases j
  {
    hide Can, Do, Plays, Init, Paired, Completes;
    if i == j {
    } else {
      NothingCompletes(tr, acts, c, i, u, j - 1);
      RunPaired(tr, acts, c, j - 1);
      PairedReturnsNot(tr[j-1], acts[j-1], tr[j], u);
    }
  }

  /** At most as many operations as there are threads pass a sleeping writer, if it is the only one or there is just
      one other thread. */
  lemma FewPassSleeper(c: Cast)
    requires c.writers <= 1 || c.readers + c.writers <= 2
    ensures !OperationsPassSleeper(c, c.readers + c.writers + 1)
  {
    hide CastRun, Completed, InRole, Inv, Debt;
    var n := c.readers + c.writers;
    if OperationsPassSleeper(c, n + 1) {
      var tr, acts, i, u :| HeldFrom(tr, acts, Morris, c, i, Sleeps(u)) &&
        Completed(tr, acts, Reader, i, |acts|) + Completed(tr, acts, Writer, i, |acts|) >= n + 1;
      if c.writers <= 1 {
        SleepersAreOwed(tr, acts, c, i, u, |acts|);
        RunInRole(tr, acts, Morris, c, i);
        RoleSize(c, tr[i]);
        DebtBound(tr[i]);
      } else {
        NothingCompletes(tr, acts, c, i, u, |acts|);
      }
    }
  }

  lemma RoleSize(c: Cast, l: Lock)
    requires InRole(c, l)
    ensures Size(l) == c.readers + c.writers
  {
  }

  /** For every k, k operations can complete while one writer sleeps throughout, if and only if there are two writers
      and a third thread; otherwise no more can than there are threads. */
  lemma OperationsPassSleeperIff(c: Cast)
    ensures (forall k: nat :: OperationsPassSleeper(c, k)) <==> c.writers >= 2 && c.readers + c.writers >= 3
  {
    if c.writers >= 2 && c.readers + c.writers >= 3 {
      forall k: nat ensures OperationsPassSleeper(c, k) {
        LateWritersPassSleeper(c, k);
      }
    } else {
      FewPassSleeper(c);
    }
  }
}
