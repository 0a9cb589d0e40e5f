/** The starvation that the two priority locks accept by design: exactly which casts of threads let one side pass a
    blocked thread of the other side without bound. */
module Overtaking {
  import opened Casts
  import opened Counting
  import opened RwSpec
  import opened RwLock
  import RP = ReaderPriority
  import WP = WriterPriority

  /** k reads can complete while a writer stays blocked in wrt_.wait(). */
  ghost predicate ReadsPassWriter(c: Cast, k: nat)
  {
    exists u :: Pass(ReaderFirst, c, Reader, k, OnWrt(u))
  }

  /** k writes can complete while a reader stays blocked in rsem_.wait(). */
  ghost predicate WritesPassReader(c: Cast, k: nat)
  {
    exists u :: Pass(WriterFirst, c, Writer, k, OnRsem(u))
  }

  // ----- ReaderPriorityLock: two readers keep each other company -----

  /** Readers x and y at px and py, writer u at pu, and the shared variables. */
  predicate RpAt(s: RP.State, x: nat, y: nat, u: nat, px: RP.Pc, py: RP.Pc, pu: RP.Pc, count: int, mutex: nat, wrt: nat)
  {
    && x < |s.pc| && s.pc[x] == px && y < |s.pc| && s.pc[y] == py && x != y
    && u < |s.pc| && s.pc[u] == pu && u != x && u != y
    && s.readCount == count && s.mutex == mutex && s.wrt == wrt
  }

  ghost predicate RpScene(p: Plot, l: Lock, k: nat, x: nat, y: nat, u: nat, px: RP.Pc, py: RP.Pc, pu: RP.Pc,
                          count: int, mutex: nat, wrt: nat)
  {
    && p.algo == ReaderFirst && p.role == Reader && (p.o == Nobody || p.o == OnWrt(u)) && Story(p, l, k)
    && RoleOf(p.c, x) == RoleOf(p.c, y) == Reader && RoleOf(p.c, u) == Writer
    && l.Rp? && RpAt(l.rp, x, y, u, px, py, pu, count, mutex, wrt)
  }

  /** An operation that does not end a call. */
  lemma RpStep(p: Plot, l: Lock, k: nat, t: nat) returns (l': Lock)
    requires Story(p, l, k) && l.Rp? && RP.Enabled(l.rp, t) && l.rp.pc[t] != RP.RxPost && l.rp.pc[t] != RP.WxWrt
    requires Holds(Rp(RP.Exec(l.rp, t)), p.o)
    ensures l' == Rp(RP.Exec(l.rp, t)) && Story(p, l', k)
  {
    hide Story, Holds;
    var k';
    l', k' := StoryGoesOn(p, l, k, Go(t, 0));
  }

  lemma ReaderJoins(p: Plot, l: Lock, k: nat, x: nat, y: nat, u: nat) returns (l': Lock)
    requires RpScene(p, l, k, x, y, u, RP.RIn, RP.Idle, RP.WWrt, 1, 1, 0)
    ensures RpScene(p, l', k, x, y, u, RP.RIn, RP.RIn, RP.WWrt, 2, 1, 0)
  {
    hide Story;
    var k';
    l', k' := StoryGoesOn(p, l, k, Enter(y, Reader));
    l' := RpStep(p, l', k, y);
    l' := RpStep(p, l', k, y);
    l' := RpStep(p, l', k, y);
  }

  lemma ReaderLeaves(p: Plot, l: Lock, k: nat, x: nat, y: nat, u: nat) returns (l': Lock)
    requires RpScene(p, l, k, x, y, u, RP.RIn, RP.RIn, RP.WWrt, 2, 1, 0)
    ensures RpScene(p, l', k + 1, y, x, u, RP.RIn, RP.Idle, RP.WWrt, 1, 1, 0)
  {
    hide Story;
    var k';
    l', k' := StoryGoesOn(p, l, k, Leave(x));
    l' := RpStep(p, l', k, x);
    l' := RpStep(p, l', k, x);
    l', k' := StoryGoesOn(p, l', k, Go(x, 0));
  }

  lemma {:induction false} ReadersKeepCycling(p: Plot, l: Lock, n: nat, x: nat, y: nat, u: nat)
    returns (l': Lock, a: nat, b: nat)
    requires RpScene(p, l, 0, x, y, u, RP.RIn, RP.Idle, RP.WWrt, 1, 1, 0)
    ensures RpScene(p, l', n, a, b, u, RP.RIn, RP.Idle, RP.WWrt, 1, 1, 0)
    decreases n
  {
    hide RpScene;
    if n == 0 {
      l', a, b := l, x, y;
    } else {
      l', a, b := ReadersKeepCycling(p, l, n - 1, x, y, u);
      l' := ReaderJoins(p, l', n - 1, a, b, u);
      l' := ReaderLeaves(p, l', n - 1, a, b, u);
      a, b := b, a;
    }
  }

  lemma RpSceneStory(p: Plot, l: Lock, k: nat, x: nat, y: nat, u: nat)
    requires RpScene(p, l, k, x, y, u, RP.RIn, RP.Idle, RP.WWrt, 1, 1, 0)
    ensures Story(p, l, k)
  {
  }

  lemma RpStarts(p: Plot, x: nat, y: nat, u: nat) returns (l: Lock)
    requires p.algo == ReaderFirst && p.role == Reader && p.o == Nobody && x != y
    requires RoleOf(p.c, x) == RoleOf(p.c, y) == Reader && RoleOf(p.c, u) == Writer && u < p.c.readers + p.c.writers
    ensures RpScene(p, l, 0, x, y, u, RP.RMutex, RP.Idle, RP.Idle, 0, 1, 1)
  {
    hide Story;
    StoryStarts(p);
    var k;
    l, k := StoryGoesOn(p, Init(ReaderFirst, p.c.readers + p.c.writers), 0, Enter(x, Reader));
  }

  lemma FirstReaderGoesIn(p: Plot, l: Lock, x: nat, y: nat, u: nat) returns (l': Lock)
    requires RpScene(p, l, 0, x, y, u, RP.RMutex, RP.Idle, RP.Idle, 0, 1, 1) && p.o == Nobody
    ensures RpScene(p, l', 0, x, y, u, RP.RIn, RP.Idle, RP.Idle, 1, 1, 0)
  {
    hide Story;
    l' := RpStep(p, l, 0, x);
    l' := RpStep(p, l', 0, x);
    l' := RpStep(p, l', 0, x);
    l' := RpStep(p, l', 0, x);
  }

  lemma WriterBlocks(p: Plot, l: Lock, x: nat, y: nat, u: nat) returns (l': Lock)
    requires RpScene(p, l, 0, x, y, u, RP.RIn, RP.Idle, RP.Idle, 1, 1, 0) && p.o == Nobody
    ensures RpScene(p.(o := OnWrt(u)), l', 0, x, y, u, RP.RIn, RP.Idle, RP.WWrt, 1, 1, 0)
  {
    hide Story;
    var k;
    l', k := StoryGoesOn(p, l, 0, Enter(u, Writer));
    StoryWatches(p, l', k, OnWrt(u));
  }

  /** With two readers and a writer, any number of reads can complete while the writer stays blocked. */
  lemma ReadersCanStarveWriter(c: Cast, k: nat)
    requires c.readers >= 2 && c.writers >= 1
    ensures ReadsPassWriter(c, k)
  {
    hide Story, Pass, RpScene;
    var p, u := Plot(ReaderFirst, c, Reader, Nobody), c.readers;
    var l := RpStarts(p, 0, 1, u);
    l := FirstReaderGoesIn(p, l, 0, 1, u);
    l := WriterBlocks(p, l, 0, 1, u);
    p := p.(o := OnWrt(u));
    var a, b;
    l, a, b := ReadersKeepCycling(p, l, k, 0, 1, u);
    RpSceneStory(p, l, k, a, b, u);
    StoryPasses(p, l, k);
  }

  /** A reader that has left wrt_ behind and only has to give mutex_ back. */
  function RpOwes(p: RP.Pc): nat
  {
    if p == RP.RxPost then 1 else 0
  }

  /** With at most one reader, a read can complete only by posting wrt_. */
  lemma LastReaderPosts(c: Cast, l: Lock, t: nat)
    requires InRole(c, l) && Inv(l) && c.readers <= 1 && l.Rp? && t < |l.rp.pc| && l.rp.pc[t] == RP.RxDec
    ensures l.rp.readCount == 1
  {
    hide Count;
    forall p: RP.Pc | RP.PhaseOf(p) != Outside && RP.PhaseOf(p).role == Reader && p != RP.RxDec
      ensures Count(l.rp.pc, p) == 0
    {
      if Count(l.rp.pc, p) > 0 {
        var i := CountWitness(l.rp.pc, p);
        RoleAt(c, l, i);
        RoleAt(c, l, t);
      }
    }
    hide InRole;
    CountMove(l.rp.pc, t, RP.Idle);
  }

  ghost function RpDebt(l: Lock): nat
  {
    if l.Rp? then Sum(l.rp.pc, RpOwes) else 0
  }

  lemma RpOwesGo(s: RP.State, t: nat)
    requires RP.Enabled(s, t) && s.wrt == 0 && RP.Exec(s, t).wrt == 0 && (s.pc[t] == RP.RxDec ==> s.readCount == 1)
    ensures var p' := RP.Exec(s, t).pc[t];
      RP.Exec(s, t).pc == s.pc[t := p'] &&
      RpOwes(p') + (if RP.PhaseOf(s.pc[t]) == Releasing(Reader) && RP.PhaseOf(p') == Outside then 1 else 0)
      <= RpOwes(s.pc[t])
  {
  }

  lemma RpOwesOther(l: Lock, a: Action)
    requires l.Rp? && Can(l, a) && !a.Go?
    ensures a.t < |l.rp.pc| && Do(l, a).Rp?
    ensures var p' := Do(l, a).rp.pc[a.t]; Do(l, a).rp.pc == l.rp.pc[a.t := p'] && RpOwes(p') == RpOwes(l.rp.pc[a.t])
  {
  }

  lemma RpOwesDo(c: Cast, l: Lock, a: Action, u: nat)
    requires InRole(c, l) && Inv(l) && c.readers <= 1 && Can(l, a)
    requires Holds(l, OnWrt(u)) && Holds(Do(l, a), OnWrt(u))
    ensures RpDebt(Do(l, a)) + (if Completes(l, a, Do(l, a), Reader) then 1 else 0) <= RpDebt(l)
  {
    var s := l.rp;
    if a.Go? {
      if s.pc[a.t] == RP.RxDec { LastReaderPosts(c, l, a.t); }
      hide Sum, Inv, InRole, RP.Exec, RP.PhaseOf;
      RpOwesGo(s, a.t);
      SumUpdate(s.pc, a.t, Do(l, a).rp.pc[a.t], RpOwes);
    } else {
      hide Sum, Inv, InRole, Do;
      RpOwesOther(l, a);
      SumUpdate(s.pc, a.t, Do(l, a).rp.pc[a.t], RpOwes);
    }
  }

  lemma {:induction false} ReadsAreOwed(tr: seq<Lock>, acts: seq<Action>, c: Cast, i: nat, u: nat, j: nat)
    requires HeldFrom(tr, acts, ReaderFirst, c, i, OnWrt(u)) && c.readers <= 1 && i <= j <= |acts|
    ensures Completed(tr, acts, Reader, i, j) + RpDebt(tr[j]) <= RpDebt(tr[i])
    decreases j
  {
    hide Inv, Can, Do, Plays, Init, InRole, RpDebt, Completes, Holds, Begins;
    if i == j {
    } else {
      ReadsAreOwed(tr, acts, c, i, u, j - 1);
      RunInRole(tr, acts, ReaderFirst, c, j - 1);
      assert Holds(tr[j], OnWrt(u)) && tr[j-1+1] == Do(tr[j-1], acts[j-1]);
      RpOwesDo(c, tr[j-1], acts[j-1], u);
    }
  }

  lemma BlockedIsWriter(c: Cast, l: Lock, u: nat)
    requires InRole(c, l) && Holds(l, OnWrt(u))
    ensures c.writers >= 1 && RpDebt(l) <= c.readers + c.writers
  {
    RoleAt(c, l, u);
    SumBound(l.rp.pc, RpOwes, 1);
  }

  lemma FewReadsPass(c: Cast)
    requires c.readers <= 1 || c.writers == 0
    ensures !ReadsPassWriter(c, c.readers + c.writers + 1)
  {
    hide CastRun, Completed, InRole, Inv, RpDebt, Holds, Begins;
    var n := c.readers + c.writers;
    if u :| Pass(ReaderFirst, c, Reader, n + 1, OnWrt(u)) {
      var tr, acts, i: nat :| HeldFrom(tr, acts, ReaderFirst, c, i, OnWrt(u)) &&
        Completed(tr, acts, Reader, i, |acts|) >= n + 1;
      RunInRole(tr, acts, ReaderFirst, c, i);
      BlockedIsWriter(c, tr[i], u);
      ReadsAreOwed(tr, acts, c, i, u, |acts|);
    }
  }

  /** For every k, k reads can complete while a writer stays blocked, if and only if there are two readers and a
      writer; otherwise no more can than there are threads. */
  lemma ReadsPassWriterIff(c: Cast)
    ensures (forall k: nat :: ReadsPassWriter(c, k)) <==> c.readers >= 2 && c.writers >= 1
  {
    hide ReadsPassWriter;
    if c.readers >= 2 && c.writers >= 1 {
      forall k: nat ensures ReadsPassWriter(c, k) {
        ReadersCanStarveWriter(c, k);
      }
    } else {
      FewReadsPass(c);
    }
  }

  // ----- WriterPriorityLock: two writers keep the gate between them -----

  /** Writers x and y at px and py, reader u at pu, and the shared variables. */
  predicate WpAt(s: WP.State, x: nat, y: nat, u: nat, px: WP.Pc, py: WP.Pc, pu: WP.Pc,
                 count: int, mutex2: nat, wrt: nat, rsem: nat)
  {
    && x < |s.pc| && s.pc[x] == px && y < |s.pc| && s.pc[y] == py && x != y
    && u < |s.pc| && s.pc[u] == pu && u != x && u != y
    && s.writeCount == count && s.mutex2 == mutex2 && s.wrt == wrt && s.rsem == rsem
  }

  ghost predicate WpScene(p: Plot, l: Lock, k: nat, x: nat, y: nat, u: nat, px: WP.Pc, py: WP.Pc, pu: WP.Pc,
                          count: int, mutex2: nat, wrt: nat, rsem: nat)
  {
    && p.algo == WriterFirst && p.role == Writer && (p.o == Nobody || p.o == OnRsem(u)) && Story(p, l, k)
    && RoleOf(p.c, x) == RoleOf(p.c, y) == Writer && RoleOf(p.c, u) == Reader
    && l.Wp? && WpAt(l.wp, x, y, u, px, py, pu, count, mutex2, wrt, rsem) && (pu == WP.Idle ==> l.wp.readTry == 1)
  }

  /** An operation that does not end a call. */
  lemma WpStep(p: Plot, l: Lock, k: nat, t: nat) returns (l': Lock)
    requires Story(p, l, k) && l.Wp? && WP.Enabled(l.wp, t) && l.wp.pc[t] != WP.RxPost && l.wp.pc[t] != WP.WxPost
    requires Holds(Wp(WP.Exec(l.wp, t)), p.o)
    ensures l' == Wp(WP.Exec(l.wp, t)) && Story(p, l', k)
  {
    hide Story, Holds;
    var k';
    l', k' := StoryGoesOn(p, l, k, Go(t, 0));
  }

  lemma WriterQueues(p: Plot, l: Lock, k: nat, x: nat, y: nat, u: nat) returns (l': Lock)
    requires WpScene(p, l, k, x, y, u, WP.WIn, WP.Idle, WP.RGate, 1, 1, 0, 0)
    ensures WpScene(p, l', k, x, y, u, WP.WIn, WP.WWrt, WP.RGate, 2, 1, 0, 0)
  {
    hide Story;
    var k';
    l', k' := StoryGoesOn(p, l, k, Enter(y, Writer));
    l' := WpStep(p, l', k, y);
    l' := WpStep(p, l', k, y);
    l' := WpStep(p, l', k, y);
  }

  lemma WriterPosts(p: Plot, l: Lock, k: nat, x: nat, y: nat, u: nat) returns (l': Lock)
    requires WpScene(p, l, k, x, y, u, WP.WIn, WP.WWrt, WP.RGate, 2, 1, 0, 0)
    ensures WpScene(p, l', k, x, y, u, WP.WxMutex, WP.WWrt, WP.RGate, 2, 1, 1, 0)
  {
    hide Story;
    var k';
    l', k' := StoryGoesOn(p, l, k, Leave(x));
    l' := WpStep(p, l', k, x);
    l' := WpStep(p, l', k, x);
  }

  lemma WriterLeaves(p: Plot, l: Lock, k: nat, x: nat, y: nat, u: nat) returns (l': Lock)
    requires WpScene(p, l, k, x, y, u, WP.WxMutex, WP.WWrt, WP.RGate, 2, 1, 1, 0)
    ensures WpScene(p, l', k + 1, x, y, u, WP.Idle, WP.WWrt, WP.RGate, 1, 1, 1, 0)
  {
    hide Story;
    var k';
    l' := WpStep(p, l, k, x);
    l' := WpStep(p, l', k, x);
    l', k' := StoryGoesOn(p, l', k, Go(x, 0));
  }

  lemma NextWriterWrites(p: Plot, l: Lock, k: nat, x: nat, y: nat, u: nat) returns (l': Lock)
    requires WpScene(p, l, k, x, y, u, WP.Idle, WP.WWrt, WP.RGate, 1, 1, 1, 0)
    ensures WpScene(p, l', k, y, x, u, WP.WIn, WP.Idle, WP.RGate, 1, 1, 0, 0)
  {
    hide Story;
    l' := WpStep(p, l, k, y);
    l' := WpStep(p, l', k, y);
  }

  lemma {:induction false} WritersKeepCycling(p: Plot, l: Lock, n: nat, x: nat, y: nat, u: nat)
    returns (l': Lock, a: nat, b: nat)
    requires WpScene(p, l, 0, x, y, u, WP.WIn, WP.Idle, WP.RGate, 1, 1, 0, 0)
    ensures WpScene(p, l', n, a, b, u, WP.WIn, WP.Idle, WP.RGate, 1, 1, 0, 0)
    decreases n
  {
    hide WpScene;
    if n == 0 {
      l', a, b := l, x, y;
    } else {
      l', a, b := WritersKeepCycling(p, l, n - 1, x, y, u);
      l' := WriterQueues(p, l', n - 1, a, b, u);
      l' := WriterPosts(p, l', n - 1, a, b, u);
      l' := WriterLeaves(p, l', n - 1, a, b, u);
      l' := NextWriterWrites(p, l', n, a, b, u);
      a, b := b, a;
    }
  }

  lemma WpStarts(p: Plot, x: nat, y: nat, u: nat) returns (l: Lock)
    requires p.algo == WriterFirst && p.role == Writer && p.o == Nobody && x != y
    requires x < p.c.readers + p.c.writers && y < p.c.readers + p.c.writers
    requires RoleOf(p.c, x) == RoleOf(p.c, y) == Writer && RoleOf(p.c, u) == Reader
    ensures WpScene(p, l, 0, x, y, u, WP.WMutex, WP.Idle, WP.Idle, 0, 1, 1, 1)
  {
    hide Story;
    StoryStarts(p);
    var k;
    l, k := StoryGoesOn(p, Init(WriterFirst, p.c.readers + p.c.writers), 0, Enter(x, Writer));
  }

  lemma FirstWriterCounts(p: Plot, l: Lock, x: nat, y: nat, u: nat) returns (l': Lock)
    requires WpScene(p, l, 0, x, y, u, WP.WMutex, WP.Idle, WP.Idle, 0, 1, 1, 1) && p.o == Nobody
    ensures WpScene(p, l', 0, x, y, u, WP.WGate, WP.Idle, WP.Idle, 1, 0, 1, 1)
  {
    hide Story;
    l' := WpStep(p, l, 0, x);
    l' := WpStep(p, l', 0, x);
  }

  lemma FirstWriterClosesGate(p: Plot, l: Lock, x: nat, y: nat, u: nat) returns (l': Lock)
    requires WpScene(p, l, 0, x, y, u, WP.WGate, WP.Idle, WP.Idle, 1, 0, 1, 1) && p.o == Nobody
    ensures WpScene(p, l', 0, x, y, u, WP.WWrt, WP.Idle, WP.Idle, 1, 1, 1, 0)
  {
    hide Story;
    l' := WpStep(p, l, 0, x);
    l' := WpStep(p, l', 0, x);
  }

  lemma FirstWriterWrites(p: Plot, l: Lock, x: nat, y: nat, u: nat) returns (l': Lock)
    requires WpScene(p, l, 0, x, y, u, WP.WWrt, WP.Idle, WP.Idle, 1, 1, 1, 0) && p.o == Nobody
    ensures WpScene(p, l', 0, x, y, u, WP.WIn, WP.Idle, WP.Idle, 1, 1, 0, 0)
  {
    hide Story;
    l' := WpStep(p, l, 0, x);
    l' := WpStep(p, l', 0, x);
  }

  lemma ReaderBlocks(p: Plot, l: Lock, x: nat, y: nat, u: nat) returns (l': Lock)
    requires WpScene(p, l, 0, x, y, u, WP.WIn, WP.Idle, WP.Idle, 1, 1, 0, 0) && p.o == Nobody
    ensures WpScene(p.(o := OnRsem(u)), l', 0, x, y, u, WP.WIn, WP.Idle, WP.RGate, 1, 1, 0, 0)
  {
    hide Story;
    var k;
    l', k := StoryGoesOn(p, l, 0, Enter(u, Reader));
    l' := WpStep(p, l', 0, u);
    StoryWatches(p, l', 0, OnRsem(u));
  }

  /** With two writers and a reader, any number of writes can complete while the reader stays blocked. */
  lemma WritersCanStarveReader(c: Cast, k: nat)
    requires c.readers >= 1 && c.writers >= 2
    ensures WritesPassReader(c, k)
  {
    hide Story, Pass, WpScene;
    var p, x := Plot(WriterFirst, c, Writer, Nobody), c.readers;
    var l := WpStarts(p, x, x + 1, 0);
    l := FirstWriterCounts(p, l, x, x + 1, 0);
    l := FirstWriterClosesGate(p, l, x, x + 1, 0);
    l := FirstWriterWrites(p, l, x, x + 1, 0);
    l := ReaderBlocks(p, l, x, x + 1, 0);
    p := p.(o := OnRsem(0));
    var a, b;
    l, a, b := WritersKeepCycling(p, l, k, x, x + 1, 0);
    WpSceneStory(p, l, k, a, b, 0);
    StoryPasses(p, l, k);
  }

  lemma WpSceneStory(p: Plot, l: Lock, k: nat, x: nat, y: nat, u: nat)
    requires WpScene(p, l, k, x, y, u, WP.WIn, WP.Idle, WP.RGate, 1, 1, 0, 0)
    ensures Story(p, l, k)
  {
  }

  /** A writer that is done with rsem_ and only has to give mutex2_ back. */
  function WpOwes(p: WP.Pc): nat
  {
    if p == WP.WxPost then 1 else 0
  }

  ghost function WpDebt(l: Lock): nat
  {
    if l.Wp? then Sum(l.wp.pc, WpOwes) else 0
  }

  lemma OnlyWriterAt(c: Cast, l: Lock, t: nat, p: WP.Pc)
    requires InRole(c, l) && c.writers <= 1 && l.Wp? && t < |l.wp.pc| && p != l.wp.pc[t]
    requires WP.PhaseOf(l.wp.pc[t]) == Releasing(Writer) && WP.PhaseOf(p) != Outside && WP.PhaseOf(p).role == Writer
    ensures Count(l.wp.pc, p) == 0
  {
    hide Count, InRole;
    if Count(l.wp.pc, p) > 0 {
      var i := CountWitness(l.wp.pc, p);
      RoleAt(c, l, i);
      RoleAt(c, l, t);
    }
  }

  lemma OneWriterCounted(s: WP.State, t: nat)
    requires WP.WriterInv(s) && t < |s.pc| && s.pc[t] == WP.WxDec
    requires forall p: WP.Pc ::
      WP.PhaseOf(p) != Outside && WP.PhaseOf(p).role == Writer && p != WP.WxDec ==> Count(s.pc, p) == 0
    ensures s.writeCount == 1
  {
    hide Count, WP.PhaseOf;
    CountMove(s.pc, t, WP.Idle);
    assert WP.WriterGate(s) == Count(s.pc, WP.WxDec) && Count(s.pc, WP.WGate) == Count(s.pc, WP.WxGate) == 0 by {
      OnlyTheDecrement(s);
    }
  }

  lemma OnlyTheDecrement(s: WP.State)
    requires forall p: WP.Pc ::
      WP.PhaseOf(p) != Outside && WP.PhaseOf(p).role == Writer && p != WP.WxDec ==> Count(s.pc, p) == 0
    ensures WP.WriterGate(s) == Count(s.pc, WP.WxDec) && Count(s.pc, WP.WGate) == Count(s.pc, WP.WxGate) == 0
  {
    hide Count;
  }

  /** With at most one writer, a write can complete only by posting rsem_. */
  lemma LastWriterPosts(c: Cast, l: Lock, t: nat)
    requires InRole(c, l) && Inv(l) && c.writers <= 1 && l.Wp? && t < |l.wp.pc| && l.wp.pc[t] == WP.WxDec
    ensures l.wp.writeCount == 1
  {
    hide Count, InRole, WP.ReaderInv, WP.WriterInv, WP.TokenInv;
    forall p: WP.Pc | WP.PhaseOf(p) != Outside && WP.PhaseOf(p).role == Writer && p != WP.WxDec
      ensures Count(l.wp.pc, p) == 0
    {
      OnlyWriterAt(c, l, t, p);
    }
    OneWriterCounted(l.wp, t);
  }

  lemma WpOwesGo(s: WP.State, t: nat)
    requires WP.Enabled(s, t) && s.rsem == 0 && WP.Exec(s, t).rsem == 0 && (s.pc[t] == WP.WxDec ==> s.writeCount == 1)
    ensures var p' := WP.Exec(s, t).pc[t];
      WP.Exec(s, t).pc == s.pc[t := p'] &&
      WpOwes(p') + (if WP.PhaseOf(s.pc[t]) == Releasing(Writer) && WP.PhaseOf(p') == Outside then 1 else 0)
      <= WpOwes(s.pc[t])
  {
  }

  lemma WpOwesOther(l: Lock, a: Action)
    requires l.Wp? && Can(l, a) && !a.Go?
    ensures a.t < |l.wp.pc| && Do(l, a).Wp?
    ensures var p' := Do(l, a).wp.pc[a.t]; Do(l, a).wp.pc == l.wp.pc[a.t := p'] && WpOwes(p') == WpOwes(l.wp.pc[a.t])
  {
  }

  lemma WpOwesDo(c: Cast, l: Lock, a: Action, u: nat)
    requires InRole(c, l) && Inv(l) && c.writers <= 1 && Can(l, a)
    requires Holds(l, OnRsem(u)) && Holds(Do(l, a), OnRsem(u))
    ensures WpDebt(Do(l, a)) + (if Completes(l, a, Do(l, a), Writer) then 1 else 0) <= WpDebt(l)
  {
    var s := l.wp;
    hide Sum, Inv, InRole, WP.Exec, WP.PhaseOf;
    if a.Go? {
      if s.pc[a.t] == WP.WxDec { LastWriterPosts(c, l, a.t); }
      WpOwesGo(s, a.t);
      SumUpdate(s.pc, a.t, Do(l, a).wp.pc[a.t], WpOwes);
    } else {
      hide Do;
      WpOwesOther(l, a);
      SumUpdate(s.pc, a.t, Do(l, a).wp.pc[a.t], WpOwes);
    }
  }

  lemma {:induction false} WritesAreOwed(tr: seq<Lock>, acts: seq<Action>, c: Cast, i: nat, u: nat, j: nat)
    requires HeldFrom(tr, acts, WriterFirst, c, i, OnRsem(u)) && c.writers <= 1 && i <= j <= |acts|
    ensures Completed(tr, acts, Writer, i, j) + WpDebt(tr[j]) <= WpDebt(tr[i])
    decreases j
  {
    hide Inv, Can, Do, Plays, Init, InRole, WpDebt, Completes, Holds, Begins;
    if i == j {
    } else {
      WritesAreOwed(tr, acts, c, i, u, j - 1);
      RunInRole(tr, acts, WriterFirst, c, j - 1);
      assert Holds(tr[j], OnRsem(u)) && tr[j-1+1] == Do(tr[j-1], acts[j-1]);
      WpOwesDo(c, tr[j-1], acts[j-1], u);
    }
  }

  lemma BlockedIsReader(c: Cast, l: Lock, u: nat)
    requires InRole(c, l) && Holds(l, OnRsem(u))
    ensures c.readers >= 1 && WpDebt(l) <= c.readers + c.writers
  {
    RoleAt(c, l, u);
    SumBound(l.wp.pc, WpOwes, 1);
  }

  lemma FewWritesPass(c: Cast)
    requires c.writers <= 1 || c.readers == 0
    ensures !WritesPassReader(c, c.readers + c.writers + 1)
  {
    hide CastRun, Completed, InRole, Inv, WpDebt, Holds, Begins;
    var n := c.readers + c.writers;
    if u :| Pass(WriterFirst, c, Writer, n + 1, OnRsem(u)) {
      var tr, acts, i: nat :| HeldFrom(tr, acts, WriterFirst, c, i, OnRsem(u)) &&
        Completed(tr, acts, Writer, i, |acts|) >= n + 1;
      RunInRole(tr, acts, WriterFirst, c, i);
      BlockedIsReader(c, tr[i], u);
      WritesAreOwed(tr, acts, c, i, u, |acts|);
    }
  }

  /** For every k, k writes can complete while a reader stays blocked, if and only if there are two writers and a
      reader; otherwise no more can than there are threads. */
  lemma WritesPassReaderIff(c: Cast)
    ensures (forall k: nat :: WritesPassReader(c, k)) <==> c.writers >= 2 && c.readers >= 1
  {
    hide WritesPassReader;
    if c.writers >= 2 && c.readers >= 1 {
      forall k: nat ensures WritesPassReader(c, k) {
        WritersCanStarveReader(c, k);
      }
    } else {
      FewWritesPass(c);
    }
  }
}
