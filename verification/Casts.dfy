/** Runs of a lock by a cast of threads with fixed roles, as the simulation starts them, and what completes in such
    a run while one thread is kept waiting. */
module Casts {
  import opened RwSpec
  import opened RwLock
  import FA = FairMorris
  import RP = ReaderPriority
  import WP = WriterPriority

  /** Threads 0 to readers - 1 only read, the others only write. */
  datatype Cast = Cast(readers: nat, writers: nat)

  function RoleOf(c: Cast, t: nat): Role
  {
    if t < c.readers then Reader else Writer
  }

  predicate Plays(c: Cast, a: Action)
  {
    a.Enter? ==> a.role == RoleOf(c, a.t)
  }

  ghost predicate CastRun(tr: seq<Lock>, acts: seq<Action>, algo: Algo, c: Cast)
  {
    && Run(tr, acts) && tr[0] == Init(algo, c.readers + c.writers)
    && forall i :: 0 <= i < |acts| ==> Plays(c, acts[i])
  }

  /** The action makes a readUnlock or writeUnlock return. */
  predicate Completes(l: Lock, a: Action, l': Lock, role: Role)
  {
    a.Go? && a.t < Size(l) && a.t < Size(l') && PhaseAt(l, a.t) == Releasing(role) && PhaseAt(l', a.t) == Outside
  }

  /** Operations of this role completed between positions i and j of a run. */
  ghost function Completed(tr: seq<Lock>, acts: seq<Action>, role: Role, i: nat, j: nat): nat
    requires i <= j <= |acts| < |tr|
    decreases j
  {
    if i == j then 0
    else Completed(tr, acts, role, i, j - 1) + (if Completes(tr[j-1], acts[j-1], tr[j], role) then 1 else 0)
  }

  /** Who is kept waiting: nobody; a thread of the monitor that went to sleep and has not been admitted since; a writer
      asleep on writeCond_; a writer blocked in wrt_.wait(); a reader blocked in rsem_.wait(); a writer about to call
      rsem_.wait() or in it. */
  datatype Watch = Nobody | Waits(u: nat) | Sleeps(u: nat) | OnWrt(u: nat) | OnRsem(u: nat) | AtGate(u: nat)

  predicate Holds(l: Lock, o: Watch)
  {
    match o
    case Nobody => true
    case Waits(u) => l.Fa? && u < |l.fa.pc| && FA.PhaseOf(l.fa.pc[u]).Acquiring?
    case Sleeps(u) => l.Fa? && u < |l.fa.pc| && l.fa.pc[u] == FA.WAsleep
    case OnWrt(u) => l.Rp? && u < |l.rp.pc| && l.rp.pc[u] == RP.WWrt && l.rp.wrt == 0
    case OnRsem(u) => l.Wp? && u < |l.wp.pc| && l.wp.pc[u] == WP.RGate && l.wp.rsem == 0
    case AtGate(u) => l.Wp? && u < |l.wp.pc| && l.wp.pc[u] == WP.WGate
  }

  predicate Begins(l: Lock, o: Watch)
  {
    o.Waits? ==> l.Fa? && o.u < |l.fa.pc| && (l.fa.pc[o.u] == FA.RAsleep || l.fa.pc[o.u] == FA.WAsleep)
  }

  /** The thread is kept waiting from position i to the end of the run. */
  ghost predicate HeldFrom(tr: seq<Lock>, acts: seq<Action>, algo: Algo, c: Cast, i: nat, o: Watch)
  {
    && CastRun(tr, acts, algo, c) && i <= |acts| < |tr|
    && Begins(tr[i], o) && forall j :: i <= j <= |acts| ==> Holds(tr[j], o)
  }

  /** k operations of this role can complete while the thread is kept waiting. */
  ghost predicate Pass(algo: Algo, c: Cast, role: Role, k: nat, o: Watch)
  {
    exists tr, acts, i: nat :: HeldFrom(tr, acts, algo, c, i, o) && Completed(tr, acts, role, i, |acts|) >= k
  }

  // ----- building such runs -----

  datatype Plot = Plot(algo: Algo, c: Cast, role: Role, o: Watch)

  /** A run that ends in l, and in which k operations have completed since the watch began. */
  ghost predicate StoryIs(tr: seq<Lock>, acts: seq<Action>, i: nat, p: Plot, l: Lock, k: nat)
  {
    HeldFrom(tr, acts, p.algo, p.c, i, p.o) && |tr| == |acts| + 1 && tr[|acts|] == l &&
    Completed(tr, acts, p.role, i, |acts|) == k
  }

  ghost predicate Story(p: Plot, l: Lock, k: nat)
  {
    exists tr, acts, i: nat :: StoryIs(tr, acts, i, p, l, k)
  }

  lemma StoryPasses(p: Plot, l: Lock, k: nat)
    requires Story(p, l, k)
    ensures Pass(p.algo, p.c, p.role, k, p.o)
  {
    hide HeldFrom;
    var tr, acts, i: nat :| StoryIs(tr, acts, i, p, l, k);
    assert HeldFrom(tr, acts, p.algo, p.c, i, p.o);
  }

  lemma StoryStarts(p: Plot)
    requires p.o == Nobody
    ensures Story(p, Init(p.algo, p.c.readers + p.c.writers), 0)
  {
    hide Init;
    var l := Init(p.algo, p.c.readers + p.c.writers);
    assert StoryIs([l], [], 0, p, l, 0);
  }

  lemma StoryWatches(p: Plot, l: Lock, k: nat, o: Watch)
    requires Story(p, l, k) && Holds(l, o) && Begins(l, o)
    ensures Story(p.(o := o), l, 0)
  {
    hide CastRun, Holds, Begins;
    var tr, acts, i: nat :| StoryIs(tr, acts, i, p, l, k);
    assert StoryIs(tr, acts, |acts|, p.(o := o), l, 0);
  }

  lemma {:induction false} CompletedPrefix(tr: seq<Lock>, acts: seq<Action>, role: Role, i: nat, j: nat,
                                           l: Lock, a: Action)
    requires i <= j <= |acts| < |tr|
    ensures Completed(tr + [l], acts + [a], role, i, j) == Completed(tr, acts, role, i, j)
    decreases j
  {
    hide Completes;
    if i == j {
    } else {
      CompletedPrefix(tr, acts, role, i, j - 1, l, a);
    }
  }

  lemma CastRunGoesOn(tr: seq<Lock>, acts: seq<Action>, algo: Algo, c: Cast, a: Action)
    requires CastRun(tr, acts, algo, c) && |tr| == |acts| + 1 && Can(tr[|acts|], a) && Plays(c, a)
    ensures CastRun(tr + [Do(tr[|acts|], a)], acts + [a], algo, c)
  {
    hide Can, Do, Init, Plays;
    var tr', acts' := tr + [Do(tr[|acts|], a)], acts + [a];
    forall i | 0 <= i < |acts'|
      ensures Can(tr'[i], acts'[i]) && tr'[i+1] == Do(tr'[i], acts'[i]) && Plays(c, acts'[i])
    {
      if i < |acts| { assert tr'[i] == tr[i] && tr'[i+1] == tr[i+1]; }
    }
  }

  lemma StoryGoesOn(p: Plot, l: Lock, k: nat, a: Action) returns (l': Lock, k': nat)
    requires Story(p, l, k) && Can(l, a) && Plays(p.c, a) && Holds(Do(l, a), p.o)
    ensures l' == Do(l, a) && k' == k + (if Completes(l, a, l', p.role) then 1 else 0) && Story(p, l', k')
  {
    hide CastRun, Can, Do, Holds, Begins, Plays, Completes;
    var tr, acts, i: nat :| StoryIs(tr, acts, i, p, l, k);
    l' := Do(l, a);
    k' := k + if Completes(l, a, l', p.role) then 1 else 0;
    var tr', acts' := tr + [l'], acts + [a];
    CastRunGoesOn(tr, acts, p.algo, p.c, a);
    CompletedPrefix(tr, acts, p.role, i, |acts|, l', a);
    forall j | i <= j <= |acts'| ensures Holds(tr'[j], p.o) {
      if j <= |acts| { assert tr'[j] == tr[j]; }
    }
    assert StoryIs(tr', acts', i, p, l', k');
  }

  // ----- roles are kept -----

  ghost predicate InCast(c: Cast, v: seq<Phase>)
  {
    |v| == c.readers + c.writers && forall t :: 0 <= t < |v| ==> v[t] == Outside || v[t].role == RoleOf(c, t)
  }

  /** Every thread is outside or in a call of its own role. */
  ghost predicate InRole(c: Cast, l: Lock)
  {
    InCast(c, View(l))
  }

  lemma InCastMove(c: Cast, v: seq<Phase>, t: nat, q: Phase)
    requires InCast(c, v) && t < |v| && (q == Outside || q.role == RoleOf(c, t))
    ensures InCast(c, v[t := q])
  {
  }

  lemma RoleAt(c: Cast, l: Lock, t: nat)
    requires InRole(c, l) && t < Size(l)
    ensures Size(l) == c.readers + c.writers == |View(l)|
    ensures (PhaseAt(l, t) == Outside || PhaseAt(l, t).role == RoleOf(c, t))
  {
    hide PhaseAt, Size;
    assert View(l)[t] == PhaseAt(l, t);
  }

  lemma EntersInRole(c: Cast, l: Lock, t: nat, role: Role)
    requires InRole(c, l) && Inv(l) && t < Size(l) && PhaseAt(l, t) == Outside && role == RoleOf(c, t)
    ensures InRole(c, Call(l, t, role))
  {
    RoleAt(c, l, t);
    hide Inv, View, InCast, PhaseAt, Size, Call;
    CallOk(l, t, role);
    InCastMove(c, View(l), t, Acquiring(role));
  }

  lemma GoesOnInRole(c: Cast, l: Lock, a: Action)
    requires InRole(c, l) && Inv(l) && Can(l, a) && a.t < Size(l) && PhaseAt(l, a.t) != Outside
    ensures InRole(c, Do(l, a))
  {
    RoleAt(c, l, a.t);
    hide Inv, View, InCast, PhaseAt, Size, Can, Do;
    var q := DoOk(l, a);
    InCastMove(c, View(l), a.t, q);
  }

  lemma DoInRole(c: Cast, l: Lock, a: Action)
    requires InRole(c, l) && Inv(l) && Can(l, a) && Plays(c, a)
    ensures InRole(c, Do(l, a))
  {
    ActsOn(l, a);
    hide Inv, InRole, Call, PhaseAt, Size;
    if a.Enter? {
      EntersInRole(c, l, a.t, a.role);
    } else {
      hide Do;
      GoesOnInRole(c, l, a);
    }
  }

  lemma ActsOn(l: Lock, a: Action)
    requires Can(l, a)
    ensures a.t < Size(l) && (if a.Enter? then PhaseAt(l, a.t) == Outside else PhaseAt(l, a.t) != Outside)
  {
  }

  lemma {:induction false} RunInRole(tr: seq<Lock>, acts: seq<Action>, algo: Algo, c: Cast, i: nat)
    requires CastRun(tr, acts, algo, c) && i < |tr|
    ensures InRole(c, tr[i]) && Inv(tr[i])
    decreases i
  {
    hide Inv, Can, Do, Plays, Init;
    RunInv(tr, acts, algo, c.readers + c.writers, i);
    if i == 0 {
      InitOk(algo, c.readers + c.writers);
    } else {
      RunInRole(tr, acts, algo, c, i - 1);
      DoInRole(c, tr[i-1], acts[i-1]);
    }
  }
}
