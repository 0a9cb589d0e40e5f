/** Writer precedence of WriterPriorityLock when sem_post on rsem_ hands the semaphore to a thread blocked
    on it.  All other semaphores stay unconstrained.  A thread whose next operation is rsem_.wait() counts as
    blocked as soon as rsem_ is 0: calling sem_wait and being blocked in it are one step here, so the bound of
    WritersTakePrecedence starts at the block, not at the call. */
module Precedence {
  import opened Counting
  import opened RwSpec
  import opened WriterPriority

  predicate AtGate(s: State, u: nat)
  {
    u < |s.pc| && (s.pc[u] == RGate || s.pc[u] == WGate)
  }

  predicate PostsGate(s: State, t: nat)
  {
    t < |s.pc| && (s.pc[t] == RPostGate || s.pc[t] == WxGate)
  }

  /** Hand(t, u): thread t performs its next operation; if that posts rsem_ while somebody waits there, the
      waiter u takes it in the same step. */
  datatype Act = Enter(t: nat, role: Role) | Leave(t: nat) | Hand(t: nat, u: nat)

  ghost predicate Can(s: State, a: Act)
  {
    match a
    case Enter(t, _) => t < |s.pc| && s.pc[t] == Idle
    case Leave(t) => t < |s.pc| && PhaseOf(s.pc[t]).Inside?
    case Hand(t, u) => Enabled(s, t) && (PostsGate(s, t) && (exists v :: AtGate(s, v)) ==> AtGate(s, u))
  }

  lemma HandOffIsTwoSteps(s: State, t: nat, u: nat)
    requires PostsGate(s, t) && AtGate(s, u)
    ensures Enabled(s, t) && Enabled(Exec(s, t), u)
  {
  }

  function Do(s: State, a: Act): State
    requires Can(s, a)
  {
    match a
    case Enter(t, role) => Call(s, t, role)
    case Leave(t) => Release(s, t)
    case Hand(t, u) =>
      if PostsGate(s, t) && AtGate(s, u) then HandOffIsTwoSteps(s, t, u); Exec(Exec(s, t), u) else Exec(s, t)
  }

  /** Whoever waits at the gate, reader or writer, is past it at once when it is handed over, and nobody else can slip
      in between: rsem_ stays as it was. */
  lemma HandOffServes(s: State, t: nat, u: nat)
    requires Inv(s) && Can(s, Hand(t, u)) && PostsGate(s, t) && AtGate(s, u)
    ensures var s' := Do(s, Hand(t, u));
      |s'.pc| == |s.pc| && s'.pc[u] == (if s.pc[u] == RGate then RMutex else WPost) && s'.rsem == s.rsem == 0
  {
    HandOffIsTwoSteps(s, t, u);
    hide Count;
    CountMove(s.pc, t, Idle);
  }

  ghost predicate Run(tr: seq<State>, acts: seq<Act>)
  {
    |tr| == |acts| + 1 && forall i :: 0 <= i < |acts| ==> Can(tr[i], acts[i]) && tr[i+1] == Do(tr[i], acts[i])
  }

  lemma DoInv(s: State, a: Act)
    requires Inv(s) && Can(s, a)
    ensures Inv(Do(s, a))
  {
    hide Inv, Exec, Enabled;
    match a {
      case Enter(t, role) => CallInv(s, t, role);
      case Leave(t) => ReleaseInv(s, t);
      case Hand(t, u) =>
        ExecInv(s, t);
        if PostsGate(s, t) && AtGate(s, u) {
          HandOffIsTwoSteps(s, t, u);
          ExecInv(Exec(s, t), u);
        }
    }
  }

  lemma {:induction false} RunInv(tr: seq<State>, acts: seq<Act>, n: nat, i: nat)
    requires Run(tr, acts) && tr[0] == Init(n) && i < |tr|
    ensures Inv(tr[i])
    decreases i
  {
    hide Inv, Can, Do, Init;
    if i == 0 {
      InitInv(n);
    } else {
      RunInv(tr, acts, n, i - 1);
      DoInv(tr[i-1], acts[i-1]);
    }
  }

  /** The action increments readCount_: a reader is admitted. */
  predicate Admits(s: State, a: Act)
  {
    a.Hand? && a.t < |s.pc| && s.pc[a.t] == RInc
  }

  /** Readers admitted between positions i and j of a run. */
  ghost function Admissions(tr: seq<State>, acts: seq<Act>, i: nat, j: nat): nat
    requires i <= j <= |acts| <= |tr|
    decreases j
  {
    if i == j then 0 else Admissions(tr, acts, i, j - 1) + (if Admits(tr[j-1], acts[j-1]) then 1 else 0)
  }

  /** A writer is blocked at the gate, or the writers own it. */
  ghost predicate Claimed(s: State)
  {
    (Count(s.pc, WGate) > 0 && s.rsem == 0) || WriterGate(s) > 0
  }

  /** Readers that are already past the gate and not yet counted. */
  ghost function Past(s: State): nat
  {
    Count(s.pc, RMutex) + Count(s.pc, RInc)
  }

  lemma PastBound(s: State)
    requires Inv(s)
    ensures Past(s) <= 1 && (WriterGate(s) > 0 ==> Past(s) == 0)
  {
    hide Count;
  }

  lemma ClaimedEnter(s: State, t: nat, role: Role)
    requires Inv(s) && Claimed(s) && t < |s.pc| && s.pc[t] == Idle
    ensures Claimed(Call(s, t, role)) && Past(Call(s, t, role)) == Past(s)
  {
    hide Count;
    CountMove(s.pc, t, Call(s, t, role).pc[t]);
  }

  lemma ClaimedLeave(s: State, t: nat)
    requires Inv(s) && Claimed(s) && t < |s.pc| && PhaseOf(s.pc[t]).Inside?
    ensures Claimed(Release(s, t)) && Past(Release(s, t)) == Past(s)
  {
    hide Count;
    CountMove(s.pc, t, Release(s, t).pc[t]);
  }

  lemma ClaimedReader(s: State, t: nat)
    requires Inv(s) && Claimed(s) && Enabled(s, t) && PhaseOf(s.pc[t]).role == Reader && s.pc[t] != RPostGate
    ensures Claimed(Exec(s, t)) && Past(Exec(s, t)) + (if s.pc[t] == RInc then 1 else 0) == Past(s)
  {
    hide Count, InMutex1, ReaderGroup, InMutex2;
    CountMove(s.pc, t, Exec(s, t).pc[t]);
  }

  lemma PastWriter(s: State, t: nat)
    requires Enabled(s, t) && PhaseOf(s.pc[t]).role == Writer
    ensures Past(Exec(s, t)) == Past(s)
  {
    hide Count;
    CountMove(s.pc, t, Exec(s, t).pc[t]);
  }

  /** While a writer is blocked at the gate no other writer can move. */
  lemma BlockedWriterStops(s: State, t: nat)
    requires Inv(s) && Count(s.pc, WGate) > 0 && s.rsem == 0 && WriterGate(s) == 0
    requires Enabled(s, t)
    ensures PhaseOf(s.pc[t]).role != Writer
  {
    hide Count, ReaderInv, TokenInv;
    CountMove(s.pc, t, Idle);
  }

  lemma ClaimedWriter(s: State, t: nat)
    requires Inv(s) && Claimed(s) && Enabled(s, t) && PhaseOf(s.pc[t]).role == Writer
    requires Exec(s, t).writeCount > 0
    ensures Claimed(Exec(s, t)) && Past(Exec(s, t)) == Past(s)
  {
    hide Inv, Count, WriterGate, Past, Exec;
    PastWriter(s, t);
    if WriterGate(s) > 0 {
      GateKeptWriter(s, t);
    } else {
      BlockedWriterStops(s, t);
      assert false;
    }
  }

  /** The post of a reader at a claimed gate goes to the blocked writer. */
  lemma ClaimedPost(s: State, t: nat, u: nat)
    requires Inv(s) && Claimed(s) && Can(s, Hand(t, u)) && s.pc[t] == RPostGate
    ensures var s' := Do(s, Hand(t, u)); Claimed(s') && Past(s') == Past(s) && s.pc[u] == WGate
  {
    hide Count, InMutex1, InMutex2, ReaderGroup, WriterHold;
    CountMove(s.pc, t, RPostTry);
    var v := CountWitness(s.pc, WGate);
    assert AtGate(s, v);
    OneBlockedOnGate(s, u, v);
    CountMove(s.pc[t := RPostTry], u, WPost);
  }

  /** While the gate is claimed and writers are counted, it stays claimed, and a reader can be admitted only
      if it was past the gate before. */
  lemma ClaimedStep(s: State, a: Act)
    requires Inv(s) && Claimed(s) && Can(s, a) && s.writeCount > 0 && Do(s, a).writeCount > 0
    ensures Claimed(Do(s, a)) && Past(Do(s, a)) + (if Admits(s, a) then 1 else 0) == Past(s)
  {
    hide Inv, Claimed, Past, Exec, Count;
    match a {
      case Enter(t, role) => ClaimedEnter(s, t, role);
      case Leave(t) => ClaimedLeave(s, t);
      case Hand(t, u) =>
        if s.pc[t] == RPostGate {
          ClaimedPost(s, t, u);
        } else if PhaseOf(s.pc[t]).role == Reader {
          ClaimedReader(s, t);
        } else {
          NotLastPost(s, t);
          ClaimedWriter(s, t);
        }
    }
  }

  lemma NotLastPost(s: State, t: nat)
    requires Inv(s) && s.writeCount > 0 && t < |s.pc|
    ensures s.pc[t] != WxGate
  {
    hide Count;
    CountMove(s.pc, t, Idle);
  }

  lemma {:induction false} AdmissionsBound(tr: seq<State>, acts: seq<Act>, n: nat, i: nat, j: nat)
    requires Run(tr, acts) && tr[0] == Init(n) && i <= j <= |acts| && Claimed(tr[i])
    requires forall k :: i <= k <= j ==> tr[k].writeCount > 0
    ensures Claimed(tr[j]) && Admissions(tr, acts, i, j) + Past(tr[j]) == Past(tr[i])
    decreases j
  {
    hide Inv, Can, Do, Init, Claimed, Past, Admits;
    if i == j {
    } else {
      AdmissionsBound(tr, acts, n, i, j - 1);
      RunInv(tr, acts, n, j - 1);
      assert tr[j].writeCount > 0 && tr[j] == Do(tr[j-1], acts[j-1]) by { assert tr[j-1+1] == Do(tr[j-1], acts[j-1]); }
      ClaimedStep(tr[j-1], acts[j-1]);
    }
  }

  /** Writer precedence.  From the moment a writer is blocked at rsem_, and for as long as writers stay
      counted, at most one reader is admitted; from the moment the writers own rsem_, none is. */
  lemma WritersTakePrecedence(tr: seq<State>, acts: seq<Act>, n: nat, i: nat, j: nat)
    requires Run(tr, acts) && tr[0] == Init(n) && i <= j <= |acts|
    requires forall k :: i <= k <= j ==> tr[k].writeCount > 0
    ensures WGate in tr[i].pc && tr[i].rsem == 0 ==> Admissions(tr, acts, i, j) <= 1
    ensures WriterGate(tr[i]) > 0 ==> Admissions(tr, acts, i, j) == 0
  {
    hide Inv, Can, Do, Init, Count, Past, Admissions, WriterGate;
    RunInv(tr, acts, n, i);
    PastBound(tr[i]);
    CountIn(tr[i].pc, WGate);
    if Claimed(tr[i]) {
      AdmissionsBound(tr, acts, n, i, j);
    }
  }
}
