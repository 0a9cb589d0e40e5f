/** The starvation watchdog racing with the workers.  The published state word is kept apart from what the
    thread really does, because the watchdog loads it, measures the wait, and stores BLOCKED as three
    separate operations. */
module Watchdog {
  import opened Counting

  datatype Word = INIT | WAITING | ACTIVE | BLOCKED | RELEASING | DONE

  /** What the thread really does: created, between enterWaiting's store of waitStart and of WAITING,
      inside the lock call, holding the lock, after the unlock call, finished. */
  datatype Stage = Created | Starting | Waiting | Holding | Released | Finished

  /** episodes counts the lock calls; flagged holds the episodes for which BLOCKED was stored, each named by
      the value of episodes at the watchdog's first load. */
  datatype Worker = Worker(stage: Stage, word: Word, waitStart: int, episodes: nat, starveCount: nat, flagged: set<nat>)

  /** Where the watchdog stands in its poll over the registry. */
  datatype Dog =
    | Sleeping
    | Look(i: nat)             // loads state
    | Measure(i: nat, e: nat)  // saw WAITING in episode e: calls currentWaitMs (see WatchDo)
    | Flag(i: nat, e: nat)     // waited long enough: stores BLOCKED
    | Count1(i: nat)           // ++starveCount
    | Count2(i: nat)           // totalEvents_.fetch_add

  datatype State = State(workers: seq<Worker>, dog: Dog, now: int, totalEvents: nat, left: nat, threshold: int)

  datatype Act = Tick(d: nat) | Work(t: nat, again: bool) | Watch

  function Init(n: nat, ops: nat, threshold: int): State
  {
    State(seq(n, _ => Worker(Created, INIT, 0, 0, 0, {})), Sleeping, 0, 0, ops, threshold)
  }

  predicate Can(s: State, a: Act)
  {
    match a
    case Tick(_) => true
    case Watch => true
    case Work(t, again) => t < |s.workers| && match s.workers[t].stage
      case Created | Released => again ==> s.left > 0
      case Finished => false
      case _ => true
  }

  /** The next store of a worker; again says whether it claims another operation at the loop head. */
  function WorkDo(w: Worker, again: bool, now: int): Worker
  {
    match w.stage
    case Created | Released =>
      if again then w.(stage := Starting, waitStart := now) else w.(stage := Finished, word := DONE)
    case Starting => w.(stage := Waiting, word := WAITING, episodes := w.episodes + 1)
    case Waiting => w.(stage := Holding, word := ACTIVE)
    case Holding => w.(stage := Released, word := RELEASING)
    case Finished => w
  }

  function CurrentWaitMs(w: Worker, now: int): int
  {
    if w.word == WAITING then now - w.waitStart else 0
  }

  function Put(s: State, i: nat, w: Worker): State
    requires i < |s.workers|
  {
    s.(workers := s.workers[i := w])
  }

  /** The next operation of the watchdog.  currentWaitMs loads the state again, then the clock and waitStart, which
      the worker rewrites; here the three are taken at one moment, the one that MeasureDecides speaks of.  The store of
      BLOCKED may come arbitrarily later, when none of them holds any more. */
  function WatchDo(s: State): State
  {
    match s.dog
    case Sleeping => s.(dog := Look(0))
    case Look(i) =>
      if i >= |s.workers| then s.(dog := Sleeping)
      else if s.workers[i].word != WAITING then s.(dog := Look(i + 1))
      else s.(dog := Measure(i, s.workers[i].episodes))
    case Measure(i, e) =>
      if i < |s.workers| && CurrentWaitMs(s.workers[i], s.now) >= s.threshold then s.(dog := Flag(i, e))
      else s.(dog := Look(i + 1))
    case Flag(i, e) =>
      if i < |s.workers|
      then Put(s, i, s.workers[i].(word := BLOCKED, flagged := s.workers[i].flagged + {e})).(dog := Count1(i))
      else s
    case Count1(i) =>
      if i < |s.workers|
      then Put(s, i, s.workers[i].(starveCount := s.workers[i].starveCount + 1)).(dog := Count2(i))
      else s
    case Count2(i) => s.(totalEvents := s.totalEvents + 1, dog := Look(i + 1))
  }

  function Do(s: State, a: Act): State
    requires Can(s, a)
  {
    match a
    case Tick(d) => s.(now := s.now + d)
    case Watch => WatchDo(s)
    case Work(t, again) =>
      var w := s.workers[t];
      var claims := again && (w.stage == Created || w.stage == Released);
      Put(s, t, WorkDo(w, again, s.now)).(left := if claims then s.left - 1 else s.left)
  }

  ghost predicate Run(tr: seq<State>, acts: seq<Act>, n: nat, ops: nat, threshold: int)
  {
    |tr| == |acts| + 1 && tr[0] == Init(n, ops, threshold) &&
    forall i :: 0 <= i < |acts| ==> Can(tr[i], acts[i]) && tr[i+1] == Do(tr[i], acts[i])
  }

  // ----- the invariant -----

  /** The word is the true state, or a BLOCKED that may be stale. */
  predicate Truthful(w: Worker)
  {
    w.word == BLOCKED ||
    match w.stage
    case Created => w.word == INIT
    case Starting => w.word == INIT || w.word == RELEASING
    case Waiting => w.word == WAITING
    case Holding => w.word == ACTIVE
    case Released => w.word == RELEASING
    case Finished => w.word == DONE
  }

  ghost predicate WorkerOk(w: Worker)
  {
    && Truthful(w)
    && (forall e :: e in w.flagged ==> 1 <= e <= w.episodes)
    && (w.word == WAITING ==> w.episodes >= 1 && w.episodes !in w.flagged)
    && (w.word == BLOCKED ==> w.flagged != {})
  }

  /** The episode the watchdog is looking at has not been flagged before. */
  ghost predicate DogOk(s: State)
  {
    match s.dog
    case Sleeping | Look(_) => true
    case Measure(i, e) => i < |s.workers| && 1 <= e <= s.workers[i].episodes && e !in s.workers[i].flagged
    case Flag(i, e) => i < |s.workers| && 1 <= e <= s.workers[i].episodes && e !in s.workers[i].flagged
    case Count1(i) => i < |s.workers|
    case Count2(i) => i < |s.workers|
  }

  function Flags(w: Worker): nat
  {
    |w.flagged|
  }

  function Starves(w: Worker): nat
  {
    w.starveCount
  }

  /** Tickets taken: lock calls made, plus the one a starting thread is about to make. */
  function Calls(w: Worker): nat
  {
    w.episodes + if w.stage == Starting then 1 else 0
  }

  ghost predicate Inv(s: State, ops: nat)
  {
    && (forall t :: 0 <= t < |s.workers| ==> WorkerOk(s.workers[t]))
    && (forall t :: 0 <= t < |s.workers| ==>
          s.workers[t].starveCount + (if s.dog == Count1(t) then 1 else 0) == |s.workers[t].flagged|)
    && DogOk(s)
    && s.totalEvents + (if s.dog.Count1? || s.dog.Count2? then 1 else 0) == Sum(s.workers, Flags)
    && s.left + Sum(s.workers, Calls) == ops
  }

  lemma InitInv(n: nat, ops: nat, threshold: int)
    ensures Inv(Init(n, ops, threshold), ops)
  {
    SumBound(Init(n, ops, threshold).workers, Flags, 0);
    SumBound(Init(n, ops, threshold).workers, Calls, 0);
  }

  lemma WorkOk(w: Worker, again: bool, now: int)
    requires WorkerOk(w) && w.stage != Finished
    ensures var w' := WorkDo(w, again, now);
      && WorkerOk(w') && w'.flagged == w.flagged && w'.starveCount == w.starveCount && w.episodes <= w'.episodes
      && Calls(w') == Calls(w) + if again && (w.stage == Created || w.stage == Released) then 1 else 0
  {
  }

  /** A store of one worker leaves the watchdog's accounts alone. */
  lemma WorkerMove(s: State, s': State, ops: nat, t: nat)
    requires Inv(s, ops) && t < |s.workers| && |s'.workers| == |s.workers|
    requires s'.workers == s.workers[t := s'.workers[t]]
    requires s'.dog == s.dog && s'.totalEvents == s.totalEvents && WorkerOk(s'.workers[t])
    requires var w, w' := s.workers[t], s'.workers[t];
      w'.flagged == w.flagged && w'.starveCount == w.starveCount && w.episodes <= w'.episodes &&
      s'.left + Calls(w') == s.left + Calls(w)
    ensures Inv(s', ops)
  {
    hide WorkerOk, Sum, Calls;
    SumUpdate(s.workers, t, s'.workers[t], Flags);
    SumUpdate(s.workers, t, s'.workers[t], Calls);
  }

  lemma WorkInv(s: State, ops: nat, t: nat, again: bool)
    requires Inv(s, ops) && Can(s, Work(t, again))
    ensures Inv(Do(s, Work(t, again)), ops)
  {
    assert WorkerOk(s.workers[t]);
    hide Inv, WorkDo, WorkerOk, Calls;
    WorkOk(s.workers[t], again, s.now);
    WorkerMove(s, Do(s, Work(t, again)), ops, t);
  }

  lemma LookInv(s: State, ops: nat)
    requires Inv(s, ops) && (s.dog.Sleeping? || s.dog.Look? || s.dog.Measure? || s.dog.Count2?)
    ensures Inv(WatchDo(s), ops)
  {
    hide Sum;
  }

  lemma FlagInv(s: State, ops: nat)
    requires Inv(s, ops) && s.dog.Flag?
    ensures Inv(WatchDo(s), ops)
  {
    var i, e, s' := s.dog.i, s.dog.e, WatchDo(s);
    hide Sum;
    SumUpdate(s.workers, i, s'.workers[i], Flags);
    SumUpdate(s.workers, i, s'.workers[i], Calls);
    assert s'.workers[i].flagged == s.workers[i].flagged + {e} && e in s'.workers[i].flagged;
  }

  lemma CountInv(s: State, ops: nat)
    requires Inv(s, ops) && s.dog.Count1?
    ensures Inv(WatchDo(s), ops)
  {
    var i, s' := s.dog.i, WatchDo(s);
    hide Sum;
    SumUpdate(s.workers, i, s'.workers[i], Flags);
    SumUpdate(s.workers, i, s'.workers[i], Calls);
  }

  /** Every interleaving of worker stores with the watchdog's load, measurement and store keeps the accounts. */
  lemma DoInv(s: State, ops: nat, a: Act)
    requires Inv(s, ops) && Can(s, a)
    ensures Inv(Do(s, a), ops)
  {
    match a {
      case Tick(_) =>
      case Work(t, again) => WorkInv(s, ops, t, again);
      case Watch =>
        hide Inv, WatchDo;
        match s.dog {
          case Flag(_, _) => FlagInv(s, ops);
          case Count1(_) => CountInv(s, ops);
          case _ => LookInv(s, ops);
        }
    }
  }

  lemma {:induction false} RunInv(tr: seq<State>, acts: seq<Act>, n: nat, ops: nat, threshold: int, i: nat)
    requires Run(tr, acts, n, ops, threshold) && i < |tr|
    ensures Inv(tr[i], ops)
    decreases i
  {
    hide Inv, Can, Do, Init;
    if i == 0 {
      InitInv(n, ops, threshold);
    } else {
      RunInv(tr, acts, n, ops, threshold, i - 1);
      DoInv(tr[i-1], ops, acts[i-1]);
    }
  }

  lemma {:induction false} RunSize(tr: seq<State>, acts: seq<Act>, n: nat, ops: nat, threshold: int, i: nat)
    requires Run(tr, acts, n, ops, threshold) && i < |tr|
    ensures |tr[i].workers| == n && tr[i].threshold == threshold
    decreases i
  {
    if i == 0 {
    } else {
      RunSize(tr, acts, n, ops, threshold, i - 1);
      assert tr[i] == Do(tr[i-1], acts[i-1]);
    }
  }

  lemma {:induction false} SetBound(s: set<nat>, n: nat)
    requires forall e :: e in s ==> 1 <= e <= n
    ensures |s| <= n
    decreases n
  {
    if n > 0 {
      SetBound(s - {n}, n - 1);
    } else {
      assert s == {};
    }
  }

  lemma {:induction false} SumLeq(s: seq<Worker>, f: Worker -> nat, g: Worker -> nat)
    requires forall t :: 0 <= t < |s| ==> f(s[t]) <= g(s[t])
    ensures Sum(s, f) <= Sum(s, g)
    decreases |s|
  {
    if s == [] {
    } else {
      SumLeq(s[..|s|-1], f, g);
    }
  }

  /** Accounting in every state of every run.  Each lock call of a thread is flagged at most once, so its
      starveCount never exceeds its calls; between polls totalEvents_ is the sum of the starveCounts; and
      the events never exceed the operations of the budget. */
  lemma EventsAreBounded(tr: seq<State>, acts: seq<Act>, n: nat, ops: nat, threshold: int, i: nat)
    requires Run(tr, acts, n, ops, threshold) && i < |tr|
    ensures var s := tr[i];
      && (forall t :: 0 <= t < |s.workers| ==>
            s.workers[t].starveCount <= |s.workers[t].flagged| <= s.workers[t].episodes)
      && s.totalEvents <= ops
      && (s.dog.Sleeping? || s.dog.Look? ==> s.totalEvents == Sum(s.workers, Starves))
  {
    RunInv(tr, acts, n, ops, threshold, i);
    var s := tr[i];
    hide Run, Sum;
    forall t | 0 <= t < |s.workers| ensures Flags(s.workers[t]) <= s.workers[t].episodes {
      SetBound(s.workers[t].flagged, s.workers[t].episodes);
    }
    SumLeq(s.workers, Flags, Calls);
    if s.dog.Sleeping? || s.dog.Look? {
      SumEqual(s.workers, Starves, Flags);
    }
  }

  /** The published word is wrong only by being BLOCKED, and between polls not at all for a thread whose own
      starveCount is still 0. */
  lemma WordIsTruthful(tr: seq<State>, acts: seq<Act>, n: nat, ops: nat, threshold: int, i: nat, t: nat)
    requires Run(tr, acts, n, ops, threshold) && i < |tr| && t < |tr[i].workers|
    ensures Truthful(tr[i].workers[t])
    ensures tr[i].dog.Sleeping? && tr[i].workers[t].starveCount == 0 ==> tr[i].workers[t].word != BLOCKED
  {
    RunInv(tr, acts, n, ops, threshold, i);
    hide Run, Sum;
    assert WorkerOk(tr[i].workers[t]);
  }

  // ----- what a worker publishes -----

  /** The word of a thread at this stage; enterWaiting's first store, of waitStart, does not touch it. */
  function Published(w: Worker): Word
  {
    match w.stage
    case Created => INIT
    case Starting => w.word
    case Waiting => WAITING
    case Holding => ACTIVE
    case Released => RELEASING
    case Finished => DONE
  }

  /** The watchdog stores BLOCKED for thread t in the step from position m. */
  ghost predicate Blocks(tr: seq<State>, acts: seq<Act>, m: nat, t: nat)
  {
    m < |acts| < |tr| && acts[m].Watch? && tr[m].dog.Flag? && tr[m].dog.i == t
  }

  lemma StoreSteps(s: State, a: Act, t: nat)
    requires Can(s, a) && t < |s.workers|
    ensures var w, w' := s.workers[t], Do(s, a).workers[t];
      && (a.Work? && a.t == t ==> w'.word == Published(w'))
      && (a.Work? && a.t == t ==> w'.waitStart == if w'.stage == Starting then s.now else w.waitStart)
      && (!(a.Work? && a.t == t) ==> w'.stage == w.stage && w'.waitStart == w.waitStart)
      && (!(a.Work? && a.t == t) ==> w'.word == w.word || (a.Watch? && s.dog.Flag? && s.dog.i == t))
  {
  }

  /** From a store of thread t on, as long as it makes no other, it is published as it is unless the watchdog has
      flagged it after that store. */
  lemma {:induction false} BlockedIsYounger(tr: seq<State>, acts: seq<Act>, n: nat, ops: nat, threshold: int,
                                            t: nat, i: nat, j: nat)
    requires Run(tr, acts, n, ops, threshold) && i < j < |tr| && t < n && acts[i].Work? && acts[i].t == t
    requires forall m :: i < m < j ==> !(acts[m].Work? && acts[m].t == t)
    ensures |tr[i].workers| == |tr[i+1].workers| == |tr[j].workers| == n
    ensures tr[j].workers[t].stage == tr[i+1].workers[t].stage
    ensures tr[j].workers[t].waitStart ==
      if tr[i+1].workers[t].stage == Starting then tr[i].now else tr[i].workers[t].waitStart
    ensures tr[j].workers[t].word == Published(tr[i+1].workers[t]) || exists m :: i < m < j && Blocks(tr, acts, m, t)
    decreases j
  {
    RunSize(tr, acts, n, ops, threshold, i);
    RunSize(tr, acts, n, ops, threshold, i + 1);
    RunSize(tr, acts, n, ops, threshold, j);
    RunSize(tr, acts, n, ops, threshold, j - 1);
    assert Can(tr[j-1], acts[j-1]) && tr[j-1+1] == Do(tr[j-1], acts[j-1]);
    hide Can, Do, Init;
    StoreSteps(tr[j-1], acts[j-1], t);
    if j == i + 1 {
    } else {
      BlockedIsYounger(tr, acts, n, ops, threshold, t, i, j - 1);
      assert Blocks(tr, acts, j - 1, t) || tr[j].workers[t].word == tr[j-1].workers[t].word;
    }
  }

  // ----- who is flagged, and when -----

  /** The measurement decides: the next state of the poll is the store of BLOCKED exactly if the thread is published as
      waiting and has waited for at least the threshold.  A thread that has meanwhile stopped waiting measures 0, so
      it is flagged only if the threshold is not positive. */
  lemma MeasureDecides(tr: seq<State>, acts: seq<Act>, n: nat, ops: nat, threshold: int, j: nat)
    requires Run(tr, acts, n, ops, threshold) && j < |acts| && acts[j].Watch? && tr[j].dog.Measure?
    ensures tr[j].dog.i < |tr[j].workers|
    ensures var i, e, w := tr[j].dog.i, tr[j].dog.e, tr[j].workers[tr[j].dog.i];
      if w.word == WAITING
      then tr[j+1].dog == (if tr[j].now - w.waitStart >= threshold then Flag(i, e) else Look(i + 1))
      else tr[j+1].dog == (if threshold <= 0 then Flag(i, e) else Look(i + 1))
  {
    RunInv(tr, acts, n, ops, threshold, j);
    RunSize(tr, acts, n, ops, threshold, j);
    hide Sum;
  }

  /** Under a positive threshold, whenever the watchdog decides to flag a thread, that thread is published as waiting
      and has waited for at least the threshold. */
  lemma OnlyTheStarvingAreFlagged(tr: seq<State>, acts: seq<Act>, n: nat, ops: nat, threshold: int, j: nat)
    requires Run(tr, acts, n, ops, threshold) && j < |acts| && threshold > 0
    requires tr[j+1].dog.Flag? && tr[j].dog != tr[j+1].dog
    ensures tr[j+1].dog.i < |tr[j].workers|
    ensures var w := tr[j].workers[tr[j+1].dog.i]; w.word == WAITING && tr[j].now - w.waitStart >= threshold
  {
    assert Can(tr[j], acts[j]) && tr[j+1] == Do(tr[j], acts[j]);
    FlagFollowsMeasure(tr[j], acts[j]);
    MeasureDecides(tr, acts, n, ops, threshold, j);
  }

  lemma FlagFollowsMeasure(s: State, a: Act)
    requires Can(s, a) && Do(s, a).dog.Flag? && s.dog != Do(s, a).dog
    ensures a.Watch? && s.dog.Measure?
  {
  }

  /** Everything that is counted happened after the clock had advanced by the threshold. */
  ghost predicate Late(s: State)
  {
    && s.now >= 0 && (forall t :: 0 <= t < |s.workers| ==> s.workers[t].waitStart >= 0)
    && (s.dog.Flag? || s.dog.Count1? || s.dog.Count2? || s.totalEvents > 0 ==> s.now >= s.threshold)
    && (forall t :: 0 <= t < |s.workers| && s.workers[t].starveCount > 0 ==> s.now >= s.threshold)
  }

  lemma DoLate(s: State, a: Act)
    requires Late(s) && Can(s, a)
    ensures Late(Do(s, a))
  {
  }

  /** The time that has passed. */
  function Elapsed(acts: seq<Act>): nat
  {
    if acts == [] then 0
    else Elapsed(acts[..|acts|-1]) + match acts[|acts|-1] case Tick(d) => d case _ => 0
  }

  lemma {:induction false} ClockIsElapsed(tr: seq<State>, acts: seq<Act>, n: nat, ops: nat, threshold: int, j: nat)
    requires Run(tr, acts, n, ops, threshold) && j < |tr|
    ensures tr[j].now == Elapsed(acts[..j])
    decreases j
  {
    if j == 0 {
    } else {
      ClockIsElapsed(tr, acts, n, ops, threshold, j - 1);
      assert acts[..j][..j-1] == acts[..j-1];
      assert Can(tr[j-1], acts[j-1]) && tr[j-1+1] == Do(tr[j-1], acts[j-1]);
    }
  }

  /** No event is counted, in totalEvents_ or for a thread, before the clock has advanced by the threshold. */
  lemma {:induction false} NoEarlyEvent(tr: seq<State>, acts: seq<Act>, n: nat, ops: nat, threshold: int, j: nat)
    requires Run(tr, acts, n, ops, threshold) && j < |tr|
    ensures Late(tr[j]) && tr[j].threshold == threshold
    ensures tr[j].totalEvents > 0 ==> Elapsed(acts[..j]) >= threshold
    ensures forall t :: 0 <= t < |tr[j].workers| && tr[j].workers[t].starveCount > 0 ==> Elapsed(acts[..j]) >= threshold
    decreases j
  {
    RunSize(tr, acts, n, ops, threshold, j);
    ClockIsElapsed(tr, acts, n, ops, threshold, j);
    if j == 0 {
    } else {
      NoEarlyEvent(tr, acts, n, ops, threshold, j - 1);
      hide Can, Do, Init;
      DoLate(tr[j-1], acts[j-1]);
    }
  }

  /** k operations of the watchdog with nobody else moving. */
  function Watched(s: State, k: nat): State
    decreases k
  {
    if k == 0 then s else Watched(WatchDo(s), k - 1)
  }

  /** Published as waiting for at least the threshold. */
  predicate Overdue(s: State, t: nat)
  {
    t < |s.workers| && s.workers[t].word == WAITING && s.now - s.workers[t].waitStart >= s.threshold
  }

  /** How one thread comes out of a poll. */
  ghost predicate Polled(w: Worker, w': Worker, overdue: bool)
  {
    if overdue
    then w'.word == BLOCKED && w'.starveCount == w.starveCount + 1 &&
         w' == w.(word := w'.word, starveCount := w'.starveCount, flagged := w'.flagged)
    else w' == w
  }

  /** The threads from i on still to be flagged in this poll. */
  ghost function DueFrom(s: State, i: nat): set<nat>
  {
    set t: nat | i <= t < |s.workers| && Overdue(s, t)
  }

  /** What is left of the poll at thread i, with the workers standing still: every overdue thread from i on is set to
      BLOCKED and counted once, nobody else is touched, and the watchdog sleeps again. */
  lemma {:induction false} PollFrom(s: State, i: nat) returns (k: nat)
    requires s.dog == Look(i) && i <= |s.workers|
    ensures var s' := Watched(s, k);
      && s'.dog == Sleeping && s'.now == s.now && s'.left == s.left && s'.threshold == s.threshold
      && |s'.workers| == |s.workers| && s'.totalEvents == s.totalEvents + |DueFrom(s, i)|
      && forall t :: 0 <= t < |s.workers| ==> Polled(s.workers[t], s'.workers[t], t >= i && Overdue(s, t))
    decreases |s.workers| - i
  {
    if i == |s.workers| {
      k := 1;
      assert DueFrom(s, i) == {};
      assert Watched(s, 1) == WatchDo(s);
    } else {
      var d, s1 := PollsOne(s, i);
      var k1 := PollFrom(s1, i + 1);
      k := d + k1;
      WatchedTwice(s, d, k1);
      DueStep(s, s1, i);
      assert forall t :: i < t < |s.workers| ==> s1.workers[t] == s.workers[t];
    }
  }

  lemma DueStep(s: State, s1: State, i: nat)
    requires i < |s.workers| == |s1.workers| && s1.now == s.now && s1.threshold == s.threshold
    requires forall t :: i < t < |s.workers| ==> s1.workers[t] == s.workers[t]
    ensures |DueFrom(s, i)| == |DueFrom(s1, i + 1)| + if Overdue(s, i) then 1 else 0
  {
    assert DueFrom(s, i) == DueFrom(s1, i + 1) + if Overdue(s, i) then {i} else {};
  }

  lemma {:induction false} WatchedTwice(s: State, d: nat, k: nat)
    ensures Watched(s, d + k) == Watched(Watched(s, d), k)
    decreases d
  {
    hide WatchDo;
    if d == 0 {
    } else {
      WatchedTwice(WatchDo(s), d - 1, k);
    }
  }

  /** The watchdog deals with thread i. */
  lemma PollsOne(s: State, i: nat) returns (d: nat, s1: State)
    requires s.dog == Look(i) && i < |s.workers|
    ensures s1 == Watched(s, d) && s1.dog == Look(i + 1) && s1.now == s.now && s1.left == s.left
    ensures s1.threshold == s.threshold && |s1.workers| == |s.workers|
    ensures s1.totalEvents == s.totalEvents + if Overdue(s, i) then 1 else 0
    ensures forall t :: 0 <= t < |s.workers| ==> Polled(s.workers[t], s1.workers[t], t == i && Overdue(s, t))
  {
    d := if s.workers[i].word != WAITING then 1 else if Overdue(s, i) then 5 else 2;
    s1 := WatchDo(s);
    if d > 1 { s1 := WatchDo(s1); }
    if d > 2 { s1 := WatchDo(WatchDo(WatchDo(s1))); }
    WatchedIs(s, d, s1);
  }

  lemma WatchedIs(s: State, d: nat, s1: State)
    requires d == 1 || d == 2 || d == 5
    requires s1 == if d == 1 then WatchDo(s) else if d == 2 then WatchDo(WatchDo(s))
                   else WatchDo(WatchDo(WatchDo(WatchDo(WatchDo(s)))))
    ensures s1 == Watched(s, d)
  {
    hide WatchDo;
    var a, b := WatchDo(s), WatchDo(WatchDo(s));
    assert Watched(s, d) == Watched(a, d - 1);
    if d > 1 { assert Watched(a, d - 1) == Watched(b, d - 2); }
    if d > 2 {
      var c := WatchDo(b);
      assert Watched(b, 3) == Watched(c, 2) == Watched(WatchDo(c), 1);
      assert Watched(WatchDo(c), 1) == Watched(WatchDo(WatchDo(c)), 0);
    }
  }

  /** A whole poll that no worker interferes with flags and counts exactly the threads that have waited for at least the
      threshold, as WatchdogPoll.Poller.Poll does in one loop. */
  lemma UndisturbedPoll(s: State) returns (k: nat)
    requires s.dog == Sleeping
    ensures var s' := Watched(s, k);
      && s'.dog == Sleeping && s'.now == s.now && |s'.workers| == |s.workers|
      && s'.totalEvents == s.totalEvents + |DueFrom(s, 0)|
      && forall t :: 0 <= t < |s.workers| ==> Polled(s.workers[t], s'.workers[t], Overdue(s, t))
  {
    var s1 := WatchDo(s);
    var k1 := PollFrom(s1, 0);
    k := 1 + k1;
    assert Watched(s, k) == Watched(s1, k1);
    assert DueFrom(s, 0) == DueFrom(s1, 0);
  }

  // ----- a finished thread can be published as BLOCKED -----

  /** What the test suite calls allThreadsDone, reading the published words. */
  predicate AllThreadsDone(s: State)
  {
    forall t :: 0 <= t < |s.workers| ==> s.workers[t].word == DONE
  }

  /** A worker at its loop head goes on exactly while the budget is not used up; only an abort target may leave
      earlier, which Can allows and the runs below do not need. */
  predicate ClaimsAll(s: State, a: Act)
  {
    a.Work? && a.t < |s.workers| && (s.workers[a.t].stage == Created || s.workers[a.t].stage == Released) ==>
      (a.again <==> s.left > 0)
  }

  /** Runs without an abort. */
  ghost predicate FullRun(tr: seq<State>, acts: seq<Act>, n: nat, ops: nat, threshold: int)
  {
    Run(tr, acts, n, ops, threshold) && forall i :: 0 <= i < |acts| ==> ClaimsAll(tr[i], acts[i])
  }

  ghost predicate Reach(s: State, n: nat, ops: nat, threshold: int)
  {
    exists tr, acts :: FullRun(tr, acts, n, ops, threshold) && s == tr[|acts|]
  }

  lemma ReachDo(s: State, n: nat, ops: nat, threshold: int, a: Act) returns (s': State)
    requires Reach(s, n, ops, threshold) && Can(s, a) && ClaimsAll(s, a)
    ensures Reach(s', n, ops, threshold) && s' == Do(s, a)
  {
    hide Init, Can, Do, ClaimsAll;
    var tr, acts :| FullRun(tr, acts, n, ops, threshold) && s == tr[|acts|];
    s' := Do(s, a);
    var tr', acts' := tr + [s'], acts + [a];
    assert FullRun(tr', acts', n, ops, threshold) by {
      forall i | 0 <= i < |acts'|
        ensures Can(tr'[i], acts'[i]) && ClaimsAll(tr'[i], acts'[i]) && tr'[i+1] == Do(tr'[i], acts'[i])
      {
        if i < |acts| { assert tr'[i] == tr[i] && tr'[i+1] == tr[i+1]; }
      }
    }
  }

  lemma ReachOk(s: State, n: nat, ops: nat, threshold: int)
    requires Reach(s, n, ops, threshold)
    ensures Inv(s, ops) && |s.workers| == n
  {
    hide Inv, Can, Do, Init, ClaimsAll;
    var tr, acts :| FullRun(tr, acts, n, ops, threshold) && s == tr[|acts|];
    RunInv(tr, acts, n, ops, threshold, |acts|);
    RunSize(tr, acts, n, ops, threshold, |acts|);
  }

  /** Thread 0 is at this stage, threads k and up have not started, and those in between have finished. */
  ghost predicate Scene(s: State, n: nat, k: nat, stage: Stage)
  {
    && |s.workers| == n && n > 0 && s.workers[0].stage == stage
    && (forall t :: k <= t < n ==> s.workers[t].stage == Created)
    && (forall t :: 1 <= t < k && t < n ==> s.workers[t].stage == Finished && s.workers[t].word == DONE)
  }

  /** Thread 0 has performed k operations between two polls, and is back at its loop head. */
  lemma {:induction false} RoundsBetweenPolls(n: nat, ops: nat, threshold: int, k: nat) returns (s: State)
    requires n > 0 && k <= ops
    ensures Reach(s, n, ops, threshold) && Scene(s, n, 1, if k == 0 then Created else Released)
    ensures s.left == ops - k && s.workers[0].episodes == k && s.dog == Sleeping && s.threshold == threshold
    decreases k
  {
    if k == 0 {
      s := Init(n, ops, threshold);
      assert FullRun([s], [], n, ops, threshold);
    } else {
      s := RoundsBetweenPolls(n, ops, threshold, k - 1);
      s := StartsWaiting(s, n, ops, threshold);
      hide Reach;
      s := ReachDo(s, n, ops, threshold, Work(0, false));
      s := ReachDo(s, n, ops, threshold, Work(0, false));
    }
  }

  /** Thread 0 takes an operation and waits in the lock call. */
  lemma StartsWaiting(s0: State, n: nat, ops: nat, threshold: int) returns (s: State)
    requires Reach(s0, n, ops, threshold) && s0.left > 0
    requires Scene(s0, n, 1, Created) || Scene(s0, n, 1, Released)
    ensures Reach(s, n, ops, threshold) && Scene(s, n, 1, Waiting)
    ensures s.dog == s0.dog && s.threshold == s0.threshold && s.left == s0.left - 1
    ensures var w := s.workers[0];
      w.word == WAITING && w.waitStart == s.now && w.episodes == s0.workers[0].episodes + 1
  {
    hide Reach;
    s := ReachDo(s0, n, ops, threshold, Work(0, true));
    s := ReachDo(s, n, ops, threshold, Work(0, true));
  }

  /** The watchdog has decided to flag thread 0, which still waits with the last operation of the budget. */
  lemma DecidesToFlag(n: nat, ops: nat, threshold: int) returns (s: State)
    requires n > 0 && ops > 0
    ensures Reach(s, n, ops, threshold) && Scene(s, n, 1, Waiting) && s.dog == Flag(0, ops) && s.left == 0
  {
    s := RoundsBetweenPolls(n, ops, threshold, ops - 1);
    s := StartsWaiting(s, n, ops, threshold);
    var d := if threshold > 0 then threshold else 0;
    hide Reach;
    s := ReachDo(s, n, ops, threshold, Watch);
    s := ReachDo(s, n, ops, threshold, Tick(d));
    s := ReachDo(s, n, ops, threshold, Watch);
    s := ReachDo(s, n, ops, threshold, Watch);
  }

  /** It takes no notice while thread 0 gets the lock, gives it back, finds the budget used up and finishes. */
  lemma FinishesFirst(n: nat, ops: nat, threshold: int) returns (s: State)
    requires n > 0 && ops > 0
    ensures Reach(s, n, ops, threshold) && Scene(s, n, 1, Finished) && s.dog == Flag(0, ops) && s.left == 0
  {
    s := DecidesToFlag(n, ops, threshold);
    hide Reach;
    s := ReachDo(s, n, ops, threshold, Work(0, false));
    s := ReachDo(s, n, ops, threshold, Work(0, false));
    s := ReachDo(s, n, ops, threshold, Work(0, false));
  }

  /** So do the other threads, one after the other. */
  lemma {:induction false} OthersFinish(n: nat, ops: nat, threshold: int, k: nat) returns (s: State)
    requires 1 <= k <= n && ops > 0
    ensures Reach(s, n, ops, threshold) && Scene(s, n, k, Finished) && s.dog == Flag(0, ops) && s.left == 0
    decreases k
  {
    if k == 1 {
      s := FinishesFirst(n, ops, threshold);
    } else {
      s := OthersFinish(n, ops, threshold, k - 1);
      hide Reach;
      s := ReachDo(s, n, ops, threshold, Work(k - 1, false));
    }
  }

  /** The watchdog now stores BLOCKED over DONE, counts, and goes on to thread i. */
  lemma {:induction false} PollGoesOn(n: nat, ops: nat, threshold: int, i: nat) returns (s: State)
    requires 1 <= i <= n && ops > 0
    ensures Reach(s, n, ops, threshold) && Scene(s, n, n, Finished) && s.dog == Look(i) && s.workers[0].word == BLOCKED
    decreases i
  {
    hide Reach;
    if i == 1 {
      s := OthersFinish(n, ops, threshold, n);
      s := ReachDo(s, n, ops, threshold, Watch);
      s := ReachDo(s, n, ops, threshold, Watch);
    } else {
      s := PollGoesOn(n, ops, threshold, i - 1);
    }
    s := ReachDo(s, n, ops, threshold, Watch);
  }

  predicate AllFinished(s: State)
  {
    forall t :: 0 <= t < |s.workers| ==> s.workers[t].stage == Finished
  }

  /** With a thread and an operation, for every threshold: all threads have finished, the watchdog is between
      polls, and the words still say that not all threads are done. */
  lemma StaleBlockedAfterDone(n: nat, ops: nat, threshold: int) returns (s: State)
    requires n > 0 && ops > 0
    ensures Reach(s, n, ops, threshold) && s.dog == Sleeping && AllFinished(s) && !AllThreadsDone(s)
  {
    s := PollGoesOn(n, ops, threshold, n);
    hide Reach;
    s := ReachDo(s, n, ops, threshold, Watch);
  }

  /** A lock call is what a BLOCKED needs. */
  lemma NoCallNoBlocked(s: State)
    requires Inv(s, 0) && AllFinished(s)
    ensures AllThreadsDone(s)
  {
    forall t | 0 <= t < |s.workers| ensures s.workers[t].word == DONE {
      SumOne(s.workers, Calls, t);
      assert WorkerOk(s.workers[t]);
      assert s.workers[t].flagged == {};
    }
  }

  /** The published words can be relied on, whatever the interleaving: whenever all threads have finished and
      the watchdog is between polls they say so. */
  ghost predicate DoneIsPublished(n: nat, ops: nat, threshold: int)
  {
    forall s :: Reach(s, n, ops, threshold) && s.dog == Sleeping && AllFinished(s) ==> AllThreadsDone(s)
  }

  /** Over the runs in which every worker keeps claiming until the budget is used up, exactly the configurations
      without any lock call have this, whatever the threshold. */
  lemma DoneIsPublishedIffNoCalls(n: nat, ops: nat, threshold: int)
    ensures DoneIsPublished(n, ops, threshold) <==> n == 0 || ops == 0
  {
    hide Reach, Inv, AllFinished;
    if n > 0 && ops > 0 {
      var s := StaleBlockedAfterDone(n, ops, threshold);
    } else {
      forall s | Reach(s, n, ops, threshold) && s.dog == Sleeping && AllFinished(s) ensures AllThreadsDone(s) {
        ReachOk(s, n, ops, threshold);
        if ops == 0 {
          NoCallNoBlocked(s);
        }
      }
    }
  }
}
