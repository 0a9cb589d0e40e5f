/** One specification of the shared operation budget: an atomic counter of tickets. */
module TicketSpec {
  import opened Counting

  /** Tickets left, tickets taken by each thread, and the threads that have been refused one. */
  datatype Tickets = Tickets(left: nat, took: seq<nat>, refused: seq<bool>)

  function Start(total: int): nat
  {
    if total > 0 then total else 0
  }

  ghost predicate Take(a: Tickets, b: Tickets, t: nat)
  {
    t < |a.took| && a.left > 0 && b == a.(left := a.left - 1, took := a.took[t := a.took[t] + 1])
  }

  /** A thread is refused only when no ticket is left. */
  ghost predicate Refuse(a: Tickets, b: Tickets, t: nat)
  {
    t < |a.refused| && a.left == 0 && b == a.(refused := a.refused[t := true])
  }

  ghost predicate Step(a: Tickets, b: Tickets)
  {
    a == b || exists t: nat :: Take(a, b, t) || Refuse(a, b, t)
  }

  function Same(n: nat): nat
  {
    n
  }

  /** Tickets are neither lost nor invented, and a refusal means that all of them are taken. */
  ghost predicate Good(a: Tickets, total: int)
  {
    && |a.took| == |a.refused|
    && a.left + Sum(a.took, Same) == Start(total)
    && (forall t :: 0 <= t < |a.refused| && a.refused[t] ==> a.left == 0)
  }

  lemma StepGood(a: Tickets, b: Tickets, total: int)
    requires Good(a, total) && Step(a, b)
    ensures Good(b, total)
  {
    hide Sum;
    if a != b {
      var t: nat :| Take(a, b, t) || Refuse(a, b, t);
      if Take(a, b, t) {
        SumUpdate(a.took, t, a.took[t] + 1, Same);
      }
    }
  }

  /** In every run of the specification, the grants of a state in which somebody was refused are exactly
      the budget. */
  lemma {:induction false} RunGood(tr: seq<Tickets>, total: int, i: nat)
    requires i < |tr| && Good(tr[0], total) && forall k :: 0 <= k < |tr| - 1 ==> Step(tr[k], tr[k+1])
    ensures Good(tr[i], total)
    decreases i
  {
    hide Good, Step;
    if i == 0 {
    } else {
      RunGood(tr, total, i - 1);
      StepGood(tr[i-1], tr[i], total);
    }
  }
}

/** The claim of readerThread and writerThread: fetch_sub, and fetch_add again when that went below zero. */
module FetchSubBudget {
  import opened Counting
  import opened TicketSpec

  datatype Pc = Top | AddBack | Busy | Gone

  datatype State = State(counter: int, pc: seq<Pc>, took: seq<nat>)

  function Init(total: int, n: nat): State
  {
    State(total, seq(n, _ => Top), seq(n, _ => 0))
  }

  predicate Enabled(s: State, t: nat)
  {
    t < |s.pc| && t < |s.took| && s.pc[t] != Gone
  }

  function Exec(s: State, t: nat): State
    requires Enabled(s, t)
  {
    match s.pc[t]
    case Top =>
      if s.counter <= 0 then s.(counter := s.counter - 1, pc := s.pc[t := AddBack])
      else s.(counter := s.counter - 1, pc := s.pc[t := Busy], took := s.took[t := s.took[t] + 1])
    case AddBack => s.(counter := s.counter + 1, pc := s.pc[t := Gone])
    case Busy => s.(pc := s.pc[t := Top])
  }

  ghost predicate Run(tr: seq<State>, who: seq<nat>, total: int, n: nat)
  {
    |tr| == |who| + 1 && tr[0] == Init(total, n) &&
    forall i :: 0 <= i < |who| ==> Enabled(tr[i], who[i]) && tr[i+1] == Exec(tr[i], who[i])
  }

  /** The counter is low by the failed claims that have not been added back. */
  ghost predicate Inv(s: State)
  {
    |s.took| == |s.pc| && (Count(s.pc, AddBack) > 0 ==> s.counter + Count(s.pc, AddBack) <= 0)
  }

  ghost function Abs(s: State): Tickets
  {
    var c := s.counter + Count(s.pc, AddBack);
    Tickets(if c > 0 then c else 0, s.took,
            seq(|s.pc|, i requires 0 <= i < |s.pc| => s.pc[i] == AddBack || s.pc[i] == Gone))
  }

  /** Every operation of the protocol is a step of the ticket counter, or changes nothing there. */
  lemma ExecRefines(s: State, t: nat)
    requires Inv(s) && Enabled(s, t)
    ensures Inv(Exec(s, t)) && TicketSpec.Step(Abs(s), Abs(Exec(s, t)))
  {
    hide Count;
    var s' := Exec(s, t);
    CountMove(s.pc, t, s'.pc[t]);
    var a, b := Abs(s), Abs(s');
    if s.pc[t] == Top {
      if s.counter <= 0 {
        assert b.refused == a.refused[t := true];
        assert Refuse(a, b, t);
      } else {
        assert b.refused == a.refused;
        assert Take(a, b, t);
      }
    } else {
      assert b.refused == a.refused;
      assert a == b;
    }
  }

  lemma InitGood(total: int, n: nat)
    ensures Inv(Init(total, n)) && Good(Abs(Init(total, n)), total)
  {
    CountAllIdle(Init(total, n).pc, Top);
    SumBound(Init(total, n).took, Same, 0);
  }

  lemma {:induction false} RunInv(tr: seq<State>, who: seq<nat>, total: int, n: nat, i: nat)
    requires Run(tr, who, total, n) && i < |tr|
    ensures Inv(tr[i])
    decreases i
  {
    hide Inv, Exec, Init;
    if i == 0 {
      InitGood(total, n);
    } else {
      RunInv(tr, who, total, n, i - 1);
      ExecRefines(tr[i-1], who[i-1]);
    }
  }

  /** Every interleaving of fetch_sub claims is a run of the atomic ticket counter, although the counter
      variable itself can be negative in between. */
  lemma Refines(tr: seq<State>, who: seq<nat>, total: int, n: nat)
    requires Run(tr, who, total, n)
    ensures Good(Abs(tr[0]), total)
    ensures forall i :: 0 <= i < |who| ==> TicketSpec.Step(Abs(tr[i]), Abs(tr[i+1]))
  {
    hide Inv, Exec, Abs, TicketSpec.Step, Init;
    InitGood(total, n);
    forall i | 0 <= i < |who| ensures TicketSpec.Step(Abs(tr[i]), Abs(tr[i+1])) {
      RunInv(tr, who, total, n, i);
      ExecRefines(tr[i], who[i]);
    }
  }

  lemma {:induction false} RunIsGood(tr: seq<State>, who: seq<nat>, total: int, n: nat, i: nat)
    requires Run(tr, who, total, n) && i < |tr|
    ensures Good(Abs(tr[i]), total) && |tr[i].pc| == n
    decreases i
  {
    hide Inv, Exec, Abs, Good, Enabled, TicketSpec.Step;
    if i == 0 {
      InitGood(total, n);
    } else {
      RunIsGood(tr, who, total, n, i - 1);
      RunInv(tr, who, total, n, i - 1);
      ExecRefines(tr[i-1], who[i-1]);
      StepGood(Abs(tr[i-1]), Abs(tr[i]), total);
      SameSize(tr[i-1], who[i-1]);
    }
  }

  lemma SameSize(s: State, t: nat)
    requires Enabled(s, t)
    ensures |Exec(s, t).pc| == |s.pc|
  {
  }

  lemma StuckIsRefused(s: State)
    requires Inv(s) && |s.pc| > 0 && forall t :: !Enabled(s, t)
    ensures |Abs(s).refused| > 0 && Abs(s).refused[0]
  {
    hide Count;
    assert !Enabled(s, 0);
  }

  /** When no thread can go on, they have taken exactly the budget between them. */
  lemma FinishedTakesAll(tr: seq<State>, who: seq<nat>, total: int, n: nat)
    requires Run(tr, who, total, n) && n > 0 && forall t :: !Enabled(tr[|who|], t)
    ensures Sum(tr[|who|].took, Same) == Start(total)
  {
    RunInv(tr, who, total, n, |who|);
    RunIsGood(tr, who, total, n, |who|);
    hide Init, Exec, Enabled, Sum, Count, Inv, Abs;
    StuckIsRefused(tr[|who|]);
  }

  lemma RunMore(tr: seq<State>, who: seq<nat>, total: int, n: nat, t: nat)
    requires Run(tr, who, total, n) && Enabled(tr[|who|], t)
    ensures Run(tr + [Exec(tr[|who|], t)], who + [t], total, n)
  {
    hide Exec, Enabled, Init;
    var tr', who' := tr + [Exec(tr[|who|], t)], who + [t];
    forall i | 0 <= i < |who'| ensures Enabled(tr'[i], who'[i]) && tr'[i+1] == Exec(tr'[i], who'[i]) {
      if i < |who| {
        assert tr'[i] == tr[i] && tr'[i+1] == tr[i+1];
      }
    }
  }

  // ----- how far the counter variable can go down -----

  /** What the counter would be without its pending failed claims: a budget below zero is never touched, any
      other one never falls below 0. */
  ghost predicate Level(s: State, total: int)
  {
    var c := s.counter + Count(s.pc, AddBack);
    if total < 0 then c == total else c >= 0
  }

  lemma ExecLevel(s: State, t: nat, total: int)
    requires Inv(s) && Enabled(s, t) && Level(s, total)
    ensures Level(Exec(s, t), total)
  {
    hide Count;
    CountMove(s.pc, t, Exec(s, t).pc[t]);
  }

  lemma {:induction false} RunLevel(tr: seq<State>, who: seq<nat>, total: int, n: nat, i: nat)
    requires Run(tr, who, total, n) && i < |tr|
    ensures Level(tr[i], total)
    decreases i
  {
    hide Inv, Exec, Enabled, Count;
    if i == 0 {
      CountAllIdle(Init(total, n).pc, Top);
    } else {
      RunLevel(tr, who, total, n, i - 1);
      RunInv(tr, who, total, n, i - 1);
      ExecLevel(tr[i-1], who[i-1], total);
    }
  }

  /** In every state of every run: over a budget of at least 0, the counter is negative exactly while failed
      claims are waiting to be added back, and then by exactly their number; a budget below 0 only carries them. */
  lemma NegativeByPendingClaims(tr: seq<State>, who: seq<nat>, total: int, n: nat, i: nat)
    requires Run(tr, who, total, n) && i < |tr|
    ensures total >= 0 ==> (tr[i].counter < 0 <==> AddBack in tr[i].pc)
    ensures total >= 0 && AddBack in tr[i].pc ==> tr[i].counter == 0 - Count(tr[i].pc, AddBack)
    ensures total < 0 ==> tr[i].counter == total - Count(tr[i].pc, AddBack)
  {
    RunInv(tr, who, total, n, i);
    RunLevel(tr, who, total, n, i);
    hide Run, Count;
    CountIn(tr[i].pc, AddBack);
  }

  lemma RunStep(tr: seq<State>, who: seq<nat>, total: int, n: nat, t: nat) returns (tr': seq<State>, who': seq<nat>)
    requires Run(tr, who, total, n) && Enabled(tr[|who|], t)
    ensures Run(tr', who', total, n) && tr'[|who'|] == Exec(tr[|who|], t)
  {
    hide Exec, Enabled;
    RunMore(tr, who, total, n, t);
    tr', who' := tr + [Exec(tr[|who|], t)], who + [t];
  }

  /** Threads k and up are at the top of their loop. */
  predicate TopFrom(s: State, n: nat, k: nat)
  {
    |s.pc| == |s.took| == n && forall t :: k <= t < n ==> s.pc[t] == Top
  }

  /** Thread 0 performs k operations of the budget on its own. */
  lemma {:induction false} OneThreadTakes(total: nat, n: nat, k: nat) returns (tr: seq<State>, who: seq<nat>)
    requires k <= total && n > 0
    ensures Run(tr, who, total, n) && tr[|who|].counter == total - k && TopFrom(tr[|who|], n, 0)
    ensures tr[|who|].took[0] == k
    decreases k
  {
    if k == 0 {
      tr, who := [Init(total, n)], [];
    } else {
      tr, who := OneThreadTakes(total, n, k - 1);
      hide Run;
      tr, who := RunStep(tr, who, total, n, 0);
      tr, who := RunStep(tr, who, total, n, 0);
    }
  }

  /** Whatever the budget, k simultaneous failed claims take the counter down to -k. */
  lemma {:induction false} CounterCanGoNegative(total: nat, n: nat, k: nat) returns (tr: seq<State>, who: seq<nat>)
    requires 0 < k <= n
    ensures Run(tr, who, total, n) && tr[|who|].counter == 0 - k && TopFrom(tr[|who|], n, k)
    decreases k
  {
    if k == 1 {
      tr, who := OneThreadTakes(total, n, total);
    } else {
      tr, who := CounterCanGoNegative(total, n, k - 1);
    }
    hide Run;
    tr, who := RunStep(tr, who, total, n, k - 1);
  }
}

/** The claim of testReaderFn and testWriterFn: load, then compare_exchange_weak, in a loop. */
module CasBudget {
  import opened Counting
  import opened TicketSpec

  datatype Pc = Top | Seen(rem: int) | Busy | Gone

  datatype State = State(counter: int, pc: seq<Pc>, took: seq<nat>)

  function Init(total: int, n: nat): State
  {
    State(total, seq(n, _ => Top), seq(n, _ => 0))
  }

  predicate Enabled(s: State, t: nat)
  {
    t < |s.pc| && t < |s.took| && s.pc[t] != Gone
  }

  /** weak: the compare-exchange fails although the values agree. */
  function Exec(s: State, t: nat, weak: bool): State
    requires Enabled(s, t)
  {
    match s.pc[t]
    case Top => s.(pc := s.pc[t := if s.counter <= 0 then Gone else Seen(s.counter)])
    case Seen(rem) =>
      if s.counter == rem && !weak
      then s.(counter := rem - 1, pc := s.pc[t := Busy], took := s.took[t := s.took[t] + 1])
      else s.(pc := s.pc[t := Top])
    case Busy => s.(pc := s.pc[t := Top])
  }

  ghost predicate Run(tr: seq<State>, who: seq<(nat, bool)>, total: int, n: nat)
  {
    |tr| == |who| + 1 && tr[0] == Init(total, n) &&
    forall i :: 0 <= i < |who| ==> Enabled(tr[i], who[i].0) && tr[i+1] == Exec(tr[i], who[i].0, who[i].1)
  }

  ghost predicate Inv(s: State, total: int)
  {
    && |s.took| == |s.pc| && (s.counter >= 0 || s.counter == total)
    && (forall t :: 0 <= t < |s.pc| && s.pc[t].Seen? ==> s.pc[t].rem > 0)
  }

  ghost function Abs(s: State): Tickets
  {
    Tickets(if s.counter > 0 then s.counter else 0, s.took,
            seq(|s.pc|, i requires 0 <= i < |s.pc| => s.pc[i] == Gone))
  }

  lemma ExecRefines(s: State, t: nat, weak: bool, total: int)
    requires Inv(s, total) && Enabled(s, t)
    ensures Inv(Exec(s, t, weak), total) && TicketSpec.Step(Abs(s), Abs(Exec(s, t, weak)))
  {
    var s' := Exec(s, t, weak);
    var a, b := Abs(s), Abs(s');
    if s.pc[t] == Top && s.counter <= 0 {
      assert b.refused == a.refused[t := true];
      assert Refuse(a, b, t);
    } else {
      assert b.refused == a.refused;
      if s.pc[t].Seen? && s.counter == s.pc[t].rem && !weak {
        assert Take(a, b, t);
      }
    }
  }

  lemma InitGood(total: int, n: nat)
    ensures Inv(Init(total, n), total) && Good(Abs(Init(total, n)), total)
  {
    SumBound(Init(total, n).took, Same, 0);
  }

  lemma {:induction false} RunInv(tr: seq<State>, who: seq<(nat, bool)>, total: int, n: nat, i: nat)
    requires Run(tr, who, total, n) && i < |tr|
    ensures Inv(tr[i], total)
    decreases i
  {
    hide Inv, Exec, Init;
    if i == 0 {
      InitGood(total, n);
    } else {
      RunInv(tr, who, total, n, i - 1);
      ExecRefines(tr[i-1], who[i-1].0, who[i-1].1, total);
    }
  }

  /** Every interleaving of compare-exchange claims, weak failures included, is a run of the same atomic
      ticket counter, and here the variable itself never goes below zero. */
  lemma Refines(tr: seq<State>, who: seq<(nat, bool)>, total: int, n: nat)
    requires Run(tr, who, total, n)
    ensures Good(Abs(tr[0]), total)
    ensures forall i :: 0 <= i < |who| ==> TicketSpec.Step(Abs(tr[i]), Abs(tr[i+1]))
    ensures total >= 0 ==> forall i :: 0 <= i < |tr| ==> tr[i].counter >= 0
  {
    InitGood(total, n);
    forall i | 0 <= i < |tr| ensures tr[i].counter >= 0 || tr[i].counter == total {
      RunInv(tr, who, total, n, i);
    }
    hide Inv, Exec, Abs, TicketSpec.Step, Init;
    forall i | 0 <= i < |who| ensures TicketSpec.Step(Abs(tr[i]), Abs(tr[i+1])) {
      RunInv(tr, who, total, n, i);
      ExecRefines(tr[i], who[i].0, who[i].1, total);
    }
  }

  lemma {:induction false} RunIsGood(tr: seq<State>, who: seq<(nat, bool)>, total: int, n: nat, i: nat)
    requires Run(tr, who, total, n) && i < |tr|
    ensures Good(Abs(tr[i]), total) && |tr[i].pc| == n
    decreases i
  {
    hide Inv, Exec, Abs, Good, Enabled, TicketSpec.Step;
    if i == 0 {
      InitGood(total, n);
    } else {
      RunIsGood(tr, who, total, n, i - 1);
      RunInv(tr, who, total, n, i - 1);
      ExecRefines(tr[i-1], who[i-1].0, who[i-1].1, total);
      StepGood(Abs(tr[i-1]), Abs(tr[i]), total);
      SameSize(tr[i-1], who[i-1].0, who[i-1].1);
    }
  }

  lemma SameSize(s: State, t: nat, weak: bool)
    requires Enabled(s, t)
    ensures |Exec(s, t, weak).pc| == |s.pc|
  {
  }

  lemma StuckIsRefused(s: State, total: int)
    requires Inv(s, total) && |s.pc| > 0 && forall t :: !Enabled(s, t)
    ensures |Abs(s).refused| > 0 && Abs(s).refused[0]
  {
    assert !Enabled(s, 0);
  }

  /** When no thread can go on, they have taken exactly the budget between them. */
  lemma FinishedTakesAll(tr: seq<State>, who: seq<(nat, bool)>, total: int, n: nat)
    requires Run(tr, who, total, n) && n > 0 && forall t :: !Enabled(tr[|who|], t)
    ensures Sum(tr[|who|].took, Same) == Start(total)
  {
    RunInv(tr, who, total, n, |who|);
    RunIsGood(tr, who, total, n, |who|);
    hide Init, Exec, Enabled, Sum, Inv, Abs;
    StuckIsRefused(tr[|who|], total);
  }

  // ----- what one compare-exchange does -----

  /** The step from position m gives thread u a ticket. */
  ghost predicate Takes(tr: seq<State>, m: nat, u: nat)
  {
    && m + 1 < |tr| && u < |tr[m].took| && tr[m+1].counter == tr[m].counter - 1
    && tr[m+1].took == tr[m].took[u := tr[m].took[u] + 1]
  }

  /** Thread t loads at position i, and its next operation is the one at position j. */
  ghost predicate Attempt(tr: seq<State>, who: seq<(nat, bool)>, t: nat, i: nat, j: nat)
  {
    && i < j < |who| < |tr| && who[i].0 == who[j].0 == t && t < |tr[i].pc| && tr[i].pc[t] == Top
    && tr[i].counter > 0 && forall m :: i < m < j ==> who[m].0 != t
  }

  lemma OtherMoves(s: State, u: nat, weak: bool, t: nat)
    requires Enabled(s, u) && u != t && t < |s.pc|
    ensures var s' := Exec(s, u, weak);
      |s'.pc| == |s.pc| && s'.pc[t] == s.pc[t] &&
      (s'.counter == s.counter || (s'.counter == s.counter - 1 && s'.took == s.took[u := s.took[u] + 1]))
  {
  }

  lemma {:induction false} LoadedValue(tr: seq<State>, who: seq<(nat, bool)>, total: int, n: nat,
                                       t: nat, i: nat, j: nat, m: nat)
    requires Run(tr, who, total, n) && Attempt(tr, who, t, i, j) && i < m <= j
    ensures t < |tr[m].pc| && tr[m].pc[t] == Seen(tr[i].counter)
    ensures tr[m].counter == tr[i].counter || exists p, u :: i < p < m && u != t && Takes(tr, p, u)
    decreases m
  {
    assert Enabled(tr[m-1], who[m-1].0) && tr[m-1+1] == Exec(tr[m-1], who[m-1].0, who[m-1].1);
    if m == i + 1 {
    } else {
      LoadedValue(tr, who, total, n, t, i, j, m - 1);
      OtherMoves(tr[m-1], who[m-1].0, who[m-1].1, t);
      hide Exec, Init;
      if tr[m].counter != tr[m-1].counter {
        assert Takes(tr, m - 1, who[m-1].0);
      }
    }
  }

  /** A load and the compare-exchange after it: unless it fails weakly, the claim succeeds exactly if the counter still
      has the value loaded; otherwise nothing is taken, the thread starts again, and a changed counter means that
      another thread has taken a ticket in between. */
  lemma CompareExchange(tr: seq<State>, who: seq<(nat, bool)>, total: int, n: nat, t: nat, i: nat, j: nat)
    requires Run(tr, who, total, n) && Attempt(tr, who, t, i, j)
    ensures t < |tr[j].pc| && t < |tr[j+1].pc|
    ensures tr[j].counter == tr[i].counter && !who[j].1 ==> Takes(tr, j, t) && tr[j+1].pc[t] == Busy
    ensures tr[j].counter != tr[i].counter || who[j].1 ==>
      tr[j+1].pc[t] == Top && tr[j+1].counter == tr[j].counter && tr[j+1].took == tr[j].took
    ensures tr[j].counter != tr[i].counter ==> exists p, u :: i < p < j && u != t && Takes(tr, p, u)
  {
    LoadedValue(tr, who, total, n, t, i, j, j);
    assert Enabled(tr[j], who[j].0) && tr[j+1] == Exec(tr[j], who[j].0, who[j].1);
  }

  /** A load that finds the counter at or below zero ends the thread, and only such a load does. */
  lemma LoadDecides(tr: seq<State>, who: seq<(nat, bool)>, total: int, n: nat, i: nat)
    requires Run(tr, who, total, n) && i < |who|
    ensures var t := who[i].0;
      t < |tr[i].pc| == |tr[i+1].pc| &&
      (tr[i+1].pc[t] == Gone <==> tr[i].pc[t] == Top && tr[i].counter <= 0)
  {
  }

  // ----- claims do succeed -----

  lemma RunStep(tr: seq<State>, who: seq<(nat, bool)>, total: int, n: nat, t: nat)
    returns (tr': seq<State>, who': seq<(nat, bool)>)
    requires Run(tr, who, total, n) && Enabled(tr[|who|], t)
    ensures Run(tr', who', total, n) && tr'[|who'|] == Exec(tr[|who|], t, false)
  {
    hide Exec, Enabled, Init;
    tr', who' := tr + [Exec(tr[|who|], t, false)], who + [(t, false)];
    forall i | 0 <= i < |who'|
      ensures Enabled(tr'[i], who'[i].0) && tr'[i+1] == Exec(tr'[i], who'[i].0, who'[i].1)
    {
      if i < |who| {
        assert tr'[i] == tr[i] && tr'[i+1] == tr[i+1];
      }
    }
  }

  /** Every part of the budget can be taken: thread 0 performs k operations of it on its own. */
  lemma {:induction false} OneThreadTakes(total: nat, n: nat, k: nat) returns (tr: seq<State>, who: seq<(nat, bool)>)
    requires k <= total && n > 0
    ensures Run(tr, who, total, n) && tr[|who|].counter == total - k
    ensures |tr[|who|].pc| == |tr[|who|].took| == n && tr[|who|].pc[0] == Top && tr[|who|].took[0] == k
    decreases k
  {
    if k == 0 {
      tr, who := [Init(total, n)], [];
    } else {
      tr, who := OneThreadTakes(total, n, k - 1);
      hide Run;
      tr, who := RunStep(tr, who, total, n, 0);
      tr, who := RunStep(tr, who, total, n, 0);
      tr, who := RunStep(tr, who, total, n, 0);
    }
  }
}
