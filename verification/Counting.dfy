/** Counting and summing over per-thread sequences.  Thread i of a protocol is index i of a
    sequence; every counting invariant of the locks is a linear relation between these counts. */
module Counting {

  /** The number of positions of s that hold x. */
  ghost function Count<T>(s: seq<T>, x: T): nat
  {
    multiset(s)[x]
  }

  /** The sum of f over the elements of s. */
  ghost function Sum<T>(s: seq<T>, f: T -> nat): nat
  {
    if s == [] then 0 else Sum(s[..|s|-1], f) + f(s[|s|-1])
  }

  /** Moving one thread from s[i] to y changes exactly those two counts. */
  lemma CountMove<T(!new)>(s: seq<T>, i: nat, y: T)
    requires i < |s|
    ensures Count(s, s[i]) > 0
    ensures forall x: T {:trigger Count(s[i := y], x)} ::
      Count(s[i := y], x) == Count(s, x) - (if s[i] == x then 1 else 0) + (if y == x then 1 else 0)
  {
    assert s[i] in multiset(s);
  }

  lemma CountIn<T>(s: seq<T>, x: T)
    ensures x in s <==> Count(s, x) > 0
  {
    assert x in s <==> x in multiset(s);
  }

  lemma CountTwo<T>(s: seq<T>, i: nat, j: nat)
    requires i < j < |s| && s[i] == s[j]
    ensures Count(s, s[i]) >= 2
  {
    assert s == s[..j] + s[j..];
    assert s[..j][i] in multiset(s[..j]) && s[j..][0] in multiset(s[j..]);
  }

  lemma CountWitness<T>(s: seq<T>, x: T) returns (i: nat)
    requires Count(s, x) > 0
    ensures i < |s| && s[i] == x
  {
    assert x in s;
    i :| i < |s| && s[i] == x;
  }

  lemma {:induction false} CountConstant<T>(s: seq<T>, y: T, x: T)
    requires forall i :: 0 <= i < |s| ==> s[i] == y
    ensures Count(s, x) == if x == y then |s| else 0
    decreases |s|
  {
    if s == [] {
    } else {
      assert s == s[..|s|-1] + [y];
      CountConstant(s[..|s|-1], y, x);
    }
  }

  lemma CountAllIdle<T(!new)>(s: seq<T>, y: T)
    requires forall i :: 0 <= i < |s| ==> s[i] == y
    ensures forall x: T {:trigger Count(s, x)} :: Count(s, x) == if x == y then |s| else 0
  {
    forall x: T ensures Count(s, x) == if x == y then |s| else 0 {
      CountConstant(s, y, x);
    }
  }

  /** s with every a replaced by b. */
  function Rename<T(==)>(s: seq<T>, a: T, b: T): seq<T>
  {
    seq(|s|, i requires 0 <= i < |s| => if s[i] == a then b else s[i])
  }

  lemma {:induction false} CountRenameAt<T>(s: seq<T>, a: T, b: T, x: T)
    requires a != b
    ensures Count(Rename(s, a, b), x) == (if x == a then 0 else Count(s, x) + if x == b then Count(s, a) else 0)
    decreases |s|
  {
    if s == [] {
      assert Rename(s, a, b) == [];
    } else {
      var n := |s| - 1;
      CountRenameAt(s[..n], a, b, x);
      assert s == s[..n] + [s[n]];
      assert Rename(s, a, b) == Rename(s[..n], a, b) + [if s[n] == a then b else s[n]];
    }
  }

  lemma CountRename<T(!new)>(s: seq<T>, a: T, b: T)
    requires a != b
    ensures forall x: T {:trigger Count(Rename(s, a, b), x)} ::
      Count(Rename(s, a, b), x) == (if x == a then 0 else Count(s, x) + if x == b then Count(s, a) else 0)
  {
    forall x: T
      ensures Count(Rename(s, a, b), x) == (if x == a then 0 else Count(s, x) + if x == b then Count(s, a) else 0)
    {
      CountRenameAt(s, a, b, x);
    }
  }

  /** Changing position i, and elsewhere only what f does not see. */
  lemma {:induction false} SumAgree<T>(s: seq<T>, u: seq<T>, i: nat, f: T -> nat)
    requires |u| == |s| && i < |s| && forall j :: 0 <= j < |s| && j != i ==> f(u[j]) == f(s[j])
    ensures Sum(u, f) - f(u[i]) == Sum(s, f) - f(s[i])
    decreases |s|
  {
    var n := |s| - 1;
    if i == n {
      SumSame(s[..n], u[..n], f);
    } else {
      SumAgree(s[..n], u[..n], i, f);
    }
  }

  lemma {:induction false} SumSame<T>(s: seq<T>, u: seq<T>, f: T -> nat)
    requires |u| == |s| && forall j :: 0 <= j < |s| ==> f(u[j]) == f(s[j])
    ensures Sum(u, f) == Sum(s, f)
    decreases |s|
  {
    if s == [] {
    } else {
      SumSame(s[..|s|-1], u[..|s|-1], f);
    }
  }

  lemma SumUpdate<T>(s: seq<T>, i: nat, y: T, f: T -> nat)
    requires i < |s|
    ensures Sum(s[i := y], f) == Sum(s, f) - f(s[i]) + f(y)
  {
    SumAgree(s, s[i := y], i, f);
  }

  lemma {:induction false} SumBound<T>(s: seq<T>, f: T -> nat, hi: nat)
    requires forall i :: 0 <= i < |s| ==> f(s[i]) <= hi
    ensures Sum(s, f) <= hi * |s|
    decreases |s|
  {
    if s == [] {
    } else {
      var n := |s| - 1;
      assert hi * (n + 1) == hi * n + hi;
      assert forall i :: 0 <= i < n ==> s[..n][i] == s[i];
      SumBound(s[..n], f, hi);
    }
  }

  lemma {:induction false} SumWitness<T>(s: seq<T>, f: T -> nat) returns (i: nat)
    requires Sum(s, f) > 0
    ensures i < |s| && f(s[i]) > 0
    decreases |s|
  {
    if f(s[|s|-1]) > 0 {
      i := |s| - 1;
    } else {
      i := SumWitness(s[..|s|-1], f);
    }
  }

  lemma {:induction false} SumEqual<T>(s: seq<T>, f: T -> nat, g: T -> nat)
    requires forall j :: 0 <= j < |s| ==> f(s[j]) == g(s[j])
    ensures Sum(s, f) == Sum(s, g)
    decreases |s|
  {
    if s == [] {
    } else {
      assert forall j :: 0 <= j < |s| - 1 ==> s[..|s|-1][j] == s[j];
      SumEqual(s[..|s|-1], f, g);
    }
  }

  /** What any three different positions contribute. */
  lemma {:induction false} SumThree<T>(s: seq<T>, f: T -> nat, i: nat, j: nat, k: nat)
    requires i < |s| && j < |s| && k < |s| && i != j && j != k && i != k
    ensures Sum(s, f) >= f(s[i]) + f(s[j]) + f(s[k])
    decreases |s|
  {
    var n := |s| - 1;
    var u := s[..n];
    if i == n { SumTwo(u, f, j, k); }
    else if j == n { SumTwo(u, f, i, k); }
    else if k == n { SumTwo(u, f, i, j); }
    else { SumThree(u, f, i, j, k); }
  }

  lemma {:induction false} SumTwo<T>(s: seq<T>, f: T -> nat, i: nat, j: nat)
    requires i < |s| && j < |s| && i != j
    ensures Sum(s, f) >= f(s[i]) + f(s[j])
    decreases |s|
  {
    var n := |s| - 1;
    if i == n { SumOne(s[..n], f, j); }
    else if j == n { SumOne(s[..n], f, i); }
    else { SumTwo(s[..n], f, i, j); }
  }

  lemma {:induction false} SumOne<T>(s: seq<T>, f: T -> nat, i: nat)
    requires i < |s|
    ensures Sum(s, f) >= f(s[i])
    decreases |s|
  {
    if i < |s| - 1 { SumOne(s[..|s|-1], f, i); }
  }

  lemma {:induction false} SumOnly<T>(s: seq<T>, f: T -> nat, i: nat)
    requires forall j :: 0 <= j < |s| && j != i ==> f(s[j]) == 0
    ensures Sum(s, f) == if i < |s| then f(s[i]) else 0
    decreases |s|
  {
    if s == [] {
    } else {
      assert forall j :: 0 <= j < |s| - 1 ==> s[..|s|-1][j] == s[j];
      SumOnly(s[..|s|-1], f, i);
    }
  }
}
