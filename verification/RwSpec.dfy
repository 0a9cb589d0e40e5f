/** The readers-writers interface of RWLockBase and its one abstract specification: a set of readers
    and a set of writers that hold the lock, a thread being admitted only when compatible. */
module RwSpec {

  datatype Role = Reader | Writer

  /** Where a thread stands with respect to the lock: outside, inside readLock/writeLock, holding it
      between the two calls, or inside readUnlock/writeUnlock. */
  datatype Phase = Outside | Acquiring(role: Role) | Inside(role: Role) | Releasing(role: Role)

  /** The abstract lock. */
  datatype Rw = Rw(readers: set<nat>, writers: set<nat>)

  ghost predicate Step(a: Rw, b: Rw)
  {
    || a == b
    || (exists t :: a.writers == {} && b == a.(readers := a.readers + {t}))
    || (exists t :: a.readers == {} && a.writers == {} && b == a.(writers := {t}))
    || (exists t :: t in a.readers && b == a.(readers := a.readers - {t}))
    || (exists t :: t in a.writers && b == a.(writers := a.writers - {t}))
  }

  ghost function Holders(v: seq<Phase>): Rw
  {
    Rw(set i: nat | i < |v| && v[i] == Inside(Reader), set i: nat | i < |v| && v[i] == Inside(Writer))
  }

  /** At most one writer, and no reader beside it. */
  ghost predicate Exclusive(v: seq<Phase>)
  {
    forall i, j :: 0 <= i < |v| && 0 <= j < |v| && i != j && v[i] == Inside(Writer) ==> !v[j].Inside?
  }

  /** The order in which one thread goes through the phases of one lock operation. */
  predicate Follows(p: Phase, q: Phase)
  {
    match p
    case Outside => q.Acquiring?
    case Acquiring(r) => q == p || q == Inside(r)
    case Inside(r) => q == Releasing(r)
    case Releasing(_) => q == p || q == Outside
  }

  /** If one thread moves along its phases and the result is still exclusive, the abstract lock made a
      legal step: the concrete lock never admits a thread the specification would refuse. */
  lemma MoveIsStep(v: seq<Phase>, t: nat, q: Phase)
    requires t < |v| && Follows(v[t], q) && Exclusive(v) && Exclusive(v[t := q])
    ensures Step(Holders(v), Holders(v[t := q]))
  {
    var a, b, w := Holders(v), Holders(v[t := q]), v[t := q];
    assert forall i :: 0 <= i < |v| && i != t ==> w[i] == v[i];
    assert w[t] == q;
    if q == Inside(Reader) && v[t] != q {
      assert b == a.(readers := a.readers + {t});
    } else if q == Inside(Writer) && v[t] != q {
      assert b.writers == {t};
      assert b == a.(writers := {t});
    } else if v[t] == Inside(Reader) {
      assert t in a.readers && b == a.(readers := a.readers - {t});
    } else if v[t] == Inside(Writer) {
      assert t in a.writers && b == a.(writers := a.writers - {t});
    } else {
      assert a == b;
    }
  }
}
