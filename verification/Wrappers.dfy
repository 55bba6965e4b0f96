/** Option and Result, the two carriers of absence and failure used by every module. */
module Wrappers {

  datatype Option<+T> = None | Some(value: T) {
    function GetOr(default: T): T {
      match this
      case Some(v) => v
      case None => default
    }
  }

  datatype Result<+T, +E> = Ok(value: T) | Err(error: E) {
    predicate IsFailure() {
      Err?
    }

    function PropagateFailure<U>(): Result<U, E>
      requires Err?
    {
      Err(error)
    }

    function Extract(): T
      requires Ok?
    {
      value
    }
  }

  /** A nonempty set has a member. */
  lemma {:induction false} Member<T>(s: set<T>) returns (x: T)
    requires s != {}
    ensures x in s
  {
    x :| x in s;
  }

  /** Two sets that differ in one element at most differ in size accordingly. */
  lemma {:induction false} SizeChange<T>(a: set<T>, b: set<T>, t: T)
    requires a - {t} == b - {t}
    ensures |b| - |a| == (if t in b then 1 else 0) - (if t in a then 1 else 0)
  {
    SizeWithout(a, t);
    SizeWithout(b, t);
  }

  lemma {:induction false} SizeWithout<T>(s: set<T>, t: T)
    ensures |s| == |s - {t}| + if t in s then 1 else 0
  {
    if t in s {
      assert s == (s - {t}) + {t};
    } else {
      assert s == s - {t};
    }
  }

  /** In a set of at most one element all members are the same. */
  lemma {:induction false} SoleMember<T>(s: set<T>, t: T, u: T)
    requires t in s && u in s && |s| <= 1
    ensures t == u
  {
    SizeWithout(s, t);
    assert |s - {t}| == 0;
    assert u !in s - {t};
  }
}
