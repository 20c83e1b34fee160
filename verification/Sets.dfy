/** Counting the elements of sets. */
module Sets {

  /** Sets that differ in at most one element differ in size by what that element contributes. */
  lemma SetMove<T>(a: set<T>, b: set<T>, t: T)
    requires forall u :: u != t ==> (u in a <==> u in b)
    ensures |b| == |a| - (if t in a then 1 else 0) + (if t in b then 1 else 0)
  {
    var rest := a - {t};
    assert rest == b - {t};
    assert t in a ==> a == rest + {t};
    assert t !in a ==> a == rest;
    assert t in b ==> b == rest + {t};
    assert t !in b ==> b == rest;
  }

  lemma {:induction false} Smaller<T>(a: set<T>, b: set<T>)
    requires a <= b
    ensures |a| <= |b|
  {
    if a != {} {
      var x :| x in a;
      Smaller(a - {x}, b - {x});
    }
  }

  lemma {:induction false} SameSize<T>(a: set<T>, b: set<T>)
    requires a <= b && |a| == |b|
    ensures a == b
  {
    if a != {} {
      var x :| x in a;
      SameSize(a - {x}, b - {x});
    }
  }

  /** The first n numbers. */
  ghost function Below(n: nat): (r: set<nat>)
    ensures |r| == n && forall t :: t in r <==> 0 <= t < n
  {
    if n == 0 then {} else Below(n - 1) + {n - 1}
  }
}
