/** Finite sets, and going through one element by element. */
module Sets {

  lemma FullSubset<T>(a: set<T>, b: set<T>)
    requires a <= b && |a| >= |b|
    ensures a == b
  {
    assert b == a + (b - a);
    assert |b| == |a| + |b - a|;
  }

  /** Every element is either done or left. */
  ghost predicate Divided<T>(all: set<T>, done: set<T>, left: set<T>) {
    done + left == all && done !! left
  }

  lemma NoneDone<T>(all: set<T>)
    ensures Divided(all, {}, all)
  {
  }

  lemma AllDone<T>(all: set<T>, done: set<T>)
    requires Divided(all, done, {})
    ensures done == all
  {
  }

  lemma OneMoreDone<T>(all: set<T>, done: set<T>, left: set<T>, x: T)
    requires Divided(all, done, left) && x in left
    ensures Divided(all, done + {x}, left - {x}) && x in all && x !in done && |left - {x}| < |left|
  {
  }
}
