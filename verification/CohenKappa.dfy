/** Cohen's kappa over pairs of labels: the counting loops and what they compute. */
module CohenKappa {
  import opened Options
  import opened Sets

  type Pair<T> = (T, T)

  // ---- Sums over pairs

  ghost function Total<P>(ps: seq<P>, f: P -> nat): nat {
    if |ps| == 0 then 0 else f(ps[0]) + Total(ps[1..], f)
  }

  lemma {:induction false} TotalAppend<P>(ps: seq<P>, p: P, f: P -> nat)
    ensures Total(ps + [p], f) == Total(ps, f) + f(p)
  {
    if |ps| == 0 {
      assert (ps + [p])[1..] == [];
    } else {
      assert (ps + [p])[1..] == ps[1..] + [p];
      TotalAppend(ps[1..], p, f);
    }
  }

  lemma {:induction false} TotalConcat<P>(ps: seq<P>, qs: seq<P>, f: P -> nat)
    ensures Total(ps + qs, f) == Total(ps, f) + Total(qs, f)
  {
    if |ps| == 0 {
      assert ps + qs == qs;
    } else {
      assert (ps + qs)[1..] == ps[1..] + qs;
      TotalConcat(ps[1..], qs, f);
    }
  }

  lemma {:induction false} TotalSame<P>(ps: seq<P>, f: P -> nat, g: P -> nat)
    requires forall p :: p in ps ==> f(p) == g(p)
    ensures Total(ps, f) == Total(ps, g)
  {
    if |ps| > 0 {
      TotalSame(ps[1..], f, g);
    }
  }

  lemma {:induction false} TotalAtMost<P>(ps: seq<P>, f: P -> nat, bound: nat)
    requires forall p :: p in ps ==> f(p) <= bound
    ensures Total(ps, f) <= |ps| * bound
  {
    if |ps| > 0 {
      TotalAtMost(ps[1..], f, bound);
      assert |ps| * bound == (|ps| - 1) * bound + bound;
    }
  }

  lemma {:induction false} TotalLessEqual<P>(ps: seq<P>, f: P -> nat, g: P -> nat)
    requires forall p :: p in ps ==> f(p) <= g(p)
    ensures Total(ps, f) <= Total(ps, g)
    ensures Total(ps, f) == Total(ps, g) ==> forall p :: p in ps ==> f(p) == g(p)
  {
    if |ps| > 0 {
      TotalLessEqual(ps[1..], f, g);
      assert forall p :: p in ps ==> p == ps[0] || p in ps[1..];
    }
  }

  lemma {:induction false} TotalConstant<P>(ps: seq<P>, c: nat)
    ensures Total(ps, (p: P) => c) == |ps| * c
  {
    if |ps| > 0 {
      TotalConstant(ps[1..], c);
    }
  }

  function Without<P>(qs: seq<P>, k: nat): seq<P>
    requires k < |qs|
  {
    qs[..k] + qs[k + 1..]
  }

  lemma TotalWithout<P>(qs: seq<P>, k: nat, f: P -> nat)
    requires k < |qs|
    ensures Total(qs, f) == f(qs[k]) + Total(Without(qs, k), f)
  {
    assert qs == qs[..k] + ([qs[k]] + qs[k + 1..]);
    TotalConcat(qs[..k], [qs[k]] + qs[k + 1..], f);
    TotalConcat(qs[..k], qs[k + 1..], f);
    assert ([qs[k]] + qs[k + 1..])[1..] == qs[k + 1..];
  }

  lemma MultisetWithout<P>(qs: seq<P>, k: nat)
    requires k < |qs|
    ensures multiset(Without(qs, k)) == multiset(qs) - multiset{qs[k]}
  {
    assert qs == qs[..k] + [qs[k]] + qs[k + 1..];
  }

  /** Sums do not depend on the order. */
  lemma {:induction false} TotalPermuted<P>(ps: seq<P>, qs: seq<P>, f: P -> nat)
    requires multiset(ps) == multiset(qs)
    ensures Total(ps, f) == Total(qs, f)
  {
    if |ps| == 0 {
      assert |multiset(qs)| == 0;
    } else {
      assert ps[0] in multiset(qs);
      var k :| 0 <= k < |qs| && qs[k] == ps[0];
      MultisetWithout(ps, 0);
      MultisetWithout(qs, k);
      assert Without(ps, 0) == ps[1..];
      hide Without;
      TotalPermuted(ps[1..], Without(qs, k), f);
      TotalWithout(qs, k, f);
    }
  }

  // ---- Counts

  ghost function IsLeft<T>(l: T): Pair<T> -> nat {
    (p: Pair<T>) => if p.0 == l then 1 else 0
  }

  ghost function IsRight<T>(l: T): Pair<T> -> nat {
    (p: Pair<T>) => if p.1 == l then 1 else 0
  }

  ghost function IsBoth<T>(l: T): Pair<T> -> nat {
    (p: Pair<T>) => if p.0 == l && p.1 == l then 1 else 0
  }

  ghost function Agrees<T>(): Pair<T> -> nat {
    (p: Pair<T>) => if p.0 == p.1 then 1 else 0
  }

  ghost function Lefts<T>(ps: seq<Pair<T>>, l: T): nat {
    Total(ps, IsLeft(l))
  }

  ghost function Rights<T>(ps: seq<Pair<T>>, l: T): nat {
    Total(ps, IsRight(l))
  }

  ghost function Both<T>(ps: seq<Pair<T>>, l: T): nat {
    Total(ps, IsBoth(l))
  }

  ghost function Agreements<T>(ps: seq<Pair<T>>): nat {
    Total(ps, Agrees())
  }

  /** How many right labels equal the left label of a pair, for left labels in the set. */
  ghost function RightsOf<T>(ps: seq<Pair<T>>, labels: set<T>): Pair<T> -> nat {
    (p: Pair<T>) => if p.0 in labels then Rights(ps, p.0) else 0
  }

  ghost function LeftsOf<T>(ps: seq<Pair<T>>, labels: set<T>): Pair<T> -> nat {
    (p: Pair<T>) => if p.1 in labels then Lefts(ps, p.1) else 0
  }

  /** The number of places (i, k) where left label i is right label k and in the set. */
  ghost function Matches<T>(ps: seq<Pair<T>>, labels: set<T>): nat {
    Total(ps, RightsOf(ps, labels))
  }

  ghost function Labels<T>(ps: seq<Pair<T>>): set<T> {
    (set p | p in ps :: p.0) + (set p | p in ps :: p.1)
  }

  lemma {:induction false} LeftSum<T>(ps: seq<Pair<T>>, l: T, c: nat, f: Pair<T> -> nat, g: Pair<T> -> nat)
    requires forall p :: p in ps ==> g(p) == f(p) + (if p.0 == l then c else 0)
    ensures Total(ps, g) == Total(ps, f) + Lefts(ps, l) * c
  {
    if |ps| > 0 {
      LeftSum(ps[1..], l, c, f, g);
    }
  }

  lemma {:induction false} RightSum<T>(ps: seq<Pair<T>>, l: T, c: nat, f: Pair<T> -> nat, g: Pair<T> -> nat)
    requires forall p :: p in ps ==> g(p) == f(p) + (if p.1 == l then c else 0)
    ensures Total(ps, g) == Total(ps, f) + Rights(ps, l) * c
  {
    if |ps| > 0 {
      RightSum(ps[1..], l, c, f, g);
    }
  }

  /** One more label adds the product of its two counts. */
  lemma OneMoreLabel<T>(ps: seq<Pair<T>>, labels: set<T>, l: T)
    requires l !in labels
    ensures Matches(ps, labels + {l}) == Matches(ps, labels) + Lefts(ps, l) * Rights(ps, l)
    ensures Total(ps, LeftsOf(ps, labels + {l})) == Total(ps, LeftsOf(ps, labels)) + Rights(ps, l) * Lefts(ps, l)
  {
    LeftSum(ps, l, Rights(ps, l), RightsOf(ps, labels), RightsOf(ps, labels + {l}));
    RightSum(ps, l, Lefts(ps, l), LeftsOf(ps, labels), LeftsOf(ps, labels + {l}));
  }

  lemma NoLabels<T>(ps: seq<Pair<T>>)
    ensures Matches(ps, {}) == 0 && Total(ps, LeftsOf(ps, {})) == 0
  {
    TotalAtMost(ps, RightsOf(ps, {}), 0);
    TotalAtMost(ps, LeftsOf(ps, {}), 0);
  }

  /** Counting the matches from the right gives the same number. */
  lemma {:induction false} MatchesFromTheRight<T>(ps: seq<Pair<T>>, labels: set<T>)
    ensures Matches(ps, labels) == Total(ps, LeftsOf(ps, labels))
    decreases |labels|
  {
    if labels == {} {
      NoLabels(ps);
    } else {
      var l :| l in labels;
      MatchesFromTheRight(ps, labels - {l});
      OneMoreLabel(ps, labels - {l}, l);
      assert labels - {l} + {l} == labels;
    }
  }

  // ---- Kappa

  function Square(n: nat): (s: nat)
    ensures n > 0 ==> s > 0
  {
    n * n
  }

  function Share(count: nat, n: nat): real
    requires n > 0
  {
    count as real / n as real
  }

  ghost function Observed<T>(ps: seq<Pair<T>>): real
    requires |ps| > 0
  {
    Share(Agreements(ps), |ps|)
  }

  /** The chance agreement: the matches over all pairs of places. */
  ghost function Expected<T>(ps: seq<Pair<T>>): real
    requires |ps| > 0
  {
    Share(Matches(ps, Labels(ps)), Square(|ps|))
  }

  ghost function Kappa<T>(ps: seq<Pair<T>>): Option<real> {
    if |ps| == 0 || Expected(ps) == 1.0 then None
    else Some((Observed(ps) - Expected(ps)) / (1.0 - Expected(ps)))
  }

  lemma {:induction false} LeftsPositive<T>(ps: seq<Pair<T>>, l: T)
    ensures Lefts(ps, l) > 0 <==> exists p :: p in ps && p.0 == l
    ensures Rights(ps, l) > 0 <==> exists p :: p in ps && p.1 == l
  {
    if |ps| > 0 {
      LeftsPositive(ps[1..], l);
      assert ps[0] in ps;
      assert forall p :: p in ps <==> p == ps[0] || p in ps[1..];
    }
  }

  /** The counts recorded for the pairs, one per label that occurs. */
  ghost predicate CountsLefts<T(!new)>(counts: map<T, nat>, ps: seq<Pair<T>>) {
    && (forall l :: l in counts ==> counts[l] == Lefts(ps, l) && counts[l] > 0)
    && (forall p :: p in ps ==> p.0 in counts)
  }

  ghost predicate CountsRights<T(!new)>(counts: map<T, nat>, ps: seq<Pair<T>>) {
    && (forall l :: l in counts ==> counts[l] == Rights(ps, l) && counts[l] > 0)
    && (forall p :: p in ps ==> p.1 in counts)
  }

  function CountOf<T(==)>(counts: map<T, nat>, l: T): nat {
    if l in counts then counts[l] else 0
  }

  lemma CountsAppend<T>(ps: seq<Pair<T>>, p: Pair<T>, l: T)
    ensures Lefts(ps + [p], l) == Lefts(ps, l) + (if p.0 == l then 1 else 0)
    ensures Rights(ps + [p], l) == Rights(ps, l) + (if p.1 == l then 1 else 0)
  {
    TotalAppend(ps, p, IsLeft(l));
    TotalAppend(ps, p, IsRight(l));
  }

  lemma OneMorePair<T(!new)>(left: map<T, nat>, right: map<T, nat>, ps: seq<Pair<T>>, p: Pair<T>)
    requires CountsLefts(left, ps) && CountsRights(right, ps)
    ensures CountsLefts(left[p.0 := CountOf(left, p.0) + 1], ps + [p])
    ensures CountsRights(right[p.1 := CountOf(right, p.1) + 1], ps + [p])
  {
    LeftsPositive(ps, p.0);
    LeftsPositive(ps, p.1);
    hide Lefts, Rights;
    forall l ensures Lefts(ps + [p], l) == Lefts(ps, l) + (if p.0 == l then 1 else 0) {
      CountsAppend(ps, p, l);
    }
    forall l ensures Rights(ps + [p], l) == Rights(ps, l) + (if p.1 == l then 1 else 0) {
      CountsAppend(ps, p, l);
    }
  }

  lemma CountedAll<T(!new)>(left: map<T, nat>, right: map<T, nat>, ps: seq<Pair<T>>)
    requires CountsLefts(left, ps) && CountsRights(right, ps)
    ensures left.Keys + right.Keys == Labels(ps)
    ensures forall l :: CountOf(left, l) == Lefts(ps, l) && CountOf(right, l) == Rights(ps, l)
  {
    forall l ensures (l in left <==> Lefts(ps, l) > 0) && (l in right <==> Rights(ps, l) > 0) {
      LeftsPositive(ps, l);
    }
    forall l ensures l in left.Keys + right.Keys <==> l in Labels(ps) {
      LeftsPositive(ps, l);
    }
  }

  lemma AddShare(matches: nat, l: nat, r: nat, n: nat, N: nat)
    requires n > 0 && N == Square(n)
    ensures Share(matches, N) + Chance(l, r, n) == Share(matches + l * r, N)
  {
    var x := n as real;
    assert (n * n) as real == x * x;
    assert (l * r) as real == l as real * r as real;
    assert (l as real / x) * (r as real / x) == (l as real * r as real) / (x * x);
  }

  method CountPairs<T(==, !new)>(pairs: seq<Pair<T>>) returns (agreement: nat, leftCounts: map<T, nat>, rightCounts: map<T, nat>)
    ensures agreement == Agreements(pairs)
    ensures CountsLefts(leftCounts, pairs) && CountsRights(rightCounts, pairs)
  {
    agreement, leftCounts, rightCounts := 0, map[], map[];
    NoAgreements<T>();
    hide Total, CountsLefts, CountsRights;
    NothingCounted<T>();
    assert pairs[..0] == [];
    for i := 0 to |pairs|
      invariant agreement == Agreements(pairs[..i])
      invariant CountsLefts(leftCounts, pairs[..i]) && CountsRights(rightCounts, pairs[..i])
    {
      var left, right := pairs[i].0, pairs[i].1;
      assert pairs[..i + 1] == pairs[..i] + [pairs[i]];
      TotalAppend(pairs[..i], pairs[i], Agrees());
      OneMorePair(leftCounts, rightCounts, pairs[..i], pairs[i]);
      if left == right {
        agreement := agreement + 1;
      }
      leftCounts := leftCounts[left := CountOf(leftCounts, left) + 1];
      rightCounts := rightCounts[right := CountOf(rightCounts, right) + 1];
    }
    assert pairs[..|pairs|] == pairs;
  }

  /** Sums the product of the two shares of every label, in no particular order. */
  method ExpectedAgreement<T(==, !new)>(pairs: seq<Pair<T>>, leftCounts: map<T, nat>, rightCounts: map<T, nat>)
    returns (expected: real)
    requires |pairs| > 0 && CountsLefts(leftCounts, pairs) && CountsRights(rightCounts, pairs)
    ensures expected == Expected(pairs)
  {
    hide *;
    CountedAll(leftCounts, rightCounts, pairs);
    var labels := leftCounts.Keys + rightCounts.Keys;
    expected := 0.0;
    ghost var done: set<T> := {};
    NoChance(pairs);
    NoneDone(labels);
    while labels != {}
      invariant Divided(Labels(pairs), done, labels)
      invariant expected == ChanceOver(pairs, done)
      decreases |labels|
    {
      var category :| category in labels;
      var l, r := CountOf(leftCounts, category), CountOf(rightCounts, category);
      OneMoreDone(Labels(pairs), done, labels, category);
      AddLabel(pairs, done, category);
      expected := expected + Chance(l, r, |pairs|);
      done := done + {category};
      labels := labels - {category};
    }
    AllDone(Labels(pairs), done);
    ExpectedIs(pairs);
  }

  /** The chance that both raters give a label with these counts. */
  function Chance(l: nat, r: nat, n: nat): real
    requires n > 0
  {
    Share(l, n) * Share(r, n)
  }

  ghost function ChanceOver<T>(pairs: seq<Pair<T>>, labels: set<T>): real
    requires |pairs| > 0
  {
    Share(Matches(pairs, labels), Square(|pairs|))
  }

  lemma NoChance<T>(pairs: seq<Pair<T>>)
    requires |pairs| > 0
    ensures ChanceOver(pairs, {}) == 0.0
  {
    NoLabels(pairs);
    NoShare(Square(|pairs|));
    hide Matches, Square, Share;
  }

  lemma AddLabel<T>(pairs: seq<Pair<T>>, done: set<T>, l: T)
    requires |pairs| > 0 && l !in done
    ensures ChanceOver(pairs, done + {l})
            == ChanceOver(pairs, done) + Chance(Lefts(pairs, l), Rights(pairs, l), |pairs|)
  {
    hide *;
    OneMoreLabel(pairs, done, l);
    SquarePositive(|pairs|);
    ChanceOverIs(pairs, done);
    ChanceOverIs(pairs, done + {l});
    AddShare(Matches(pairs, done), Lefts(pairs, l), Rights(pairs, l), |pairs|, Square(|pairs|));
  }

  lemma SquarePositive(n: nat)
    requires n > 0
    ensures Square(n) > 0
  {
  }

  lemma ChanceOverIs<T>(pairs: seq<Pair<T>>, labels: set<T>)
    requires |pairs| > 0
    ensures ChanceOver(pairs, labels) == Share(Matches(pairs, labels), Square(|pairs|))
  {
  }

  lemma ExpectedIs<T>(pairs: seq<Pair<T>>)
    requires |pairs| > 0
    ensures Expected(pairs) == ChanceOver(pairs, Labels(pairs))
  {
  }

  method ComputeCohenKappa<T(==, !new)>(pairs: seq<Pair<T>>) returns (kappa: Option<real>)
    ensures kappa == Kappa(pairs)
  {
    hide Expected;
    if |pairs| == 0 {
      return None;
    }
    var agreement, leftCounts, rightCounts := CountPairs(pairs);
    var observed := Share(agreement, |pairs|);
    var expected := ExpectedAgreement(pairs, leftCounts, rightCounts);
    if expected == 1.0 {
      return None;
    }
    kappa := Some((observed - expected) / (1.0 - expected));
  }

  lemma NoShare(n: nat)
    requires n > 0
    ensures Share(0, n) == 0.0
  {
  }

  lemma NothingCounted<T(!new)>()
    ensures CountsLefts<T>(map[], []) && CountsRights<T>(map[], [])
  {
  }

  lemma NoAgreements<T>()
    ensures Agreements<T>([]) == 0
  {
  }

  // ---- When kappa is defined

  /** Both raters use one and the same label for everything. */
  ghost predicate OneLabel<T>(ps: seq<Pair<T>>) {
    forall p :: p in ps ==> p == (ps[0].0, ps[0].0)
  }

  lemma RightsAtMost<T>(ps: seq<Pair<T>>, l: T)
    ensures Rights(ps, l) <= |ps| && (Rights(ps, l) == |ps| ==> forall p :: p in ps ==> p.1 == l)
  {
    TotalConstant(ps, 1);
    TotalLessEqual(ps, IsRight(l), (p: Pair<T>) => 1);
  }

  lemma MatchesAtMost<T>(ps: seq<Pair<T>>)
    ensures var m := Matches(ps, Labels(ps)); m <= |ps| * |ps| && (m == |ps| * |ps| <==> OneLabel(ps))
  {
    var n := |ps|;
    var f, g := RightsOf(ps, Labels(ps)), (p: Pair<T>) => n;
    forall p | p in ps ensures f(p) == Rights(ps, p.0) <= g(p) && (f(p) == n ==> forall q :: q in ps ==> q.1 == p.0) {
      RightsAtMost(ps, p.0);
    }
    TotalConstant(ps, n);
    TotalLessEqual(ps, f, g);
    if OneLabel(ps) {
      forall p | p in ps ensures f(p) == g(p) {
        TotalConstant(ps, 1);
        TotalSame(ps, IsRight(p.0), (p: Pair<T>) => 1);
      }
      TotalSame(ps, f, g);
    }
    if Total(ps, f) == n * n {
      forall p | p in ps ensures p == (ps[0].0, ps[0].0) {
        assert f(p) == n && f(ps[0]) == n;
      }
    }
  }

  /** Kappa is undefined exactly without pairs, or when both raters use one same label. */
  lemma KappaUndefined<T>(ps: seq<Pair<T>>)
    ensures Kappa(ps).None? <==> |ps| == 0 || OneLabel(ps)
  {
    if |ps| > 0 {
      MatchesAtMost(ps);
      var m, n := Matches(ps, Labels(ps)), |ps|;
      ShareIsOne(m, n * n);
    }
  }

  lemma ShareIsOne(m: nat, n: nat)
    requires n > 0
    ensures Share(m, n) == 1.0 <==> m == n
  {
  }

  // ---- Bounds

  lemma {:induction false} CountsOverlap<T>(ps: seq<Pair<T>>, l: T)
    ensures Lefts(ps, l) + Rights(ps, l) <= |ps| + Both(ps, l)
    ensures Both(ps, l) <= Agreements(ps) <= |ps|
  {
    if |ps| > 0 {
      CountsOverlap(ps[1..], l);
    }
  }

  ghost function LeftWeights<T>(ps: seq<Pair<T>>, labels: set<T>): Pair<T> -> nat {
    (p: Pair<T>) => if p.0 in labels then |ps| + Both(ps, p.0) else 0
  }

  ghost function RightWeights<T>(ps: seq<Pair<T>>, labels: set<T>): Pair<T> -> nat {
    (p: Pair<T>) => if p.1 in labels then |ps| + Both(ps, p.1) else 0
  }

  lemma FourProducts(l: nat, r: nat, w: nat)
    requires l + r <= w
    ensures 4 * (l * r) <= l * w + r * w
  {
    TimesMonotone(l + r, l + r, w);
    assert (l + r) * w == l * w + r * w;
    SquareOfSum(l, r);
    SquareOfDifference(l, r);
  }

  lemma TimesMonotone(x: nat, y: nat, z: nat)
    requires y <= z
    ensures x * y <= x * z
  {
  }

  lemma SquareOfSum(l: nat, r: nat)
    ensures (l + r) * (l + r) == l * l + 2 * (l * r) + r * r
  {
  }

  lemma SquareOfDifference(l: nat, r: nat)
    ensures 2 * (l * r) <= l * l + r * r
  {
    var d := if l <= r then r - l else l - r;
    assert d * d >= 0;
    assert d * d == l * l - 2 * (l * r) + r * r;
  }

  lemma {:induction false} MatchesWeighed<T>(ps: seq<Pair<T>>, labels: set<T>)
    ensures 4 * Matches(ps, labels) <= Total(ps, LeftWeights(ps, labels)) + Total(ps, RightWeights(ps, labels))
    decreases |labels|
  {
    if labels == {} {
      NoLabels(ps);
    } else {
      var l :| l in labels;
      var less := labels - {l};
      MatchesWeighed(ps, less);
      OneMoreLabel(ps, less, l);
      assert less + {l} == labels;
      var w := |ps| + Both(ps, l);
      LeftSum(ps, l, w, LeftWeights(ps, less), LeftWeights(ps, labels));
      RightSum(ps, l, w, RightWeights(ps, less), RightWeights(ps, labels));
      CountsOverlap(ps, l);
      FourProducts(Lefts(ps, l), Rights(ps, l), w);
    }
  }

  /** Twice the chance agreement is at most one more than the agreement. */
  lemma TwiceMatches<T>(ps: seq<Pair<T>>)
    ensures 2 * Matches(ps, Labels(ps)) <= |ps| * |ps| + |ps| * Agreements(ps)
  {
    hide *;
    var labels, w := Labels(ps), |ps| + Agreements(ps);
    MatchesWeighed(ps, labels);
    WeightsAtMost(ps, labels, w);
    TotalAtMost(ps, LeftWeights(ps, labels), w);
    TotalAtMost(ps, RightWeights(ps, labels), w);
    HalfBound(Matches(ps, labels), Total(ps, LeftWeights(ps, labels)), Total(ps, RightWeights(ps, labels)), |ps|, Agreements(ps));
  }

  lemma WeightsAtMost<T>(ps: seq<Pair<T>>, labels: set<T>, w: nat)
    requires w == |ps| + Agreements(ps)
    ensures forall p :: p in ps ==> LeftWeights(ps, labels)(p) <= w
    ensures forall p :: p in ps ==> RightWeights(ps, labels)(p) <= w
  {
    forall p | p in ps ensures LeftWeights(ps, labels)(p) <= w && RightWeights(ps, labels)(p) <= w {
      CountsOverlap(ps, p.0);
      CountsOverlap(ps, p.1);
    }
  }

  lemma HalfBound(m: nat, x: nat, y: nat, n: nat, a: nat)
    requires 4 * m <= x + y && x <= n * (n + a) && y <= n * (n + a)
    ensures 2 * m <= n * n + n * a
  {
  }

  lemma SameShare(a: nat, n: nat)
    requires n > 0
    ensures Share(a, n) == Share(n * a, n * n)
  {
    var x, y := n as real, a as real;
    assert (n * a) as real == x * y && (n * n) as real == x * x;
    assert (x * y) / (x * x) == y / x;
  }

  lemma ShareMonotone(x: nat, y: nat, n: nat)
    requires n > 0 && x <= y
    ensures Share(x, n) <= Share(y, n)
  {
  }

  lemma ShareSum(x: nat, y: nat, n: nat)
    requires n > 0
    ensures Share(x + y, n) == Share(x, n) + Share(y, n)
  {
  }

  lemma ExpectedWithin(m: nat, a: nat, n: nat)
    requires n > 0 && 2 * m <= n * n + n * a && m <= n * n && a <= n
    ensures var e, o := Share(m, n * n), Share(a, n);
            2.0 * e <= 1.0 + o && e <= 1.0 && o <= 1.0 && (o == 1.0 <==> a == n)
  {
    var N := n * n;
    assert N > 0;
    hide Share;
    SameShare(a, n);
    ShareMonotone(m + m, N + n * a, N);
    ShareSum(m, m, N);
    ShareSum(N, n * a, N);
    ShareMonotone(m, N, N);
    ShareMonotone(a, n, n);
    ShareIsOne(a, n);
    ShareIsOne(N, N);
    ShareIsOne(n, n);
  }

  /** Kappa, where it is defined, lies in [-1, 1], and is 1 exactly on full agreement. */
  lemma KappaBounds<T>(ps: seq<Pair<T>>)
    requires Kappa(ps).Some?
    ensures -1.0 <= Kappa(ps).value <= 1.0
    ensures Kappa(ps).value == 1.0 <==> forall p :: p in ps ==> p.0 == p.1
  {
    var m, a, n := Matches(ps, Labels(ps)), Agreements(ps), |ps|;
    MatchesAtMost(ps);
    TwiceMatches(ps);
    CountsOverlap(ps, ps[0].0);
    ExpectedWithin(m, a, n);
    Ratio(Observed(ps), Expected(ps));
    TotalConstant(ps, 1);
    TotalLessEqual(ps, Agrees(), (p: Pair<T>) => 1);
    if forall p :: p in ps ==> p.0 == p.1 {
      TotalSame(ps, Agrees(), (p: Pair<T>) => 1);
    }
  }

  lemma Ratio(o: real, e: real)
    requires e < 1.0 && o <= 1.0 && 2.0 * e <= 1.0 + o
    ensures -1.0 <= (o - e) / (1.0 - e) <= 1.0
    ensures (o - e) / (1.0 - e) == 1.0 <==> o == 1.0
  {
    var d := 1.0 - e;
    DivideMonotone(o - e, d, d);
    DivideMonotone(-d, o - e, d);
    DivideMonotone(d, o - e, d);
    assert d / d == 1.0 && (-d) / d == -1.0;
  }

  lemma DivideMonotone(x: real, y: real, d: real)
    requires d > 0.0
    ensures x <= y <==> x / d <= y / d
  {
    assert (x / d) * d == x && (y / d) * d == y;
  }

  // ---- Order and raters do not matter

  lemma SameKappa<T>(ps: seq<Pair<T>>, qs: seq<Pair<T>>)
    requires |ps| == |qs| && Agreements(ps) == Agreements(qs) && Matches(ps, Labels(ps)) == Matches(qs, Labels(qs))
    ensures Kappa(ps) == Kappa(qs)
  {
  }

  lemma SameElements<P>(ps: seq<P>, qs: seq<P>)
    requires multiset(ps) == multiset(qs)
    ensures |ps| == |qs| && forall p :: p in ps <==> p in qs
  {
    assert |ps| == |multiset(ps)| == |multiset(qs)| == |qs|;
    assert forall p :: p in ps <==> p in multiset(ps);
  }

  lemma PermutedLabels<T>(ps: seq<Pair<T>>, qs: seq<Pair<T>>)
    requires forall p :: p in ps <==> p in qs
    ensures Labels(ps) == Labels(qs)
  {
  }

  /** Kappa does not depend on the order of the pairs. */
  lemma KappaPermuted<T>(ps: seq<Pair<T>>, qs: seq<Pair<T>>)
    requires multiset(ps) == multiset(qs)
    ensures Kappa(ps) == Kappa(qs)
  {
    SameElements(ps, qs);
    PermutedLabels(ps, qs);
    hide Total, Labels, Kappa;
    TotalPermuted(ps, qs, Agrees());
    TotalPermuted(ps, qs, RightsOf(ps, Labels(ps)));
    forall p | p in qs ensures RightsOf(ps, Labels(ps))(p) == RightsOf(qs, Labels(qs))(p) {
      TotalPermuted(ps, qs, IsRight(p.0));
    }
    TotalSame(qs, RightsOf(ps, Labels(ps)), RightsOf(qs, Labels(qs)));
    SameKappa(ps, qs);
  }

  ghost function Swapped<T>(ps: seq<Pair<T>>): (qs: seq<Pair<T>>)
    ensures |qs| == |ps|
  {
    if |ps| == 0 then [] else [(ps[0].1, ps[0].0)] + Swapped(ps[1..])
  }

  lemma {:induction false} TotalSwapped<T>(ps: seq<Pair<T>>, f: Pair<T> -> nat, g: Pair<T> -> nat)
    requires forall p :: p in ps ==> f(p) == g((p.1, p.0))
    ensures Total(ps, f) == Total(Swapped(ps), g)
  {
    if |ps| > 0 {
      TotalSwapped(ps[1..], f, g);
    }
  }

  lemma {:induction false} SwappedLabels<T>(ps: seq<Pair<T>>)
    ensures Labels(Swapped(ps)) == Labels(ps)
  {
    if |ps| > 0 {
      SwappedLabels(ps[1..]);
      LabelsOfFirst(ps);
      LabelsOfFirst(Swapped(ps));
    }
  }

  lemma LabelsOfFirst<T>(ps: seq<Pair<T>>)
    requires |ps| > 0
    ensures Labels(ps) == {ps[0].0, ps[0].1} + Labels(ps[1..])
  {
    assert forall p :: p in ps <==> p == ps[0] || p in ps[1..];
  }

  /** Nor on which rater comes first. */
  lemma KappaSwapped<T>(ps: seq<Pair<T>>)
    ensures Kappa(Swapped(ps)) == Kappa(ps)
  {
    var qs, labels := Swapped(ps), Labels(ps);
    SwappedLabels(ps);
    MatchesFromTheRight(ps, labels);
    hide Total, Labels, Kappa, Swapped;
    TotalSwapped(ps, Agrees(), Agrees());
    forall p | p in ps ensures LeftsOf(ps, labels)(p) == RightsOf(qs, labels)((p.1, p.0)) {
      TotalSwapped(ps, IsLeft(p.1), IsRight(p.1));
    }
    TotalSwapped(ps, LeftsOf(ps, labels), RightsOf(qs, labels));
    SameKappa(ps, qs);
  }
}
