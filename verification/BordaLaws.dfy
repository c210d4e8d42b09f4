/** Social-choice theorems about the aggregate, for any judgments and any number of candidates. */
module BordaLaws {
  import opened Wrappers
  import opened Sums
  import opened Borda

  // ----- Double counting -----

  function Scores(juries: seq<Judgment>, labels: seq<Label>): Label -> int {
    x => Points(juries, labels, x)
  }

  function FirstPlaces(juries: seq<Judgment>, labels: seq<Label>): Label -> int {
    x => Wins(juries, labels, x)
  }

  /** For a fixed `x`: by how many counted judgments `x` is placed above each other candidate. */
  function Victories(juries: seq<Judgment>, labels: seq<Label>, x: Label): Label -> int {
    y => Above(juries, labels, x, y)
  }

  function Below(b: seq<Label>, x: Label): Label -> int {
    y => if IndexOf(b, x) < IndexOf(b, y) then 1 else 0
  }

  function Places(b: seq<Label>): Label -> int {
    x => |b| - IndexOf(b, x) - 1
  }

  /** 0 + 1 + ... + (n - 1), the points one ballot over n candidates hands out. */
  function Triangle(n: nat): (t: nat)
    ensures 2 * t == n * (n - 1)
  {
    if n == 0 then 0 else n - 1 + Triangle(n - 1)
  }

  /** Within one ranking, the places below `x` are the candidates `x` is preferred to. */
  lemma {:induction false} BelowSuffix(b: seq<Label>, x: Label, k: nat)
    requires Distinct(b) && k <= |b| && x in b
    ensures Sum(b[k..], Below(b, x)) == if k <= IndexOf(b, x) then |b| - IndexOf(b, x) - 1 else |b| - k
    decreases |b| - k
  {
    if k < |b| {
      BelowSuffix(b, x, k + 1);
      IndexOfDistinct(b, k);
      assert b[k..][0] == b[k] && b[k..][1..] == b[k + 1..];
    }
  }

  lemma {:induction false} PlacesSuffix(b: seq<Label>, k: nat)
    requires Distinct(b) && k <= |b|
    ensures Sum(b[k..], Places(b)) == Triangle(|b| - k)
    decreases |b| - k
  {
    if k < |b| {
      PlacesSuffix(b, k + 1);
      IndexOfDistinct(b, k);
      assert b[k..][0] == b[k] && b[k..][1..] == b[k + 1..];
    }
  }

  /** Points are pairwise victories: points[x] is the sum over y of the ballots placing x above y. */
  lemma PairwisePoints(juries: seq<Judgment>, labels: seq<Label>, x: Label)
    requires ValidLabels(labels) && x in labels
    ensures Points(juries, labels, x) == Sum(labels, Victories(juries, labels, x))
  {
    var f := (j: Judgment, y: Label) => IsAbove(labels, x, y, j);
    forall j | j in juries ensures Positional(labels, x)(j) == Sum(labels, Row(f, j)) {
      if Counted(labels, j) {
        RankingIsPermutation(labels, j);
        SumPermutation(labels, j.ranking, Row(f, j));
        BelowSuffix(j.ranking, x, 0);
        assert j.ranking[0..] == j.ranking;
        forall y ensures Row(f, j)(y) == Below(j.ranking, x)(y) {
        }
        SumCongruence(j.ranking, Row(f, j), Below(j.ranking, x));
      } else {
        SumZero(labels, Row(f, j));
      }
    }
    forall y | y in labels ensures Victories(juries, labels, x)(y) == Sum(juries, Column(f, y)) {
      SumCongruence(juries, Column(f, y), Preference(labels, x, y));
    }
    SumExchange(juries, labels, f, Positional(labels, x), Victories(juries, labels, x));
  }

  lemma TotalPoints(juries: seq<Judgment>, labels: seq<Label>)
    requires ValidLabels(labels)
    ensures Sum(labels, Scores(juries, labels)) == CountedJudgments(juries, labels) * Triangle(|labels|)
  {
    var f := (x: Label, j: Judgment) => PlacePoints(labels, x, j);
    var t := Triangle(|labels|);
    var perJury := (j: Judgment) => if Counted(labels, j) then t else 0;
    forall j | j in juries ensures perJury(j) == Sum(labels, Column(f, j)) {
      if Counted(labels, j) {
        RankingIsPermutation(labels, j);
        SumPermutation(labels, j.ranking, Column(f, j));
        PlacesSuffix(j.ranking, 0);
        assert j.ranking[0..] == j.ranking;
        forall x | x in j.ranking ensures Column(f, j)(x) == Places(j.ranking)(x) {
        }
        SumCongruence(j.ranking, Column(f, j), Places(j.ranking));
      } else {
        SumZero(labels, Column(f, j));
      }
    }
    forall x | x in labels ensures Scores(juries, labels)(x) == Sum(juries, Row(f, x)) {
      SumCongruence(juries, Row(f, x), Positional(labels, x));
    }
    SumExchange(labels, juries, f, Scores(juries, labels), perJury);
    SumOfConstantWhenCounted(juries, labels, perJury, t);
  }

  lemma {:induction false} SumOfConstantWhenCounted(juries: seq<Judgment>, labels: seq<Label>, f: Judgment -> int, t: int)
    requires forall j | j in juries :: f(j) == if Counted(labels, j) then t else 0
    ensures Sum(juries, f) == CountedJudgments(juries, labels) * t
  {
    if juries != [] {
      assert f(juries[0]) == if Counted(labels, juries[0]) then t else 0;
      SumOfConstantWhenCounted(juries[1..], labels, f, t);
      var rest := CountedJudgments(juries[1..], labels);
      assert (rest + 1) * t == rest * t + t;
    }
  }

  lemma TotalWins(juries: seq<Judgment>, labels: seq<Label>)
    requires ValidLabels(labels)
    ensures Sum(labels, FirstPlaces(juries, labels)) == CountedJudgments(juries, labels)
  {
    var f := (x: Label, j: Judgment) => IsFirst(labels, x, j);
    forall x | x in labels ensures FirstPlaces(juries, labels)(x) == Sum(juries, Row(f, x)) {
      SumCongruence(juries, Row(f, x), FirstPlace(labels, x));
    }
    forall j | j in juries ensures One(labels)(j) == Sum(labels, Column(f, j)) {
      if Counted(labels, j) {
        assert j.ranking[0] in j.ranking;
        SumSingle(labels, j.ranking[0], Column(f, j));
      } else {
        SumZero(labels, Column(f, j));
      }
    }
    SumExchange(labels, juries, f, FirstPlaces(juries, labels), One(labels));
  }

  // ----- Condorcet -----

  /** `x` loses every head-to-head comparison to a strict majority of the counted ballots. */
  ghost predicate CondorcetLoser(juries: seq<Judgment>, labels: seq<Label>, x: Label) {
    x in labels && forall y | y in labels && y != x ::
      2 * Above(juries, labels, x, y) < CountedJudgments(juries, labels)
  }

  ghost predicate CondorcetWinner(juries: seq<Judgment>, labels: seq<Label>, x: Label) {
    x in labels && forall y | y in labels && y != x ::
      2 * Above(juries, labels, x, y) > CountedJudgments(juries, labels)
  }

  /** The sum of twice the victories of `x`, against c for every rival and 0 for itself. */
  lemma VictoriesVersusHalf(juries: seq<Judgment>, labels: seq<Label>, x: Label, c: int)
    requires ValidLabels(labels) && |labels| >= 2 && x in labels
    ensures (forall y | y in labels && y != x :: 2 * Above(juries, labels, x, y) < c) ==>
      2 * Points(juries, labels, x) < (|labels| - 1) * c
    ensures (forall y | y in labels && y != x :: 2 * Above(juries, labels, x, y) > c) ==>
      2 * Points(juries, labels, x) > (|labels| - 1) * c
  {
    var twice := (y: Label) => 2 * Above(juries, labels, x, y);
    var rivals := (y: Label) => if y == x then 0 else c;
    PairwisePoints(juries, labels, x);
    SumPlus(labels, Victories(juries, labels, x), Victories(juries, labels, x), twice);
    RivalTotal(labels, x, c, rivals);
    SumZero(juries, Preference(labels, x, x));
    var other := if labels[0] == x then labels[1] else labels[0];
    assert other in labels && other != x;
    if forall y | y in labels && y != x :: 2 * Above(juries, labels, x, y) < c {
      SumMonotone(labels, twice, rivals);
      assert twice(other) < rivals(other);
    }
    if forall y | y in labels && y != x :: 2 * Above(juries, labels, x, y) > c {
      SumMonotone(labels, rivals, twice);
      assert rivals(other) < twice(other);
    }
  }

  lemma RivalTotal(labels: seq<Label>, x: Label, c: int, rivals: Label -> int)
    requires ValidLabels(labels) && x in labels
    requires forall y | y in labels :: rivals(y) == if y == x then 0 else c
    ensures Sum(labels, rivals) == (|labels| - 1) * c
  {
    var self := (y: Label) => if y == x then c else 0;
    var all := (y: Label) => c;
    SumPlus(labels, rivals, self, all);
    SumSingle(labels, x, self);
    SumConstant(labels, all, c);
  }

  /** Whoever is at or above every score is at or above the mean counted * (n - 1) / 2, and dually. */
  lemma VersusMean(juries: seq<Judgment>, labels: seq<Label>, x: Label)
    requires ValidLabels(labels)
    ensures (forall y | y in labels :: Points(juries, labels, y) <= Points(juries, labels, x)) ==>
      2 * Points(juries, labels, x) >= (|labels| - 1) * CountedJudgments(juries, labels)
    ensures (forall y | y in labels :: Points(juries, labels, y) >= Points(juries, labels, x)) ==>
      2 * Points(juries, labels, x) <= (|labels| - 1) * CountedJudgments(juries, labels)
  {
    var p, c := Points(juries, labels, x), CountedJudgments(juries, labels);
    var flat := (y: Label) => p;
    SumConstant(labels, flat, p);
    TotalPoints(juries, labels);
    if forall y | y in labels :: Points(juries, labels, y) <= p {
      SumMonotone(labels, Scores(juries, labels), flat);
    }
    if forall y | y in labels :: Points(juries, labels, y) >= p {
      SumMonotone(labels, flat, Scores(juries, labels));
    }
    MeanArithmetic(|labels|, c, p);
  }

  lemma MeanArithmetic(n: nat, c: int, p: int)
    requires n > 0
    ensures c * Triangle(n) <= n * p ==> (n - 1) * c <= 2 * p
    ensures n * p <= c * Triangle(n) ==> 2 * p <= (n - 1) * c
  {
    var t := Triangle(n);
    calc {
      2 * (c * t);
      c * (2 * t);
      c * (n * (n - 1));
      n * ((n - 1) * c);
    }
    assert 2 * (n * p) == n * (2 * p);
    Strict(n, (n - 1) * c, 2 * p);
    Strict(n, 2 * p, (n - 1) * c);
  }

  lemma Strict(n: nat, a: int, b: int)
    requires n > 0
    ensures a > b ==> n * a > n * b
  {
    if a > b {
      assert n * (a - b) > 0;
    }
  }

  /** A Borda winner, or a member of a Borda tie, is never a Condorcet loser. */
  lemma CondorcetLoserNeverLeads(juries: seq<Judgment>, labels: seq<Label>, a: Aggregate, x: Label)
    requires ValidLabels(labels) && |labels| >= 2 && IsAggregate(juries, labels, a)
    requires CondorcetLoser(juries, labels, x)
    ensures a.winner != Some(x) && x !in a.tied
  {
    if Leads(a, labels, x) {
      forall y | y in labels ensures Points(juries, labels, y) <= Points(juries, labels, x) {
        assert At(a.points, y) <= At(a.points, x);
      }
      VersusMean(juries, labels, x);
      VictoriesVersusHalf(juries, labels, x, CountedJudgments(juries, labels));
    }
  }

  /** With a single candidate nobody beats it, so it is its own Condorcet loser, and wins: the only exception there is. */
  lemma CondorcetLoserLeadsExactly(juries: seq<Judgment>, labels: seq<Label>, a: Aggregate, x: Label)
    requires ValidLabels(labels) && IsAggregate(juries, labels, a) && CondorcetLoser(juries, labels, x)
    ensures a.winner == Some(x) || x in a.tied <==> |labels| == 1 && a.counted > 0
  {
    if |labels| >= 2 {
      CondorcetLoserNeverLeads(juries, labels, a, x);
    } else {
      assert labels == [x];
      assert Leads(a, labels, x);
      if a.tie && a.counted > 0 {
        assert a.tied[0] in a.tied && a.tied[1] in a.tied;
        OrderedIsDistinct(map[], map[], a.tied);
      }
    }
  }

  lemma CondorcetWinnerNeverLast(juries: seq<Judgment>, labels: seq<Label>, a: Aggregate, x: Label)
    requires ValidLabels(labels) && |labels| >= 2 && IsAggregate(juries, labels, a)
    requires CondorcetWinner(juries, labels, x)
    ensures |a.ranking| == |labels| && a.ranking[|a.ranking| - 1] != x
  {
    SameMembers(a.ranking, labels);
    var last := |a.ranking| - 1;
    if a.ranking[last] == x {
      forall y | y in labels ensures Points(juries, labels, y) >= Points(juries, labels, x) {
        var i :| 0 <= i < |a.ranking| && a.ranking[i] == y;
        assert i < last ==> Precedes(a.points, a.wins, a.ranking[i], a.ranking[last]);
      }
      VersusMean(juries, labels, x);
      VictoriesVersusHalf(juries, labels, x, CountedJudgments(juries, labels));
    }
  }

  // ----- The order of the report -----

  /** There is only one way to sort a given set of candidates. */
  lemma {:induction false} OrderedUnique(points: map<Label, int>, wins: map<Label, int>, xs: seq<Label>, ys: seq<Label>)
    requires Ordered(points, wins, xs) && Ordered(points, wins, ys)
    requires forall x :: x in xs <==> x in ys
    ensures xs == ys
  {
    assert ys != [] ==> ys[0] in ys;
    if xs != [] {
      assert xs[0] in xs && xs[0] in ys;
      assert ys[0] in ys && ys[0] in xs;
      assert xs[0] == ys[0];
      forall x ensures x in xs[1..] <==> x in ys[1..] {
        OrderedIsDistinct(points, wins, xs);
        OrderedIsDistinct(points, wins, ys);
        assert x in xs[1..] <==> x in xs && x != xs[0] by { assert xs == [xs[0]] + xs[1..]; }
        assert x in ys[1..] <==> x in ys && x != ys[0] by { assert ys == [ys[0]] + ys[1..]; }
      }
      OrderedUnique(points, wins, xs[1..], ys[1..]);
    }
  }

  lemma LeadsUpward(labels: seq<Label>, a: Aggregate, x: Label, y: Label)
    requires x in labels && Precedes(a.points, a.wins, x, y)
    ensures Leads(a, labels, y) ==> Leads(a, labels, x)
  {
  }

  /** The leaders stand at the head of the ranking, in name order, and nobody else does. */
  lemma LeadersArePrefix(labels: seq<Label>, a: Aggregate, leaders: seq<Label>)
    requires Ordered(a.points, a.wins, a.ranking) && multiset(a.ranking) == multiset(labels)
    requires Ordered(map[], map[], leaders)
    requires forall x :: x in leaders <==> Leads(a, labels, x)
    ensures |leaders| <= |a.ranking| && a.ranking[..|leaders|] == leaders
  {
    SameMembers(a.ranking, labels);
    var i := 0;
    while i < |a.ranking| && Leads(a, labels, a.ranking[i])
      invariant i <= |a.ranking|
      invariant forall k | 0 <= k < i :: Leads(a, labels, a.ranking[k])
    {
      i := i + 1;
    }
    var head := a.ranking[..i];
    forall k | i <= k < |a.ranking| ensures !Leads(a, labels, a.ranking[k]) {
      assert a.ranking[i] in a.ranking;
      if k > i {
        LeadsUpward(labels, a, a.ranking[i], a.ranking[k]);
      }
    }
    forall x ensures x in head <==> x in leaders {
      if x in leaders {
        assert x in a.ranking;
        var k :| 0 <= k < |a.ranking| && a.ranking[k] == x;
        assert head[k] == x;
      }
    }
    forall p, q | 0 <= p < q < |leaders| ensures Precedes(a.points, a.wins, leaders[p], leaders[q]) {
      assert leaders[p] in leaders && leaders[q] in leaders;
      assert Precedes(map[], map[], leaders[p], leaders[q]);
    }
    OrderedUnique(a.points, a.wins, head, leaders);
  }

  lemma TiedIsPrefixOfRanking(juries: seq<Judgment>, labels: seq<Label>, a: Aggregate)
    requires ValidLabels(labels) && IsAggregate(juries, labels, a)
    ensures |a.tied| <= |a.ranking| && a.ranking[..|a.tied|] == a.tied
    ensures a.winner.Some? ==> a.ranking != [] && a.ranking[0] == a.winner.value
  {
    if a.tie {
      LeadersArePrefix(labels, a, a.tied);
    } else if a.winner.Some? {
      var w := a.winner.value;
      assert forall x :: x in [w] <==> x == w;
      LeadersArePrefix(labels, a, [w]);
      assert a.ranking[..1][0] == w;
    }
  }

  // ----- Independence of the listing order -----

  lemma SameCounted(l1: seq<Label>, l2: seq<Label>, j: Judgment)
    requires multiset(l1) == multiset(l2)
    ensures Counted(l1, j) == Counted(l2, j) && ValidJudgment(l1, j) == ValidJudgment(l2, j)
    ensures One(l1)(j) == One(l2)(j) && Valid(l1)(j) == Valid(l2)(j)
    ensures forall x :: PlacePoints(l1, x, j) == PlacePoints(l2, x, j) && IsFirst(l1, x, j) == IsFirst(l2, x, j)
  {
    SameMembers(l1, l2);
  }

  lemma SameScores(j1: seq<Judgment>, j2: seq<Judgment>, l1: seq<Label>, l2: seq<Label>)
    requires multiset(j1) == multiset(j2) && multiset(l1) == multiset(l2)
    ensures forall x :: Points(j1, l1, x) == Points(j2, l2, x) && Wins(j1, l1, x) == Wins(j2, l2, x)
    ensures CountedJudgments(j1, l1) == CountedJudgments(j2, l2) && ValidCount(j1, l1) == ValidCount(j2, l2)
  {
    forall j | j in j1
      ensures One(l1)(j) == One(l2)(j) && Valid(l1)(j) == Valid(l2)(j)
      ensures forall x :: PlacePoints(l1, x, j) == PlacePoints(l2, x, j) && IsFirst(l1, x, j) == IsFirst(l2, x, j)
    {
      SameCounted(l1, l2, j);
    }
    forall x ensures Points(j1, l1, x) == Points(j2, l2, x) && Wins(j1, l1, x) == Wins(j2, l2, x) {
      SumCongruence(j1, Positional(l1, x), Positional(l2, x));
      SumPermutation(j1, j2, Positional(l2, x));
      SumCongruence(j1, FirstPlace(l1, x), FirstPlace(l2, x));
      SumPermutation(j1, j2, FirstPlace(l2, x));
    }
    SumCongruence(j1, One(l1), One(l2));
    SumPermutation(j1, j2, One(l2));
    SumCongruence(j1, Valid(l1), Valid(l2));
    SumPermutation(j1, j2, Valid(l2));
  }

  lemma SameReported(j1: seq<Judgment>, j2: seq<Judgment>, l1: seq<Label>, l2: seq<Label>, list: Prose -> set<string>)
    requires multiset(j1) == multiset(j2) && multiset(l1) == multiset(l2)
    ensures Reported(j1, l1, list) == Reported(j2, l2, list)
  {
    forall t ensures t in Reported(j1, l1, list) <==> t in Reported(j2, l2, list) {
      forall j ensures j in j1 && ValidJudgment(l1, j) <==> j in j2 && ValidJudgment(l2, j) {
        assert j in multiset(j1) <==> j in multiset(j2);
        SameCounted(l1, l2, j);
      }
    }
  }

  lemma SameMap(l1: seq<Label>, m1: map<Label, int>, l2: seq<Label>, m2: map<Label, int>)
    requires Covers(m1, l1) && Covers(m2, l2)
    requires forall x :: x in l1 <==> x in l2
    requires forall x | x in l1 && x in l2 :: m1[x] == m2[x]
    ensures m1 == m2
  {
    forall x ensures (x in m1 <==> x in m2) && (x in m1 && x in m2 ==> m1[x] == m2[x]) {
      assert x in l1 <==> x in l2;
    }
    assert m1.Keys == m2.Keys;
  }

  /** The aggregate depends only on which judgments and candidates there are, not on any listing order. */
  lemma AggregateIgnoresOrder(j1: seq<Judgment>, l1: seq<Label>, a1: Aggregate,
                              j2: seq<Judgment>, l2: seq<Label>, a2: Aggregate)
    requires IsAggregate(j1, l1, a1) && IsAggregate(j2, l2, a2)
    requires multiset(j1) == multiset(j2) && multiset(l1) == multiset(l2)
    ensures a1 == a2
  {
    SameMembers(l1, l2);
    SameScores(j1, j2, l1, l2);
    assert |j1| == |j2| by { assert |multiset(j1)| == |j1| && |multiset(j2)| == |j2|; }
    SameMap(l1, a1.points, l2, a2.points);
    SameMap(l1, a1.wins, l2, a2.wins);
    SameMembers(a1.ranking, l1);
    SameMembers(a2.ranking, l2);
    OrderedUnique(a1.points, a1.wins, a1.ranking, a2.ranking);
    SameReported(j1, j2, l1, l2, DisagreementsOf);
    SameReported(j1, j2, l1, l2, VerificationOf);
    SameLeaders(l1, a1, l2, a2);
  }

  lemma SameLeaders(l1: seq<Label>, a1: Aggregate, l2: seq<Label>, a2: Aggregate)
    requires RightOutcome(l1, a1) && RightOutcome(l2, a2)
    requires a1.points == a2.points && a1.wins == a2.wins && a1.counted == a2.counted && a1.valid == a2.valid
    requires forall x :: x in l1 <==> x in l2
    ensures a1.winner == a2.winner && a1.tie == a2.tie && a1.tied == a2.tied
    ensures a1.outcome == a2.outcome && a1.consensus == a2.consensus
  {
    assert forall x :: Leads(a1, l1, x) <==> Leads(a2, l2, x);
    if a1.counted != 0 {
      TieExactly(l1, a1);
      TieExactly(l2, a2);
      if a1.tie {
        OrderedUnique(map[], map[], a1.tied, a2.tied);
      } else {
        assert Leads(a1, l1, a1.winner.value);
      }
    }
  }

  /** A tie is reported exactly when two candidates share the best (points, wins) pair. */
  lemma TieExactly(labels: seq<Label>, a: Aggregate)
    requires RightOutcome(labels, a) && a.counted != 0
    ensures a.tie <==> exists x, y :: x != y && Leads(a, labels, x) && Leads(a, labels, y)
  {
    if a.tie {
      var x, y := a.tied[0], a.tied[1];
      assert x in a.tied && y in a.tied && Precedes(map[], map[], x, y);
    }
  }

  // ----- Pareto, unanimity, monotonicity -----

  lemma CountedExists(juries: seq<Judgment>, labels: seq<Label>)
    requires CountedJudgments(juries, labels) > 0
    ensures exists j :: j in juries && Counted(labels, j)
  {
    if forall j | j in juries :: !Counted(labels, j) {
      SumZero(juries, One(labels));
    }
  }

  /** If every counted ballot puts `y` above `x`, then `y` has strictly more points. */
  lemma AlwaysAboveScoresMore(juries: seq<Judgment>, labels: seq<Label>, x: Label, y: Label)
    requires ValidLabels(labels) && x in labels && y in labels
    requires forall j | j in juries && Counted(labels, j) :: IndexOf(j.ranking, y) < IndexOf(j.ranking, x)
    requires CountedJudgments(juries, labels) > 0
    ensures Points(juries, labels, x) < Points(juries, labels, y)
  {
    forall j | j in juries && Counted(labels, j)
      ensures PlacePoints(labels, x, j) < PlacePoints(labels, y, j)
    {
      RankingIsPermutation(labels, j);
    }
    CountedExists(juries, labels);
    SumMonotone(juries, Positional(labels, x), Positional(labels, y));
    var j :| j in juries && Counted(labels, j);
    assert Positional(labels, x)(j) < Positional(labels, y)(j);
  }

  /** A candidate beaten by the same rival on every ballot is never winner or tied. */
  lemma DominatedNeverLeads(juries: seq<Judgment>, labels: seq<Label>, a: Aggregate, x: Label, y: Label)
    requires ValidLabels(labels) && IsAggregate(juries, labels, a) && x in labels && y in labels
    requires forall j | j in juries && Counted(labels, j) :: IndexOf(j.ranking, y) < IndexOf(j.ranking, x)
    ensures a.winner != Some(x) && x !in a.tied
  {
    if a.counted > 0 {
      AlwaysAboveScoresMore(juries, labels, x, y);
      assert At(a.points, x) < At(a.points, y);
      assert !Leads(a, labels, x);
    }
  }

  ghost predicate AllShareTop(juries: seq<Judgment>, labels: seq<Label>, t: Label) {
    forall j | j in juries && Counted(labels, j) :: j.ranking[0] == t
  }

  lemma AllFirst(juries: seq<Judgment>, labels: seq<Label>, t: Label)
    ensures Wins(juries, labels, t) == CountedJudgments(juries, labels) <==> AllShareTop(juries, labels, t)
  {
    SumMonotone(juries, FirstPlace(labels, t), One(labels));
    if AllShareTop(juries, labels, t) {
      SumCongruence(juries, FirstPlace(labels, t), One(labels));
    } else {
      var j :| j in juries && Counted(labels, j) && j.ranking[0] != t;
      assert FirstPlace(labels, t)(j) < One(labels)(j);
    }
  }

  lemma UnanimousExactly(juries: seq<Judgment>, labels: seq<Label>, a: Aggregate)
    requires ValidLabels(labels) && IsAggregate(juries, labels, a)
    ensures a.consensus == Unanimous <==>
      a.counted > 0 && exists t :: t in labels && AllShareTop(juries, labels, t)
  {
    if a.consensus == Unanimous {
      assert Leads(a, labels, a.winner.value);
      AllFirst(juries, labels, a.winner.value);
    }
    if a.counted > 0 && exists t :: t in labels && AllShareTop(juries, labels, t) {
      var t :| t in labels && AllShareTop(juries, labels, t);
      forall y | y in labels && y != t ensures At(a.points, y) < At(a.points, t) {
        forall j | j in juries && Counted(labels, j) ensures IndexOf(j.ranking, t) < IndexOf(j.ranking, y) {
          assert j.ranking[0] == t;
        }
        AlwaysAboveScoresMore(juries, labels, y, t);
      }
      AllFirst(juries, labels, t);
      assert Leads(a, labels, t);
      TieExactly(labels, a);
    }
  }

  /** Exchange places k - 1 and k. */
  function MovedUp(b: seq<Label>, k: nat): seq<Label>
    requires 0 < k < |b|
  {
    b[k - 1 := b[k]][k := b[k - 1]]
  }

  lemma MovedUpIndex(b: seq<Label>, k: nat, x: Label)
    requires Distinct(b) && 0 < k < |b| && x in b
    ensures Distinct(MovedUp(b, k)) && (forall y :: y in MovedUp(b, k) <==> y in b)
    ensures IndexOf(MovedUp(b, k), x) == if x == b[k] then k - 1 else if x == b[k - 1] then k else IndexOf(b, x)
  {
    var c := MovedUp(b, k);
    forall y ensures y in c <==> y in b {
      if y in b {
        var i := IndexOf(b, y);
        assert c[if i == k then k - 1 else if i == k - 1 then k else i] == y;
      }
    }
    var i := IndexOf(b, x);
    var i' := if x == b[k] then k - 1 else if x == b[k - 1] then k else i;
    assert c[i'] == x;
    MovedUpDistinct(b, k);
    IndexOfDistinct(c, i');
  }

  lemma MovedUpDistinct(b: seq<Label>, k: nat)
    requires Distinct(b) && 0 < k < |b|
    ensures Distinct(MovedUp(b, k))
  {
  }

  /** Moving the winner up one place in one ballot keeps it the winner. */
  lemma RaisingTheWinner(juries: seq<Judgment>, labels: seq<Label>, a: Aggregate, i: nat, k: nat, raised: Judgment, b: Aggregate)
    requires ValidLabels(labels) && IsAggregate(juries, labels, a) && a.winner.Some?
    requires i < |juries| && Counted(labels, juries[i])
    requires 0 < k < |juries[i].ranking| && juries[i].ranking[k] == a.winner.value
    requires raised == juries[i].(ranking := MovedUp(juries[i].ranking, k),
                                  winner := Some(MovedUp(juries[i].ranking, k)[0]))
    requires IsAggregate(juries[i := raised], labels, b)
    ensures b.winner == a.winner
  {
    var w, j := a.winner.value, juries[i];
    RankingIsPermutation(labels, j);
    MovedUpIndex(j.ranking, k, w);
    assert Counted(labels, raised);
    assert Leads(a, labels, w);
    SumUpdate(juries, i, raised, Positional(labels, w));
    SumUpdate(juries, i, raised, One(labels));
    assert Points(juries[i := raised], labels, w) == Points(juries, labels, w) + 1;
    forall y | y in labels && y != w ensures At(b.points, y) < At(b.points, w) {
      MovedUpIndex(j.ranking, k, y);
      IndexOfDistinct(j.ranking, k - 1);
      SumUpdate(juries, i, raised, Positional(labels, y));
      assert At(a.points, y) <= At(a.points, w);
    }
    assert Leads(b, labels, w);
    TieExactly(labels, b);
  }
}
