/**
 The deterministic aggregation of jury rankings (src/model_council/protocol.py).

 A label is represented by its place in the order (casefolded text, text) that
 every sort in the source falls back to, so `<` on labels is that name order.
 JSON decoding is done before a `Judgment` exists; `prose.bounded` says that the
 rationale and the two lists meet the length and shape rules.
 */
module Borda {
  import opened Wrappers
  import opened Sums

  type Label = int

  datatype Confidence = Low | Medium | High

  datatype Prose = Prose(bounded: bool, disagreements: set<string>, verification: set<string>)

  datatype Judgment = Judgment(
    winner: Option<Label>, ranking: seq<Label>, confidence: Confidence, abstain: bool, prose: Prose)

  datatype Outcome = WinnerOutcome | TieOutcome | Abstained | Invalid

  datatype Consensus = Unanimous | Divided | TieConsensus | NoConsensus

  datatype Aggregate = Aggregate(
    winner: Option<Label>, outcome: Outcome, consensus: Consensus, ranking: seq<Label>,
    points: map<Label, int>, wins: map<Label, int>, tie: bool, tied: seq<Label>,
    valid: nat, counted: nat, abstentions: nat, invalid: nat,
    disagreement: bool, disagreements: set<string>, verification: set<string>)

  predicate Distinct(xs: seq<Label>) {
    forall i, j | 0 <= i < j < |xs| :: xs[i] != xs[j]
  }

  /** The first `n` labels, in order. */
  function LabelsOf(n: nat): (r: seq<Label>)
    ensures |r| == n && forall i | 0 <= i < n :: r[i] == i
  {
    seq(n, i requires 0 <= i < n => i)
  }

  predicate ValidLabels(labels: seq<Label>) {
    labels != [] && Distinct(labels)
  }

  /** The decision fields of one judgment, as the strict validator accepts them. */
  predicate ValidDecision(labels: seq<Label>, j: Judgment) {
    if j.abstain then
      j.winner.None? && j.ranking == []
    else
      && j.winner.Some?
      && j.winner.value in labels
      && |j.ranking| == |labels|
      && (forall x | x in j.ranking :: x in labels)
      && (forall x | x in labels :: x in j.ranking)
      && |j.ranking| > 0
      && j.ranking[0] == j.winner.value
  }

  predicate ValidJudgment(labels: seq<Label>, j: Judgment) {
    ValidDecision(labels, j) && j.prose.bounded
  }

  /** Valid and not an abstention: only these judgments score. */
  predicate Counted(labels: seq<Label>, j: Judgment) {
    ValidJudgment(labels, j) && !j.abstain
  }

  // ----- Scores -----

  function IndexOf(xs: seq<Label>, x: Label): (i: nat)
    ensures i <= |xs|
    ensures i < |xs| ==> xs[i] == x
    ensures i == |xs| <==> x !in xs
    ensures forall k | 0 <= k < i :: xs[k] != x
  {
    if xs == [] then 0 else if xs[0] == x then 0 else 1 + IndexOf(xs[1..], x)
  }

  function PlacePoints(labels: seq<Label>, x: Label, j: Judgment): int {
    if Counted(labels, j) && x in j.ranking then |labels| - IndexOf(j.ranking, x) - 1 else 0
  }

  function IsFirst(labels: seq<Label>, x: Label, j: Judgment): int {
    if Counted(labels, j) && j.ranking[0] == x then 1 else 0
  }

  function IsAbove(labels: seq<Label>, x: Label, y: Label, j: Judgment): int {
    if Counted(labels, j) && IndexOf(j.ranking, x) < IndexOf(j.ranking, y) then 1 else 0
  }

  function Positional(labels: seq<Label>, x: Label): Judgment -> int {
    j => PlacePoints(labels, x, j)
  }

  function FirstPlace(labels: seq<Label>, x: Label): Judgment -> int {
    j => IsFirst(labels, x, j)
  }

  function Preference(labels: seq<Label>, x: Label, y: Label): Judgment -> int {
    j => IsAbove(labels, x, y, j)
  }

  function One(labels: seq<Label>): Judgment -> int {
    j => if Counted(labels, j) then 1 else 0
  }

  function Valid(labels: seq<Label>): Judgment -> int {
    j => if ValidJudgment(labels, j) then 1 else 0
  }

  function DisagreementsOf(p: Prose): set<string> {
    p.disagreements
  }

  function VerificationOf(p: Prose): set<string> {
    p.verification
  }

  function Points(juries: seq<Judgment>, labels: seq<Label>, x: Label): int {
    Sum(juries, Positional(labels, x))
  }

  function Wins(juries: seq<Judgment>, labels: seq<Label>, x: Label): int {
    Sum(juries, FirstPlace(labels, x))
  }

  /** How many counted judgments rank `x` above `y`. */
  function Above(juries: seq<Judgment>, labels: seq<Label>, x: Label, y: Label): int {
    Sum(juries, Preference(labels, x, y))
  }

  function CountedJudgments(juries: seq<Judgment>, labels: seq<Label>): int {
    Sum(juries, One(labels))
  }

  function ValidCount(juries: seq<Judgment>, labels: seq<Label>): int {
    Sum(juries, Valid(labels))
  }

  /** The union of what the valid judgments report in one of their lists. */
  function Reported(juries: seq<Judgment>, labels: seq<Label>, list: Prose -> set<string>): (r: set<string>)
    ensures forall t :: t in r <==> exists j :: j in juries && ValidJudgment(labels, j) && t in list(j.prose)
  {
    if juries == [] then
      {}
    else
      var last := juries[|juries| - 1];
      var front := juries[..|juries| - 1];
      assert juries == front + [last];
      Reported(front, labels, list) + if ValidJudgment(labels, last) then list(last.prose) else {}
  }

  // ----- Ordering by score, then name -----

  function At(scores: map<Label, int>, x: Label): int {
    if x in scores then scores[x] else 0
  }

  ghost predicate Covers(scores: map<Label, int>, labels: seq<Label>) {
    forall x :: x in scores <==> x in labels
  }

  predicate Precedes(points: map<Label, int>, wins: map<Label, int>, a: Label, b: Label) {
    || At(points, a) > At(points, b)
    || (At(points, a) == At(points, b)
        && (At(wins, a) > At(wins, b) || (At(wins, a) == At(wins, b) && a < b)))
  }

  predicate Ordered(points: map<Label, int>, wins: map<Label, int>, xs: seq<Label>) {
    forall i, j | 0 <= i < j < |xs| :: Precedes(points, wins, xs[i], xs[j])
  }

  function Insert(points: map<Label, int>, wins: map<Label, int>, x: Label, xs: seq<Label>): (r: seq<Label>)
    requires Ordered(points, wins, xs) && x !in xs
    ensures Ordered(points, wins, r)
    ensures multiset(r) == multiset(xs) + multiset{x}
    ensures forall y :: y in r <==> y == x || y in xs
  {
    if xs == [] then
      [x]
    else if Precedes(points, wins, x, xs[0]) then
      OrderedCons(points, wins, x, xs);
      [x] + xs
    else
      assert xs == [xs[0]] + xs[1..];
      var rest := Insert(points, wins, x, xs[1..]);
      assert forall y | y in rest :: Precedes(points, wins, xs[0], y);
      OrderedCons(points, wins, xs[0], rest);
      [xs[0]] + rest
  }

  lemma OrderedCons(points: map<Label, int>, wins: map<Label, int>, x: Label, xs: seq<Label>)
    requires Ordered(points, wins, xs)
    requires (xs != [] && Precedes(points, wins, x, xs[0])) || forall y | y in xs :: Precedes(points, wins, x, y)
    ensures Ordered(points, wins, [x] + xs)
  {
    forall i | 0 <= i < |xs| ensures Precedes(points, wins, x, xs[i]) {
      assert i > 0 ==> Precedes(points, wins, xs[0], xs[i]);
      assert xs[i] in xs;
    }
  }

  /** The built-in `sorted` with the key (-points, -wins, name). */
  function SortByScore(points: map<Label, int>, wins: map<Label, int>, xs: seq<Label>): (r: seq<Label>)
    requires Distinct(xs)
    ensures Ordered(points, wins, r)
    ensures multiset(r) == multiset(xs)
    ensures forall y :: y in r <==> y in xs
  {
    if xs == [] then
      []
    else
      assert xs == [xs[0]] + xs[1..];
      Insert(points, wins, xs[0], SortByScore(points, wins, xs[1..]))
  }

  function Keep(xs: seq<Label>, p: Label -> bool): (r: seq<Label>)
    ensures forall y :: y in r <==> y in xs && p(y)
    ensures Distinct(xs) ==> Distinct(r)
  {
    if xs == [] then
      []
    else
      assert xs == [xs[0]] + xs[1..];
      if p(xs[0]) then [xs[0]] + Keep(xs[1..], p) else Keep(xs[1..], p)
  }

  // ----- What an aggregate has to be -----

  /** No candidate has a better (points, wins) pair than `x`. */
  ghost predicate Best(points: map<Label, int>, wins: map<Label, int>, labels: seq<Label>, x: Label) {
    && x in labels
    && forall y | y in labels ::
         || At(points, y) < At(points, x)
         || (At(points, y) == At(points, x) && At(wins, y) <= At(wins, x))
  }

  ghost predicate Leads(a: Aggregate, labels: seq<Label>, x: Label) {
    Best(a.points, a.wins, labels, x)
  }

  ghost predicate RightScores(juries: seq<Judgment>, labels: seq<Label>, a: Aggregate) {
    && Covers(a.points, labels) && Covers(a.wins, labels)
    && (forall x | x in labels :: a.points[x] == Points(juries, labels, x))
    && (forall x | x in labels :: a.wins[x] == Wins(juries, labels, x))
    && a.counted == CountedJudgments(juries, labels)
    && a.valid == ValidCount(juries, labels)
    && a.abstentions == a.valid - a.counted
    && a.invalid == |juries| - a.valid
  }

  ghost predicate RightOutcome(labels: seq<Label>, a: Aggregate) {
    if a.counted == 0 then
      && a.winner == None && !a.tie && a.tied == []
      && a.outcome == (if a.valid > 0 then Abstained else Invalid)
      && a.consensus == NoConsensus
    else if a.tie then
      && a.winner == None && |a.tied| >= 2
      && Ordered(map[], map[], a.tied)
      && (forall x :: x in a.tied <==> Leads(a, labels, x))
      && a.outcome == TieOutcome && a.consensus == TieConsensus
    else
      && a.winner.Some? && a.tied == []
      && (forall x :: x == a.winner.value <==> Leads(a, labels, x))
      && a.outcome == WinnerOutcome
      && a.consensus == (if At(a.wins, a.winner.value) == a.counted then Unanimous else Divided)
  }

  ghost predicate RightReport(juries: seq<Judgment>, labels: seq<Label>, a: Aggregate) {
    && a.disagreements == Reported(juries, labels, DisagreementsOf)
    && a.verification == Reported(juries, labels, VerificationOf)
    && (a.disagreement <==>
         || a.disagreements != {}
         || a.tie
         || exists x, y :: x in labels && y in labels && x != y && At(a.wins, x) > 0 && At(a.wins, y) > 0)
  }

  ghost predicate IsAggregate(juries: seq<Judgment>, labels: seq<Label>, a: Aggregate) {
    && RightScores(juries, labels, a)
    && Ordered(a.points, a.wins, a.ranking)
    && multiset(a.ranking) == multiset(labels)
    && RightOutcome(labels, a)
    && RightReport(juries, labels, a)
  }

  // ----- The tally loop -----

  /** The shared last step: order the candidates and pick those with the best (points, wins). */
  method Rank(labels: seq<Label>, points: map<Label, int>, wins: map<Label, int>)
    returns (ordered: seq<Label>, leaders: seq<Label>)
    requires ValidLabels(labels)
    requires Covers(points, labels) && Covers(wins, labels)
    ensures Ordered(points, wins, ordered) && multiset(ordered) == multiset(labels)
    ensures Ordered(map[], map[], leaders) && leaders != []
    ensures forall x :: x in leaders <==> Best(points, wins, labels, x)
  {
    var canonical := SortByScore(map[], map[], labels);
    ordered := SortByScore(points, wins, canonical);
    assert labels[0] in ordered;
    var best := points[ordered[0]];
    var pointLeaders := Keep(ordered, x => At(points, x) == best);
    assert ordered[0] in pointLeaders;
    var bestWins := MostWins(pointLeaders, wins);
    leaders := SortByScore(map[], map[], Keep(pointLeaders, x => At(wins, x) == bestWins));
    forall x ensures x in leaders <==> Best(points, wins, labels, x) {
      BestIsTwoStage(points, wins, labels, ordered, pointLeaders, bestWins, x);
    }
  }

  method MostWins(xs: seq<Label>, wins: map<Label, int>) returns (most: int)
    requires xs != []
    ensures forall y | y in xs :: At(wins, y) <= most
    ensures exists y :: y in xs && At(wins, y) == most
  {
    most := At(wins, xs[0]);
    for i := 1 to |xs|
      invariant forall y | y in xs[..i] :: At(wins, y) <= most
      invariant exists y :: y in xs && At(wins, y) == most
    {
      assert xs[i] in xs;
      if At(wins, xs[i]) > most {
        most := At(wins, xs[i]);
      }
    }
    assert xs[..|xs|] == xs;
  }

  /** Keeping the best points first and the most wins among those is the same as being best on the pair. */
  lemma BestIsTwoStage(points: map<Label, int>, wins: map<Label, int>, labels: seq<Label>,
                       ordered: seq<Label>, pointLeaders: seq<Label>, bestWins: int, x: Label)
    requires Ordered(points, wins, ordered) && ordered != [] && forall y :: y in ordered <==> y in labels
    requires forall y :: y in pointLeaders <==> y in ordered && At(points, y) == At(points, ordered[0])
    requires forall y | y in pointLeaders :: At(wins, y) <= bestWins
    requires exists y :: y in pointLeaders && At(wins, y) == bestWins
    ensures x in pointLeaders && At(wins, x) == bestWins <==> Best(points, wins, labels, x)
  {
    forall y | y in labels ensures At(points, y) <= At(points, ordered[0]) {
      assert y in ordered;
    }
    var top :| top in pointLeaders && At(wins, top) == bestWins;
    assert top in labels;
  }

  method AggregateJuries(juries: seq<Judgment>, labels: seq<Label>) returns (r: Result<Aggregate>)
    ensures r.Ok? <==> ValidLabels(labels)
    ensures r.Ok? ==> IsAggregate(juries, labels, r.value)
  {
    if labels == [] {
      return Err("candidate_labels must not be empty");
    }
    if !Distinct(labels) {
      return Err("candidate labels must be unique");
    }
    var points, wins, valid, abstentions, invalid, disagreements, verification := Tally(juries, labels);
    var counted := valid - abstentions;
    var ordered, leaders := Rank(labels, points, wins);
    var winner, tie := None, false;
    if counted > 0 {
      if |leaders| == 1 {
        winner := Some(leaders[0]);
      } else {
        tie := true;
      }
    }
    var firsts := Keep(ordered, x => At(wins, x) > 0);
    var outcome := if counted == 0 then (if valid > 0 then Abstained else Invalid)
                   else if tie then TieOutcome else WinnerOutcome;
    var consensus := if counted == 0 then NoConsensus
                     else if tie then TieConsensus
                     else if At(wins, leaders[0]) == counted then Unanimous else Divided;
    var a := Aggregate(winner, outcome, consensus, ordered, points, wins, tie, if tie then leaders else [],
                       valid, counted, abstentions, invalid,
                       disagreements != {} || tie || |firsts| > 1, disagreements, verification);
    OrderedIsDistinct(points, wins, ordered);
    SameMembers(ordered, labels);
    FirstChoices(firsts, labels, wins);
    assert RightOutcome(labels, a);
    r := Ok(a);
  }

  /** The loop over the judgments: every counter and both score maps. */
  method Tally(juries: seq<Judgment>, labels: seq<Label>)
    returns (points: map<Label, int>, wins: map<Label, int>, valid: nat, abstentions: nat, invalid: nat,
             disagreements: set<string>, verification: set<string>)
    requires ValidLabels(labels)
    ensures Covers(points, labels) && Covers(wins, labels)
    ensures forall x | x in labels :: points[x] == Points(juries, labels, x)
    ensures forall x | x in labels :: wins[x] == Wins(juries, labels, x)
    ensures valid == ValidCount(juries, labels) && abstentions <= valid
    ensures valid - abstentions == CountedJudgments(juries, labels)
    ensures invalid == |juries| - valid
    ensures disagreements == Reported(juries, labels, DisagreementsOf)
    ensures verification == Reported(juries, labels, VerificationOf)
  {
    points := map x | x in labels :: 0;
    wins := map x | x in labels :: 0;
    abstentions, valid, invalid := 0, 0, 0;
    disagreements, verification := {}, {};
    for i := 0 to |juries|
      invariant Covers(points, labels) && Covers(wins, labels)
      invariant forall x | x in labels :: points[x] == Points(juries[..i], labels, x)
      invariant forall x | x in labels :: wins[x] == Wins(juries[..i], labels, x)
      invariant valid == ValidCount(juries[..i], labels) && abstentions <= valid
      invariant valid - abstentions == CountedJudgments(juries[..i], labels)
      invariant invalid == i - valid
      invariant disagreements == Reported(juries[..i], labels, DisagreementsOf)
      invariant verification == Reported(juries[..i], labels, VerificationOf)
    {
      var j := juries[i];
      TallyStep(juries, labels, i);
      assert juries[..i + 1][..i] == juries[..i];
      if !ValidJudgment(labels, j) {
        invalid := invalid + 1;
        continue;
      }
      valid := valid + 1;
      disagreements := disagreements + j.prose.disagreements;
      verification := verification + j.prose.verification;
      if j.abstain {
        abstentions := abstentions + 1;
        continue;
      }
      points, wins := AddBallot(points, wins, j, labels);
    }
    assert juries[..|juries|] == juries;
  }

  /** One ballot scored: the candidate at place k gains |labels| - k - 1 points, the first one a win. */
  method AddBallot(points: map<Label, int>, wins: map<Label, int>, j: Judgment, labels: seq<Label>)
    returns (points': map<Label, int>, wins': map<Label, int>)
    requires ValidLabels(labels) && Counted(labels, j)
    requires Covers(points, labels) && Covers(wins, labels)
    ensures Covers(points', labels) && Covers(wins', labels)
    ensures forall x | x in labels :: points'[x] == points[x] + Positional(labels, x)(j)
    ensures forall x | x in labels :: wins'[x] == wins[x] + FirstPlace(labels, x)(j)
  {
    var ranking := j.ranking;
    RankingIsPermutation(labels, j);
    points' := points;
    for index := 0 to |ranking|
      invariant Covers(points', labels)
      invariant forall x | x in labels ::
        points'[x] == points[x] + if IndexOf(ranking, x) < index then |labels| - IndexOf(ranking, x) - 1 else 0
    {
      IndexOfDistinct(ranking, index);
      assert ranking[index] in ranking;
      points' := points'[ranking[index] := points'[ranking[index]] + |labels| - index - 1];
    }
    assert ranking[0] in ranking;
    wins' := wins[ranking[0] := wins[ranking[0]] + 1];
  }

  lemma IndexOfDistinct(xs: seq<Label>, k: nat)
    requires Distinct(xs) && k < |xs|
    ensures IndexOf(xs, xs[k]) == k
    ensures forall x :: IndexOf(xs, x) == k ==> x == xs[k]
  {
  }

  /** A full-length ranking of a set of distinct labels names each of them once. */
  lemma RankingIsPermutation(labels: seq<Label>, j: Judgment)
    requires Distinct(labels) && Counted(labels, j)
    ensures Distinct(j.ranking) && multiset(j.ranking) == multiset(labels)
    ensures forall x :: x in j.ranking <==> x in labels
  {
    Pigeonhole(labels, j.ranking);
  }

  /** A listing of all of `xs` that is no longer than `xs` repeats nothing. */
  lemma {:induction false} Pigeonhole(xs: seq<Label>, ys: seq<Label>)
    requires Distinct(xs) && |ys| <= |xs|
    requires forall x | x in xs :: x in ys
    ensures multiset(xs) == multiset(ys) && Distinct(ys)
  {
    if xs == [] {
    } else {
      var x := xs[0];
      var k := IndexOf(ys, x);
      var front, back := ys[..k], ys[k + 1..];
      assert ys == front + [x] + back;
      forall y | y in xs[1..] ensures y in front + back && y != x {
        var i :| 0 <= i < |xs[1..]| && xs[1..][i] == y;
        assert xs[i + 1] == y && y != x;
        assert y in ys;
      }
      Pigeonhole(xs[1..], front + back);
      assert xs == [x] + xs[1..];
      assert x !in xs[1..];
      DistinctInsert(front, x, back);
    }
  }

  lemma DistinctInsert(front: seq<Label>, x: Label, back: seq<Label>)
    requires Distinct(front + back) && x !in multiset(front + back)
    ensures Distinct(front + [x] + back)
    ensures multiset(front + [x] + back) == multiset(front + back) + multiset{x}
  {
    var whole, rest := front + [x] + back, front + back;
    forall i, j | 0 <= i < j < |whole| ensures whole[i] != whole[j] {
      var i', j' := if i < |front| then i else i - 1, if j < |front| then j else j - 1;
      assert i != |front| ==> whole[i] == rest[i'];
      assert j != |front| ==> whole[j] == rest[j'];
    }
  }

  lemma TallyStep(juries: seq<Judgment>, labels: seq<Label>, i: nat)
    requires i < |juries|
    ensures forall x | x in labels ::
      Points(juries[..i + 1], labels, x) == Points(juries[..i], labels, x) + Positional(labels, x)(juries[i])
    ensures forall x | x in labels ::
      Wins(juries[..i + 1], labels, x) == Wins(juries[..i], labels, x) + FirstPlace(labels, x)(juries[i])
    ensures CountedJudgments(juries[..i + 1], labels)
            == CountedJudgments(juries[..i], labels) + One(labels)(juries[i])
    ensures ValidCount(juries[..i + 1], labels) == ValidCount(juries[..i], labels) + Valid(labels)(juries[i])
  {
    forall x | x in labels
      ensures Points(juries[..i + 1], labels, x) == Points(juries[..i], labels, x) + Positional(labels, x)(juries[i])
      ensures Wins(juries[..i + 1], labels, x) == Wins(juries[..i], labels, x) + FirstPlace(labels, x)(juries[i])
    {
      SumPrefix(juries, i, Positional(labels, x));
      SumPrefix(juries, i, FirstPlace(labels, x));
    }
    SumPrefix(juries, i, One(labels));
    SumPrefix(juries, i, Valid(labels));
  }

  lemma OrderedIsDistinct(points: map<Label, int>, wins: map<Label, int>, xs: seq<Label>)
    requires Ordered(points, wins, xs)
    ensures Distinct(xs)
  {
    forall i, j | 0 <= i < j < |xs| ensures xs[i] != xs[j] {
      assert Precedes(points, wins, xs[i], xs[j]);
    }
  }

  lemma SameMembers(xs: seq<Label>, ys: seq<Label>)
    requires multiset(xs) == multiset(ys)
    ensures |xs| == |ys|
    ensures forall x :: x in xs <==> x in ys
  {
    assert |multiset(xs)| == |xs| && |multiset(ys)| == |ys|;
    forall x ensures x in xs <==> x in ys {
      assert x in multiset(xs) <==> x in multiset(ys);
    }
  }

  lemma FirstChoices(firsts: seq<Label>, labels: seq<Label>, wins: map<Label, int>)
    requires Distinct(firsts)
    requires forall x :: x in firsts <==> x in labels && At(wins, x) > 0
    ensures |firsts| > 1 <==>
      exists x, y :: x in labels && y in labels && x != y && At(wins, x) > 0 && At(wins, y) > 0
  {
    if |firsts| > 1 {
      assert firsts[0] in firsts && firsts[1] in firsts;
    }
  }
}
