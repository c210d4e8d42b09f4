/** The second tally, in which no juror scores the candidate it wrote itself. */
module SelfVotes {
  import opened Wrappers
  import opened Sums
  import opened Borda

  datatype Vote = Vote(juror: Label, judgment: Judgment)

  datatype Exclusion = Exclusion(
    winner: Option<Label>, tie: bool, tied: seq<Label>, ranking: seq<Label>,
    points: map<Label, int>, wins: map<Label, int>, counted: nat)

  function NotSelf(labels: seq<Label>, juror: Label): Label -> bool {
    l => l in labels && l != juror
  }

  /** The ranking of one vote without the juror's own candidate. */
  function Others(labels: seq<Label>, v: Vote): seq<Label> {
    if v.judgment.abstain then [] else Keep(v.judgment.ranking, NotSelf(labels, v.juror))
  }

  /** Place k of a list of n earns n - k - 1; a repeated label earns each of its places. */
  function PlaceSum(r: seq<Label>, x: Label): int {
    if r == [] then 0 else (if r[0] == x then |r| - 1 else 0) + PlaceSum(r[1..], x)
  }

  function ReducedPoints(labels: seq<Label>, x: Label): Vote -> int {
    v => PlaceSum(Others(labels, v), x)
  }

  function ReducedWins(labels: seq<Label>, x: Label): Vote -> int {
    v => var r := Others(labels, v); if r != [] && r[0] == x then 1 else 0
  }

  function Scoring(labels: seq<Label>): Vote -> int {
    v => if Others(labels, v) != [] then 1 else 0
  }

  ghost predicate SoleBest(points: map<Label, int>, wins: map<Label, int>, labels: seq<Label>, x: Label) {
    Best(points, wins, labels, x) && forall y | y in labels && y != x :: !Best(points, wins, labels, y)
  }

  ghost predicate IsExclusion(votes: seq<Vote>, labels: seq<Label>, e: Exclusion) {
    && Covers(e.points, labels) && Covers(e.wins, labels)
    && (forall x | x in labels :: e.points[x] == Sum(votes, ReducedPoints(labels, x)))
    && (forall x | x in labels :: e.wins[x] == Sum(votes, ReducedWins(labels, x)))
    && e.counted == Sum(votes, Scoring(labels))
    && Ordered(e.points, e.wins, e.ranking) && multiset(e.ranking) == multiset(labels)
    && (e.winner.Some? ==> e.counted > 0 && SoleBest(e.points, e.wins, labels, e.winner.value))
    && (e.tie <==> e.counted > 0 && forall x :: !SoleBest(e.points, e.wins, labels, x))
    && (e.tie <==> e.counted > 0 && e.winner.None?)
    && (if e.tie then Ordered(map[], map[], e.tied) && forall x :: x in e.tied <==> Best(e.points, e.wins, labels, x)
        else e.tied == [])
  }

  method AggregateExcludingSelfVotes(votes: seq<Vote>, labels: seq<Label>) returns (r: Result<Exclusion>)
    ensures r.Ok? <==> ValidLabels(labels)
    ensures r.Ok? ==> IsExclusion(votes, labels, r.value)
  {
    if labels == [] {
      return Err("candidate_labels must not be empty");
    }
    if !Distinct(labels) {
      return Err("candidate labels must be unique");
    }
    var points, wins, counted := TallyOthers(votes, labels);
    var ordered, leaders := Rank(labels, points, wins);
    var winner, tie := None, false;
    if counted > 0 {
      if |leaders| == 1 {
        winner := Some(leaders[0]);
        assert leaders[0] in leaders;
        assert SoleBest(points, wins, labels, leaders[0]);
      } else {
        tie := true;
        assert leaders[0] in leaders && leaders[1] in leaders && Precedes(map[], map[], leaders[0], leaders[1]);
      }
    }
    r := Ok(Exclusion(winner, tie, if tie then leaders else [], ordered, points, wins, counted));
  }

  method TallyOthers(votes: seq<Vote>, labels: seq<Label>)
    returns (points: map<Label, int>, wins: map<Label, int>, counted: nat)
    ensures Covers(points, labels) && Covers(wins, labels)
    ensures forall x | x in labels :: points[x] == Sum(votes, ReducedPoints(labels, x))
    ensures forall x | x in labels :: wins[x] == Sum(votes, ReducedWins(labels, x))
    ensures counted == Sum(votes, Scoring(labels))
  {
    points := map x | x in labels :: 0;
    wins := map x | x in labels :: 0;
    counted := 0;
    for i := 0 to |votes|
      invariant Covers(points, labels) && Covers(wins, labels)
      invariant forall x | x in labels :: points[x] == Sum(votes[..i], ReducedPoints(labels, x))
      invariant forall x | x in labels :: wins[x] == Sum(votes[..i], ReducedWins(labels, x))
      invariant counted == Sum(votes[..i], Scoring(labels))
    {
      forall x | x in labels
        ensures Sum(votes[..i + 1], ReducedPoints(labels, x))
                == Sum(votes[..i], ReducedPoints(labels, x)) + PlaceSum(Others(labels, votes[i]), x)
        ensures Sum(votes[..i + 1], ReducedWins(labels, x))
                == Sum(votes[..i], ReducedWins(labels, x)) + ReducedWins(labels, x)(votes[i])
      {
        SumPrefix(votes, i, ReducedPoints(labels, x));
        SumPrefix(votes, i, ReducedWins(labels, x));
      }
      SumPrefix(votes, i, Scoring(labels));
      var ranking := Others(labels, votes[i]);
      if ranking == [] {
        continue;
      }
      counted := counted + 1;
      points := AddPlaces(points, ranking, labels);
      assert ranking[0] in ranking;
      wins := wins[ranking[0] := wins[ranking[0]] + 1];
    }
    assert votes[..|votes|] == votes;
  }

  method AddPlaces(points: map<Label, int>, ranking: seq<Label>, labels: seq<Label>) returns (r: map<Label, int>)
    requires Covers(points, labels) && forall x | x in ranking :: x in labels
    ensures Covers(r, labels)
    ensures forall x | x in labels :: r[x] == points[x] + PlaceSum(ranking, x)
  {
    r := points;
    for index := 0 to |ranking|
      invariant Covers(r, labels)
      invariant forall x | x in labels :: r[x] + PlaceSum(ranking[index..], x) == points[x] + PlaceSum(ranking, x)
    {
      var name := ranking[index];
      assert name in ranking;
      assert name in labels;
      assert name in r;
      assert ranking[index..][1..] == ranking[index + 1..];
      r := r[name := r[name] + |ranking| - index - 1];
    }
  }

  // ----- Comparison with the full tally -----

  lemma {:induction false} KeepAll(r: seq<Label>, p: Label -> bool)
    requires forall i | 0 <= i < |r| :: p(r[i])
    ensures Keep(r, p) == r
  {
    if r != [] {
      assert r == [r[0]] + r[1..];
      KeepAll(r[1..], p);
    }
  }

  lemma {:induction false} PlaceSumDistinct(r: seq<Label>, x: Label)
    requires Distinct(r)
    ensures PlaceSum(r, x) == if x in r then |r| - IndexOf(r, x) - 1 else 0
  {
    if r != [] {
      PlaceSumDistinct(r[1..], x);
      assert r == [r[0]] + r[1..];
      if r[0] == x {
        assert x !in r[1..];
      }
    }
  }

  /** Dropping the juror's candidate costs one point for each candidate ranked above it. */
  lemma {:induction false} DropOne(b: seq<Label>, labels: seq<Label>, juror: Label, x: Label)
    requires Distinct(b) && forall y | y in b :: y in labels
    ensures |Keep(b, NotSelf(labels, juror))| == |b| - if juror in b then 1 else 0
    ensures PlaceSum(Keep(b, NotSelf(labels, juror)), x)
            == if x == juror then 0
               else PlaceSum(b, x) - if juror in b && IndexOf(b, x) < IndexOf(b, juror) then 1 else 0
  {
    if b != [] {
      assert b == [b[0]] + b[1..] && b[0] in b;
      DropOne(b[1..], labels, juror, x);
      if b[0] == juror {
        var p := NotSelf(labels, juror);
        forall i | 0 <= i < |b[1..]| ensures p(b[1..][i]) {
          assert b[i + 1] in b;
        }
        KeepAll(b[1..], p);
        PlaceSumDistinct(b[1..], x);
      } else if b[0] == x {
        PlaceSumDistinct(b[1..], x);
      }
    }
  }

  function OwnBallotPoints(labels: seq<Label>, x: Label, v: Vote): int {
    if v.juror == x then PlacePoints(labels, x, v.judgment) else 0
  }

  /** 1 when the juror is itself a candidate other than `x` and its own ballot ranks `x` above it. */
  function RankedAboveJuror(labels: seq<Label>, x: Label, v: Vote): int {
    if v.juror != x && v.juror in labels then IsAbove(labels, x, v.juror, v.judgment) else 0
  }

  function OwnBallot(labels: seq<Label>, x: Label): Vote -> int {
    v => OwnBallotPoints(labels, x, v)
  }

  function AboveItsJuror(labels: seq<Label>, x: Label): Vote -> int {
    v => RankedAboveJuror(labels, x, v)
  }

  function JudgmentOf(v: Vote): Judgment {
    v.judgment
  }

  /**
   The self-vote-excluding points are the full points, minus the candidate's own
   ballot, minus one point for each other candidate-juror that ranked it above itself.
   */
  lemma ExclusionVersusFull(votes: seq<Vote>, labels: seq<Label>, a: Aggregate, e: Exclusion, x: Label)
    requires ValidLabels(labels) && x in labels
    requires forall v | v in votes :: ValidJudgment(labels, v.judgment)
    requires IsAggregate(Mapped(votes, JudgmentOf), labels, a) && IsExclusion(votes, labels, e)
    ensures e.points[x] == a.points[x] - Sum(votes, OwnBallot(labels, x)) - Sum(votes, AboveItsJuror(labels, x))
  {
    var full := (v: Vote) => PlacePoints(labels, x, v.judgment);
    var lost := (v: Vote) => OwnBallotPoints(labels, x, v) + RankedAboveJuror(labels, x, v);
    forall v | v in votes ensures full(v) == ReducedPoints(labels, x)(v) + lost(v) {
      OneVote(labels, v, x);
    }
    SumPlus(votes, ReducedPoints(labels, x), lost, full);
    SumPlus(votes, OwnBallot(labels, x), AboveItsJuror(labels, x), lost);
    SumMapped(votes, JudgmentOf, Positional(labels, x), full);
  }

  lemma OneVote(labels: seq<Label>, v: Vote, x: Label)
    requires ValidLabels(labels) && x in labels && ValidJudgment(labels, v.judgment)
    ensures PlacePoints(labels, x, v.judgment)
            == PlaceSum(Others(labels, v), x) + OwnBallotPoints(labels, x, v) + RankedAboveJuror(labels, x, v)
  {
    var b := v.judgment.ranking;
    if !v.judgment.abstain {
      RankingIsPermutation(labels, v.judgment);
      DropOne(b, labels, v.juror, x);
      PlaceSumDistinct(b, x);
    }
  }
}
