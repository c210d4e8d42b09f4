/**
 Blinding (src/model_council/engine.py): jurors see opaque labels, the engine
 rewrites their judgments to provider names before the tally and rewrites the
 aggregate back to labels for the synthesis prompt.
 */
module Blinding {
  import opened Wrappers
  import opened Sums
  import opened Borda
  import opened BordaLaws

  type Mapping = map<Label, Label>

  predicate Injective(m: Mapping) {
    forall x, y | x in m && y in m && m[x] == m[y] :: x == y
  }

  function Apply(m: Mapping, x: Label): Label {
    if x in m then m[x] else x
  }

  function ApplyAll(m: Mapping, xs: seq<Label>): (r: seq<Label>)
    ensures |r| == |xs| && forall i | 0 <= i < |xs| :: r[i] == Apply(m, xs[i])
  {
    seq(|xs|, i requires 0 <= i < |xs| => Apply(m, xs[i]))
  }

  /** The dictionary {provider: label}. */
  function Reverse(m: Mapping): (r: Mapping)
    requires Injective(m)
    ensures forall x | x in m :: m[x] in r && r[m[x]] == x
    ensures forall y | y in r :: r[y] in m && m[r[y]] == y
    ensures Injective(r)
  {
    map x | x in m :: m[x] := x
  }

  function CanonicalizeJury(j: Judgment, m: Mapping): Judgment {
    j.(ranking := ApplyAll(m, j.ranking),
       winner := if j.winner.Some? then Some(Apply(m, j.winner.value)) else None)
  }

  function AnonymizeJury(j: Judgment, m: Mapping): Judgment
    requires Injective(m)
  {
    CanonicalizeJury(j, Reverse(m))
  }

  ghost predicate Over(scores: map<Label, int>, m: Mapping) {
    forall x | x in scores :: x in m.Values
  }

  ghost function RenameScores(scores: map<Label, int>, m: Mapping): (r: map<Label, int>)
    requires Injective(m) && Over(scores, m)
  {
    map x | x in scores :: Reverse(m)[x] := scores[x]
  }

  /** The aggregate scores only names the mapping knows. */
  ghost predicate OverValues(a: Aggregate, m: Mapping) {
    Over(a.points, m) && Over(a.wins, m)
  }

  ghost function AnonymizeAggregate(a: Aggregate, m: Mapping): Aggregate
    requires Injective(m) && OverValues(a, m)
  {
    var reverse := Reverse(m);
    a.(winner := if a.winner.Some? then Some(Apply(reverse, a.winner.value)) else None,
       ranking := ApplyAll(reverse, a.ranking),
       tied := ApplyAll(reverse, a.tied),
       points := RenameScores(a.points, m),
       wins := RenameScores(a.wins, m))
  }

  function Canonical(m: Mapping): Judgment -> Judgment {
    j => CanonicalizeJury(j, m)
  }

  /** Anonymizing a canonicalized judgment gives the juror's own winner and ranking back. */
  lemma AnonymizeUndoesCanonicalize(labels: seq<Label>, j: Judgment, m: Mapping)
    requires Injective(m) && (forall x | x in labels :: x in m) && ValidJudgment(labels, j)
    ensures AnonymizeJury(CanonicalizeJury(j, m), m) == j
  {
    var back := AnonymizeJury(CanonicalizeJury(j, m), m);
    assert back.ranking == j.ranking by {
      forall i | 0 <= i < |j.ranking| ensures back.ranking[i] == j.ranking[i] {
        assert j.ranking[i] in j.ranking && j.ranking[i] in labels;
      }
    }
  }

  lemma IndexOfRenamed(b: seq<Label>, m: Mapping, x: Label)
    requires Injective(m) && x in m && forall y | y in b :: y in m
    ensures IndexOf(ApplyAll(m, b), m[x]) == IndexOf(b, x)
    ensures m[x] in ApplyAll(m, b) <==> x in b
  {
    var c := ApplyAll(m, b);
    var i, k := IndexOf(c, m[x]), IndexOf(b, x);
    if i < |c| {
      assert b[i] in b && c[i] == m[b[i]];
    }
    if k < |b| {
      assert c[k] == m[x];
    }
  }

  lemma CanonicalIsValid(labels: seq<Label>, j: Judgment, m: Mapping)
    requires ValidLabels(labels) && Injective(m) && (forall x :: x in labels <==> x in m) && ValidJudgment(labels, j)
    ensures ValidJudgment(ApplyAll(m, labels), CanonicalizeJury(j, m))
  {
    var names, c := ApplyAll(m, labels), CanonicalizeJury(j, m);
    if !j.abstain {
      forall y | y in c.ranking ensures y in names {
        var i := IndexOf(c.ranking, y);
        assert j.ranking[i] in j.ranking;
        IndexOfRenamed(labels, m, j.ranking[i]);
      }
      forall y | y in names ensures y in c.ranking {
        var i := IndexOf(names, y);
        assert labels[i] in labels;
        IndexOfRenamed(j.ranking, m, labels[i]);
      }
      IndexOfRenamed(labels, m, j.winner.value);
    }
  }

  lemma CanonicalScores(labels: seq<Label>, j: Judgment, m: Mapping, x: Label)
    requires ValidLabels(labels) && Injective(m) && (forall x :: x in labels <==> x in m) && ValidJudgment(labels, j)
    requires x in labels
    ensures PlacePoints(ApplyAll(m, labels), m[x], CanonicalizeJury(j, m)) == PlacePoints(labels, x, j)
    ensures IsFirst(ApplyAll(m, labels), m[x], CanonicalizeJury(j, m)) == IsFirst(labels, x, j)
  {
    CanonicalIsValid(labels, j, m);
    if !j.abstain {
      IndexOfRenamed(j.ranking, m, x);
      assert j.ranking[0] in j.ranking;
    }
  }

  lemma RenamedScores(juries: seq<Judgment>, labels: seq<Label>, m: Mapping)
    requires ValidLabels(labels) && Injective(m) && forall x :: x in labels <==> x in m
    requires forall j | j in juries :: ValidJudgment(labels, j)
    ensures forall x | x in labels ::
      && Points(Mapped(juries, Canonical(m)), ApplyAll(m, labels), m[x]) == Points(juries, labels, x)
      && Wins(Mapped(juries, Canonical(m)), ApplyAll(m, labels), m[x]) == Wins(juries, labels, x)
    ensures CountedJudgments(Mapped(juries, Canonical(m)), ApplyAll(m, labels)) == CountedJudgments(juries, labels)
    ensures ValidCount(Mapped(juries, Canonical(m)), ApplyAll(m, labels)) == ValidCount(juries, labels)
  {
    var names := ApplyAll(m, labels);
    forall j | j in juries
      ensures One(names)(Canonical(m)(j)) == One(labels)(j) && Valid(names)(Canonical(m)(j)) == Valid(labels)(j)
    {
      CanonicalIsValid(labels, j, m);
    }
    forall x | x in labels
      ensures Points(Mapped(juries, Canonical(m)), names, m[x]) == Points(juries, labels, x)
      ensures Wins(Mapped(juries, Canonical(m)), names, m[x]) == Wins(juries, labels, x)
    {
      forall j | j in juries
        ensures Positional(labels, x)(j) == Positional(names, m[x])(Canonical(m)(j))
        ensures FirstPlace(labels, x)(j) == FirstPlace(names, m[x])(Canonical(m)(j))
      {
        CanonicalScores(labels, j, m, x);
      }
      SumMapped(juries, Canonical(m), Positional(names, m[x]), Positional(labels, x));
      SumMapped(juries, Canonical(m), FirstPlace(names, m[x]), FirstPlace(labels, x));
    }
    SumMapped(juries, Canonical(m), One(names), One(labels));
    SumMapped(juries, Canonical(m), Valid(names), Valid(labels));
  }

  /** What the two tallies have in common before anything is renamed back. */
  lemma SameNumbers(juries: seq<Judgment>, labels: seq<Label>, m: Mapping, a: Aggregate, b: Aggregate)
    requires ValidLabels(labels) && Injective(m) && forall x :: x in labels <==> x in m
    requires forall j | j in juries :: ValidJudgment(labels, j)
    requires RightScores(juries, labels, a)
    requires RightScores(Mapped(juries, Canonical(m)), ApplyAll(m, labels), b)
    ensures forall y :: y in ApplyAll(m, labels) <==> y in m.Values
    ensures forall x | x in labels :: At(b.points, m[x]) == At(a.points, x) && At(b.wins, m[x]) == At(a.wins, x)
    ensures a.counted == b.counted && a.valid == b.valid && a.abstentions == b.abstentions
  {
    var names := ApplyAll(m, labels);
    RenamedScores(juries, labels, m);
    NamesAreValues(labels, m);
    forall x | x in labels ensures At(b.points, m[x]) == At(a.points, x) && At(b.wins, m[x]) == At(a.wins, x) {
      assert m[x] in names;
    }
  }

  /** What stands between an aggregate over labels and one over the names they were mapped to. */
  ghost predicate Blinded(juries: seq<Judgment>, labels: seq<Label>, m: Mapping, a: Aggregate, b: Aggregate) {
    && ValidLabels(labels) && Injective(m) && (forall x :: x in labels <==> x in m)
    && (forall j | j in juries :: ValidJudgment(labels, j))
    && IsAggregate(juries, labels, a)
    && IsAggregate(Mapped(juries, Canonical(m)), ApplyAll(m, labels), b)
  }

  /** Canonicalize, aggregate, anonymize gives the points of the label ballots themselves, ... */
  lemma BlindingKeepsPoints(juries: seq<Judgment>, labels: seq<Label>, m: Mapping, a: Aggregate, b: Aggregate)
    requires Blinded(juries, labels, m, a, b) && OverValues(b, m)
    ensures AnonymizeAggregate(b, m).points == a.points
  {
    SameNumbers(juries, labels, m, a, b);
    RenamedMap(labels, m, a.points, b.points);
  }

  /** ... their first places and every count, ... */
  lemma BlindingKeepsWins(juries: seq<Judgment>, labels: seq<Label>, m: Mapping, a: Aggregate, b: Aggregate)
    requires Blinded(juries, labels, m, a, b) && OverValues(b, m)
    ensures AnonymizeAggregate(b, m).wins == a.wins
    ensures b.counted == a.counted && b.valid == a.valid && b.abstentions == a.abstentions
  {
    SameNumbers(juries, labels, m, a, b);
    RenamedMap(labels, m, a.wins, b.wins);
  }

  lemma BlindedOverValues(juries: seq<Judgment>, labels: seq<Label>, m: Mapping, a: Aggregate, b: Aggregate)
    requires Blinded(juries, labels, m, a, b)
    ensures OverValues(b, m)
  {
    NamesAreValues(labels, m);
  }

  /**
   ... and their winner, tie and outcome. The listing order among exact ties
   follows the names: `BlindingKeepsRanking` says when that shows.
   */
  lemma BlindingKeepsOutcome(juries: seq<Judgment>, labels: seq<Label>, m: Mapping, a: Aggregate, b: Aggregate)
    requires Blinded(juries, labels, m, a, b)
    requires OverValues(b, m)
    ensures AnonymizeAggregate(b, m).winner == a.winner
    ensures b.tie == a.tie && b.outcome == a.outcome && b.consensus == a.consensus
    ensures forall x :: x in AnonymizeAggregate(b, m).tied <==> x in a.tied
  {
    SameNumbers(juries, labels, m, a, b);
    LeadersRenamed(labels, m, a, b);
  }

  /** Candidates with the same scores stand under their labels in the order of their names. */
  ghost predicate TiesInNameOrder(labels: seq<Label>, m: Mapping, a: Aggregate)
    requires forall x | x in labels :: x in m
  {
    forall x, y | x in labels && y in labels && x < y && At(a.points, x) == At(a.points, y) && At(a.wins, x) == At(a.wins, y) ::
      m[x] < m[y]
  }

  /** The tally over names orders a pair of candidates as the tally over labels does, exact ties apart. */
  lemma PrecedesRenamed(labels: seq<Label>, m: Mapping, a: Aggregate, b: Aggregate, x: Label, y: Label)
    requires Injective(m) && (forall z :: z in labels <==> z in m) && x in labels && y in labels && x != y
    requires forall z | z in labels :: At(b.points, m[z]) == At(a.points, z) && At(b.wins, m[z]) == At(a.wins, z)
    requires TiesInNameOrder(labels, m, a) && Precedes(b.points, b.wins, m[x], m[y])
    ensures Precedes(a.points, a.wins, x, y)
  {
  }

  lemma RankedBack(labels: seq<Label>, m: Mapping, ranking: seq<Label>)
    requires Injective(m) && (forall x :: x in labels <==> x in m)
    requires forall y :: y in ranking <==> y in m.Values
    ensures forall i | 0 <= i < |ranking| :: ApplyAll(Reverse(m), ranking)[i] in m && m[ApplyAll(Reverse(m), ranking)[i]] == ranking[i]
    ensures forall x :: x in ApplyAll(Reverse(m), ranking) <==> x in labels
  {
    var back := ApplyAll(Reverse(m), ranking);
    forall i | 0 <= i < |ranking| ensures back[i] in m && m[back[i]] == ranking[i] {
      assert ranking[i] in ranking && ranking[i] in Reverse(m);
    }
    forall x ensures x in back <==> x in labels {
      if x in labels {
        assert m[x] in m.Values;
        var i := IndexOf(ranking, m[x]);
        assert back[i] == x;
      }
    }
  }

  /** What a ranking over names and one over labels have in common. */
  ghost predicate TwoRankings(labels: seq<Label>, m: Mapping, a: Aggregate, b: Aggregate) {
    && Injective(m) && (forall x :: x in labels <==> x in m)
    && Ordered(a.points, a.wins, a.ranking) && (forall x :: x in a.ranking <==> x in labels)
    && Ordered(b.points, b.wins, b.ranking) && (forall y :: y in b.ranking <==> y in m.Values)
    && (forall x | x in labels :: At(b.points, m[x]) == At(a.points, x) && At(b.wins, m[x]) == At(a.wins, x))
  }

  lemma SameRanking(labels: seq<Label>, m: Mapping, a: Aggregate, b: Aggregate)
    requires TwoRankings(labels, m, a, b) && TiesInNameOrder(labels, m, a)
    ensures ApplyAll(Reverse(m), b.ranking) == a.ranking
  {
    var back := ApplyAll(Reverse(m), b.ranking);
    RankedBack(labels, m, b.ranking);
    OrderedIsDistinct(b.points, b.wins, b.ranking);
    forall i, j | 0 <= i < j < |back| ensures Precedes(a.points, a.wins, back[i], back[j]) {
      assert back[i] in back && back[j] in back;
      PrecedesRenamed(labels, m, a, b, back[i], back[j]);
    }
    OrderedUnique(a.points, a.wins, back, a.ranking);
  }

  lemma RankedInNameOrder(labels: seq<Label>, m: Mapping, a: Aggregate, b: Aggregate)
    requires TwoRankings(labels, m, a, b) && ApplyAll(Reverse(m), b.ranking) == a.ranking
    ensures TiesInNameOrder(labels, m, a)
  {
    RankedBack(labels, m, b.ranking);
    forall x, y | x in labels && y in labels && x < y && At(a.points, x) == At(a.points, y) && At(a.wins, x) == At(a.wins, y)
      ensures m[x] < m[y]
    {
      TieListed(a, a.ranking, x, y);
      var i, j := IndexOf(a.ranking, x), IndexOf(a.ranking, y);
      assert b.ranking[i] == m[x] && b.ranking[j] == m[y];
    }
  }

  /** The synthesizer sees the ranking of the label ballots exactly when no exact tie is listed against the names. */
  lemma BlindingKeepsRanking(juries: seq<Judgment>, labels: seq<Label>, m: Mapping, a: Aggregate, b: Aggregate)
    requires Blinded(juries, labels, m, a, b) && OverValues(b, m)
    ensures AnonymizeAggregate(b, m).ranking == a.ranking <==> TiesInNameOrder(labels, m, a)
  {
    hide TwoRankings, TiesInNameOrder, IsAggregate, ValidJudgment;
    BlindedRanking(juries, labels, m, a, b);
    if TiesInNameOrder(labels, m, a) {
      SameRanking(labels, m, a, b);
    }
    if ApplyAll(Reverse(m), b.ranking) == a.ranking {
      RankedInNameOrder(labels, m, a, b);
    }
  }

  /** Two candidates whom every juror abstained from ranking, dealt labels against the order of their names. */
  lemma BlindingReordersTies(juries: seq<Judgment>, a: Aggregate, b: Aggregate)
    requires Blinded(juries, [0, 1], map[0 := 5, 1 := 3], a, b) && (forall j | j in juries :: j.abstain)
    requires OverValues(b, map[0 := 5, 1 := 3])
    ensures AnonymizeAggregate(b, map[0 := 5, 1 := 3]).ranking != a.ranking
  {
    var m: Mapping := map[0 := 5, 1 := 3];
    NoScores(juries, [0, 1], 0);
    NoScores(juries, [0, 1], 1);
    assert m[0] > m[1] && 0 in [0, 1] && 1 in [0, 1];
    assert At(a.points, 0) == At(a.points, 1) && At(a.wins, 0) == At(a.wins, 1);
    BlindingKeepsRanking(juries, [0, 1], m, a, b);
  }

  lemma NoScores(juries: seq<Judgment>, labels: seq<Label>, x: Label)
    requires forall j | j in juries :: j.abstain
    ensures Points(juries, labels, x) == 0 && Wins(juries, labels, x) == 0
  {
    SumConstant(juries, Positional(labels, x), 0);
    SumConstant(juries, FirstPlace(labels, x), 0);
  }

  /** Of two candidates with the same scores the one with the smaller name is listed first. */
  lemma TieListed(a: Aggregate, ranking: seq<Label>, x: Label, y: Label)
    requires Ordered(a.points, a.wins, ranking) && x in ranking && y in ranking && x < y
    requires At(a.points, x) == At(a.points, y) && At(a.wins, x) == At(a.wins, y)
    ensures IndexOf(ranking, x) < IndexOf(ranking, y)
  {
    var i, j := IndexOf(ranking, x), IndexOf(ranking, y);
    if j < i {
      assert false;
    }
  }

  lemma BlindedRanking(juries: seq<Judgment>, labels: seq<Label>, m: Mapping, a: Aggregate, b: Aggregate)
    requires Blinded(juries, labels, m, a, b)
    ensures TwoRankings(labels, m, a, b)
  {
    SameNumbers(juries, labels, m, a, b);
    SameMembers(a.ranking, labels);
    SameMembers(b.ranking, ApplyAll(m, labels));
  }

  lemma NamesAreValues(labels: seq<Label>, m: Mapping)
    requires Injective(m) && (forall x :: x in labels <==> x in m)
    ensures forall y :: y in ApplyAll(m, labels) <==> y in m.Values
  {
    forall y ensures y in ApplyAll(m, labels) <==> y in m.Values {
      if y in ApplyAll(m, labels) {
        var i := IndexOf(ApplyAll(m, labels), y);
        assert labels[i] in labels;
      }
      if y in m.Values {
        IndexOfRenamed(labels, m, Reverse(m)[y]);
      }
    }
  }

  lemma RenamedMap(labels: seq<Label>, m: Mapping, s: map<Label, int>, t: map<Label, int>)
    requires Injective(m) && (forall x :: x in labels <==> x in m) && Over(t, m)
    requires Covers(s, labels) && Covers(t, ApplyAll(m, labels))
    requires forall y :: y in ApplyAll(m, labels) <==> y in m.Values
    requires forall x | x in labels :: At(t, m[x]) == At(s, x)
    ensures RenameScores(t, m) == s
  {
    var r := RenameScores(t, m);
    forall x ensures (x in r <==> x in s) && (x in s && x in r ==> r[x] == s[x]) {
      if x in s {
        assert m[x] in m.Values && m[x] in t;
        assert Reverse(m)[m[x]] == x;
      }
    }
  }

  lemma LeadsRenamed(labels: seq<Label>, m: Mapping, a: Aggregate, b: Aggregate, x: Label)
    requires Injective(m) && (forall z :: z in labels <==> z in m) && x in m
    requires forall y :: y in ApplyAll(m, labels) <==> y in m.Values
    requires forall z | z in labels :: At(b.points, m[z]) == At(a.points, z) && At(b.wins, m[z]) == At(a.wins, z)
    ensures Leads(a, labels, x) <==> Leads(b, ApplyAll(m, labels), m[x])
  {
    var names := ApplyAll(m, labels);
    if Leads(a, labels, x) {
      forall y | y in names
        ensures At(b.points, y) < At(b.points, m[x]) || (At(b.points, y) == At(b.points, m[x]) && At(b.wins, y) <= At(b.wins, m[x]))
      {
        var z := Reverse(m)[y];
        assert z in labels && m[z] == y;
      }
    }
    if Leads(b, names, m[x]) {
      forall z | z in labels
        ensures At(a.points, z) < At(a.points, x) || (At(a.points, z) == At(a.points, x) && At(a.wins, z) <= At(a.wins, x))
      {
        assert m[z] in names;
      }
    }
  }

  lemma LeadersRenamed(labels: seq<Label>, m: Mapping, a: Aggregate, b: Aggregate)
    requires Injective(m) && (forall z :: z in labels <==> z in m)
    requires forall y :: y in ApplyAll(m, labels) <==> y in m.Values
    requires RightOutcome(labels, a) && RightOutcome(ApplyAll(m, labels), b)
    requires a.counted == b.counted && a.valid == b.valid
    requires forall z | z in labels :: At(b.points, m[z]) == At(a.points, z) && At(b.wins, m[z]) == At(a.wins, z)
    ensures a.tie == b.tie && a.outcome == b.outcome && a.consensus == b.consensus
    ensures a.winner.Some? ==> a.winner.value in m && b.winner == Some(m[a.winner.value])
    ensures a.winner.None? ==> b.winner.None?
    ensures forall x :: x in ApplyAll(Reverse(m), b.tied) <==> x in a.tied
  {
    var names, reverse := ApplyAll(m, labels), Reverse(m);
    forall x | x in m ensures Leads(a, labels, x) <==> Leads(b, names, m[x]) {
      LeadsRenamed(labels, m, a, b, x);
    }
    if a.counted == 0 {
      return;
    }
    TieExactly(labels, a);
    TieExactly(names, b);
    forall y | Leads(b, names, y) ensures y in reverse && Leads(a, labels, reverse[y]) {
      assert y in m.Values;
    }
    if a.tie {
      forall x ensures x in ApplyAll(reverse, b.tied) <==> x in a.tied {
        if x in a.tied {
          assert m[x] in b.tied;
          var i := IndexOf(b.tied, m[x]);
          assert ApplyAll(reverse, b.tied)[i] == x;
        }
        if x in ApplyAll(reverse, b.tied) {
          var i := IndexOf(ApplyAll(reverse, b.tied), x);
          assert b.tied[i] in b.tied;
        }
      }
    } else {
      assert Leads(a, labels, a.winner.value);
      assert Leads(b, names, m[a.winner.value]);
    }
  }
}
