/**
 The size of the synthesis prompt: the preflight's tied, divided council of maximal
 artifacts is at least as long as every council record that can really arise, for any
 accepted proposals, any valid judgments and whatever their aggregate turns out to be.
 */
module SynthesisSize {
  import opened Wrappers
  import opened Sums
  import opened Borda
  import opened BordaLaws
  import opened Blinding
  import opened Json
  import opened PromptSizes

  const LIST_MAX_ITEMS := 4
  const LIST_ITEM_MAX := 280

  // ----- Texts -----

  function ConfidenceText(c: Confidence): string {
    match c
    case Low => "low"
    case Medium => "medium"
    case High => "high"
  }

  function OutcomeText(o: Outcome): string {
    match o
    case WinnerOutcome => "winner"
    case TieOutcome => "tie"
    case Abstained => "abstained"
    case Invalid => "invalid"
  }

  function ConsensusText(c: Consensus): string {
    match c
    case Unanimous => "unanimous"
    case Divided => "divided"
    case TieConsensus => "tie"
    case NoConsensus => "none"
  }

  lemma ConfidenceLen(c: Confidence)
    ensures Escaped(ConfidenceText(c)) == |ConfidenceText(c)| <= 6
  {
    assert Plain(ConfidenceText(c));
    EscapedPlain(ConfidenceText(c));
  }

  lemma OutcomeLen(o: Outcome)
    ensures Escaped(OutcomeText(o)) == |OutcomeText(o)|
  {
    assert Plain(OutcomeText(o));
    EscapedPlain(OutcomeText(o));
  }

  lemma ConsensusLen(c: Consensus)
    ensures Escaped(ConsensusText(c)) == |ConsensusText(c)|
  {
    assert Plain(ConsensusText(c));
    EscapedPlain(ConsensusText(c));
  }

  // ----- Votes -----

  const VOTE_KEYS := ["winner", "ranking", "confidence", "abstain"]

  function LabelOrNull(w: Option<Label>): Value {
    if w.None? then Null else Str(LabelText(w.value))
  }

  function VoteValues(w: Option<Label>, ranking: seq<Label>, c: Confidence, abstain: bool): (r: seq<Value>)
    ensures |r| == 4
  {
    [LabelOrNull(w), Strings(Labels(ranking)), Str(ConfidenceText(c)), Bool(abstain)]
  }

  /** The decision fields of one judgment, as a vote of the council record or the immutable decision of a repair. */
  function Vote(w: Option<Label>, ranking: seq<Label>, c: Confidence, abstain: bool): Value {
    Record(VOTE_KEYS, VoteValues(w, ranking, c, abstain))
  }

  lemma VoteDifference(u: seq<Value>, v: seq<Value>, depth: nat)
    requires |u| == |v| == 4
    ensures Len(Record(VOTE_KEYS, v), depth) - Len(Record(VOTE_KEYS, u), depth)
            == Len(v[0], depth + 1) - Len(u[0], depth + 1) + Len(v[1], depth + 1) - Len(u[1], depth + 1)
               + Len(v[2], depth + 1) - Len(u[2], depth + 1) + Len(v[3], depth + 1) - Len(u[3], depth + 1)
  {
    RecordDifference(VOTE_KEYS, u, v, depth);
    FourValues(u, depth + 1);
    FourValues(v, depth + 1);
  }

  function VoteOf(j: Judgment): Value {
    Vote(j.winner, j.ranking, j.confidence, j.abstain)
  }

  /** A projected vote: full ranking, medium confidence, no abstention. */
  function FullVote(count: nat, i: Label): Value {
    Vote(Some(i), LabelsOf(count), Medium, false)
  }

  function WinnerText(j: Judgment): nat {
    if j.winner.None? then 0 else LabelLength(j.winner.value)
  }

  function VoteValuesOf(j: Judgment): (r: seq<Value>)
    ensures |r| == 4
  {
    VoteValues(j.winner, j.ranking, j.confidence, j.abstain)
  }

  function FullVoteValues(count: nat, i: Label): (r: seq<Value>)
    ensures |r| == 4
  {
    VoteValues(Some(i), LabelsOf(count), Medium, false)
  }

  lemma AbstentionWithin(j: Judgment, count: nat, i: Label, depth: nat)
    requires 1 <= count && j.abstain && j.winner.None? && j.ranking == []
    ensures ValuesLen(VoteValuesOf(j), depth) <= ValuesLen(FullVoteValues(count, i), depth) - LabelLength(i)
  {
    FourValues(VoteValuesOf(j), depth);
    FourValues(FullVoteValues(count, i), depth);
    ConfidenceLen(j.confidence);
    ConfidenceLen(Medium);
    LabelEscaped(i);
    FullRanking(count, depth);
  }

  lemma BallotWithin(j: Judgment, n: nat, count: nat, i: Label, depth: nat)
    requires n <= count && j.winner.Some? && Orders(j.ranking, n) && !j.abstain
    ensures ValuesLen(VoteValuesOf(j), depth) - WinnerText(j) <= ValuesLen(FullVoteValues(count, i), depth) - LabelLength(i)
  {
    FourValues(VoteValuesOf(j), depth);
    FourValues(FullVoteValues(count, i), depth);
    ConfidenceLen(j.confidence);
    ConfidenceLen(Medium);
    LabelEscaped(i);
    LabelEscaped(j.winner.value);
    LabelsWithin(j.ranking, n, count, depth);
  }

  /** Apart from the name of its winner no vote is longer than a projected one. */
  lemma VoteWithin(j: Judgment, n: nat, count: nat, i: Label, depth: nat)
    requires 1 <= n <= count && ValidJudgment(LabelsOf(n), j) && i >= 0
    ensures Len(VoteOf(j), depth) - WinnerText(j) <= Len(FullVote(count, i), depth) - LabelLength(i)
  {
    RecordDifference(VOTE_KEYS, VoteValuesOf(j), FullVoteValues(count, i), depth);
    if j.abstain {
      AbstentionWithin(j, count, i, depth + 1);
    } else {
      RangeLabels(n);
      RankingIsPermutation(LabelsOf(n), j);
      BallotWithin(j, n, count, i, depth + 1);
    }
  }

  lemma RangeLabels(n: nat)
    requires n >= 1
    ensures ValidLabels(LabelsOf(n)) && Distinct(LabelsOf(n))
  {
  }

  lemma FullRanking(count: nat, depth: nat)
    requires count >= 1
    ensures Len(Strings(Labels(LabelsOf(count))), depth) >= 20
  {
    LabelsLen(LabelsOf(count), depth);
    var rest := LabelsOf(count)[1..];
    LabelBounds(0, count);
    SumZeroOrMore(rest, LabelLine(depth));
  }

  // ----- The votes of a council record -----

  function Votes(juries: seq<Judgment>): Value {
    Arr(Mapped(juries, VoteOf))
  }

  function FullVotes(count: nat): Value {
    Arr(Mapped(LabelsOf(count), i => FullVote(count, i)))
  }

  function VoteLine(depth: nat): Judgment -> int {
    j => Len(VoteOf(j), depth) + 2 * depth + 2
  }

  function FullVoteLine(count: nat, depth: nat): Label -> int {
    i => Len(FullVote(count, i), depth) + 2 * depth + 2
  }

  function WinnerTextOf(j: Judgment): int {
    WinnerText(j)
  }

  function LabelLengths(i: Label): int {
    LabelLength(i)
  }

  lemma VotesSum(juries: seq<Judgment>, depth: nat)
    ensures Len(Votes(juries), depth) == if juries == [] then 2 else 2 * depth + 2 + Sum(juries, VoteLine(depth + 1))
  {
    ItemsSum(Mapped(juries, VoteOf), depth + 1);
    SumMapped(juries, VoteOf, ItemLine(depth + 1), VoteLine(depth + 1));
  }

  lemma FullVotesSum(count: nat, depth: nat)
    requires count >= 1
    ensures Len(FullVotes(count), depth) == 2 * depth + 2 + Sum(LabelsOf(count), FullVoteLine(count, depth + 1))
  {
    var full := (i: Label) => FullVote(count, i);
    ItemsSum(Mapped(LabelsOf(count), full), depth + 1);
    SumMapped(LabelsOf(count), full, ItemLine(depth + 1), FullVoteLine(count, depth + 1));
  }

  /** Everything of a projected vote but its winner's name. */
  function Frame(count: nat, depth: nat): int {
    FullVoteLine(count, depth)(0) - LabelLength(0)
  }

  lemma FullVoteFrame(count: nat, i: Label, depth: nat)
    requires i >= 0
    ensures FullVoteLine(count, depth)(i) == Frame(count, depth) + LabelLengths(i)
  {
    VoteDifference(VoteValues(Some(0), LabelsOf(count), Medium, false), VoteValues(Some(i), LabelsOf(count), Medium, false), depth);
    LabelEscaped(0);
    LabelEscaped(i);
  }

  lemma OneVoteLine(j: Judgment, n: nat, count: nat, depth: nat)
    requires 1 <= n <= count && ValidJudgment(LabelsOf(n), j)
    ensures VoteLine(depth)(j) <= Frame(count, depth) + WinnerTextOf(j)
  {
    VoteWithin(j, n, count, 0, depth);
  }

  /** A constant on every line, plus a part that varies. */
  lemma SumOffset<T>(xs: seq<T>, c: int, f: T -> int, g: T -> int)
    requires forall x | x in xs :: g(x) == c + f(x)
    ensures Sum(xs, g) == |xs| * c + Sum(xs, f)
  {
    var constant := (x: T) => c;
    SumConstant(xs, constant, c);
    SumPlus(xs, constant, f, g);
  }

  lemma VoteLinesAtMost(juries: seq<Judgment>, n: nat, count: nat, depth: nat)
    requires 1 <= n <= count && AllValid(juries, n)
    ensures Sum(juries, VoteLine(depth)) <= |juries| * Frame(count, depth) + Sum(juries, WinnerTextOf)
  {
    var c := Frame(count, depth);
    var bound := (j: Judgment) => c + WinnerTextOf(j);
    forall j | j in juries ensures VoteLine(depth)(j) <= bound(j) {
      OneVoteLine(j, n, count, depth);
    }
    SumMonotone(juries, VoteLine(depth), bound);
    SumOffset(juries, c, WinnerTextOf, bound);
  }

  lemma FullVoteLinesSum(xs: seq<Label>, count: nat, depth: nat)
    requires forall x | x in xs :: x >= 0
    ensures Sum(xs, FullVoteLine(count, depth)) == |xs| * Frame(count, depth) + Sum(xs, LabelLengths)
  {
    forall x | x in xs ensures FullVoteLine(count, depth)(x) == Frame(count, depth) + LabelLengths(x) {
      FullVoteFrame(count, x, depth);
    }
    SumOffset(xs, Frame(count, depth), LabelLengths, FullVoteLine(count, depth));
  }

  ghost predicate AllValid(juries: seq<Judgment>, n: nat) {
    forall j | j in juries :: ValidJudgment(LabelsOf(n), j)
  }

  lemma FramePositive(count: nat, depth: nat)
    requires count >= 1
    ensures Frame(count, depth) >= 0
  {
    var j := Judgment(None, [], Medium, true, Prose(true, {}, {}));
    RangeLabels(1);
    VoteWithin(j, 1, count, 0, depth);
  }

  /** Votes exceed the projected votes at most by what their winners' names exceed one mention of every label. */
  lemma VotesWithin(juries: seq<Judgment>, n: nat, count: nat, depth: nat)
    requires 1 <= n <= count && |juries| <= count && AllValid(juries, n)
    ensures Len(Votes(juries), depth) - Sum(juries, WinnerTextOf)
            <= Len(FullVotes(count), depth) - Sum(LabelsOf(count), LabelLengths)
  {
    VotesSum(juries, depth);
    FullVotesSum(count, depth);
    VoteLinesAtMost(juries, n, count, depth + 1);
    FullVoteLinesSum(LabelsOf(count), count, depth + 1);
    FramePositive(count, depth + 1);
    LinesGrow(|juries|, count, Frame(count, depth + 1));
  }

  // ----- First places and their names -----

  lemma {:induction false} SumScaled<T>(xs: seq<T>, f: T -> int, c: int, g: T -> int)
    requires forall x | x in xs :: g(x) == f(x) * c
    ensures Sum(xs, g) == Sum(xs, f) * c
  {
    if xs != [] {
      assert g(xs[0]) == f(xs[0]) * c;
      SumScaled(xs[1..], f, c, g);
      assert (f(xs[0]) + Sum(xs[1..], f)) * c == f(xs[0]) * c + Sum(xs[1..], f) * c;
    }
  }

  function Named(juries: seq<Judgment>, n: nat): Label -> int {
    x => Wins(juries, LabelsOf(n), x) * LabelLength(x)
  }

  /** Every candidate's name is written once for every first place it has. */
  lemma WinnerTexts(juries: seq<Judgment>, n: nat)
    requires n >= 1 && AllValid(juries, n)
    ensures Sum(juries, WinnerTextOf) == Sum(LabelsOf(n), Named(juries, n))
  {
    var labels := LabelsOf(n);
    var f := (x: Label, j: Judgment) => IsFirst(labels, x, j) * LabelLength(x);
    RangeLabels(n);
    forall x | x in labels ensures Named(juries, n)(x) == Sum(juries, Row(f, x)) {
      SumScaled(juries, FirstPlace(labels, x), LabelLength(x), Row(f, x));
    }
    forall j | j in juries ensures WinnerTextOf(j) == Sum(labels, Column(f, j)) {
      assert ValidJudgment(labels, j);
      if j.abstain {
        SumZero(labels, Column(f, j));
      } else {
        assert j.ranking[0] in j.ranking;
        SumSingle(labels, j.ranking[0], Column(f, j));
      }
    }
    SumExchange(labels, juries, f, Named(juries, n), WinnerTextOf);
  }

  // ----- The scores of the aggregate -----

  ghost predicate PointsAre(points: map<Label, int>, juries: seq<Judgment>, n: nat) {
    forall x | 0 <= x < n :: At(points, x) == Points(juries, LabelsOf(n), x)
  }

  ghost predicate WinsAre(wins: map<Label, int>, juries: seq<Judgment>, n: nat) {
    forall x | 0 <= x < n :: At(wins, x) == Wins(juries, LabelsOf(n), x)
  }

  function NumberOf(scores: map<Label, int>): Label -> Value {
    x => Num(if At(scores, x) < 0 then 0 else At(scores, x))
  }

  function SameNumber(v: nat): Label -> Value {
    x => Num(v)
  }

  lemma PlacesAtMost(labels: seq<Label>, x: Label, j: Judgment)
    requires labels != []
    ensures 0 <= PlacePoints(labels, x, j) <= |labels| - 1
    ensures 0 <= IsFirst(labels, x, j) <= 1
  {
  }

  /** No candidate can have more points than first places on every ballot would give. */
  lemma PointsBound(juries: seq<Judgment>, n: nat, x: Label)
    requires n >= 1
    ensures 0 <= Points(juries, LabelsOf(n), x) <= |juries| * (n - 1)
    ensures 0 <= Wins(juries, LabelsOf(n), x) <= |juries|
  {
    forall j
      ensures 0 <= Positional(LabelsOf(n), x)(j) <= n - 1 && 0 <= FirstPlace(LabelsOf(n), x)(j) <= 1
    {
      PlacesAtMost(LabelsOf(n), x, j);
    }
    SumAtMost(juries, Positional(LabelsOf(n), x), n - 1);
    SumZeroOrMore(juries, Positional(LabelsOf(n), x));
    SumAtMost(juries, FirstPlace(LabelsOf(n), x), 1);
    SumZeroOrMore(juries, FirstPlace(LabelsOf(n), x));
  }

  lemma ProductMonotone(a: nat, b: nat, c: nat, d: nat)
    requires a <= c && b <= d
    ensures a * b <= c * d
  {
    assert a * b <= a * d;
    assert a * d <= c * d;
  }

  lemma PointsWithin(juries: seq<Judgment>, points: map<Label, int>, order: seq<Label>, n: nat, count: nat, depth: nat)
    requires 1 <= n <= count && |juries| <= count && Orders(order, n)
    requires PointsAre(points, juries, n)
    ensures Len(Dictionary(order, NumberOf(points)), depth)
            <= Len(Dictionary(LabelsOf(count), SameNumber(count * (count - 1))), depth)
  {
    ProductMonotone(|juries|, n - 1, count, count - 1);
    forall x | 0 <= x < n
      ensures Len(NumberOf(points)(x), depth + 1) <= Len(SameNumber(count * (count - 1))(x), depth + 1)
    {
      PointsBound(juries, n, x);
      DecimalMonotone(At(points, x), count * (count - 1));
    }
    DictionaryWithin(order, n, count, NumberOf(points), SameNumber(count * (count - 1)), depth);
  }

  /** One candidate: what its first places add in names is paid for by shorter counts of the others. */
  lemma NameArithmetic(w: nat, name: nat, longest: nat, digits: nat, most: nat)
    requires name <= longest && 1 <= digits
    requires w >= 1 ==> digits <= most
    requires w == 0 ==> digits == 1
    requires most + name > longest
    ensures digits + w * name - w * longest <= most + name - longest
  {
    if w >= 1 {
      assert (w - 1) * (longest - name) >= 0;
      assert w * name - w * longest == -((w - 1) * (longest - name)) - (longest - name);
    }
  }

  function WinsEntry(juries: seq<Judgment>, wins: map<Label, int>, n: nat, longest: nat, depth: nat): Label -> int {
    x => EntryLine(NumberOf(wins), depth)(x) + Named(juries, n)(x) - Wins(juries, LabelsOf(n), x) * longest
  }

  function FullWinsEntry(count: nat, depth: nat): Label -> int {
    x => EntryLine(SameNumber(count), depth)(x) + LabelLengths(x) - LongestLabel(count)
  }

  lemma NumberEntry(value: Label -> Value, x: Label, v: nat, depth: nat)
    requires value(x) == Num(v)
    ensures EntryLine(value, depth)(x) == Escaped(LabelText(x)) + |Decimal(v)| + 2 * depth + 8
  {
    var line := FieldLen(Field(LabelText(x), value(x)), depth + 1);
    assert line == Escaped(LabelText(x)) + 4 + Len(Num(v), depth + 1) + 2 * (depth + 1) + 2;
    assert Len(Num(v), depth + 1) == |Decimal(v)|;
  }

  lemma WinsEntryWithin(juries: seq<Judgment>, wins: map<Label, int>, n: nat, count: nat, depth: nat, x: Label)
    requires 1 <= n <= count && |juries| <= count && 0 <= x < n
    requires At(wins, x) == Wins(juries, LabelsOf(n), x)
    ensures WinsEntry(juries, wins, n, LongestLabel(count), depth)(x) <= FullWinsEntry(count, depth)(x)
  {
    var w := Wins(juries, LabelsOf(n), x);
    PointsBound(juries, n, x);
    LabelBounds(x, count);
    DecimalPlain(w);
    DecimalMonotone(w, count);
    NumberEntry(NumberOf(wins), x, w, depth);
    NumberEntry(SameNumber(count), x, count, depth);
    NameArithmetic(w, LabelLength(x), LongestLabel(count), |Decimal(w)|, |Decimal(count)|);
  }

  lemma FullWinsEntryPositive(count: nat, depth: nat, x: Label)
    requires 0 <= x < count
    ensures FullWinsEntry(count, depth)(x) >= 0
  {
    LabelBounds(x, count);
    DecimalPlain(count);
    NumberEntry(SameNumber(count), x, count, depth);
  }

  lemma SumThree<T>(xs: seq<T>, f: T -> int, g: T -> int, h: T -> int, c: int, r: T -> int)
    requires forall x | x in xs :: r(x) == f(x) + g(x) - h(x) * c
    ensures Sum(xs, r) == Sum(xs, f) + Sum(xs, g) - Sum(xs, h) * c
  {
    var paid := (x: T) => h(x) * (0 - c);
    var rest := (x: T) => g(x) + paid(x);
    SumScaled(xs, h, 0 - c, paid);
    SumPlus(xs, g, paid, rest);
    SumPlus(xs, f, rest, r);
  }

  lemma WinsEntrySum(juries: seq<Judgment>, wins: map<Label, int>, order: seq<Label>, n: nat, longest: nat, depth: nat)
    requires n >= 1 && Orders(order, n) && AllValid(juries, n)
    ensures Sum(order, WinsEntry(juries, wins, n, longest, depth))
            == Sum(order, EntryLine(NumberOf(wins), depth)) + Sum(juries, WinnerTextOf)
               - CountedJudgments(juries, LabelsOf(n)) * longest
  {
    var places := FirstPlaces(juries, LabelsOf(n));
    SumThree(order, EntryLine(NumberOf(wins), depth), Named(juries, n), places, longest,
             WinsEntry(juries, wins, n, longest, depth));
    SumPermutation(order, LabelsOf(n), places);
    SumPermutation(order, LabelsOf(n), Named(juries, n));
    RangeLabels(n);
    TotalWins(juries, LabelsOf(n));
    WinnerTexts(juries, n);
  }

  lemma FullWinsEntrySum(count: nat, depth: nat)
    ensures Sum(LabelsOf(count), FullWinsEntry(count, depth))
            == Sum(LabelsOf(count), EntryLine(SameNumber(count), depth)) + Sum(LabelsOf(count), LabelLengths)
               - count * LongestLabel(count)
  {
    var ones := (x: Label) => 1;
    SumConstant(LabelsOf(count), ones, 1);
    SumThree(LabelsOf(count), EntryLine(SameNumber(count), depth), LabelLengths, ones, LongestLabel(count),
             FullWinsEntry(count, depth));
  }

  lemma WinsEntriesWithin(juries: seq<Judgment>, wins: map<Label, int>, order: seq<Label>, n: nat, count: nat, depth: nat)
    requires 1 <= n <= count && |juries| <= count && Orders(order, n)
    requires WinsAre(wins, juries, n)
    ensures Sum(order, WinsEntry(juries, wins, n, LongestLabel(count), depth)) <= Sum(LabelsOf(count), FullWinsEntry(count, depth))
  {
    forall x | 0 <= x < n
      ensures WinsEntry(juries, wins, n, LongestLabel(count), depth)(x) <= FullWinsEntry(count, depth)(x)
    {
      WinsEntryWithin(juries, wins, n, count, depth, x);
    }
    forall x | n <= x < count ensures FullWinsEntry(count, depth)(x) >= 0 {
      FullWinsEntryPositive(count, depth, x);
    }
    OrderedSum(order, n, count, WinsEntry(juries, wins, n, LongestLabel(count), depth), FullWinsEntry(count, depth));
  }

  /**
   The win counts together with every mention of a winner. All votes may name the same long label, but then the
   other candidates have no first place and their counts are shorter than projected.
   */
  lemma WinsWithin(juries: seq<Judgment>, wins: map<Label, int>, counted: int, order: seq<Label>, n: nat, count: nat, depth: nat)
    requires 1 <= n <= count && |juries| <= count && Orders(order, n) && AllValid(juries, n)
    requires WinsAre(wins, juries, n) && counted == CountedJudgments(juries, LabelsOf(n))
    ensures Len(Dictionary(order, NumberOf(wins)), depth) + Sum(juries, WinnerTextOf)
            + count - counted
            <= Len(Dictionary(LabelsOf(count), SameNumber(count)), depth) + Sum(LabelsOf(count), LabelLengths)
  {
    WinsEntriesWithin(juries, wins, order, n, count, depth);
    WinsEntrySum(juries, wins, order, n, LongestLabel(count), depth);
    FullWinsEntrySum(count, depth);
    OrderMembers(order, n);
    DictionaryLen(order, NumberOf(wins), depth);
    DictionaryLen(LabelsOf(count), SameNumber(count), depth);
    CountedAtMost(juries, n);
    Saved(count, counted, LongestLabel(count));
  }

  lemma Saved(a: int, b: int, c: int)
    requires b <= a && c >= 1
    ensures a - b <= a * c - b * c
  {
    assert (a - b) * (c - 1) >= 0;
  }

  // ----- The aggregate as it is printed -----

  const PROTOCOL_ID := "independent-jury"
  const PROTOCOL_VERSION := "1.3.0-beta"

  const REPORT_KEYS: seq<string> := [
    "protocol_id", "protocol_version", "winner", "outcome", "consensus", "ranking", "borda_points", "win_counts", "tie",
    "tied_candidates", "valid_judgments", "counted_judgments", "abstentions", "invalid_judgments",
    "invalid_judgment_reasons", "has_material_disagreement", "material_disagreements", "verification_needed"]

  datatype Report = Report(
    winner: Option<Label>, outcome: Outcome, consensus: Consensus, ranking: seq<Label>, points: Value, wins: Value,
    tie: bool, tied: seq<Label>, valid: nat, counted: nat, abstentions: nat, invalid: nat, reasons: seq<string>,
    disagreement: bool, disagreements: seq<string>, verification: seq<string>)

  function ReportValues(r: Report): (v: seq<Value>)
    ensures |v| == 18
  {
    [Str(PROTOCOL_ID), Str(PROTOCOL_VERSION), LabelOrNull(r.winner), Str(OutcomeText(r.outcome))]
    + [Str(ConsensusText(r.consensus)), Strings(Labels(r.ranking)), r.points, r.wins]
    + [Bool(r.tie), Strings(Labels(r.tied)), Num(r.valid), Num(r.counted)]
    + [Num(r.abstentions), Num(r.invalid), Strings(r.reasons), Bool(r.disagreement)]
    + [Strings(r.disagreements), Strings(r.verification)]
  }

  function ReportValue(r: Report): Value {
    Record(REPORT_KEYS, ReportValues(r))
  }

  /** A real aggregate; `order` is the order of its two dictionaries, the lists are sorted listings of its two sets. */
  function ReportOf(a: Aggregate, order: seq<Label>, disagreements: seq<string>, verification: seq<string>): Report {
    Report(a.winner, a.outcome, a.consensus, a.ranking, Dictionary(order, NumberOf(a.points)), Dictionary(order, NumberOf(a.wins)),
           a.tie, a.tied, a.valid, a.counted, a.abstentions, a.invalid, [], a.disagreement, disagreements, verification)
  }

  /** The projected aggregate: everyone tied, yet divided, with every count and every list at its largest. */
  function FullReport(count: nat): Report
    requires count >= 1
  {
    Report(None, TieOutcome, Divided, LabelsOf(count), Dictionary(LabelsOf(count), SameNumber(count * (count - 1))),
           Dictionary(LabelsOf(count), SameNumber(count)), true, LabelsOf(count), count, count, 0, 0, [], true,
           FilledList("disagreement ", LIST_MAX_ITEMS * count, LIST_ITEM_MAX),
           FilledList("verification ", LIST_MAX_ITEMS * count, LIST_ITEM_MAX))
  }

  function VerdictLen(r: Report, depth: nat): nat {
    Len(LabelOrNull(r.winner), depth) + Len(Str(OutcomeText(r.outcome)), depth) + Len(Str(ConsensusText(r.consensus)), depth)
    + Len(Bool(r.tie), depth) + Len(Strings(Labels(r.tied)), depth) + Len(Bool(r.disagreement), depth)
  }

  function CountsLen(r: Report): nat {
    |Decimal(r.valid)| + |Decimal(r.counted)| + |Decimal(r.abstentions)| + |Decimal(r.invalid)|
  }

  function ListsLen(r: Report, depth: nat): nat {
    Len(Strings(r.reasons), depth) + Len(Strings(r.disagreements), depth) + Len(Strings(r.verification), depth)
  }

  lemma ReportValuesLen(r: Report, depth: nat)
    ensures ValuesLen(ReportValues(r), depth)
            == Len(Str(PROTOCOL_ID), depth) + Len(Str(PROTOCOL_VERSION), depth) + VerdictLen(r, depth)
               + Len(Strings(Labels(r.ranking)), depth) + Len(r.points, depth) + Len(r.wins, depth)
               + CountsLen(r) + ListsLen(r, depth)
  {
    EighteenValues(ReportValues(r), depth);
  }

  lemma EighteenValues(v: seq<Value>, depth: nat)
    requires |v| == 18
    ensures ValuesLen(v, depth)
            == Len(v[0], depth) + Len(v[1], depth) + Len(v[2], depth) + Len(v[3], depth) + Len(v[4], depth) + Len(v[5], depth)
               + Len(v[6], depth) + Len(v[7], depth) + Len(v[8], depth) + Len(v[9], depth) + Len(v[10], depth)
               + Len(v[11], depth) + Len(v[12], depth) + Len(v[13], depth) + Len(v[14], depth) + Len(v[15], depth)
               + Len(v[16], depth) + Len(v[17], depth)
  {
    assert v == v[..4] + v[4..8] + v[8..12] + v[12..16] + v[16..];
    FourBlocks(v[..4], v[4..8], v[8..12], v[12..16], v[16..], depth);
    FourFrom(v, 0, depth);
    FourFrom(v, 4, depth);
    FourFrom(v, 8, depth);
    FourFrom(v, 12, depth);
    assert v[16..] == [v[16], v[17]];
    ValuesLen2(v[16], v[17], depth);
  }

  lemma FourFrom(v: seq<Value>, i: nat, depth: nat)
    requires i + 4 <= |v|
    ensures ValuesLen(v[i..i + 4], depth)
            == Len(v[i], depth) + Len(v[i + 1], depth) + Len(v[i + 2], depth) + Len(v[i + 3], depth)
  {
    assert v[i..i + 4] == [v[i], v[i + 1], v[i + 2], v[i + 3]];
    ValuesLen4(v[i], v[i + 1], v[i + 2], v[i + 3], depth);
  }

  lemma FourBlocks(a: seq<Value>, b: seq<Value>, c: seq<Value>, d: seq<Value>, e: seq<Value>, depth: nat)
    ensures ValuesLen(a + b + c + d + e, depth)
            == ValuesLen(a, depth) + ValuesLen(b, depth) + ValuesLen(c, depth) + ValuesLen(d, depth) + ValuesLen(e, depth)
  {
    ValuesConcat(a, b, depth);
    ValuesConcat(a + b, c, depth);
    ValuesConcat(a + b + c, d, depth);
    ValuesConcat(a + b + c + d, e, depth);
  }

  /** What the outcome fields of an aggregate over the first `n` labels can be. */
  ghost predicate Verdict(a: Aggregate, n: nat) {
    if a.counted == 0 then
      a.winner.None? && !a.tie && a.tied == [] && (a.outcome.Abstained? || a.outcome.Invalid?) && a.consensus.NoConsensus?
    else if a.tie then
      && a.winner.None? && a.outcome.TieOutcome? && a.consensus.TieConsensus?
      && Distinct(a.tied) && forall x | x in a.tied :: 0 <= x < n
    else
      && a.winner.Some? && 0 <= a.winner.value < n && a.tied == [] && a.outcome.WinnerOutcome?
      && (a.consensus.Unanimous? || a.consensus.Divided?)
  }

  ghost predicate SameVerdict(r: Report, a: Aggregate) {
    && r.winner == a.winner && r.outcome == a.outcome && r.consensus == a.consensus
    && r.tie == a.tie && r.tied == a.tied && r.disagreement == a.disagreement
  }

  /** Whatever the outcome, its fields take no more than an announced tie of every candidate. */
  lemma VerdictWithin(a: Aggregate, r: Report, n: nat, count: nat, depth: nat)
    requires 1 <= n <= count && Verdict(a, n) && SameVerdict(r, a)
    ensures VerdictLen(r, depth) <= VerdictLen(FullReport(count), depth)
  {
    hide LabelText, Labels, Distinct, Orders;
    OutcomeLen(r.outcome);
    ConsensusLen(r.consensus);
    FullVerdict(count, depth);
    FullRanking(count, depth);
    if r.winner.Some? {
      LabelEscaped(r.winner.value);
      LabelListed(r.winner.value, count, depth);
    }
    SomeLabelsWithin(r.tied, count, depth);
  }

  lemma FullVerdict(count: nat, depth: nat)
    requires count >= 1
    ensures VerdictLen(FullReport(count), depth) == 26 + Len(Strings(Labels(LabelsOf(count))), depth)
  {
    OutcomeLen(TieOutcome);
    ConsensusLen(Divided);
  }

  /** A list of all labels is longer than any one of them. */
  lemma LabelListed(x: Label, count: nat, depth: nat)
    requires 0 <= x < count
    ensures Len(Strings(Labels(LabelsOf(count))), depth) >= LabelLength(x) + 8
  {
    LabelsLen(LabelsOf(count), depth);
    var front, back := LabelsOf(count)[..x], LabelsOf(count)[x + 1..];
    assert LabelsOf(count) == front + [x] + back;
    SumInsert(front, x, back, LabelLine(depth));
    SumZeroOrMore(front + back, LabelLine(depth));
  }

  lemma {:induction false} DistinctWithin(xs: seq<Label>, ys: seq<Label>, f: Label -> int)
    requires Distinct(xs) && (forall x | x in xs :: x in ys) && forall y | y in ys :: f(y) >= 0
    ensures Sum(xs, f) <= Sum(ys, f)
  {
    if xs == [] {
      forall y | y in ys ensures f(y) >= 0 {
      }
      SumZeroOrMore(ys, f);
    } else {
      var i := IndexOf(ys, xs[0]);
      assert xs[0] in xs;
      var front, back := ys[..i], ys[i + 1..];
      assert ys == front + [xs[0]] + back;
      forall x | x in xs[1..] ensures x in front + back {
        assert x in xs && x != xs[0];
      }
      DistinctWithin(xs[1..], front + back, f);
      SumInsert(front, xs[0], back, f);
    }
  }

  /** A list of some labels, none of them twice. */
  lemma SomeLabelsWithin(xs: seq<Label>, count: nat, depth: nat)
    requires Distinct(xs) && count >= 1 && forall x | x in xs :: 0 <= x < count
    ensures Len(Strings(Labels(xs)), depth) <= Len(Strings(Labels(LabelsOf(count))), depth)
  {
    LabelsLen(xs, depth);
    LabelsLen(LabelsOf(count), depth);
    forall x | x in xs ensures x in LabelsOf(count) {
      assert LabelsOf(count)[x] == x;
    }
    DistinctWithin(xs, LabelsOf(count), LabelLine(depth));
    SumZeroOrMore(LabelsOf(count), LabelLine(depth));
  }

  // ----- What the judgments report -----

  ghost predicate ProseWithin(p: Prose) {
    && |p.disagreements| <= LIST_MAX_ITEMS && (forall t | t in p.disagreements :: Escaped(t) <= LIST_ITEM_MAX)
    && |p.verification| <= LIST_MAX_ITEMS && (forall t | t in p.verification :: Escaped(t) <= LIST_ITEM_MAX)
  }

  ghost predicate AllProseWithin(juries: seq<Judgment>) {
    forall j | j in juries :: ProseWithin(j.prose)
  }

  ghost predicate Bounded(s: set<string>, items: nat) {
    |s| <= items && forall t | t in s :: Escaped(t) <= LIST_ITEM_MAX
  }

  lemma {:induction false} ReportedSize(juries: seq<Judgment>, labels: seq<Label>, list: Prose -> set<string>)
    requires forall j | j in juries :: |list(j.prose)| <= LIST_MAX_ITEMS
    ensures |Reported(juries, labels, list)| <= LIST_MAX_ITEMS * |juries|
  {
    if juries != [] {
      var last, front := juries[|juries| - 1], juries[..|juries| - 1];
      ReportedSize(front, labels, list);
      var added := if ValidJudgment(labels, last) then list(last.prose) else {};
      assert last in juries;
      UnionSize(Reported(front, labels, list), added);
    }
  }

  lemma UnionSize<T>(a: set<T>, b: set<T>)
    ensures |a + b| <= |a| + |b|
  {
    assert a + b == a + (b - a);
    assert |a + (b - a)| == |a| + |b - a|;
    assert b == (b - a) + (b * a);
  }

  lemma ReportedBounded(juries: seq<Judgment>, labels: seq<Label>)
    requires AllProseWithin(juries)
    ensures Bounded(Reported(juries, labels, DisagreementsOf), LIST_MAX_ITEMS * |juries|)
    ensures Bounded(Reported(juries, labels, VerificationOf), LIST_MAX_ITEMS * |juries|)
  {
    ReportedSize(juries, labels, DisagreementsOf);
    ReportedSize(juries, labels, VerificationOf);
  }

  /** A list of the elements of a set, each of them once. */
  ghost predicate Listing(xs: seq<string>, s: set<string>) {
    |xs| == |s| && forall x | x in xs :: x in s
  }

  lemma ListWithin(xs: seq<string>, s: set<string>, prefix: string, juries: nat, count: nat, depth: nat)
    requires Listing(xs, s) && Bounded(s, LIST_MAX_ITEMS * juries) && juries <= count && Plain(prefix)
    ensures Len(Strings(xs), depth) <= Len(Strings(FilledList(prefix, LIST_MAX_ITEMS * count, LIST_ITEM_MAX)), depth)
  {
    FilledListFills(prefix, LIST_MAX_ITEMS * count, LIST_ITEM_MAX);
    StringsWithin(xs, FilledList(prefix, LIST_MAX_ITEMS * count, LIST_ITEM_MAX), LIST_ITEM_MAX, depth);
  }

  // ----- The whole council record -----

  /** What the engine hands to the synthesizer: the anonymized aggregate of these judgments over `n` labels. */
  ghost predicate Presented(juries: seq<Judgment>, n: nat, a: Aggregate) {
    && Orders(a.ranking, n)
    && PointsAre(a.points, juries, n) && WinsAre(a.wins, juries, n)
    && a.counted == CountedJudgments(juries, LabelsOf(n)) && a.valid == |juries|
    && a.abstentions == a.valid - a.counted && a.invalid == 0
    && Verdict(a, n)
    && Bounded(a.disagreements, LIST_MAX_ITEMS * |juries|) && Bounded(a.verification, LIST_MAX_ITEMS * |juries|)
  }

  /** Two repetition-free listings of the same labels. */
  lemma SameListing(xs: seq<Label>, ys: seq<Label>)
    requires Distinct(xs) && Distinct(ys) && forall x :: x in xs <==> x in ys
    ensures multiset(xs) == multiset(ys)
  {
    if |ys| <= |xs| {
      Pigeonhole(xs, ys);
    } else {
      Pigeonhole(ys, xs);
    }
  }

  lemma RenamedBack(labels: seq<Label>, m: Mapping, xs: seq<Label>)
    requires Injective(m) && (forall x :: x in labels <==> x in m)
    requires Distinct(xs)
    requires forall y :: y in xs ==> y in ApplyAll(m, labels)
    ensures Distinct(ApplyAll(Reverse(m), xs)) && forall x | x in ApplyAll(Reverse(m), xs) :: x in labels
    ensures forall x | x in m && m[x] in xs :: x in ApplyAll(Reverse(m), xs)
  {
    var r := Reverse(m);
    NamesAreValues(labels, m);
    forall i | 0 <= i < |xs| ensures xs[i] in r {
      var y := xs[i];
      assert y in xs;
      assert y in ApplyAll(m, labels);
      assert y in m.Values;
      var x :| x in m && m[x] == xs[i];
    }
    forall x | x in m && m[x] in xs ensures x in ApplyAll(r, xs) {
      var i := IndexOf(xs, m[x]);
      assert ApplyAll(r, xs)[i] == x;
    }
    forall x | x in ApplyAll(r, xs) ensures x in labels {
      var i := IndexOf(ApplyAll(r, xs), x);
      assert x == r[xs[i]];
    }
  }

  lemma AnonymousRanking(n: nat, m: Mapping, ranking: seq<Label>)
    requires n >= 1 && Injective(m) && (forall x :: x in LabelsOf(n) <==> x in m)
    requires multiset(ranking) == multiset(ApplyAll(m, LabelsOf(n))) && Distinct(ranking)
    ensures Orders(ApplyAll(Reverse(m), ranking), n)
  {
    var back := ApplyAll(Reverse(m), ranking);
    SameMembers(ranking, ApplyAll(m, LabelsOf(n)));
    RenamedBack(LabelsOf(n), m, ranking);
    forall x | x in LabelsOf(n) ensures x in back {
      IndexOfRenamed(LabelsOf(n), m, x);
      assert m[x] in ranking;
    }
    RangeLabels(n);
    SameListing(back, LabelsOf(n));
  }

  lemma AnonymousVerdict(n: nat, m: Mapping, b: Aggregate)
    requires n >= 1 && Injective(m) && (forall x :: x in LabelsOf(n) <==> x in m) && OverValues(b, m)
    requires RightOutcome(ApplyAll(m, LabelsOf(n)), b)
    ensures Verdict(AnonymizeAggregate(b, m), n)
  {
    var names, r := ApplyAll(m, LabelsOf(n)), Reverse(m);
    NamesAreValues(LabelsOf(n), m);
    if b.counted != 0 {
      if b.tie {
        OrderedIsDistinct(map[], map[], b.tied);
        forall y | y in b.tied ensures y in names {
          assert Leads(b, names, y);
        }
        RenamedBack(LabelsOf(n), m, b.tied);
      } else {
        assert Leads(b, names, b.winner.value);
        var x :| x in m && m[x] == b.winner.value;
        assert x in LabelsOf(n);
      }
    }
  }

  lemma AnonymousScores(juries: seq<Judgment>, n: nat, m: Mapping, b: Aggregate)
    requires n >= 1 && AllValid(juries, n)
    requires Injective(m) && (forall x :: x in LabelsOf(n) <==> x in m) && OverValues(b, m)
    requires RightScores(Mapped(juries, Canonical(m)), ApplyAll(m, LabelsOf(n)), b)
    ensures PointsAre(AnonymizeAggregate(b, m).points, juries, n) && WinsAre(AnonymizeAggregate(b, m).wins, juries, n)
    ensures b.counted == CountedJudgments(juries, LabelsOf(n)) && b.valid == |juries| && b.invalid == 0
  {
    var labels, names := LabelsOf(n), ApplyAll(m, LabelsOf(n));
    RangeLabels(n);
    RenamedScores(juries, labels, m);
    SumConstant(juries, Valid(labels), 1);
    forall x | 0 <= x < n
      ensures At(AnonymizeAggregate(b, m).points, x) == Points(juries, labels, x)
      ensures At(AnonymizeAggregate(b, m).wins, x) == Wins(juries, labels, x)
    {
      assert labels[x] in labels;
      IndexOfRenamed(labels, m, x);
      assert m[x] in b.points && m[x] in b.wins;
      assert Reverse(m)[m[x]] == x;
    }
  }

  lemma CanonicalProse(juries: seq<Judgment>, m: Mapping)
    requires AllProseWithin(juries)
    ensures AllProseWithin(Mapped(juries, Canonical(m)))
  {
    var c := Mapped(juries, Canonical(m));
    forall j | j in c ensures ProseWithin(j.prose) {
      var i :| 0 <= i < |c| && c[i] == j;
      assert juries[i] in juries;
    }
  }

  /**
   Canonicalize the judgments, aggregate them under the providers' names, anonymize the
   aggregate: the synthesizer is shown the scores, counts and verdict of the label ballots.
   */
  lemma AnonymizedIsPresented(juries: seq<Judgment>, n: nat, m: Mapping, b: Aggregate)
    requires n >= 1 && AllValid(juries, n) && AllProseWithin(juries)
    requires Injective(m) && (forall x :: x in LabelsOf(n) <==> x in m) && OverValues(b, m)
    requires IsAggregate(Mapped(juries, Canonical(m)), ApplyAll(m, LabelsOf(n)), b)
    ensures Presented(juries, n, AnonymizeAggregate(b, m))
  {
    OrderedIsDistinct(b.points, b.wins, b.ranking);
    AnonymousRanking(n, m, b.ranking);
    AnonymousScores(juries, n, m, b);
    AnonymousVerdict(n, m, b);
    CanonicalProse(juries, m);
    ReportedBounded(Mapped(juries, Canonical(m)), ApplyAll(m, LabelsOf(n)));
  }

  function Anonymous(m: Mapping): Judgment -> Judgment
    requires Injective(m)
  {
    j => AnonymizeJury(j, m)
  }

  /** The votes shown to the synthesizer are the jurors' own. */
  lemma VotesReturned(juries: seq<Judgment>, n: nat, m: Mapping)
    requires n >= 1 && AllValid(juries, n) && Injective(m) && (forall x :: x in LabelsOf(n) <==> x in m)
    ensures Mapped(Mapped(juries, Canonical(m)), Anonymous(m)) == juries
  {
    forall i | 0 <= i < |juries| ensures AnonymizeJury(CanonicalizeJury(juries[i], m), m) == juries[i] {
      assert juries[i] in juries;
      AnonymizeUndoesCanonicalize(LabelsOf(n), juries[i], m);
    }
  }

  // ----- The synthesis prompt -----

  const COUNCIL_KEYS := ["question", "candidates", "aggregate", "jury_votes"]

  function CouncilValues(question: string, candidates: Value, aggregate: Value, votes: Value): (v: seq<Value>)
    ensures |v| == 4
  {
    [Str(question), candidates, aggregate, votes]
  }

  function SynthesisChars(fixed: nat, council: seq<Value>): nat
    requires |council| == 4
  {
    fixed + Len(Record(COUNCIL_KEYS, council), 0)
  }

  function ProjectedCouncil(question: string, count: nat): (v: seq<Value>)
    requires count >= 1
    ensures |v| == 4
  {
    CouncilValues(question, Candidates(LabelsOf(count), MaximumArtifact), ReportValue(FullReport(count)), FullVotes(count))
  }

  lemma SynthesisDifference(fixed: nat, u: seq<Value>, v: seq<Value>)
    requires |u| == |v| == 4
    ensures SynthesisChars(fixed, v) - SynthesisChars(fixed, u) == ValuesLen(v, 1) - ValuesLen(u, 1)
  {
    RecordDifference(COUNCIL_KEYS, u, v, 0);
  }

  /** What the aggregate takes too much, the votes take too little. */
  lemma CouncilValuesWithin(question: string, c: Value, a: Value, v: Value, c': Value, a': Value, v': Value, named: int, all: int)
    requires Len(c, 1) <= Len(c', 1) && Len(a, 1) + named <= Len(a', 1) + all && Len(v, 1) - named <= Len(v', 1) - all
    ensures ValuesLen(CouncilValues(question, c, a, v), 1) <= ValuesLen(CouncilValues(question, c', a', v'), 1)
  {
    FourValues(CouncilValues(question, c, a, v), 1);
    FourValues(CouncilValues(question, c', a', v'), 1);
  }

  lemma CountsWithin(k: nat, c: nat, count: nat)
    requires c <= k <= count && count >= 1
    ensures |Decimal(k)| + |Decimal(c)| + |Decimal(k - c)|
            <= 2 * |Decimal(count)| + |Decimal(0)| + count - c
  {
    DecimalMonotone(k, count);
    DecimalMonotone(c, count);
    DecimalShort(k - c);
  }

  lemma CountedAtMost(juries: seq<Judgment>, n: nat)
    ensures 0 <= CountedJudgments(juries, LabelsOf(n)) <= |juries|
  {
    SumAtMost(juries, One(LabelsOf(n)), 1);
    SumZeroOrMore(juries, One(LabelsOf(n)));
  }

  /** Everything the theorem is about: a jury, its aggregate as presented, and how its sets and dictionaries are listed. */
  ghost predicate Council(juries: seq<Judgment>, n: nat, count: nat, a: Aggregate, order: seq<Label>,
                          disagreements: seq<string>, verification: seq<string>) {
    && 1 <= n <= count && |juries| <= count && AllValid(juries, n)
    && Presented(juries, n, a) && Orders(order, n)
    && Listing(disagreements, a.disagreements) && Listing(verification, a.verification)
  }

  predicate PartsWithin(r: Report, s: Report, depth: nat, named: int, all: int, slack: int) {
    && VerdictLen(r, depth) <= VerdictLen(s, depth)
    && Len(Strings(Labels(r.ranking)), depth) <= Len(Strings(Labels(s.ranking)), depth)
    && Len(r.points, depth) <= Len(s.points, depth)
    && Len(r.wins, depth) + named + slack <= Len(s.wins, depth) + all
    && CountsLen(r) <= CountsLen(s) + slack
    && ListsLen(r, depth) <= ListsLen(s, depth)
  }

  lemma ReportsWithin(r: Report, s: Report, depth: nat, named: int, all: int, slack: int)
    requires PartsWithin(r, s, depth, named, all, slack)
    ensures ValuesLen(ReportValues(r), depth) + named <= ValuesLen(ReportValues(s), depth) + all
  {
    ReportValuesLen(r, depth);
    ReportValuesLen(s, depth);
  }

  lemma ListsWithin(juries: seq<Judgment>, n: nat, count: nat, a: Aggregate, order: seq<Label>,
                    disagreements: seq<string>, verification: seq<string>, depth: nat)
    requires Council(juries, n, count, a, order, disagreements, verification)
    ensures ListsLen(ReportOf(a, order, disagreements, verification), depth) <= ListsLen(FullReport(count), depth)
  {
    ListWithin(disagreements, a.disagreements, "disagreement ", |juries|, count, depth);
    ListWithin(verification, a.verification, "verification ", |juries|, count, depth);
  }

  lemma CountsPart(juries: seq<Judgment>, n: nat, count: nat, a: Aggregate, order: seq<Label>,
                   disagreements: seq<string>, verification: seq<string>)
    requires Council(juries, n, count, a, order, disagreements, verification)
    ensures CountsLen(ReportOf(a, order, disagreements, verification)) <= CountsLen(FullReport(count)) + count - a.counted
    ensures a.counted <= count
  {
    CountedAtMost(juries, n);
    CountsWithin(|juries|, a.counted, count);
  }

  lemma PointsPart(juries: seq<Judgment>, n: nat, count: nat, a: Aggregate, order: seq<Label>,
                   disagreements: seq<string>, verification: seq<string>, depth: nat)
    requires Council(juries, n, count, a, order, disagreements, verification)
    ensures Len(ReportOf(a, order, disagreements, verification).points, depth) <= Len(FullReport(count).points, depth)
  {
    PointsWithin(juries, a.points, order, n, count, depth);
  }

  lemma WinsPart(juries: seq<Judgment>, n: nat, count: nat, a: Aggregate, order: seq<Label>,
                 disagreements: seq<string>, verification: seq<string>, depth: nat)
    requires 1 <= n <= count && |juries| <= count && Orders(order, n) && AllValid(juries, n)
    requires WinsAre(a.wins, juries, n) && a.counted == CountedJudgments(juries, LabelsOf(n))
    ensures Len(ReportOf(a, order, disagreements, verification).wins, depth) + Sum(juries, WinnerTextOf)
            + count - a.counted
            <= Len(FullReport(count).wins, depth) + Sum(LabelsOf(count), LabelLengths)
  {
    WinsWithin(juries, a.wins, a.counted, order, n, count, depth);
  }

  lemma AllParts(juries: seq<Judgment>, n: nat, count: nat, a: Aggregate, order: seq<Label>,
                 disagreements: seq<string>, verification: seq<string>, depth: nat)
    requires Council(juries, n, count, a, order, disagreements, verification)
    ensures PartsWithin(ReportOf(a, order, disagreements, verification), FullReport(count), depth,
                        Sum(juries, WinnerTextOf), Sum(LabelsOf(count), LabelLengths),
                        count - a.counted)
  {
    VerdictWithin(a, ReportOf(a, order, disagreements, verification), n, count, depth);
    LabelsWithin(a.ranking, n, count, depth);
    PointsPart(juries, n, count, a, order, disagreements, verification, depth);
    WinsPart(juries, n, count, a, order, disagreements, verification, depth);
    CountsPart(juries, n, count, a, order, disagreements, verification);
    ListsWithin(juries, n, count, a, order, disagreements, verification, depth);
  }

  /** The aggregate may exceed the projected one, by no more than its winners' names fall short of every label. */
  lemma AggregateWithin(juries: seq<Judgment>, n: nat, count: nat, a: Aggregate, order: seq<Label>,
                        disagreements: seq<string>, verification: seq<string>, depth: nat)
    requires Council(juries, n, count, a, order, disagreements, verification)
    ensures ValuesLen(ReportValues(ReportOf(a, order, disagreements, verification)), depth) + Sum(juries, WinnerTextOf)
            <= ValuesLen(ReportValues(FullReport(count)), depth) + Sum(LabelsOf(count), LabelLengths)
  {
    AllParts(juries, n, count, a, order, disagreements, verification, depth);
    ReportsWithin(ReportOf(a, order, disagreements, verification), FullReport(count), depth,
                  Sum(juries, WinnerTextOf), Sum(LabelsOf(count), LabelLengths), count - a.counted);
  }

  lemma ReportLen(r: Report, s: Report, depth: nat)
    ensures Len(ReportValue(s), depth) - Len(ReportValue(r), depth)
            == ValuesLen(ReportValues(s), depth + 1) - ValuesLen(ReportValues(r), depth + 1)
  {
    RecordDifference(REPORT_KEYS, ReportValues(r), ReportValues(s), depth);
  }

  lemma ReportFits(juries: seq<Judgment>, n: nat, count: nat, a: Aggregate, order: seq<Label>,
                   disagreements: seq<string>, verification: seq<string>)
    requires Council(juries, n, count, a, order, disagreements, verification)
    ensures Len(ReportValue(ReportOf(a, order, disagreements, verification)), 1) + Sum(juries, WinnerTextOf)
            <= Len(ReportValue(FullReport(count)), 1) + Sum(LabelsOf(count), LabelLengths)
  {
    AggregateWithin(juries, n, count, a, order, disagreements, verification, 2);
    ReportLen(ReportOf(a, order, disagreements, verification), FullReport(count), 1);
  }

  lemma CouncilFits(question: string, candidates: seq<Label>, artifact: Label -> Artifact,
                    juries: seq<Judgment>, n: nat, count: nat, a: Aggregate, order: seq<Label>,
                    disagreements: seq<string>, verification: seq<string>)
    requires Council(juries, n, count, a, order, disagreements, verification)
    requires Orders(candidates, n) && AllAccepted(artifact, n)
    ensures ValuesLen(CouncilValues(question, Candidates(candidates, artifact),
                                    ReportValue(ReportOf(a, order, disagreements, verification)), Votes(juries)), 1)
            <= ValuesLen(ProjectedCouncil(question, count), 1)
  {
    CandidatesWithin(candidates, n, count, artifact, 1);
    ReportFits(juries, n, count, a, order, disagreements, verification);
    VotesWithin(juries, n, count, 1);
    CouncilValuesWithin(question, Candidates(candidates, artifact), ReportValue(ReportOf(a, order, disagreements, verification)),
                        Votes(juries), Candidates(LabelsOf(count), MaximumArtifact), ReportValue(FullReport(count)), FullVotes(count),
                        Sum(juries, WinnerTextOf), Sum(LabelsOf(count), LabelLengths));
  }

  /**
   The projected synthesis prompt is at least as long as the prompt of any council: any question, any number of
   candidates up to the number of providers, any accepted proposals, any valid judgments, any aggregate of them.
   */
  lemma SynthesisWithin(fixed: nat, question: string, candidates: seq<Label>, artifact: Label -> Artifact,
                        juries: seq<Judgment>, n: nat, count: nat, a: Aggregate, order: seq<Label>,
                        disagreements: seq<string>, verification: seq<string>)
    requires Council(juries, n, count, a, order, disagreements, verification)
    requires Orders(candidates, n) && AllAccepted(artifact, n)
    ensures SynthesisChars(fixed, CouncilValues(question, Candidates(candidates, artifact),
                                                ReportValue(ReportOf(a, order, disagreements, verification)), Votes(juries)))
            <= SynthesisChars(fixed, ProjectedCouncil(question, count))
  {
    CouncilFits(question, candidates, artifact, juries, n, count, a, order, disagreements, verification);
    SynthesisDifference(fixed, CouncilValues(question, Candidates(candidates, artifact),
      ReportValue(ReportOf(a, order, disagreements, verification)), Votes(juries)), ProjectedCouncil(question, count));
  }
}
