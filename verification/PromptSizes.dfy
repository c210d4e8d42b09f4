/**
 The sizes of the proposal and jury prompts (src/model_council/workload.py and
 protocol.py): what the preflight projects bounds what the stage can really build.
 Template texts enter by their length alone.
 */
module PromptSizes {
  import opened Sums
  import opened Borda
  import opened Json

  // ----- Labels -----

  const PREFIX := "CANDIDATE_"

  /** `candidate_label`: the prefix and a number of at least two digits. It refuses a negative index, which never occurs here. */
  function LabelText(i: Label): string {
    if i < 0 then "" else
    var number := Decimal(i + 1);
    PREFIX + if |number| < 2 then "0" + number else number
  }

  function LabelLength(i: Label): nat {
    |LabelText(i)|
  }

  lemma PlainLabel(i: Label)
    ensures Plain(LabelText(i))
  {
    if i >= 0 {
      DecimalPlain(i + 1);
    }
  }

  lemma LabelEscaped(i: Label)
    ensures Escaped(LabelText(i)) == LabelLength(i)
  {
    PlainLabel(i);
    EscapedPlain(LabelText(i));
  }

  /** The length of a label with the most digits a run of this many providers can have. */
  function LongestLabel(count: nat): nat {
    10 + if |Decimal(count)| < 2 then 2 else |Decimal(count)|
  }

  lemma LabelBounds(i: Label, count: nat)
    requires 0 <= i < count
    ensures 12 <= LabelLength(i) <= LongestLabel(count)
  {
    DecimalMonotone(i + 1, count);
  }

  /** The labels of a presentation order or a ranking. */
  function Labels(order: seq<Label>): (r: seq<string>)
    ensures |r| == |order| && forall i | 0 <= i < |r| :: r[i] == LabelText(order[i])
  {
    seq(|order|, i requires 0 <= i < |order| => LabelText(order[i]))
  }

  /** One line per label in a list at this depth. */
  function LabelLine(depth: nat): Label -> int {
    (i: Label) => LabelLength(i) + 2 * depth + 6
  }

  lemma {:induction false} LabelItems(order: seq<Label>, depth: nat)
    ensures Sum(Labels(order), StringLine(depth)) == Sum(order, LabelLine(depth))
  {
    if order != [] {
      assert Labels(order)[1..] == Labels(order[1..]);
      LabelEscaped(order[0]);
      LabelItems(order[1..], depth);
    }
  }

  lemma LabelsLen(order: seq<Label>, depth: nat)
    ensures Len(Strings(Labels(order)), depth) == if order == [] then 2 else 2 * depth + 2 + Sum(order, LabelLine(depth))
  {
    StringsLen(Labels(order), depth);
    LabelItems(order, depth);
  }

  // ----- Sums over the candidates -----

  /** A listing of the first `n` labels, in any order. */
  predicate Orders(order: seq<Label>, n: nat) {
    multiset(order) == multiset(LabelsOf(n))
  }

  lemma OrderMembers(order: seq<Label>, n: nat)
    requires Orders(order, n)
    ensures |order| == n && forall x :: x in order <==> 0 <= x < n
  {
    SameMembers(order, LabelsOf(n));
    forall x ensures x in order <==> 0 <= x < n {
      if 0 <= x < n {
        assert LabelsOf(n)[x] in LabelsOf(n);
      }
    }
  }

  /** Whatever the order, and with no more candidates than providers, the total is no larger. */
  lemma OrderedSum(order: seq<Label>, n: nat, count: nat, f: Label -> int, g: Label -> int)
    requires Orders(order, n) && n <= count
    requires forall i | 0 <= i < n :: f(i) <= g(i)
    requires forall i | n <= i < count :: g(i) >= 0
    ensures Sum(order, f) <= Sum(LabelsOf(count), g)
  {
    SumPermutation(order, LabelsOf(n), f);
    SumMonotone(LabelsOf(n), f, g);
    var rest := LabelsOf(count)[n..];
    assert LabelsOf(count) == LabelsOf(n) + rest;
    SumConcat(LabelsOf(n), rest, g);
    SumZeroOrMore(rest, g);
  }

  lemma {:induction false} SumZeroOrMore<T>(xs: seq<T>, f: T -> int)
    requires forall x | x in xs :: f(x) >= 0
    ensures Sum(xs, f) >= 0
  {
    if xs != [] {
      assert f(xs[0]) >= 0;
      SumZeroOrMore(xs[1..], f);
    }
  }

  /** A list of labels is longest when every provider has one. */
  lemma LabelsWithin(order: seq<Label>, n: nat, count: nat, depth: nat)
    requires Orders(order, n) && n <= count
    ensures Len(Strings(Labels(order)), depth) <= Len(Strings(Labels(LabelsOf(count))), depth)
  {
    LabelsLen(order, depth);
    LabelsLen(LabelsOf(count), depth);
    OrderedSum(order, n, count, LabelLine(depth), LabelLine(depth));
    OrderMembers(order, n);
    SumZeroOrMore(LabelsOf(count), LabelLine(depth));
  }

  // ----- Dictionaries with a label for a key -----

  function Dictionary(order: seq<Label>, value: Label -> Value): Value {
    Obj(seq(|order|, i requires 0 <= i < |order| => Field(LabelText(order[i]), value(order[i]))))
  }

  function EntryLine(value: Label -> Value, depth: nat): Label -> int {
    (i: Label) => FieldLen(Field(LabelText(i), value(i)), depth + 1)
  }

  lemma {:induction false} DictionaryFields(order: seq<Label>, value: Label -> Value, depth: nat)
    ensures FieldsLen(Dictionary(order, value).fields, depth + 1) == Sum(order, EntryLine(value, depth))
  {
    if order != [] {
      assert Dictionary(order, value).fields[1..] == Dictionary(order[1..], value).fields;
      DictionaryFields(order[1..], value, depth);
    }
  }

  lemma DictionaryLen(order: seq<Label>, value: Label -> Value, depth: nat)
    ensures Len(Dictionary(order, value), depth)
            == if order == [] then 2 else 2 * depth + 2 + Sum(order, EntryLine(value, depth))
  {
    DictionaryFields(order, value, depth);
  }

  /** A dictionary is longest when every provider has an entry and every entry is longest. */
  lemma DictionaryWithin(order: seq<Label>, n: nat, count: nat, u: Label -> Value, v: Label -> Value, depth: nat)
    requires Orders(order, n) && n <= count
    requires forall i | 0 <= i < n :: Len(u(i), depth + 1) <= Len(v(i), depth + 1)
    ensures Len(Dictionary(order, u), depth) <= Len(Dictionary(LabelsOf(count), v), depth)
  {
    DictionaryLen(order, u, depth);
    DictionaryLen(LabelsOf(count), v, depth);
    forall i ensures EntryLine(v, depth)(i) >= 0 {
    }
    OrderedSum(order, n, count, EntryLine(u, depth), EntryLine(v, depth));
    OrderMembers(order, n);
    SumZeroOrMore(LabelsOf(count), EntryLine(v, depth));
  }

  // ----- Proposal artifacts -----

  const OUTCOME_MAX := 600
  const REASON_MAX_ITEMS := 4
  const REASON_MAX := 350
  const UNCERTAINTY_MAX_ITEMS := 3
  const UNCERTAINTY_MAX := 280
  const VERIFICATION_MAX_ITEMS := 4
  const VERIFICATION_MAX := 280

  datatype Artifact = Artifact(outcome: string, reasons: seq<string>, uncertainty: seq<string>, verification: seq<string>)

  predicate Fits(xs: seq<string>, items: nat, size: nat) {
    |xs| <= items && forall s | s in xs :: Escaped(s) <= size
  }

  predicate Fills(xs: seq<string>, items: nat, size: nat) {
    |xs| == items && forall s | s in xs :: Escaped(s) == size
  }

  lemma FitsWithin(xs: seq<string>, ys: seq<string>, items: nat, size: nat, depth: nat)
    requires Fits(xs, items, size) && Fills(ys, items, size)
    ensures Len(Strings(xs), depth) <= Len(Strings(ys), depth)
  {
    StringsWithin(xs, ys, size, depth);
  }

  /** What `parse_proposal` accepts, as far as sizes go: its bounds are on the serialized text. */
  predicate Accepted(a: Artifact) {
    && Escaped(a.outcome) <= OUTCOME_MAX
    && Fits(a.reasons, REASON_MAX_ITEMS, REASON_MAX)
    && Fits(a.uncertainty, UNCERTAINTY_MAX_ITEMS, UNCERTAINTY_MAX)
    && Fits(a.verification, VERIFICATION_MAX_ITEMS, VERIFICATION_MAX)
  }

  const ARTIFACT_KEYS := ["outcome", "evidence_and_reasoning", "uncertainty", "verification_needed"]

  function ArtifactValues(a: Artifact): (r: seq<Value>)
    ensures |r| == 4
  {
    [Str(a.outcome), Strings(a.reasons), Strings(a.uncertainty), Strings(a.verification)]
  }

  function ArtifactValue(a: Artifact): Value {
    Record(ARTIFACT_KEYS, ArtifactValues(a))
  }

  /** `_filled`: the prefix cut or padded with x to the length. */
  function Filled(prefix: string, length: nat): string {
    if |prefix| >= length then prefix[..length] else prefix + seq(length - |prefix|, i => 'x')
  }

  lemma FilledExactly(prefix: string, length: nat)
    requires Plain(prefix)
    ensures |Filled(prefix, length)| == length && Escaped(Filled(prefix, length)) == length
  {
    EscapedPlain(Filled(prefix, length));
  }

  function FilledList(prefix: string, items: nat, length: nat): (r: seq<string>)
    ensures |r| == items && forall i | 0 <= i < items :: r[i] == Filled(prefix + Decimal(i + 1) + ": ", length)
  {
    seq(items, i requires 0 <= i < items => Filled(prefix + Decimal(i + 1) + ": ", length))
  }

  lemma FilledListFills(prefix: string, items: nat, length: nat)
    requires Plain(prefix)
    ensures Fills(FilledList(prefix, items, length), items, length)
  {
    forall i | 0 <= i < items ensures Escaped(FilledList(prefix, items, length)[i]) == length {
      DecimalPlain(i + 1);
      FilledExactly(prefix + Decimal(i + 1) + ": ", length);
    }
  }

  /** `maximum_proposal_artifact` */
  function MaximumArtifact(i: Label): Artifact {
    var name := LabelText(i);
    Artifact(Filled(name + " outcome: ", OUTCOME_MAX),
             FilledList(name + " reason ", REASON_MAX_ITEMS, REASON_MAX),
             FilledList(name + " uncertainty ", UNCERTAINTY_MAX_ITEMS, UNCERTAINTY_MAX),
             FilledList(name + " verification ", VERIFICATION_MAX_ITEMS, VERIFICATION_MAX))
  }

  predicate AtEveryBound(m: Artifact) {
    && Escaped(m.outcome) == OUTCOME_MAX
    && Fills(m.reasons, REASON_MAX_ITEMS, REASON_MAX)
    && Fills(m.uncertainty, UNCERTAINTY_MAX_ITEMS, UNCERTAINTY_MAX)
    && Fills(m.verification, VERIFICATION_MAX_ITEMS, VERIFICATION_MAX)
  }

  /** The preflight's filler stands exactly at every bound, whatever the label. */
  lemma MaximumAtEveryBound(i: Label)
    ensures AtEveryBound(MaximumArtifact(i))
  {
    var name := LabelText(i);
    PlainLabel(i);
    FilledExactly(name + " outcome: ", OUTCOME_MAX);
    FilledListFills(name + " reason ", REASON_MAX_ITEMS, REASON_MAX);
    FilledListFills(name + " uncertainty ", UNCERTAINTY_MAX_ITEMS, UNCERTAINTY_MAX);
    FilledListFills(name + " verification ", VERIFICATION_MAX_ITEMS, VERIFICATION_MAX);
  }

  lemma ArtifactValuesWithin(a: Artifact, m: Artifact, depth: nat)
    requires Accepted(a) && AtEveryBound(m)
    ensures ValuesLen(ArtifactValues(a), depth) <= ValuesLen(ArtifactValues(m), depth)
  {
    ValuesLen4(Str(a.outcome), Strings(a.reasons), Strings(a.uncertainty), Strings(a.verification), depth);
    ValuesLen4(Str(m.outcome), Strings(m.reasons), Strings(m.uncertainty), Strings(m.verification), depth);
    FitsWithin(a.reasons, m.reasons, REASON_MAX_ITEMS, REASON_MAX, depth);
    FitsWithin(a.uncertainty, m.uncertainty, UNCERTAINTY_MAX_ITEMS, UNCERTAINTY_MAX, depth);
    FitsWithin(a.verification, m.verification, VERIFICATION_MAX_ITEMS, VERIFICATION_MAX, depth);
  }

  /** No accepted proposal is longer than one at every bound. */
  lemma ArtifactWithin(a: Artifact, m: Artifact, depth: nat)
    requires Accepted(a) && AtEveryBound(m)
    ensures Len(ArtifactValue(a), depth) <= Len(ArtifactValue(m), depth)
  {
    RecordDifference(ARTIFACT_KEYS, ArtifactValues(a), ArtifactValues(m), depth);
    ArtifactValuesWithin(a, m, depth + 1);
  }

  // ----- The candidates of a prompt -----

  function AsValue(artifact: Label -> Artifact): Label -> Value {
    (i: Label) => ArtifactValue(artifact(i))
  }

  /** The dictionary label -> artifact, in the order the labels are presented. */
  function Candidates(order: seq<Label>, artifact: Label -> Artifact): Value {
    Dictionary(order, AsValue(artifact))
  }

  predicate AllAccepted(artifact: Label -> Artifact, n: nat) {
    forall i | 0 <= i < n :: Accepted(artifact(i))
  }

  /** The candidates of a prompt are longest when every provider has one, at every bound. */
  lemma CandidatesWithin(order: seq<Label>, n: nat, count: nat, artifact: Label -> Artifact, depth: nat)
    requires Orders(order, n) && n <= count && AllAccepted(artifact, n)
    ensures Len(Candidates(order, artifact), depth) <= Len(Candidates(LabelsOf(count), MaximumArtifact), depth)
  {
    forall i | 0 <= i < n
      ensures Len(AsValue(artifact)(i), depth + 1) <= Len(AsValue(MaximumArtifact)(i), depth + 1)
    {
      MaximumAtEveryBound(i);
      ArtifactWithin(artifact(i), MaximumArtifact(i), depth + 1);
    }
    DictionaryWithin(order, n, count, AsValue(artifact), AsValue(MaximumArtifact), depth);
  }

  // ----- The proposal and jury prompts -----

  const QUESTION_KEYS := ["question"]
  const EVALUATION_KEYS := ["question", "candidates"]

  /** `fixed` is everything but the payloads: system prompt, user template and the two delimiter markers. */
  function ProposalChars(fixed: nat, question: string): nat {
    fixed + Len(Record(QUESTION_KEYS, [Str(question)]), 0)
  }

  function JuryChars(fixed: nat, question: string, order: seq<Label>, artifact: Label -> Artifact): nat {
    fixed + Len(Strings(Labels(order)), 0)
    + Len(Record(EVALUATION_KEYS, [Str(question), Candidates(order, artifact)]), 0)
  }

  /** A question adds what it takes in JSON, and nothing else. */
  lemma ProposalGrowth(fixed: nat, question: string)
    ensures ProposalChars(fixed, question) == ProposalChars(fixed, "") + Escaped(question)
  {
    RecordDifference(QUESTION_KEYS, [Str("")], [Str(question)], 0);
    ValuesLen1(Str(""), 1);
    ValuesLen1(Str(question), 1);
  }

  lemma JuryDifference(fixed: nat, q: string, order: seq<Label>, artifact: Label -> Artifact,
                       q': string, order': seq<Label>, artifact': Label -> Artifact)
    ensures JuryChars(fixed, q', order', artifact') - JuryChars(fixed, q, order, artifact)
            == Len(Strings(Labels(order')), 0) - Len(Strings(Labels(order)), 0)
               + Escaped(q') - Escaped(q)
               + Len(Candidates(order', artifact'), 1) - Len(Candidates(order, artifact), 1)
  {
    PairDifference(EVALUATION_KEYS, Str(q), Candidates(order, artifact), Str(q'), Candidates(order', artifact'), 0);
  }

  /** The projected jury prompt is at least as long as any jury prompt, for any presentation order of the candidates. */
  lemma JuryWithin(fixed: nat, question: string, order: seq<Label>, n: nat, count: nat, artifact: Label -> Artifact)
    requires Orders(order, n) && n <= count && AllAccepted(artifact, n)
    ensures JuryChars(fixed, question, order, artifact) <= JuryChars(fixed, question, LabelsOf(count), MaximumArtifact)
  {
    JuryDifference(fixed, question, order, artifact, question, LabelsOf(count), MaximumArtifact);
    LabelsWithin(order, n, count, 0);
    CandidatesWithin(order, n, count, artifact, 1);
  }
}
