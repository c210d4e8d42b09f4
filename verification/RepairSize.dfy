/**
 The size of the jury repair prompt. It quotes a raw response of any text, in which every
 character may cost six, but the response also has to contain the decision it is repaired to.
 */
module RepairSize {
  import opened Wrappers
  import opened Sums
  import opened Borda
  import opened Json
  import opened PromptSizes
  import opened SynthesisSize

  const INPUT_MAX := 6000
  const ERROR_MAX := 500

  // ----- Validation errors that leave something to repair -----

  datatype ListField = MaterialDisagreements | VerificationNeeded

  datatype ListFlaw = NotAnArray | EmptyItem | TooManyItems | ItemTooLong | ItemTooLongSerialized | Duplicates

  /** A response whose keys and decision are valid can only fail in its prose. */
  datatype Flaw = RationaleEmpty | RationaleTooLong | RationaleTooLongSerialized | Surrogates | InList(field: ListField, flaw: ListFlaw)

  function FieldText(f: ListField): string {
    match f
    case MaterialDisagreements => "material_disagreements"
    case VerificationNeeded => "verification_needed"
  }

  function ListErrorText(f: ListFlaw): string {
    match f
    case NotAnArray => " must be a JSON array"
    case EmptyItem => " must contain only non-empty strings"
    case TooManyItems => " must contain at most 4 items"
    case ItemTooLong => " items must be at most 280 characters"
    case ItemTooLongSerialized => " items must fit within 280 serialized JSON characters"
    case Duplicates => " must not contain duplicates"
  }

  function ErrorText(f: Flaw): string {
    match f
    case RationaleEmpty => "rationale must be a non-empty string"
    case RationaleTooLong => "rationale must be at most 1000 characters"
    case RationaleTooLongSerialized => "rationale must fit within 1000 serialized JSON characters"
    case Surrogates => "text must not contain unpaired Unicode surrogates"
    case InList(field, flaw) => FieldText(field) + ListErrorText(flaw)
  }

  lemma ErrorLength(f: Flaw)
    ensures |ErrorText(f)| <= 100
  {
  }

  lemma ShortText(s: string)
    requires |s| <= 100
    ensures Escaped(s) <= 600
  {
    EscapedAtMost(s, 6);
  }

  // ----- Responses -----

  function Nuls(n: nat): (s: string)
    ensures |s| == n
  {
    seq(n, i => 0 as char)
  }

  lemma {:induction false} NulsCost(n: nat)
    ensures Escaped(Nuls(n)) == 6 * n
  {
    if n > 0 {
      assert Nuls(n)[1..] == Nuls(n - 1);
      NulsCost(n - 1);
    }
  }

  lemma {:induction false} EscapedAtLeast(s: string)
    ensures Escaped(s) >= |s|
  {
    if s != "" {
      EscapedAtLeast(s[1..]);
    }
  }

  /** The compact object of the projection. */
  const SMALL_OBJECT: string :=
    "{\"winner\":null,\"ranking\":[],\"confidence\":\"low\",\"abstain\":true,\"rationale\":\"\","
    + "\"material_disagreements\":[],\"verification_needed\":[]}"

  lemma SmallObjectShort()
    ensures |SMALL_OBJECT| <= 130
  {
  }

  /** A text behind as many NULs as the limit leaves room for. */
  function Padded(s: string): string
    requires |s| <= INPUT_MAX
  {
    Nuls(INPUT_MAX - |s|) + s
  }

  lemma PaddedCost(s: string)
    requires |s| <= 130
    ensures Escaped(Padded(s)) >= 6 * INPUT_MAX - 650
  {
    EscapedConcat(Nuls(INPUT_MAX - |s|), s);
    NulsCost(INPUT_MAX - |s|);
    EscapedAtLeast(s);
  }

  /** JSON text: white space apart it holds no control character, so each of its characters costs at most two (RFC 8259, sections 2 and 7). */
  predicate JsonText(s: string) {
    forall c | c in s :: CharCost(c) <= 2
  }

  /** The labels stand in the text one after another, each as a string token: its characters or longer escapes for them, in quotes. */
  ghost predicate Spells(text: string, order: seq<Label>)
    decreases |order|
  {
    order == []
    || exists before: string, token: string, after: string ::
         text == before + token + after && |token| >= LabelLength(order[0]) + 2 && Spells(after, order[1..])
  }

  function Quoted(i: Label): int {
    LabelLength(i) + 2
  }

  lemma {:induction false} SpellsIsLong(text: string, order: seq<Label>)
    requires Spells(text, order)
    ensures |text| >= Sum(order, Quoted)
    decreases |order|
  {
    if order != [] {
      var before: string, token: string, after: string :|
        text == before + token + after && |token| >= LabelLength(order[0]) + 2 && Spells(after, order[1..]);
      SpellsIsLong(after, order[1..]);
    }
  }

  /** A response whose one object, in the middle, holds this ranking. */
  ghost predicate Repairable(before: string, text: string, after: string, ranking: seq<Label>) {
    && |before| + |text| + |after| <= INPUT_MAX
    && JsonText(text) && Spells(text, ranking)
  }

  lemma ResponseCost(before: string, text: string, after: string, ranking: seq<Label>)
    requires Repairable(before, text, after, ranking)
    ensures Escaped(before + text + after) <= 6 * INPUT_MAX - 4 * Sum(ranking, Quoted)
  {
    EscapedConcat(before + text, after);
    EscapedConcat(before, text);
    EscapedAtMost(before, 6);
    EscapedAtMost(text, 2);
    EscapedAtMost(after, 6);
    SpellsIsLong(text, ranking);
  }

  // ----- The prompt -----

  const REPAIR_KEYS := ["allowed_candidate_labels", "immutable_decision", "validation_error", "original_response"]

  function RepairValues(order: seq<Label>, decision: Value, error: string, response: string): (v: seq<Value>)
    ensures |v| == 4
  {
    [Strings(Labels(order)), decision, Str(error), Str(response)]
  }

  function RepairChars(fixed: nat, payload: seq<Value>): nat
    requires |payload| == 4
  {
    fixed + Len(Record(REPAIR_KEYS, payload), 0)
  }

  function ProjectedDecision(): Value {
    Vote(None, [], Low, true)
  }

  /** The projection around an object: an error and a response of NULs. */
  function ProjectedRepair(count: nat, small: string): (v: seq<Value>)
    requires |small| <= INPUT_MAX
    ensures |v| == 4
  {
    RepairValues(LabelsOf(count), ProjectedDecision(), Nuls(ERROR_MAX), Padded(small))
  }

  lemma RepairDifference(fixed: nat, u: seq<Value>, v: seq<Value>)
    requires |u| == |v| == 4
    ensures RepairChars(fixed, v) - RepairChars(fixed, u) == ValuesLen(v, 1) - ValuesLen(u, 1)
  {
    RecordDifference(REPAIR_KEYS, u, v, 0);
  }

  lemma PayloadWithin(u: seq<Value>, v: seq<Value>, excess: int)
    requires |u| == |v| == 4 && Len(u[0], 1) <= Len(v[0], 1) && Len(u[1], 1) <= Len(v[1], 1) + excess
    requires Len(u[2], 1) + Len(u[3], 1) + excess <= Len(v[2], 1) + Len(v[3], 1)
    ensures ValuesLen(u, 1) <= ValuesLen(v, 1)
  {
    FourValues(u, 1);
    FourValues(v, 1);
  }

  /** A decision longer than the projected one is named in the response, where it costs less than what it displaces. */
  lemma {:induction false} NamesPaidFor(ranking: seq<Label>)
    requires forall x | x in ranking :: x >= 0
    ensures Sum(ranking, LabelLine(2)) + (if ranking == [] then 0 else LabelLength(ranking[0])) <= 4 * Sum(ranking, Quoted)
  {
    if ranking != [] {
      var x := ranking[0];
      assert x in ranking;
      LabelBounds(x, x + 1);
      forall y | y in ranking[1..] ensures y >= 0 {
        assert y in ranking;
      }
      NamesPaidFor(ranking[1..]);
    }
  }

  lemma DecisionDifference(j: Judgment, depth: nat)
    ensures Len(VoteOf(j), depth) - Len(ProjectedDecision(), depth)
            == Len(LabelOrNull(j.winner), depth + 1) - 4 + Len(Strings(Labels(j.ranking)), depth + 1) - 2
               + |ConfidenceText(j.confidence)| - 3 + Len(Bool(j.abstain), depth + 1) - 4
  {
    VoteDifference(VoteValues(None, [], Low, true), VoteValues(j.winner, j.ranking, j.confidence, j.abstain), depth);
    ConfidenceLen(j.confidence);
    ConfidenceLen(Low);
  }

  lemma DecisionWithin(labels: seq<Label>, n: nat, j: Judgment)
    requires n >= 1 && Orders(labels, n) && ValidDecision(labels, j)
    ensures Len(VoteOf(j), 1) <= Len(ProjectedDecision(), 1) + 6 + 4 * Sum(j.ranking, Quoted)
  {
    DecisionDifference(j, 1);
    ConfidenceLen(j.confidence);
    LabelsLen(j.ranking, 2);
    OrderMembers(labels, n);
    NamesPaidFor(j.ranking);
    if j.winner.Some? {
      LabelEscaped(j.winner.value);
    }
  }

  /** The NULs of the projected error make up for every other difference. */
  lemma TextsWithin(error: string, before: string, text: string, after: string, ranking: seq<Label>, small: string)
    requires Repairable(before, text, after, ranking) && |error| <= 100 && |small| <= 130
    ensures Escaped(error) + Escaped(before + text + after) + 6 + 4 * Sum(ranking, Quoted)
            <= Escaped(Nuls(ERROR_MAX)) + Escaped(Padded(small))
  {
    ShortText(error);
    NulsCost(ERROR_MAX);
    ResponseCost(before, text, after, ranking);
    PaddedCost(small);
  }

  lemma PayloadFits(labels: seq<Label>, n: nat, count: nat, j: Judgment, error: string,
                    before: string, text: string, after: string, small: string)
    requires 1 <= n <= count && Orders(labels, n) && ValidDecision(labels, j)
    requires Repairable(before, text, after, j.ranking) && |error| <= 100 && |small| <= 130
    ensures ValuesLen(RepairValues(labels, VoteOf(j), error, before + text + after), 1)
            <= ValuesLen(ProjectedRepair(count, small), 1)
  {
    LabelsWithin(labels, n, count, 1);
    DecisionWithin(labels, n, j);
    TextsWithin(error, before, text, after, j.ranking, small);
    PayloadWithin(RepairValues(labels, VoteOf(j), error, before + text + after), ProjectedRepair(count, small),
                  6 + 4 * Sum(j.ranking, Quoted));
  }

  lemma ShortErrorWithin(fixed: nat, labels: seq<Label>, n: nat, count: nat, j: Judgment, error: string,
                         before: string, text: string, after: string, small: string)
    requires 1 <= n <= count && Orders(labels, n) && ValidDecision(labels, j)
    requires Repairable(before, text, after, j.ranking) && |error| <= 100 && |small| <= 130
    ensures RepairChars(fixed, RepairValues(labels, VoteOf(j), error, before + text + after))
            <= RepairChars(fixed, ProjectedRepair(count, small))
  {
    PayloadFits(labels, n, count, j, error, before, text, after, small);
    RepairDifference(fixed, RepairValues(labels, VoteOf(j), error, before + text + after), ProjectedRepair(count, small));
  }

  /**
   The projected repair prompt is at least as long as any repair prompt that can be built: any response of at most
   6000 characters holding a valid decision, and any of the errors such a response can be refused for.
   */
  lemma RepairWithin(fixed: nat, labels: seq<Label>, n: nat, count: nat, j: Judgment, flaw: Flaw,
                     before: string, text: string, after: string)
    requires 1 <= n <= count && Orders(labels, n) && ValidDecision(labels, j)
    requires Repairable(before, text, after, j.ranking)
    ensures |SMALL_OBJECT| <= INPUT_MAX
    ensures RepairChars(fixed, RepairValues(labels, VoteOf(j), ErrorText(flaw), before + text + after))
            <= RepairChars(fixed, ProjectedRepair(count, SMALL_OBJECT))
  {
    SmallObjectShort();
    ErrorLength(flaw);
    ShortErrorWithin(fixed, labels, n, count, j, ErrorText(flaw), before, text, after, SMALL_OBJECT);
  }
}
