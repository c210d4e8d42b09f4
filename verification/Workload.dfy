/**
 The workload preflight (src/model_council/workload.py). A plan within its limits rules out that any later prompt of
 the run is too long for its stage, and the reported capacity for plain questions is exact.
 */
module Workload {
  import opened Wrappers
  import opened Sums
  import opened Borda
  import opened Blinding
  import opened Json
  import opened PromptSizes
  import opened SynthesisSize
  import opened RepairSize

  datatype PromptStage = ProposalPrompt | JuryPrompt | SynthesisPrompt | RepairPrompt

  /** The fixed text of each stage: system prompt, user template and delimiter markers, without the payloads. */
  datatype Templates = Templates(proposal: nat, jury: nat, synthesis: nat, repair: nat)

  /** The part of the run policy that sizes depend on. */
  datatype Limits = Limits(questionChars: int, promptChars: int, repairs: bool)

  function Stages(limits: Limits): set<PromptStage> {
    {ProposalPrompt, JuryPrompt, SynthesisPrompt} + if limits.repairs then {RepairPrompt} else {}
  }

  function StageChars(s: PromptStage, t: Templates, question: string, count: nat): nat
    requires count >= 1
  {
    match s
    case ProposalPrompt => ProposalChars(t.proposal, question)
    case JuryPrompt => JuryChars(t.jury, question, LabelsOf(count), MaximumArtifact)
    case SynthesisPrompt => SynthesisChars(t.synthesis, ProjectedCouncil(question, count))
    case RepairPrompt => SmallObjectShort(); RepairChars(t.repair, ProjectedRepair(count, SMALL_OBJECT))
  }

  /** Any way of assigning a size to each stage's prompt. */
  type Sizing = (PromptStage, string) -> int

  /** The sizes the preflight projects for this many providers. */
  function Projected(t: Templates, count: nat): Sizing
    requires count >= 1
  {
    (s: PromptStage, question: string) => StageChars(s, t, question, count)
  }

  /** `_stage_prompt_chars` */
  function StagePromptChars(size: Sizing, question: string, limits: Limits): map<PromptStage, int> {
    map s | s in Stages(limits) :: size(s, question)
  }

  // ----- How a question makes prompts grow -----

  function Growth(s: PromptStage): nat {
    if s.RepairPrompt? then 0 else 1
  }

  /** Each stage but the repair carries the question exactly once. */
  lemma StageGrowth(s: PromptStage, t: Templates, q: string, q': string, count: nat)
    requires count >= 1
    ensures StageChars(s, t, q', count) - StageChars(s, t, q, count) == Growth(s) * (Escaped(q') - Escaped(q))
  {
    match s
    case ProposalPrompt =>
      ProposalGrowth(t.proposal, q);
      ProposalGrowth(t.proposal, q');
    case JuryPrompt =>
      JuryDifference(t.jury, q, LabelsOf(count), MaximumArtifact, q', LabelsOf(count), MaximumArtifact);
    case SynthesisPrompt =>
      SynthesisDifference(t.synthesis, ProjectedCouncil(q, count), ProjectedCouncil(q', count));
      FourValues(ProjectedCouncil(q, count), 1);
      FourValues(ProjectedCouncil(q', count), 1);
    case RepairPrompt =>
  }

  /** The preflight accepts the question: `within_limits`, the text encoding apart. */
  ghost predicate WithinLimits(size: Sizing, question: string, limits: Limits) {
    && |question| <= limits.questionChars
    && forall s | s in Stages(limits) :: size(s, question) <= limits.promptChars
  }

  // ----- Projections dominate prompts -----

  lemma ProposalFits(question: string, count: nat, t: Templates, limits: Limits)
    requires count >= 1 && WithinLimits(Projected(t, count), question, limits)
    ensures ProposalChars(t.proposal, question) <= limits.promptChars
  {
    assert ProposalPrompt in Stages(limits);
    assert Projected(t, count)(ProposalPrompt, question) == ProposalChars(t.proposal, question);
  }

  /** Whichever proposals were accepted, in whichever order a juror is shown them. */
  lemma JuryFits(question: string, count: nat, t: Templates, limits: Limits,
                 order: seq<Label>, n: nat, artifact: Label -> Artifact)
    requires count >= 1 && WithinLimits(Projected(t, count), question, limits)
    requires Orders(order, n) && n <= count && AllAccepted(artifact, n)
    ensures JuryChars(t.jury, question, order, artifact) <= limits.promptChars
  {
    JuryWithin(t.jury, question, order, n, count, artifact);
    assert JuryPrompt in Stages(limits);
    assert Projected(t, count)(JuryPrompt, question) == JuryChars(t.jury, question, LabelsOf(count), MaximumArtifact);
  }

  lemma SynthesisPresentedFits(question: string, count: nat, t: Templates, limits: Limits,
                               candidates: seq<Label>, n: nat, artifact: Label -> Artifact, juries: seq<Judgment>,
                               a: Aggregate, order: seq<Label>, disagreements: seq<string>, verification: seq<string>)
    requires count >= 1 && WithinLimits(Projected(t, count), question, limits)
    requires Council(juries, n, count, a, order, disagreements, verification)
    requires Orders(candidates, n) && AllAccepted(artifact, n)
    ensures SynthesisChars(t.synthesis, CouncilValues(question, Candidates(candidates, artifact),
              ReportValue(ReportOf(a, order, disagreements, verification)), Votes(juries))) <= limits.promptChars
  {
    SynthesisWithin(t.synthesis, question, candidates, artifact, juries, n, count, a, order, disagreements, verification);
    assert SynthesisPrompt in Stages(limits);
    assert Projected(t, count)(SynthesisPrompt, question) == SynthesisChars(t.synthesis, ProjectedCouncil(question, count));
  }

  /** The blinded tally of a run: valid label ballots, tallied under the providers' names. */
  ghost predicate Tallied(juries: seq<Judgment>, n: nat, m: Mapping, b: Aggregate) {
    && n >= 1 && AllValid(juries, n) && AllProseWithin(juries)
    && Injective(m) && (forall x :: x in LabelsOf(n) <==> x in m) && OverValues(b, m)
    && IsAggregate(Mapped(juries, Canonical(m)), ApplyAll(m, LabelsOf(n)), b)
  }

  /**
   Whichever proposals and judgments were accepted: the prompt built from the anonymized aggregate and the anonymized
   votes is within the limit.
   */
  lemma SynthesisFits(question: string, count: nat, t: Templates, limits: Limits,
                      candidates: seq<Label>, n: nat, artifact: Label -> Artifact, juries: seq<Judgment>, m: Mapping,
                      b: Aggregate, order: seq<Label>, disagreements: seq<string>, verification: seq<string>)
    requires count >= 1 && WithinLimits(Projected(t, count), question, limits)
    requires n <= count && |juries| <= count && Tallied(juries, n, m, b)
    requires Orders(candidates, n) && AllAccepted(artifact, n)
    requires Orders(order, n) && Listing(disagreements, b.disagreements) && Listing(verification, b.verification)
    ensures SynthesisChars(t.synthesis, CouncilValues(question, Candidates(candidates, artifact),
              ReportValue(ReportOf(AnonymizeAggregate(b, m), order, disagreements, verification)),
              Votes(Mapped(Mapped(juries, Canonical(m)), Anonymous(m))))) <= limits.promptChars
  {
    AnonymizedIsPresented(juries, n, m, b);
    VotesReturned(juries, n, m);
    SynthesisPresentedFits(question, count, t, limits, candidates, n, artifact, juries, AnonymizeAggregate(b, m), order,
                           disagreements, verification);
  }

  lemma RepairFits(question: string, count: nat, t: Templates, limits: Limits,
                   labels: seq<Label>, n: nat, j: Judgment, flaw: Flaw, before: string, text: string, after: string)
    requires count >= 1 && WithinLimits(Projected(t, count), question, limits) && limits.repairs
    requires 1 <= n <= count && Orders(labels, n) && ValidDecision(labels, j)
    requires Repairable(before, text, after, j.ranking)
    ensures RepairChars(t.repair, RepairValues(labels, VoteOf(j), ErrorText(flaw), before + text + after)) <= limits.promptChars
  {
    RepairWithin(t.repair, labels, n, count, j, flaw, before, text, after);
    assert RepairPrompt in Stages(limits);
    assert Projected(t, count)(RepairPrompt, question) == RepairChars(t.repair, ProjectedRepair(count, SMALL_OBJECT));
  }

  // ----- Capacity for plain questions -----

  lemma PlainStage(s: PromptStage, t: Templates, q: string, count: nat)
    requires count >= 1 && Plain(q)
    ensures StageChars(s, t, q, count) == StageChars(s, t, "x", count) + Growth(s) * (|q| - 1)
  {
    StageGrowth(s, t, "x", q, count);
    EscapedPlain(q);
    EscapedPlain("x");
  }

  lemma AppendedPlain(s: PromptStage, t: Templates, q: string, more: string, count: nat)
    requires count >= 1 && Plain(more)
    ensures StageChars(s, t, q + more, count) == StageChars(s, t, q, count) + Growth(s) * |more|
  {
    StageGrowth(s, t, q, q + more, count);
    EscapedConcat(q, more);
    EscapedPlain(more);
  }

  /** Plain text costs a stage the same per character wherever it is added. */
  ghost predicate Linear(size: Sizing) {
    && (forall s, q: string, h: string | Plain(h) :: size(s, q + h) == size(s, q) + Growth(s) * |h|)
    && (forall s, q: string | Plain(q) :: size(s, q) == size(s, "x") + Growth(s) * (|q| - 1))
  }

  lemma ProjectedIsLinear(t: Templates, count: nat)
    requires count >= 1
    ensures Linear(Projected(t, count))
  {
    var size := Projected(t, count);
    forall s, q: string, h: string | Plain(h) ensures size(s, q + h) == size(s, q) + Growth(s) * |h| {
      AppendedPlain(s, t, q, h, count);
    }
    forall s, q: string | Plain(q) ensures size(s, q) == size(s, "x") + Growth(s) * (|q| - 1) {
      PlainStage(s, t, q, count);
    }
  }

  /** A stage's limit as a number of plain characters; None when no question can exceed it. */
  function StageCapacity(one: int, amount: nat, limit: int): Option<int> {
    if amount == 0 then
      if one <= limit then None else Some(0)
    else
      var room := (limit - (one - amount)) / amount;
      Some(if room < 0 then 0 else room)
  }

  /** A plain question passes a stage exactly when it is no longer than the stage's capacity. */
  lemma CapacityExact(size: Sizing, s: PromptStage, q: string, limit: int)
    requires Linear(size) && Plain(q) && |q| >= 1
    ensures var c := StageCapacity(size(s, "x"), Growth(s), limit);
      size(s, q) <= limit <==> c.None? || |q| <= c.value
  {
    assert size(s, q) == size(s, "x") + Growth(s) * (|q| - 1);
  }

  datatype Capacity = Capacity(effective: int, headroom: int, limiting: set<PromptStage>)

  /** The largest plain question that passes everywhere is `effective` characters long. */
  ghost predicate IsEffective(effective: int, size: Sizing, limits: Limits) {
    && effective >= 0
    && forall q: string | Plain(q) && |q| >= 1 :: WithinLimits(size, q, limits) <==> |q| <= effective
  }

  /** How many more plain characters the question takes: none at all when it does not pass now. */
  ghost predicate IsHeadroom(headroom: int, size: Sizing, question: string, limits: Limits) {
    && headroom >= 0
    && (WithinLimits(size, question, limits) ==>
          forall h: string | Plain(h) :: WithinLimits(size, question + h, limits) <==> |h| <= headroom)
    && (!WithinLimits(size, question, limits) ==> headroom == 0)
  }

  /** The stages that stop a plain question one character longer than `effective`. */
  ghost predicate AreLimiting(limiting: set<PromptStage>, effective: int, size: Sizing, limits: Limits) {
    forall s | s in Stages(limits) ::
      s in limiting <==> forall q: string | Plain(q) && |q| == effective + 1 :: size(s, q) > limits.promptChars
  }

  ghost predicate IsCapacity(c: Capacity, size: Sizing, question: string, limits: Limits) {
    IsEffective(c.effective, size, limits) && IsHeadroom(c.headroom, size, question, limits)
    && AreLimiting(c.limiting, c.effective, size, limits)
  }

  /** `stage_capacities` */
  method StageCapacities(one: map<PromptStage, int>, growth: map<PromptStage, nat>, limit: int)
    returns (c: map<PromptStage, Option<int>>)
    requires one.Keys == growth.Keys
    ensures c.Keys == one.Keys && forall s | s in c :: c[s] == StageCapacity(one[s], growth[s], limit)
  {
    c := map[];
    var todo := one.Keys;
    while exists s :: s in todo
      invariant todo <= one.Keys
      invariant c.Keys == one.Keys - todo && forall s | s in c :: c[s] == StageCapacity(one[s], growth[s], limit)
      decreases todo
    {
      var s :| s in todo;
      c := c[s := StageCapacity(one[s], growth[s], limit)];
      todo := todo - {s};
    }
    assert todo == {};
  }

  ghost predicate IsTightest(least: int, c: map<PromptStage, Option<int>>, limit: int) {
    && least <= limit && (forall s | s in c && c[s].Some? :: least <= c[s].value)
    && (least == limit || exists s :: s in c && c[s] == Some(least))
  }

  /** The question limit or the tightest stage, whichever is less. */
  method Tightest(c: map<PromptStage, Option<int>>, limit: int) returns (least: int)
    ensures IsTightest(least, c, limit)
  {
    least := limit;
    var todo := c.Keys;
    while exists s :: s in todo
      invariant todo <= c.Keys
      invariant least <= limit && forall s | s in c.Keys - todo && c[s].Some? :: least <= c[s].value
      invariant least == limit || exists s :: s in c && c[s] == Some(least)
      decreases todo
    {
      var s :| s in todo;
      if c[s].Some? && c[s].value < least {
        least := c[s].value;
      }
      todo := todo - {s};
    }
    assert todo == {};
  }

  /** What one stage leaves of the headroom. */
  function StageHeadroom(headroom: int, current: int, amount: nat, limit: int): int {
    if current > limit then 0
    else if amount > 0 && (limit - current) / amount < headroom then (limit - current) / amount
    else headroom
  }

  /** No stage allows less, and one of them, or the start, allows no more. */
  ghost predicate IsLeastRoom(headroom: int, start: int, current: map<PromptStage, int>, growth: map<PromptStage, nat>, limit: int)
    requires current.Keys == growth.Keys
  {
    && 0 <= headroom <= start
    && (forall s | s in current :: headroom <= StageHeadroom(headroom, current[s], growth[s], limit))
    && (headroom == start || exists s :: s in current && headroom == StageHeadroom(headroom + 1, current[s], growth[s], limit))
  }

  method Headroom(current: map<PromptStage, int>, growth: map<PromptStage, nat>, start: int, limit: int)
    returns (headroom: int)
    requires current.Keys == growth.Keys && start >= 0
    ensures IsLeastRoom(headroom, start, current, growth, limit)
  {
    headroom := start;
    var todo := current.Keys;
    while exists s :: s in todo
      invariant todo <= current.Keys
      invariant 0 <= headroom <= start
      invariant forall s | s in current.Keys - todo :: headroom <= StageHeadroom(headroom, current[s], growth[s], limit)
      invariant headroom == start || exists s :: s in current && headroom == StageHeadroom(headroom + 1, current[s], growth[s], limit)
      decreases todo
    {
      var s :| s in todo;
      headroom := StageHeadroom(headroom, current[s], growth[s], limit);
      todo := todo - {s};
    }
    assert todo == {};
  }

  /** `c` holds every stage's capacity for plain questions. */
  ghost predicate Capacities(c: map<PromptStage, Option<int>>, size: Sizing, limits: Limits) {
    && c.Keys == Stages(limits)
    && forall s | s in c :: c[s] == StageCapacity(size(s, "x"), Growth(s), limits.promptChars)
  }

  lemma TightestIsEffective(effective: int, c: map<PromptStage, Option<int>>, size: Sizing, limits: Limits)
    requires Linear(size) && limits.questionChars >= 1 && Capacities(c, size, limits)
    requires IsTightest(effective, c, limits.questionChars)
    ensures IsEffective(effective, size, limits)
  {
    forall q: string | Plain(q) && |q| >= 1 ensures WithinLimits(size, q, limits) <==> |q| <= effective {
      forall s | s in Stages(limits)
        ensures size(s, q) <= limits.promptChars <==> c[s].None? || |q| <= c[s].value
      {
        CapacityExact(size, s, q, limits.promptChars);
      }
    }
  }

  function Xs(n: nat): (s: string)
    ensures |s| == n && Plain(s)
  {
    seq(n, i => 'x')
  }

  lemma TightestLimits(effective: int, c: map<PromptStage, Option<int>>, size: Sizing, limits: Limits)
    requires Linear(size) && limits.questionChars >= 1 && Capacities(c, size, limits)
    requires IsTightest(effective, c, limits.questionChars)
    ensures AreLimiting((set s | s in c && c[s] == Some(effective)), effective, size, limits)
  {
    forall s, q: string | s in Stages(limits) && Plain(q) && |q| == effective + 1
      ensures c[s] == Some(effective) <==> size(s, q) > limits.promptChars
    {
      CapacityExact(size, s, q, limits.promptChars);
    }
    assert Plain(Xs(effective + 1)) && |Xs(effective + 1)| == effective + 1;
  }

  /** The growth of every stage, as far as the code can see it. */
  ghost predicate Grows(growth: map<PromptStage, nat>, limits: Limits) {
    growth.Keys == Stages(limits) && forall s | s in growth :: growth[s] == Growth(s)
  }

  function QuestionRoom(question: string, limits: Limits): nat {
    if limits.questionChars < |question| then 0 else limits.questionChars - |question|
  }

  lemma LeastRoomIsHeadroom(headroom: int, growth: map<PromptStage, nat>, size: Sizing, question: string, limits: Limits)
    requires Linear(size) && Grows(growth, limits)
    requires IsLeastRoom(headroom, QuestionRoom(question, limits), StagePromptChars(size, question, limits), growth, limits.promptChars)
    ensures IsHeadroom(headroom, size, question, limits)
  {
    var current := StagePromptChars(size, question, limits);
    if WithinLimits(size, question, limits) {
      forall h: string | Plain(h) ensures WithinLimits(size, question + h, limits) <==> |h| <= headroom {
        forall s | s in Stages(limits)
          ensures size(s, question + h) == size(s, question) + Growth(s) * |h|
        {
        }
        forall s | s in current && |h| <= headroom ensures size(s, question + h) <= limits.promptChars {
          assert headroom <= StageHeadroom(headroom, current[s], growth[s], limits.promptChars);
        }
        if headroom != QuestionRoom(question, limits) && |h| > headroom {
          var s :| s in current && headroom == StageHeadroom(headroom + 1, current[s], growth[s], limits.promptChars);
          assert size(s, question + h) > limits.promptChars;
        }
      }
    }
  }

  lemma GrowthIsRegular(size: Sizing, s: PromptStage, question: string)
    requires Linear(size)
    ensures size(s, "xx") - size(s, "x") == Growth(s) && size(s, question + "x") - size(s, question) == Growth(s)
  {
    assert Plain("x") && Plain("xx");
  }

  /** The growth of every stage, if it is the same on two plain questions and on the question itself. */
  method MeasuredGrowth(size: Sizing, question: string, limits: Limits, current: map<PromptStage, int>)
    returns (growth: Option<map<PromptStage, nat>>)
    requires Linear(size) && current == StagePromptChars(size, question, limits)
    ensures growth.Some? && Grows(growth.value, limits)
  {
    var one := StagePromptChars(size, "x", limits);
    var two := StagePromptChars(size, "xx", limits);
    var appended := StagePromptChars(size, question + "x", limits);
    forall s | s in Stages(limits)
      ensures two[s] - one[s] == Growth(s) && appended[s] - current[s] == Growth(s)
    {
      GrowthIsRegular(size, s, question);
    }
    growth := None;
    if && one.Keys == two.Keys == current.Keys == appended.Keys
       && forall s | s in current :: two[s] - one[s] >= 0 && appended[s] - current[s] == two[s] - one[s]
    {
      growth := Some(map s | s in current :: two[s] - one[s]);
    }
  }

  /**
   `_plain_question_capacity`: the growth of every stage is regular, so a capacity is always reported; and it is exact.
   */
  method PlainQuestionCapacity(size: Sizing, question: string, limits: Limits, current: map<PromptStage, int>)
    returns (r: Option<Capacity>)
    requires Linear(size) && limits.questionChars >= 1 && current == StagePromptChars(size, question, limits)
    ensures r.Some? && IsCapacity(r.value, size, question, limits)
  {
    var growth := MeasuredGrowth(size, question, limits, current);
    r := None;
    if growth.Some? {
      var capacities := StageCapacities(StagePromptChars(size, "x", limits), growth.value, limits.promptChars);
      var effective := Tightest(capacities, limits.questionChars);
      var limiting := set s | s in capacities && capacities[s] == Some(effective);
      var headroom := Headroom(current, growth.value, QuestionRoom(question, limits), limits.promptChars);
      TightestIsEffective(effective, capacities, size, limits);
      TightestLimits(effective, capacities, size, limits);
      LeastRoomIsHeadroom(headroom, growth.value, size, question, limits);
      r := Some(Capacity(effective, headroom, limiting));
    }
  }

  // ----- The plan -----

  datatype Plan = Plan(
    sizes: map<PromptStage, int>, questionLimitExceeded: bool, exceeded: set<PromptStage>, withinLimits: bool,
    capacity: Option<Capacity>)

  /** Nothing but white space, for a given notion of it. */
  predicate Blank(question: string, isSpace: char -> bool) {
    forall c | c in question :: isSpace(c)
  }

  /** What a plan says of a question. */
  ghost predicate PlanFor(plan: Plan, size: Sizing, question: string, encodable: bool, limits: Limits) {
    && (plan.withinLimits <==> encodable && WithinLimits(size, question, limits))
    && (plan.questionLimitExceeded <==> |question| > limits.questionChars)
    && (forall s :: s in plan.exceeded <==> s in Stages(limits) && size(s, question) > limits.promptChars)
    && plan.capacity.Some? && IsCapacity(plan.capacity.value, size, question, limits)
  }

  method Exceeded(size: Sizing, question: string, limits: Limits, sizes: map<PromptStage, int>)
    returns (exceeded: set<PromptStage>, within: bool)
    requires sizes == StagePromptChars(size, question, limits)
    ensures forall s :: s in exceeded <==> s in Stages(limits) && size(s, question) > limits.promptChars
    ensures within <==> WithinLimits(size, question, limits)
  {
    exceeded := set s | s in sizes && sizes[s] > limits.promptChars;
    within := |question| <= limits.questionChars && !exists s :: s in exceeded;
  }

  method PlanWorkload(size: Sizing, question: string, encodable: bool, limits: Limits) returns (plan: Plan)
    requires Linear(size) && limits.questionChars >= 1
    ensures PlanFor(plan, size, question, encodable, limits)
  {
    var sizes := StagePromptChars(size, question, limits);
    var capacity := PlainQuestionCapacity(size, question, limits, sizes);
    var exceeded, within := Exceeded(size, question, limits, sizes);
    plan := Plan(sizes, |question| > limits.questionChars, exceeded, encodable && within, capacity);
  }

  /** `estimate_workload`; `encodable` says that the question has no unpaired surrogate. */
  method EstimateWorkload(question: string, encodable: bool, isSpace: char -> bool, count: nat, t: Templates, limits: Limits)
    returns (r: Result<Plan>)
    requires limits.questionChars >= 1 && !isSpace('x')
    ensures r.Ok? <==> !Blank(question, isSpace) && count >= 1
    ensures r.Ok? ==> PlanFor(r.value, Projected(t, count), question, encodable, limits)
  {
    if Blank(question, isSpace) {
      return Err("question must be a non-empty string");
    }
    if count == 0 {
      return Err("candidate_labels must not be empty");
    }
    ProjectedIsLinear(t, count);
    var plan := PlanWorkload(Projected(t, count), question, encodable, limits);
    r := Ok(plan);
  }
}
