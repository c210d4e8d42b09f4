/**
 The preflight and the run joined: when the plan is within its limits, no prompt that a run
 can build, in any stage of any history, is longer than the engine lets a stage send.
 */
module PromptLimits {
  import opened Wrappers
  import opened Sums
  import opened Borda
  import opened Blinding
  import opened Records
  import opened World
  import opened Locks
  import opened Prompts
  import opened Runs
  import opened Panels
  import opened StageSteps
  import opened PromptSizes
  import Y = SynthesisSize
  import R = RepairSize
  import P = Workload

  // ----- How the length of a prompt comes about -----

  /** The artifact that stands under each label of a presentation order. */
  function Placed(order: seq<Label>, artifacts: seq<Content>, parsed: Content -> Artifact): Label -> Artifact
    requires |order| == |artifacts|
  {
    (x: Label) => if x in order then parsed(artifacts[IndexOf(order, x)]) else Artifact("", [], [], [])
  }

  ghost predicate ProposalSized(cfg: Config, t: P.Templates, marker: string) {
    cfg.promptChars(ProposalPrompt(marker)) == ProposalChars(t.proposal, cfg.question)
  }

  ghost predicate JurySized(cfg: Config, t: P.Templates, marker: string, parsed: Content -> Artifact) {
    forall order: seq<Label>, artifacts: seq<Content> | |order| == |artifacts| ::
      cfg.promptChars(JuryPrompt(marker, order, artifacts))
      == JuryChars(t.jury, cfg.question, order, Placed(order, artifacts, parsed))
  }

  /** The prompt quotes the response, in which the decision's object stands, and one of the errors it can have. */
  ghost predicate RepairSizedOf(cfg: Config, t: P.Templates, marker: string, c: Content, n: nat)
    requires c.decoded.Some?
  {
    exists flaw: R.Flaw, before: string, text: string, after: string ::
      && c.text == before + text + after && R.Repairable(before, text, after, c.decoded.value.ranking)
      && cfg.promptChars(RepairPrompt(marker, c, n))
         == R.RepairChars(t.repair, R.RepairValues(LabelsOf(n), Y.VoteOf(c.decoded.value), R.ErrorText(flaw), before + text + after))
  }

  /** Of the responses on record. */
  ghost predicate RepairSized(cfg: Config, w: World, t: P.Templates, marker: string) {
    forall p | SucceededAt(w, Slot(Jury, p)) && Repairable(w, ContentAt(w, Slot(Jury, p))) ::
      RepairSizedOf(cfg, t, marker, ContentAt(w, Slot(Jury, p)), CandidateCount(w))
  }

  /** The prompt shows the aggregate of the ballots and the ballots themselves, all of it back under the labels. */
  ghost predicate SynthesisSizedOf(cfg: Config, t: P.Templates, marker: string, parsed: Content -> Artifact,
                                   mapping: seq<Provider>, artifacts: seq<Content>, records: seq<JuryRecord>)
    requires Distinct(mapping) && |artifacts| == |mapping|
  {
    var n, m := |mapping|, MappingOf(mapping);
    exists b: Aggregate, order: seq<Label>, disagreements: seq<string>, verification: seq<string> ::
      && IsAggregate(Ballots(records), mapping, b) && OverValues(b, m)
      && Orders(order, n) && Y.Listing(disagreements, b.disagreements) && Y.Listing(verification, b.verification)
      && cfg.promptChars(SynthesisPrompt(marker, artifacts, records))
         == Y.SynthesisChars(t.synthesis, Y.CouncilValues(cfg.question, Candidates(LabelsOf(n), Placed(LabelsOf(n), artifacts, parsed)),
              Y.ReportValue(Y.ReportOf(AnonymizeAggregate(b, m), order, disagreements, verification)),
              Y.Votes(Mapped(Ballots(records), Y.Anonymous(m)))))
  }

  ghost predicate SynthesisSized(cfg: Config, t: P.Templates, marker: string, parsed: Content -> Artifact, mapping: seq<Provider>)
    requires Distinct(mapping)
  {
    forall artifacts: seq<Content>, records: seq<JuryRecord> | |artifacts| == |mapping| ::
      SynthesisSizedOf(cfg, t, marker, parsed, mapping, artifacts, records)
  }

  /** What the parsers accepted stays within their bounds, for every response on record. */
  ghost predicate Parsed(w: World, parsed: Content -> Artifact) {
    forall s | SucceededAt(w, s) ::
      && (ContentAt(w, s).isProposal ==> Accepted(parsed(ContentAt(w, s))))
      && (ContentAt(w, s).decoded.Some? && ContentAt(w, s).decoded.value.prose.bounded ==>
            Y.ProseWithin(ContentAt(w, s).decoded.value.prose))
  }

  /** The engine measures prompts as the preflight does, with the run's marker as long as the one the preflight assumes. */
  ghost predicate Measured(cfg: Config, w: World, t: P.Templates, parsed: Content -> Artifact) {
    && MarkerOf(w).Some?
    && ProposalSized(cfg, t, MarkerOf(w).value)
    && JurySized(cfg, t, MarkerOf(w).value, parsed)
    && RepairSized(cfg, w, t, MarkerOf(w).value)
    && (Namespace(w).Some? && Distinct(Namespace(w).value.mapping) ==>
          SynthesisSized(cfg, t, MarkerOf(w).value, parsed, Namespace(w).value.mapping))
  }

  /** The plan for this run is within the limits of its policy. */
  ghost predicate Planned(cfg: Config, t: P.Templates, limits: P.Limits) {
    && limits.promptChars == cfg.maxPromptChars && limits.repairs == cfg.repairAttempts
    && cfg.roster != [] && P.WithinLimits(P.Projected(t, |cfg.roster|), cfg.question, limits)
  }

  // ----- How many candidates and ballots there can be -----

  lemma AtMostAsMany(xs: seq<Label>, ys: seq<Label>)
    requires Distinct(xs) && forall x | x in xs :: x in ys
    ensures |xs| <= |ys|
  {
    var one := (x: Label) => 1;
    Y.DistinctWithin(xs, ys, one);
    SumConstant(xs, one, 1);
    SumConstant(ys, one, 1);
  }

  lemma RecordsAtMost(cfg: Config, mapping: seq<Provider>, records: seq<JuryRecord>, failures: seq<StageFailure>)
    requires PanelOk(cfg, mapping, records, failures)
    ensures |records| <= |cfg.roster|
  {
    forall p | p in JurorsOf(records) ensures p in cfg.roster {
      var i := IndexOf(JurorsOf(records), p);
      assert records[i] in records;
    }
    AtMostAsMany(JurorsOf(records), cfg.roster);
  }

  // ----- The ballots as the jurors cast them -----

  ghost function LabelBallots(cfg: Config, w: World, records: seq<JuryRecord>): seq<Judgment> {
    if records == [] then []
    else (if JudgmentAt(cfg, w, records[0].juror).Some? then [JudgmentAt(cfg, w, records[0].juror).value] else [])
         + LabelBallots(cfg, w, records[1..])
  }

  ghost predicate RecordsFaithful(cfg: Config, w: World, mapping: seq<Provider>, records: seq<JuryRecord>) {
    forall r | r in records :: r.judgment == Named(JudgmentAt(cfg, w, r.juror), mapping)
  }

  lemma MappedConcat<A, B>(xs: seq<A>, ys: seq<A>, f: A -> B)
    ensures Mapped(xs + ys, f) == Mapped(xs, f) + Mapped(ys, f)
  {
  }

  lemma RecordsFaithfulTail(cfg: Config, w: World, mapping: seq<Provider>, records: seq<JuryRecord>)
    requires RecordsFaithful(cfg, w, mapping, records) && records != []
    ensures records[0].judgment == Named(JudgmentAt(cfg, w, records[0].juror), mapping)
    ensures RecordsFaithful(cfg, w, mapping, records[1..])
  {
    assert records[0] in records;
  }

  lemma OneMoreRenamed(mapping: seq<Provider>, records: seq<JuryRecord>, own: Option<Judgment>, rest: seq<Judgment>)
    requires records != [] && records[0].judgment == Named(own, mapping)
    requires Mapped(rest, Canonical(MappingOf(mapping))) == Ballots(records[1..])
    ensures Mapped((if own.Some? then [own.value] else []) + rest, Canonical(MappingOf(mapping))) == Ballots(records)
  {
    hide MappingOf, CanonicalizeJury;
    MappedConcat(if own.Some? then [own.value] else [], rest, Canonical(MappingOf(mapping)));
  }

  lemma {:induction false} LabelBallotsRenamed(cfg: Config, w: World, mapping: seq<Provider>, records: seq<JuryRecord>)
    requires RecordsFaithful(cfg, w, mapping, records)
    ensures Mapped(LabelBallots(cfg, w, records), Canonical(MappingOf(mapping))) == Ballots(records)
    ensures |LabelBallots(cfg, w, records)| <= |records|
  {
    hide RecordsFaithful, JudgmentAt, Mapped, MappingOf;
    if records != [] {
      RecordsFaithfulTail(cfg, w, mapping, records);
      LabelBallotsRenamed(cfg, w, mapping, records[1..]);
      OneMoreRenamed(mapping, records, JudgmentAt(cfg, w, records[0].juror), LabelBallots(cfg, w, records[1..]));
    }
  }

  /** A juror is counted with a valid judgment whose lists are within bounds. */
  lemma BallotFits(cfg: Config, w: World, parsed: Content -> Artifact, juror: Provider)
    requires Parsed(w, parsed) && JudgmentAt(cfg, w, juror).Some?
    ensures ValidJudgment(LabelsOf(CandidateCount(w)), JudgmentAt(cfg, w, juror).value)
    ensures Y.ProseWithin(JudgmentAt(cfg, w, juror).value.prose)
  {
    OwnDecision(cfg, w, juror);
    var own, repair := Slot(Jury, juror), Slot(JuryRepair, juror);
    assert SucceededAt(w, own);
    if !ParsesAsJury(ContentAt(w, own), CandidateCount(w)) {
      assert SucceededAt(w, repair);
    }
  }

  lemma {:induction false} LabelBallotsFit(cfg: Config, w: World, parsed: Content -> Artifact, records: seq<JuryRecord>)
    requires Parsed(w, parsed)
    ensures Y.AllValid(LabelBallots(cfg, w, records), CandidateCount(w))
    ensures Y.AllProseWithin(LabelBallots(cfg, w, records))
  {
    if records != [] {
      LabelBallotsFit(cfg, w, parsed, records[1..]);
      if JudgmentAt(cfg, w, records[0].juror).Some? {
        BallotFits(cfg, w, parsed, records[0].juror);
      }
    }
  }

  // ----- Stage by stage -----

  lemma ProposalPromptFits(cfg: Config, w: World, t: P.Templates, limits: P.Limits, parsed: Content -> Artifact)
    requires Planned(cfg, t, limits) && Measured(cfg, w, t, parsed)
    ensures cfg.promptChars(ProposalPrompt(MarkerOf(w).value)) <= cfg.maxPromptChars
  {
    P.ProposalFits(cfg.question, |cfg.roster|, t, limits);
  }

  lemma FrozenAtMost(cfg: Config, w: World)
    requires LocksInv(cfg, w) && Namespace(w).Some?
    ensures var mapping := Namespace(w).value.mapping; mapping != [] && Distinct(mapping) && |mapping| <= |cfg.roster|
  {
    AtMostAsMany(Namespace(w).value.mapping, cfg.roster);
  }

  lemma {:induction false} PlacesAt(mapping: seq<Provider>, order: seq<Label>, i: nat)
    requires i < |order| && forall x | x in order :: 0 <= x < |mapping|
    ensures order[i] in order && Places(mapping, order)[i] == mapping[order[i]]
  {
    assert order[0] in order && forall x | x in order[1..] :: x in order;
    if i > 0 {
      PlacesAt(mapping, order[1..], i - 1);
    }
  }

  /** Whatever the order, an accepted proposal stands under each label. */
  lemma PlacedAccepted(cfg: Config, w: World, parsed: Content -> Artifact, order: seq<Label>)
    requires LocksInv(cfg, w) && Namespace(w).Some? && Parsed(w, parsed)
    requires IsPlaces(order, |Namespace(w).value.mapping|) && forall i | 0 <= i < CandidateCount(w) :: i in order
    ensures AllAccepted(Placed(order, ProposalArtifacts(w, Places(Namespace(w).value.mapping, order)), parsed), CandidateCount(w))
  {
    var mapping := Namespace(w).value.mapping;
    var artifacts := ProposalArtifacts(w, Places(mapping, order));
    forall x | 0 <= x < |mapping| ensures Accepted(Placed(order, artifacts, parsed)(x)) {
      var i := IndexOf(order, x);
      PlacesAt(mapping, order, i);
      assert mapping[x] in mapping;
      assert artifacts[i] == ContentAt(w, Slot(Proposal, mapping[x]));
      assert SucceededAt(w, Slot(Proposal, mapping[x]));
    }
  }

  /** A listing of places is a listing of labels. */
  lemma PlacesAreOrders(order: seq<Label>, n: nat)
    requires IsPlaces(order, n)
    ensures Orders(order, n) && forall i | 0 <= i < n :: i in order
  {
    AllPlacesTaken(order, n);
    forall x ensures x in order <==> x in LabelsOf(n) {
      if 0 <= x < n {
        assert LabelsOf(n)[x] == x;
      }
    }
    Y.SameListing(order, LabelsOf(n));
  }

  lemma AllPlacesTaken(order: seq<Label>, n: nat)
    requires IsPlaces(order, n)
    ensures forall i | 0 <= i < n :: i in order
  {
    forall i | 0 <= i < n ensures i in order {
      if i !in order {
        var others := LabelsOf(n)[..i] + LabelsOf(n)[i + 1..];
        forall x | x in order ensures x in others {
          if x < i {
            assert others[x] == x;
          } else {
            assert others[x - 1] == x;
          }
        }
        AtMostAsMany(order, others);
      }
    }
  }

  lemma JuryPromptFits(cfg: Config, w: World, t: P.Templates, limits: P.Limits, parsed: Content -> Artifact, juror: Provider)
    requires ValidConfig(cfg) && LocksInv(cfg, w) && Namespace(w).Some? && Parsed(w, parsed)
    requires Planned(cfg, t, limits) && Measured(cfg, w, t, parsed)
    ensures cfg.promptChars(PromptOf(cfg, w, Slot(Jury, juror))) <= cfg.maxPromptChars
  {
    hide P.WithinLimits, AllAccepted, Orders, Parsed, PanelOk;
    var n, mapping := CandidateCount(w), Namespace(w).value.mapping;
    var order := cfg.present(juror, n);
    FrozenAtMost(cfg, w);
    PlacesAreOrders(order, n);
    PlacedAccepted(cfg, w, parsed, order);
    var artifacts := ProposalArtifacts(w, Places(mapping, order));
    P.JuryFits(cfg.question, |cfg.roster|, t, limits, order, n, Placed(order, artifacts, parsed));
  }

  lemma RepairPromptFits(cfg: Config, w: World, t: P.Templates, limits: P.Limits, parsed: Content -> Artifact, juror: Provider)
    requires LocksInv(cfg, w) && Namespace(w).Some?
    requires Planned(cfg, t, limits) && Measured(cfg, w, t, parsed) && cfg.repairAttempts
    requires SucceededAt(w, Slot(Jury, juror)) && Repairable(w, ContentAt(w, Slot(Jury, juror)))
    ensures cfg.promptChars(RepairPrompt(MarkerOf(w).value, ContentAt(w, Slot(Jury, juror)), CandidateCount(w))) <= cfg.maxPromptChars
  {
    hide P.WithinLimits, R.Repairable, PanelOk;
    var n, c := CandidateCount(w), ContentAt(w, Slot(Jury, juror));
    FrozenAtMost(cfg, w);
    assert RepairSizedOf(cfg, t, MarkerOf(w).value, c, n);
    var flaw: R.Flaw, before: string, text: string, after: string :|
      && c.text == before + text + after && R.Repairable(before, text, after, c.decoded.value.ranking)
      && cfg.promptChars(RepairPrompt(MarkerOf(w).value, c, n))
         == R.RepairChars(t.repair, R.RepairValues(LabelsOf(n), Y.VoteOf(c.decoded.value), R.ErrorText(flaw), before + text + after));
    P.RepairFits(cfg.question, |cfg.roster|, t, limits, LabelsOf(n), n, c.decoded.value, flaw, before, text, after);
  }

  lemma NamesApplied(mapping: seq<Provider>)
    ensures ApplyAll(MappingOf(mapping), LabelsOf(|mapping|)) == mapping
  {
  }

  /** The panel's aggregate is a blinded tally of the jurors' own ballots. */
  lemma PanelTallied(cfg: Config, w: World, parsed: Content -> Artifact, mapping: seq<Provider>, records: seq<JuryRecord>, b: Aggregate)
    requires mapping != [] && Distinct(mapping) && |mapping| == CandidateCount(w)
    requires Parsed(w, parsed) && RecordsFaithful(cfg, w, mapping, records)
    requires IsAggregate(Ballots(records), mapping, b) && OverValues(b, MappingOf(mapping))
    ensures P.Tallied(LabelBallots(cfg, w, records), |mapping|, MappingOf(mapping), b)
  {
    LabelBallotsRenamed(cfg, w, mapping, records);
    LabelBallotsFit(cfg, w, parsed, records);
    NamesApplied(mapping);
    forall x ensures x in LabelsOf(|mapping|) <==> x in MappingOf(mapping) {
      if 0 <= x < |mapping| {
        assert LabelsOf(|mapping|)[x] == x;
      }
    }
  }

  lemma InOrder(n: nat)
    ensures IsPlaces(LabelsOf(n), n) && Orders(LabelsOf(n), n)
  {
  }

  lemma {:induction false} PlacesInOrder(mapping: seq<Provider>)
    ensures Places(mapping, LabelsOf(|mapping|)) == mapping
  {
    forall i | 0 <= i < |mapping| ensures Places(mapping, LabelsOf(|mapping|))[i] == mapping[i] {
      PlacesAt(mapping, LabelsOf(|mapping|), i);
    }
  }

  lemma SynthesisPromptFits(cfg: Config, w: World, t: P.Templates, limits: P.Limits, parsed: Content -> Artifact)
    requires LocksInv(cfg, w) && Namespace(w).Some? && Adjudication(w).Some? && PanelInv(cfg, w) && Parsed(w, parsed)
    requires Planned(cfg, t, limits) && Measured(cfg, w, t, parsed)
    ensures cfg.promptChars(SynthesisPrompt(MarkerOf(w).value, ProposalArtifacts(w, Namespace(w).value.mapping),
                                            Adjudication(w).value.juryRecords)) <= cfg.maxPromptChars
  {
    hide P.Tallied, P.WithinLimits, IsAggregate, Y.Listing, AllAccepted, Parsed, JudgmentAt, Orders;
    var mapping, records := Namespace(w).value.mapping, Adjudication(w).value.juryRecords;
    var n, m, artifacts := |mapping|, MappingOf(mapping), ProposalArtifacts(w, mapping);
    FrozenAtMost(cfg, w);
    RecordsAtMost(cfg, mapping, records, Adjudication(w).value.juryFailures);
    assert SynthesisSizedOf(cfg, t, MarkerOf(w).value, parsed, mapping, artifacts, records);
    var b: Aggregate, order: seq<Label>, disagreements: seq<string>, verification: seq<string> :|
      && IsAggregate(Ballots(records), mapping, b) && OverValues(b, m)
      && Orders(order, n) && Y.Listing(disagreements, b.disagreements) && Y.Listing(verification, b.verification)
      && cfg.promptChars(SynthesisPrompt(MarkerOf(w).value, artifacts, records))
         == Y.SynthesisChars(t.synthesis, Y.CouncilValues(cfg.question, Candidates(LabelsOf(n), Placed(LabelsOf(n), artifacts, parsed)),
              Y.ReportValue(Y.ReportOf(AnonymizeAggregate(b, m), order, disagreements, verification)),
              Y.Votes(Mapped(Ballots(records), Y.Anonymous(m)))));
    PanelTallied(cfg, w, parsed, mapping, records, b);
    LabelBallotsRenamed(cfg, w, mapping, records);
    InOrder(n);
    PlacesInOrder(mapping);
    PlacesAreOrders(LabelsOf(n), n);
    PlacedAccepted(cfg, w, parsed, LabelsOf(n));
    P.SynthesisFits(cfg.question, |cfg.roster|, t, limits, LabelsOf(n), n, Placed(LabelsOf(n), artifacts, parsed),
                    LabelBallots(cfg, w, records), m, b, order, disagreements, verification);
  }

  // ----- Every prompt of every history -----

  /** What a repair needs beside its frozen parts. */
  ghost predicate MayBeAsked(cfg: Config, w: World, slot: Slot) {
    slot.stage == JuryRepair ==> cfg.repairAttempts && Repairable(w, ContentAt(w, Slot(Jury, slot.provider)))
  }

  /**
   Whatever the history: a prompt that the engine builds from the durable record is within the limit, so
   no stage drops a call as too long.
   */
  lemma NoPromptTooLong(cfg: Config, actions: seq<Action>, t: P.Templates, limits: P.Limits, parsed: Content -> Artifact, slot: Slot)
    requires ValidConfig(cfg) && IsRun(cfg, EmptyWorld, actions)
    requires var w := After(cfg, EmptyWorld, actions);
      PromptFrozen(w, slot) && MayBeAsked(cfg, w, slot) && Parsed(w, parsed) && Measured(cfg, w, t, parsed)
    requires Planned(cfg, t, limits)
    ensures cfg.promptChars(PromptOf(cfg, After(cfg, EmptyWorld, actions), slot)) <= cfg.maxPromptChars
  {
    hide Measured, Parsed, Planned, LocksInv;
    Reachable(cfg, actions);
    RunKeepsPanel(cfg, EmptyWorld, actions);
    var w := After(cfg, EmptyWorld, actions);
    match slot.stage
    case Proposal => ProposalPromptFits(cfg, w, t, limits, parsed);
    case Jury => JuryPromptFits(cfg, w, t, limits, parsed, slot.provider);
    case JuryRepair => RepairPromptFits(cfg, w, t, limits, parsed, slot.provider);
    case Synthesis => SynthesisPromptFits(cfg, w, t, limits, parsed);
  }
  /**
   A stage whose prompts are those of the durable record, started in any world a history reaches: none of
   them is over the limit, so `RunParallelStage` asks for every call that is due and is not denied.
   */
  lemma StageKeepsEveryCall(cfg: Config, actions: seq<Action>, t: P.Templates, limits: P.Limits, parsed: Content -> Artifact, job: Job)
    requires ValidConfig(cfg) && IsRun(cfg, EmptyWorld, actions)
    requires var w := After(cfg, EmptyWorld, actions);
      && Parsed(w, parsed) && Measured(cfg, w, t, parsed)
      && forall p | p in job.prompts :: PromptRight(cfg, w, job, p) && MayBeAsked(cfg, w, SlotOf(job, p))
    requires Planned(cfg, t, limits)
    ensures forall p | p in job.prompts :: cfg.promptChars(job.prompts[p]) <= cfg.maxPromptChars
  {
    hide Measured, Parsed, Planned, MayBeAsked, PromptOf, PromptFrozen;
    forall p | p in job.prompts ensures cfg.promptChars(job.prompts[p]) <= cfg.maxPromptChars {
      NoPromptTooLong(cfg, actions, t, limits, parsed, SlotOf(job, p));
    }
  }
}
