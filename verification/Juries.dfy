/**
 Jury artifacts: records, the choice of which invalid ones to repair, and what is
 noted about each repair.
 */
module Juries {
  import opened Wrappers
  import opened Borda
  import opened Blinding
  import opened Records
  import opened World
  import opened Locks
  import opened Budget
  import opened TwoLedgers
  import opened Repairs
  import opened Runs
  import opened StageSteps
  import opened Dispatching

  // ----- Records -----

  function ValidRecord(cfg: Config, juror: Provider, mapping: seq<Provider>, parsed: Judgment): JuryRecord {
    JuryRecord(juror, mapping, cfg.present(juror, |mapping|), Some(CanonicalizeJury(parsed, MappingOf(mapping))), "")
  }

  function InvalidRecord(cfg: Config, juror: Provider, mapping: seq<Provider>, error: string): JuryRecord {
    JuryRecord(juror, mapping, cfg.present(juror, |mapping|), None, error)
  }

  /** What a jury record has to be for the loaders and the tally. */
  ghost predicate RecordOk(cfg: Config, mapping: seq<Provider>, r: JuryRecord) {
    && r.juror in cfg.roster && r.mapping == mapping && r.presentation == cfg.present(r.juror, |mapping|)
    && (r.judgment.Some? ==> ValidJudgment(mapping, r.judgment.value))
  }

  lemma ValidRecordOk(cfg: Config, juror: Provider, mapping: seq<Provider>, parsed: Judgment)
    requires juror in cfg.roster && Distinct(mapping) && mapping != [] && ValidJudgment(LabelsOf(|mapping|), parsed)
    ensures RecordOk(cfg, mapping, ValidRecord(cfg, juror, mapping, parsed))
  {
    var labels, m := LabelsOf(|mapping|), MappingOf(mapping);
    forall x ensures x in labels <==> x in m {
      assert x in m ==> labels[x] == x;
    }
    CanonicalIsValid(labels, parsed, m);
    assert ApplyAll(m, labels) == mapping;
  }

  // ----- Choosing repairs -----

  predicate AwaitsRepair(w: World, p: Provider) {
    Eligible(w, p) && Slot(JuryRepair, p) !in w.slots
  }

  /** The eligible jurors without a repair on record, in provider order. */
  function Awaiting(w: World, names: seq<Provider>): seq<Provider> {
    if names == [] then [] else (if AwaitsRepair(w, names[0]) then [names[0]] else []) + Awaiting(w, names[1..])
  }

  lemma {:induction false} AwaitingMembers(w: World, names: seq<Provider>)
    ensures forall p :: p in Awaiting(w, names) <==> p in names && AwaitsRepair(w, p)
    ensures Distinct(names) ==> Distinct(Awaiting(w, names))
  {
    if names != [] {
      assert names == [names[0]] + names[1..];
      AwaitingMembers(w, names[1..]);
    }
  }

  lemma {:induction false} AwaitingConcat(w: World, a: seq<Provider>, b: seq<Provider>)
    ensures Awaiting(w, a + b) == Awaiting(w, a) + Awaiting(w, b)
  {
    if a == [] {
      assert a + b == b;
    } else {
      assert (a + b)[1..] == a[1..] + b;
      AwaitingConcat(w, a[1..], b);
    }
  }

  /** At rest, the queue ahead of a juror is the part of the list before it. */
  lemma {:induction false} AheadIsAwaiting(w: World, names: seq<Provider>)
    requires w.live == map[]
    ensures Ahead(w, names) == |Awaiting(w, names)|
  {
    if names != [] {
      AheadIsAwaiting(w, names[1..]);
    }
  }

  /** The list `names[:capacity]` of Python. */
  function Taken(xs: seq<Provider>, capacity: nat): seq<Provider> {
    if capacity < |xs| then xs[..capacity] else xs
  }

  lemma TakenExactly(xs: seq<Provider>, k: nat, capacity: nat)
    requires Distinct(xs) && k < |xs|
    ensures xs[k] in Taken(xs, capacity) <==> k < capacity
  {
    var chosen := Taken(xs, capacity);
    if k < capacity {
      assert chosen[k] == xs[k];
    }
    if xs[k] in chosen {
      var i :| 0 <= i < |chosen| && chosen[i] == xs[k];
      assert xs[i] == xs[k];
    }
  }

  lemma Placed(w: World, before: seq<Provider>, juror: Provider, rest: seq<Provider>)
    requires AwaitsRepair(w, juror)
    ensures |Awaiting(w, before)| < |Awaiting(w, before + ([juror] + rest))|
    ensures Awaiting(w, before + ([juror] + rest))[|Awaiting(w, before)|] == juror
  {
    AwaitingConcat(w, before, [juror] + rest);
    assert ([juror] + rest)[1..] == rest;
  }

  /** Where a juror stands in the list: behind those the queue has ahead of it. */
  lemma PlaceInList(w: World, roster: seq<Provider>, juror: Provider)
    requires w.live == map[] && juror in roster && AwaitsRepair(w, juror)
    ensures var k := Ahead(w, roster[..IndexOf(roster, juror)]);
            k < |Awaiting(w, roster)| && Awaiting(w, roster)[k] == juror
  {
    var k := IndexOf(roster, juror);
    assert roster == roster[..k] + ([juror] + roster[k + 1..]);
    Placed(w, roster[..k], juror, roster[k + 1..]);
    AheadIsAwaiting(w, roster[..k]);
  }

  /** The first `capacity` of the list are chosen: a juror is left out exactly when it is over budget. */
  lemma ChosenExactly(cfg: Config, w: World, juror: Provider, capacity: nat)
    requires Distinct(cfg.roster) && w.live == map[] && juror in cfg.roster && AwaitsRepair(w, juror)
    requires capacity == Max0(cfg.maxCalls - Calls(w.slots) - |cfg.chain|)
    ensures juror in Taken(Awaiting(w, cfg.roster), capacity) <==> !OverBudget(cfg, w, juror)
  {
    var k := Ahead(w, cfg.roster[..IndexOf(cfg.roster, juror)]);
    AwaitingMembers(w, cfg.roster);
    PlaceInList(w, cfg.roster, juror);
    TakenExactly(Awaiting(w, cfg.roster), k, capacity);
    OverBudgetAtRest(cfg, w, juror, k);
  }

  lemma OverBudgetAtRest(cfg: Config, w: World, juror: Provider, k: nat)
    requires w.live == map[] && k == Ahead(w, cfg.roster[..IndexOf(cfg.roster, juror)])
    ensures OverBudget(cfg, w, juror) <==> Max0(cfg.maxCalls - Calls(w.slots) - |cfg.chain|) <= k
  {
    assert w.live.Keys == {};
  }

  /** The only thing ever noted about a repair that was not asked for yet is that it is over budget. */
  lemma NotedMeansOverBudget(cfg: Config, w: World, juror: Provider)
    requires RepairEventOk(cfg, w, juror) && AwaitsRepair(w, juror) && Select(w.events, RepairOf(juror)) != []
    ensures OverBudget(cfg, w, juror)
  {
  }

  /** Only one outcome can be said of a juror at any time. */
  lemma OneOutcome(cfg: Config, w: World, juror: Provider, a: RepairOutcome, b: RepairOutcome)
    requires OutcomeHolds(cfg, w, juror, a) && OutcomeHolds(cfg, w, juror, b)
    ensures a == b
  {
  }

  /** Being over budget lasts for the rest of the run. */
  lemma {:induction false} OverBudgetLater(cfg: Config, w: World, actions: seq<Action>, juror: Provider)
    requires ValidConfig(cfg) && IsRun(cfg, w, actions) && Inv(cfg, w) && Namespace(w).Some? && OverBudget(cfg, w, juror)
    ensures OverBudget(cfg, After(cfg, w, actions), juror)
    decreases |actions|
  {
    if actions != [] {
      OverBudgetStays(cfg, w, actions[0], juror);
      NamespaceNext(cfg, w, actions[0]);
      InvKept(cfg, w, actions[0]);
      OverBudgetLater(cfg, Next(cfg, w, actions[0]), actions[1..], juror);
    }
  }

  // ----- The stage that makes the repairs -----

  /** Eligible jurors whose repair is on record already or has just been chosen, in provider order. */
  function Selected(w: World, names: seq<Provider>, chosen: seq<Provider>): seq<Provider> {
    if names == [] then []
    else
      (if Eligible(w, names[0]) && (Slot(JuryRepair, names[0]) in w.slots || names[0] in chosen) then [names[0]] else [])
      + Selected(w, names[1..], chosen)
  }

  lemma {:induction false} SelectedMembers(w: World, names: seq<Provider>, chosen: seq<Provider>)
    ensures forall p :: p in Selected(w, names, chosen) <==>
              p in names && Eligible(w, p) && (Slot(JuryRepair, p) in w.slots || p in chosen)
    ensures Distinct(names) ==> Distinct(Selected(w, names, chosen))
  {
    if names != [] {
      assert names == [names[0]] + names[1..];
      SelectedMembers(w, names[1..], chosen);
    }
  }

  function RepairJob(w: World, selected: seq<Provider>, marker: string): Job {
    Job(JuryRepair,
        map p | p in selected :: RepairPrompt(marker, ContentAt(w, Slot(Jury, p)), CandidateCount(w)),
        false, map[], Jury, false, true)
  }

  lemma RepairsReady(cfg: Config, w: World, chosen: seq<Provider>, selected: seq<Provider>, marker: string, capacity: nat)
    requires ValidConfig(cfg) && w.live == map[] && Namespace(w).Some? && Adjudication(w).None?
    requires MarkerOf(w) == Some(marker) && RepairsInv(cfg, w)
    requires capacity == Max0(cfg.maxCalls - Calls(w.slots) - |cfg.chain|)
    requires chosen == Taken(Awaiting(w, cfg.roster), capacity) && selected == Selected(w, cfg.roster, chosen)
    ensures forall p | p in selected :: StageReady(cfg, w, RepairJob(w, selected, marker), p)
  {
    forall p | p in selected ensures StageReady(cfg, w, RepairJob(w, selected, marker), p) {
      RepairReady(cfg, w, chosen, selected, marker, capacity, p);
    }
  }

  lemma RepairReady(cfg: Config, w: World, chosen: seq<Provider>, selected: seq<Provider>, marker: string, capacity: nat,
                    p: Provider)
    requires ValidConfig(cfg) && w.live == map[] && Namespace(w).Some? && Adjudication(w).None?
    requires MarkerOf(w) == Some(marker) && RepairEventOk(cfg, w, p)
    requires capacity == Max0(cfg.maxCalls - Calls(w.slots) - |cfg.chain|)
    requires chosen == Taken(Awaiting(w, cfg.roster), capacity) && selected == Selected(w, cfg.roster, chosen)
    requires p in selected
    ensures StageReady(cfg, w, RepairJob(w, selected, marker), p)
  {
    SelectedMembers(w, cfg.roster, chosen);
    if Slot(JuryRepair, p) !in w.slots {
      ChosenExactly(cfg, w, p, capacity);
      if Select(w.events, RepairOf(p)) != [] {
        NotedMeansOverBudget(cfg, w, p);
      }
    }
  }

  lemma TakenShort(xs: seq<Provider>, capacity: nat)
    ensures |Taken(xs, capacity)| <= capacity
  {
  }

  lemma OpenAreChosen(w: World, roster: seq<Provider>, chosen: seq<Provider>, job: Job)
    requires job.stage == JuryRepair && !job.retryFailed
    ensures forall p | p in OpenNames(w, job, Selected(w, roster, chosen)) :: p in chosen
  {
    SelectedMembers(w, roster, chosen);
  }

  /** The stage's own test admits every repair that was chosen here. */
  lemma RepairsAdmitted(cfg: Config, w: World, chosen: seq<Provider>, selected: seq<Provider>, marker: string, capacity: nat)
    requires capacity == Max0(cfg.maxCalls - Calls(w.slots) - |cfg.chain|)
    requires |chosen| <= capacity && selected == Selected(w, cfg.roster, chosen)
    ensures |OpenNames(w, RepairJob(w, selected, marker), selected)| <= Capacity(cfg, Calls(w.slots), |cfg.chain|)
  {
    RepairCapacityAgrees(cfg, Calls(w.slots));
    OpenAreChosen(w, cfg.roster, chosen, RepairJob(w, selected, marker));
    SetOfSeq(chosen);
    SubsetSize(OpenNames(w, RepairJob(w, selected, marker), selected), (set p | p in chosen));
  }

  // ----- What is noted when the repairs are done -----

  /** `_persist_jury_repair_event` finds no event of this juror, or the very same one. */
  lemma RepairEventConsistent(cfg: Config, w: World, juror: Provider, outcome: RepairOutcome)
    requires RepairEventOk(cfg, w, juror) && OutcomeHolds(cfg, w, juror, outcome)
    ensures Select(w.events, RepairOf(juror)) in {[], [JuryRepairEvent(juror, outcome)]}
  {
    var found := Select(w.events, RepairOf(juror));
    if found != [] {
      OneOutcome(cfg, w, juror, found[0].outcome, outcome);
      assert Matches(RepairOf(juror), found[0]);
      assert found == [found[0]];
    }
  }

  /** The failure reported for a provider; the last one wins, as in a dictionary built from the list. */
  function FailureOf(failures: seq<StageFailure>, p: Provider): (r: Option<ProviderError>)
    ensures r.Some? ==> exists f :: f in failures && f.provider == p && f.error == r.value
    ensures p in Failed'(failures) ==> r.Some?
  {
    if failures == [] then None
    else
      var last := failures[|failures| - 1];
      assert failures == failures[..|failures| - 1] + [last];
      FailedAppend(failures[..|failures| - 1], last);
      if last.provider == p then Some(last.error) else FailureOf(failures[..|failures| - 1], p)
  }

  /** What is known about one invalid juror once the repair stage is over. */
  ghost predicate RepairOver(cfg: Config, w: World, juror: Provider, content: Content, selected: seq<Provider>, d: Done) {
    var n, jury, repair := CandidateCount(w), Slot(Jury, juror), Slot(JuryRepair, juror);
    && SucceededAt(w, jury) && ContentAt(w, jury) == content && !ParsesAsJury(content, n)
    && (Repairable(w, content) && juror !in selected ==> OutcomeHolds(cfg, w, juror, RepairOverBudget))
    && (juror in selected ==> Repairable(w, content))
    && (juror in d.successes ==> SucceededAt(w, repair) && w.slots[repair].response == Some(d.successes[juror]))
    && (juror in selected && juror !in d.successes ==>
          FailureOf(d.failures, juror).Some? && Recorded(w, repair, FailureOf(d.failures, juror).value))
  }

  /** What an invalid juror is counted with, once its repair is over. */
  lemma JudgmentAfterRepair(cfg: Config, w: World, juror: Provider, content: Content, selected: seq<Provider>, d: Done)
    requires RepairOver(cfg, w, juror, content, selected, d) && cfg.repairAttempts
    requires juror in d.successes ==> juror in selected
    ensures JudgmentAt(cfg, w, juror) ==
              if juror in d.successes && RepairAccepted(content, d.successes[juror].content, CandidateCount(w))
              then d.successes[juror].content.decoded else None
  {
  }

  /** Notes change nothing about what a juror is counted with. */
  lemma SameJudgment(cfg: Config, w: World, w': World, juror: Provider)
    requires OnlyNotes(w, w')
    ensures JudgmentAt(cfg, w', juror) == JudgmentAt(cfg, w, juror)
  {
  }

  lemma RepairOverUnderNotes(cfg: Config, w: World, w': World, juror: Provider, content: Content,
                             selected: seq<Provider>, d: Done)
    requires OnlyNotes(w, w') && Distinct(cfg.roster) && RepairOver(cfg, w, juror, content, selected, d)
    ensures RepairOver(cfg, w', juror, content, selected, d)
  {
    if Repairable(w, content) && juror !in selected {
      OutcomeUnderNotes(cfg, w, w', juror, RepairOverBudget);
    }
  }

  lemma NotChosen(cfg: Config, w: World, chosen: seq<Provider>, selected: seq<Provider>, capacity: nat, juror: Provider)
    requires ValidConfig(cfg) && w.live == map[] && capacity == Max0(cfg.maxCalls - Calls(w.slots) - |cfg.chain|)
    requires chosen == Taken(Awaiting(w, cfg.roster), capacity) && selected == Selected(w, cfg.roster, chosen)
    requires juror in cfg.roster && Eligible(w, juror) && juror !in selected
    ensures OverBudget(cfg, w, juror) && Slot(JuryRepair, juror) !in w.slots
  {
    SelectedMembers(w, cfg.roster, chosen);
    ChosenExactly(cfg, w, juror, capacity);
  }

  /** The jurors left out were over budget when the choice was made, and still are. */
  lemma LeftOut(cfg: Config, w1: World, w: World, selected: seq<Provider>, juror: Provider)
    requires OverBudget(cfg, w, juror) && Slot(JuryRepair, juror) !in w1.slots
    requires Within(w1, w, JuryRepair, selected) && Eligible(w1, juror) && juror !in selected
    ensures OutcomeHolds(cfg, w, juror, RepairOverBudget)
  {
    StillEligible(w1, w, selected, juror);
  }

  lemma StillEligible(w1: World, w: World, selected: seq<Provider>, juror: Provider)
    requires Within(w1, w, JuryRepair, selected) && Eligible(w1, juror)
    ensures Eligible(w, juror) && CandidateCount(w) == CandidateCount(w1)
    ensures juror !in selected ==> RowAt(w, Slot(JuryRepair, juror)) == RowAt(w1, Slot(JuryRepair, juror))
  {
    QuietReads(w1, w);
    assert RowAt(w, Slot(Jury, juror)) == RowAt(w1, Slot(Jury, juror));
  }

  /** What the repair stage reports about the jurors it was given. */
  lemma TakenUp(cfg: Config, w1: World, w: World, job: Job, selected: seq<Provider>, d: Done, juror: Provider)
    requires job.stage == JuryRepair && !job.retryFailed && Within(w1, w, JuryRepair, selected)
    requires DoneOk(cfg, w1, w, job, d) && Split(selected, d, {}) && d.cut == map[]
    ensures juror in d.successes ==>
      SucceededAt(w, Slot(JuryRepair, juror)) && w.slots[Slot(JuryRepair, juror)].response == Some(d.successes[juror])
    ensures juror in selected && juror !in d.successes ==>
      FailureOf(d.failures, juror).Some? && Recorded(w, Slot(JuryRepair, juror), FailureOf(d.failures, juror).value)
    ensures juror in d.successes ==> juror in selected
  {
    if juror in d.successes {
      assert SuccessOk(w, job, juror, d.successes[juror]);
    } else if juror in selected {
      assert juror in Failed'(d.failures);
      var f :| f in d.failures && f.provider == juror && f.error == FailureOf(d.failures, juror).value;
      assert FailureOk(cfg, w1, w, job, f);
    }
  }

  /** The responses are exactly the stored jury answers. */
  ghost predicate Answers(cfg: Config, w: World, responses: map<Provider, Response>) {
    && (forall p :: p in responses <==> p in cfg.roster && SucceededAt(w, Slot(Jury, p)))
    && (forall p | p in responses ::
          SucceededAt(w, Slot(Jury, p)) && w.slots[Slot(Jury, p)].response == Some(responses[p]))
  }

  lemma AnswersWithin(cfg: Config, w1: World, w: World, selected: seq<Provider>, responses: map<Provider, Response>)
    requires Within(w1, w, JuryRepair, selected) && Answers(cfg, w1, responses)
    ensures Answers(cfg, w, responses)
  {
    forall p ensures RowAt(w, Slot(Jury, p)) == RowAt(w1, Slot(Jury, p)) {
    }
  }

  /** One invalid juror once the repair stage is over. */
  lemma RepairSettled(cfg: Config, w1: World, w: World, responses: map<Provider, Response>,
                      job: Job, chosen: seq<Provider>, selected: seq<Provider>, capacity: nat, d: Done, p: Provider)
    requires ValidConfig(cfg) && (OverBudget(cfg, w1, p) ==> OverBudget(cfg, w, p))
    requires w1.live == map[] && Answers(cfg, w1, responses) && Answers(cfg, w, responses)
    requires capacity == Max0(cfg.maxCalls - Calls(w1.slots) - |cfg.chain|)
    requires chosen == Taken(Awaiting(w1, cfg.roster), capacity) && selected == Selected(w1, cfg.roster, chosen)
    requires job.stage == JuryRepair && !job.retryFailed && Within(w1, w, JuryRepair, selected)
    requires DoneOk(cfg, w1, w, job, d) && Split(selected, d, {}) && d.cut == map[]
    requires p in responses && !ParsesAsJury(responses[p].content, CandidateCount(w))
    ensures RepairOver(cfg, w, p, responses[p].content, selected, d)
  {
    QuietReads(w1, w);
    SelectedMembers(w1, cfg.roster, chosen);
    TakenUp(cfg, w1, w, job, selected, d, p);
    if Eligible(w1, p) && p !in selected {
      NotChosen(cfg, w1, chosen, selected, capacity, p);
      LeftOut(cfg, w1, w, selected, p);
    }
  }

  ghost predicate StaysOverBudget(cfg: Config, w1: World, w: World) {
    forall p :: OverBudget(cfg, w1, p) ==> OverBudget(cfg, w, p)
  }

  lemma AllSettled(cfg: Config, w1: World, w: World, responses: map<Provider, Response>,
                   job: Job, chosen: seq<Provider>, selected: seq<Provider>, capacity: nat, d: Done)
    requires ValidConfig(cfg) && w1.live == map[] && Answers(cfg, w1, responses)
    requires StaysOverBudget(cfg, w1, w)
    requires capacity == Max0(cfg.maxCalls - Calls(w1.slots) - |cfg.chain|)
    requires chosen == Taken(Awaiting(w1, cfg.roster), capacity) && selected == Selected(w1, cfg.roster, chosen)
    requires job.stage == JuryRepair && !job.retryFailed && Within(w1, w, JuryRepair, selected)
    requires DoneOk(cfg, w1, w, job, d) && Split(selected, d, {}) && d.cut == map[]
    ensures forall p | p in responses && !ParsesAsJury(responses[p].content, CandidateCount(w)) ::
              RepairOver(cfg, w, p, responses[p].content, selected, d)
    ensures forall p | p in d.successes :: p in selected
  {
    AnswersWithin(cfg, w1, w, selected, responses);
    SelectedMembers(w1, cfg.roster, chosen);
    forall p | p in responses && !ParsesAsJury(responses[p].content, CandidateCount(w))
      ensures RepairOver(cfg, w, p, responses[p].content, selected, d)
    {
      RepairSettled(cfg, w1, w, responses, job, chosen, selected, capacity, d, p);
    }
  }
}
