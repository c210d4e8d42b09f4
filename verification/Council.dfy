/**
 A run from start to finish on top of the stages (src/model_council/engine.py): jury
 parsing and repair, the two locks, the synthesis chain, and resuming after a stop.
 */
module Council {
  import opened Wrappers
  import opened Borda
  import opened Records
  import opened World
  import opened Audit
  import opened Locks
  import opened Budget
  import opened TwoLedgers
  import opened Repairs
  import opened Runs
  import opened Panels
  import opened Store
  import opened StageSteps
  import opened Dispatching
  import opened Juries
  import opened Engine

  /** A panel of records and failures for these jurors: one record each, failed exactly when it has no judgment. */
  ghost predicate PanelPart(cfg: Config, mapping: seq<Provider>, jurors: set<Provider>,
                            records: seq<JuryRecord>, failures: seq<StageFailure>)
  {
    && (forall r | r in records :: RecordOk(cfg, mapping, r))
    && Distinct(JurorsOf(records)) && (forall p :: p in JurorsOf(records) <==> p in jurors)
    && (forall f | f in failures :: f.stage == Jury && f.provider in jurors)
    && (forall r | r in records :: r.judgment.Some? <==> r.juror !in Failed'(failures))
  }

  lemma PanelGrows(cfg: Config, mapping: seq<Provider>, jurors: set<Provider>, records: seq<JuryRecord>,
                   failures: seq<StageFailure>, r: JuryRecord, failure: Option<ProviderError>)
    requires PanelPart(cfg, mapping, jurors, records, failures) && r.juror !in jurors && RecordOk(cfg, mapping, r)
    requires r.judgment.Some? <==> failure.None?
    ensures failure.None? ==> PanelPart(cfg, mapping, jurors + {r.juror}, records + [r], failures)
    ensures failure.Some? ==>
      PanelPart(cfg, mapping, jurors + {r.juror}, records + [r], failures + [StageFailure(Jury, r.juror, failure.value)])
  {
    assert JurorsOf(records + [r]) == JurorsOf(records) + [r.juror];
    forall p | p in Failed'(failures) ensures p in jurors {
      var i :| 0 <= i < |failures| && Failed'(failures)[i] == p;
      assert failures[i] in failures;
    }
    forall x | x in records ensures x.juror in jurors {
      var i :| 0 <= i < |records| && records[i] == x;
      assert JurorsOf(records)[i] == x.juror;
    }
    if failure.Some? {
      FailedAppend(failures, StageFailure(Jury, r.juror, failure.value));
    }
  }

  /** Each record holds what its juror, who answered, is counted with. */
  ghost predicate Tells(cfg: Config, w: World, mapping: seq<Provider>, records: seq<JuryRecord>) {
    forall r | r in records :: SucceededAt(w, Slot(Jury, r.juror)) && r.judgment == Named(JudgmentAt(cfg, w, r.juror), mapping)
  }

  lemma TellsGrows(cfg: Config, w1: World, w: World, mapping: seq<Provider>, records: seq<JuryRecord>, r: JuryRecord)
    requires OnlyNotes(w1, w) && Tells(cfg, w1, mapping, records)
    requires SucceededAt(w, Slot(Jury, r.juror)) && r.judgment == Named(JudgmentAt(cfg, w, r.juror), mapping)
    ensures Tells(cfg, w1, mapping, records + [r])
  {
    SameJudgment(cfg, w1, w, r.juror);
  }

  lemma PanelIsFaithful(cfg: Config, w1: World, w: World, mapping: seq<Provider>, responses: map<Provider, Response>,
                        records: seq<JuryRecord>, failures: seq<StageFailure>)
    requires OnlyNotes(w1, w) && Tells(cfg, w1, mapping, records) && Answers(cfg, w, responses)
    requires PanelPart(cfg, mapping, responses.Keys, records, failures)
    ensures Faithful(cfg, w, mapping, records)
  {
    forall r | r in records ensures r.judgment == Named(JudgmentAt(cfg, w, r.juror), mapping) {
      SameJudgment(cfg, w1, w, r.juror);
    }
    forall p | p in cfg.roster && SucceededAt(w, Slot(Jury, p)) ensures exists r :: r in records && r.juror == p {
      assert p in JurorsOf(records);
      var i :| 0 <= i < |records| && JurorsOf(records)[i] == p;
      assert records[i] in records;
    }
  }

  const MARKER_COLLISION := "untrusted marker collides with untrusted data"
  const INVALID_JURY := "jury artifact was invalid"
  const REPAIR_INVALID := "repair remained invalid"

  function ArtifactError(message: string, response: Response): ProviderError {
    ProviderError("Jury artifact was invalid: " + message, InvalidResponse, false, false, None, response.requestId,
                  response.attempts, "")
  }

  datatype LoadedLocks = LoadedLocks(namespaceLock: Option<Event>, adjudicationLock: Option<Event>, position: nat)

  const INVALID_PROPOSAL := "Proposal artifact was invalid"

  /** The proposals that count, in the order they are listed, and a failure for every other provider asked. */
  ghost predicate ProposalsIn(w: World, names: seq<Provider>, proposals: seq<Provider>, failures: seq<StageFailure>) {
    && Distinct(proposals)
    && (forall p | p in proposals :: p in names && SucceededAt(w, Slot(Proposal, p)) && ContentAt(w, Slot(Proposal, p)).isProposal)
    && (forall f | f in failures :: f.stage == Proposal && f.provider in names)
    && (forall p | p in names :: p in proposals <==> p !in Failed'(failures))
    && (forall p | p in names && HasProposal(w, p) :: p in proposals)
  }

  /** The provider's answer is on record and is a proposal. */
  predicate HasProposal(w: World, p: Provider) {
    SucceededAt(w, Slot(Proposal, p)) && ContentAt(w, Slot(Proposal, p)).isProposal
  }

  function Proposers(cfg: Config, w: World): set<Provider> {
    set p | p in cfg.roster && HasProposal(w, p)
  }

  /** Too few proposals, or too few lineages among them. */
  ghost predicate TooFew(cfg: Config, proposers: set<Provider>) {
    |proposers| < cfg.proposalQuorum || |set p | p in proposers :: cfg.lineage(p)| < cfg.minLineages
  }

  lemma ProposersListed(cfg: Config, w: World, proposals: seq<Provider>, failures: seq<StageFailure>)
    requires ProposalsIn(w, cfg.roster, proposals, failures)
    ensures (set p | p in proposals) == Proposers(cfg, w) && |proposals| == |Proposers(cfg, w)|
    ensures (set p | p in proposals :: cfg.lineage(p)) == (set p | p in Proposers(cfg, w) :: cfg.lineage(p))
  {
    forall p ensures p in proposals <==> p in Proposers(cfg, w) {
      assert p in proposals ==> HasProposal(w, p);
    }
    assert (set p | p in proposals) == Proposers(cfg, w);
    SetOfSeq(proposals);
  }

  /** A frozen namespace met the quorum when it was frozen. */
  lemma FrozenQuorum(cfg: Config, w: World, proposals: seq<Provider>)
    requires ValidConfig(cfg) && LocksInv(cfg, w) && Namespace(w).Some?
    requires Distinct(proposals) && forall p :: p in Namespace(w).value.mapping <==> p in proposals
    ensures |proposals| >= cfg.proposalQuorum && |set p | p in proposals :: cfg.lineage(p)| >= cfg.minLineages
  {
    var mapping := Namespace(w).value.mapping;
    SameSize(proposals, mapping);
    assert (set p | p in mapping :: cfg.lineage(p)) == (set p | p in proposals :: cfg.lineage(p));
  }

  // ----- Counting the jurors -----

  function Judged(records: seq<JuryRecord>): seq<Provider> {
    if records == [] then []
    else (if records[0].judgment.Some? then [records[0].juror] else []) + Judged(records[1..])
  }

  lemma {:induction false} JudgedCount(records: seq<JuryRecord>)
    ensures |Judged(records)| == ValidRecords(records)
    ensures forall p :: p in Judged(records) <==> exists r :: r in records && r.juror == p && r.judgment.Some?
  {
    if records != [] {
      JudgedCount(records[1..]);
      assert records == [records[0]] + records[1..];
      forall p ensures p in Judged(records) <==> exists r :: r in records && r.juror == p && r.judgment.Some? {
        if r :| r in records && r.juror == p && r.judgment.Some? {
          assert r == records[0] || r in records[1..];
        }
      }
    }
  }

  lemma {:induction false} JudgedDistinct(records: seq<JuryRecord>)
    requires Distinct(JurorsOf(records))
    ensures Distinct(Judged(records)) && forall p | p in Judged(records) :: p in JurorsOf(records)
  {
    if records != [] {
      assert JurorsOf(records)[1..] == JurorsOf(records[1..]);
      JudgedDistinct(records[1..]);
      assert JurorsOf(records) == [records[0].juror] + JurorsOf(records[1..]);
      assert records[0].juror !in JurorsOf(records[1..]);
    }
  }

  /** The jurors whose answer, or accepted repair, can be counted. */
  function Jurors(cfg: Config, w: World): set<Provider> {
    set p | p in cfg.roster && JudgmentAt(cfg, w, p).Some?
  }

  lemma CountJurors(cfg: Config, w: World, mapping: seq<Provider>, records: seq<JuryRecord>)
    requires Faithful(cfg, w, mapping, records) && Distinct(JurorsOf(records))
    requires forall r | r in records :: r.juror in cfg.roster
    ensures ValidRecords(records) == |Jurors(cfg, w)|
  {
    JudgedCount(records);
    JudgedDistinct(records);
    assert (set p | p in Judged(records)) == Jurors(cfg, w);
    SetOfSeq(Judged(records));
  }

  function ProposalJob(names: seq<Provider>, marker: string): Job {
    Job(Proposal, map p | p in names :: ProposalPrompt(marker), true, map[], Proposal, true, false)
  }

  lemma ProposalsReady(cfg: Config, w: World, names: seq<Provider>, marker: string)
    requires ValidConfig(cfg) && MarkerOf(w) == Some(marker) && NamespaceOk(cfg, w)
    requires names == if Namespace(w).Some? then Namespace(w).value.mapping else cfg.roster
    ensures Distinct(names) && forall p | p in names :: StageReady(cfg, w, ProposalJob(names, marker), p)
  {
  }

  /** Every answer that parses is a proposal, every other answer one more failure. */
  ghost predicate Parsing(w: World, d: Done, todo: set<Provider>, proposals: seq<Provider>, failures: seq<StageFailure>) {
    && todo <= d.successes.Keys
    && Distinct(proposals) && (forall p | p in proposals :: p in d.successes)
    && (forall f | f in failures :: f.stage == Proposal && (f.provider in Failed'(d.failures) || f.provider in d.successes))
    && (forall p | p in d.successes :: p in proposals <==> p !in todo && d.successes[p].content.isProposal)
    && (forall p | p in d.successes :: p in Failed'(failures) <==> p !in todo && !d.successes[p].content.isProposal)
    && (forall p | p in Failed'(d.failures) :: p in Failed'(failures))
  }

  lemma ParseStep(w: World, d: Done, todo: set<Provider>, proposals: seq<Provider>, failures: seq<StageFailure>,
                  p: Provider, f: StageFailure)
    requires Parsing(w, d, todo, proposals, failures) && p in todo && f.stage == Proposal && f.provider == p
    ensures d.successes[p].content.isProposal ==> Parsing(w, d, todo - {p}, proposals + [p], failures)
    ensures !d.successes[p].content.isProposal ==> Parsing(w, d, todo - {p}, proposals, failures + [f])
  {
    FailedAppend(failures, f);
  }

  lemma Parsed(cfg: Config, w0: World, w: World, names: seq<Provider>, job: Job, d: Done, proposals: seq<Provider>,
               failures: seq<StageFailure>)
    requires Parsing(w, d, {}, proposals, failures) && job.stage == Proposal
    requires Split(names, d, {}) && d.cut == map[] && DoneOk(cfg, w0, w, job, d)
    ensures ProposalsIn(w, names, proposals, failures)
  {
    forall p | p in proposals ensures SucceededAt(w, Slot(Proposal, p)) && ContentAt(w, Slot(Proposal, p)).isProposal {
      assert SuccessOk(w, job, p, d.successes[p]);
    }
    forall p | p in names && HasProposal(w, p) ensures p in proposals {
      FrozenAnswer(cfg, w0, w, names, job, d, p);
    }
  }

  /** A provider whose proposal is on record is answered from the record. */
  lemma FrozenAnswer(cfg: Config, w0: World, w: World, names: seq<Provider>, job: Job, d: Done, p: Provider)
    requires job.stage == Proposal && DoneOk(cfg, w0, w, job, d) && Split(names, d, {}) && d.cut == map[] && p in names
    requires SucceededAt(w, Slot(Proposal, p)) && ContentAt(w, Slot(Proposal, p)).isProposal
    ensures p in d.successes && d.successes[p].content.isProposal
  {
    FailedHasNoAnswer(cfg, w0, w, job, d, p);
    assert p in d.successes;
    assert SuccessOk(w, job, p, d.successes[p]);
  }

  lemma FailedHasNoAnswer(cfg: Config, w0: World, w: World, job: Job, d: Done, p: Provider)
    requires DoneOk(cfg, w0, w, job, d)
    ensures p in Failed'(d.failures) ==> !SucceededAt(w, SlotOf(job, p))
  {
    if p in Failed'(d.failures) {
      var i :| 0 <= i < |d.failures| && Failed'(d.failures)[i] == p;
      assert FailureOk(cfg, w0, w, job, d.failures[i]);
    }
  }

  /** `parse_proposal` on every answer, in whatever order the answers came. */
  method ParseProposals(d: Done, ghost w: World) returns (proposals: seq<Provider>, failures: seq<StageFailure>)
    requires Parsing(w, d, d.successes.Keys, [], d.failures)
    ensures Parsing(w, d, {}, proposals, failures)
  {
    proposals, failures := [], d.failures;
    var todo: set<Provider> := d.successes.Keys;
    while exists p :: p in todo
      invariant Parsing(w, d, todo, proposals, failures)
      decreases |todo|
    {
      var p :| p in todo;
      var response := d.successes[p];
      var f := StageFailure(Proposal, p, ProviderError(INVALID_PROPOSAL, InvalidResponse, false, false, None,
                                                       response.requestId, response.attempts, ""));
      ParseStep(w, d, todo, proposals, failures, p, f);
      if response.content.isProposal {
        proposals := proposals + [p];
      } else {
        failures := failures + [f];
      }
      todo := todo - {p};
    }
  }

  // ----- The two locks -----

  lemma {:induction false} SameSize(xs: seq<Provider>, ys: seq<Provider>)
    requires Distinct(xs) && Distinct(ys) && forall p :: p in xs <==> p in ys
    ensures |xs| == |ys| && (set p | p in xs) == (set p | p in ys)
  {
    SetOfSeq(xs);
    SetOfSeq(ys);
    assert (set p | p in xs) == (set p | p in ys);
  }

  /** What the namespace lock writes satisfies every check of its loader. */
  lemma NamespaceLockOk(cfg: Config, w: World, proposals: seq<Provider>, failures: seq<StageFailure>, mapping: seq<Provider>)
    requires ValidConfig(cfg) && ProposalsIn(w, cfg.roster, proposals, failures)
    requires |proposals| >= cfg.proposalQuorum && |set p | p in proposals :: cfg.lineage(p)| >= cfg.minLineages
    requires mapping == cfg.shuffle(set p | p in proposals)
    ensures MembershipOk(cfg, mapping, failures)
    ensures forall p | p in mapping :: SucceededAt(w, Slot(Proposal, p)) && ContentAt(w, Slot(Proposal, p)).isProposal
  {
    SameSize(proposals, mapping);
    assert (set p | p in mapping :: cfg.lineage(p)) == (set p | p in proposals :: cfg.lineage(p));
    forall p | p in cfg.roster ensures p in mapping <==> forall f | f in failures :: f.provider != p {
      NotFailed(failures, p);
    }
  }

  lemma NotFailed(failures: seq<StageFailure>, p: Provider)
    ensures p !in Failed'(failures) <==> forall f | f in failures :: f.provider != p
  {
    if p in Failed'(failures) {
      var i :| 0 <= i < |failures| && Failed'(failures)[i] == p;
      assert failures[i] in failures;
    }
    forall f | f in failures && f.provider == p ensures p in Failed'(failures) {
      InFailed(failures, f);
    }
  }

  /** What the adjudication lock needs of its records and failures, quorum apart. */
  ghost predicate PanelReady(cfg: Config, mapping: seq<Provider>, records: seq<JuryRecord>, failures: seq<StageFailure>) {
    && (forall r | r in records :: RecordOk(cfg, mapping, r))
    && Distinct(JurorsOf(records))
    && (forall f | f in failures :: f.stage == Jury && f.provider in cfg.roster)
    && (forall r | r in records :: r.judgment.Some? <==> r.juror !in Failed'(failures))
    && (forall p | p in cfg.roster :: p in JurorsOf(records) || p in Failed'(failures))
  }

  /** What the adjudication lock writes satisfies every check of its loader. */
  lemma AdjudicationLockOk(cfg: Config, mapping: seq<Provider>, records: seq<JuryRecord>, failures: seq<StageFailure>)
    requires ValidConfig(cfg) && PanelReady(cfg, mapping, records, failures) && ValidRecords(records) >= cfg.juryQuorum
    ensures PanelOk(cfg, mapping, records, failures)
  {
    forall i, j | 0 <= i < j < |records| ensures records[i].juror != records[j].juror {
      assert JurorsOf(records)[i] != JurorsOf(records)[j];
    }
    forall r | r in records ensures r.judgment.Some? <==> forall f | f in failures :: f.provider != r.juror {
      NotFailed(failures, r.juror);
    }
    forall p | p in cfg.roster
      ensures (exists r :: r in records && r.juror == p) || exists f :: f in failures && f.provider == p
    {
      if p in JurorsOf(records) {
        var i :| 0 <= i < |records| && JurorsOf(records)[i] == p;
        assert records[i] in records;
      } else {
        NotFailed(failures, p);
      }
    }
  }

  /** The jury stage's failures and those of its artifacts together. */
  lemma PanelComplete(cfg: Config, mapping: seq<Provider>, job: Job, w0: World, w: World, d: Done,
                      records: seq<JuryRecord>, failures: seq<StageFailure>)
    requires PanelPart(cfg, mapping, d.successes.Keys, records, failures)
    requires job.stage == Jury && Split(cfg.roster, d, {}) && d.cut == map[] && DoneOk(cfg, w0, w, job, d)
    ensures PanelReady(cfg, mapping, records, d.failures + failures)
  {
    FailedConcat(d.failures, failures);
    forall f | f in d.failures ensures f.stage == Jury && f.provider in cfg.roster {
      InFailed(d.failures, f);
    }
    forall r | r in records ensures r.juror in d.successes {
      var i :| 0 <= i < |records| && records[i] == r;
      assert JurorsOf(records)[i] == r.juror;
    }
  }

  function JuryPromptFor(cfg: Config, w: World, mapping: seq<Provider>, marker: string, p: Provider): Prompt
    requires IsPlaces(cfg.present(p, |mapping|), |mapping|)
  {
    var order := cfg.present(p, |mapping|);
    JuryPrompt(marker, order, ProposalArtifacts(w, Places(mapping, order)))
  }

  function JuryJob(cfg: Config, w: World, mapping: seq<Provider>, marker: string): Job
    requires forall p, n: nat :: IsPlaces(cfg.present(p, n), n)
  {
    Job(Jury, map p | p in cfg.roster :: JuryPromptFor(cfg, w, mapping, marker, p), true, map[], Jury, true, false)
  }

  lemma JuriesReady(cfg: Config, w: World, mapping: seq<Provider>, marker: string)
    requires ValidConfig(cfg) && MarkerOf(w) == Some(marker) && Namespace(w).Some? && Adjudication(w).None?
    requires mapping == Namespace(w).value.mapping
    ensures forall p | p in cfg.roster :: StageReady(cfg, w, JuryJob(cfg, w, mapping, marker), p)
  {
  }

  lemma AnswersAreStored(cfg: Config, w0: World, w: World, job: Job, d: Done)
    requires job.stage == Jury && Split(cfg.roster, d, {}) && d.cut == map[] && DoneOk(cfg, w0, w, job, d)
    ensures Answers(cfg, w, d.successes)
  {
    forall p ensures p in d.successes <==> p in cfg.roster && SucceededAt(w, Slot(Jury, p)) {
      FailedHasNoAnswer(cfg, w0, w, job, d, p);
      assert p in d.successes ==> SuccessOk(w, job, p, d.successes[p]);
    }
    forall p | p in d.successes ensures w.slots[Slot(Jury, p)].response == Some(d.successes[p]) {
      assert SuccessOk(w, job, p, d.successes[p]);
    }
  }

  lemma SameMultiset(xs: seq<Provider>, ys: seq<Provider>)
    requires Distinct(xs) && Distinct(ys) && forall p :: p in xs <==> p in ys
    ensures multiset(xs) == multiset(ys)
  {
    forall p ensures multiset(xs)[p] == multiset(ys)[p] {
      OnceEach(xs, p);
      OnceEach(ys, p);
    }
  }

  lemma {:induction false} OnceEach(xs: seq<Provider>, p: Provider)
    requires Distinct(xs)
    ensures multiset(xs)[p] == if p in xs then 1 else 0
  {
    if xs != [] {
      assert xs == [xs[0]] + xs[1..];
      OnceEach(xs[1..], p);
    }
  }

  // ----- Synthesis -----

  function SynthesisJob(w: World, name: Provider, mapping: seq<Provider>, marker: string, records: seq<JuryRecord>,
                        mayRetry: bool): Job
  {
    Job(Synthesis, map[name := SynthesisPrompt(marker, ProposalArtifacts(w, mapping), records)], true, map[], Synthesis,
        mayRetry, false)
  }

  lemma SynthesisReady(cfg: Config, w: World, name: Provider, mapping: seq<Provider>, marker: string, records: seq<JuryRecord>,
                       mayRetry: bool)
    requires ValidConfig(cfg) && LocksInv(cfg, w) && MarkerOf(w) == Some(marker) && Adjudication(w).Some?
    requires Namespace(w).Some? && mapping == Namespace(w).value.mapping && records == Adjudication(w).value.juryRecords
    requires name == cfg.chain[Position(w) - 1] && (mayRetry ==> Position(w) == |cfg.chain|)
    ensures StageReady(cfg, w, SynthesisJob(w, name, mapping, marker, records, mayRetry), name)
  {
    IndexOfDistinct(cfg.chain, Position(w) - 1);
  }

  /** What one try of a chain slot came to. */
  lemma TryReported(cfg: Config, w0: World, w: World, job: Job, name: Provider, d: Done)
    requires job.stage == Synthesis && Split([name], d, {}) && d.cut == map[] && DoneOk(cfg, w0, w, job, d)
    ensures name in d.successes ==> SuccessOk(w, job, name, d.successes[name])
    ensures name !in d.successes ==> FailureOf(d.failures, name).Some? && !SucceededAt(w, Slot(Synthesis, name))
    ensures name !in d.successes && !job.retryFailed ==>
      Recorded(w, Slot(Synthesis, name), FailureOf(d.failures, name).value)
  {
    assert name in [name];
    if name !in d.successes {
      assert name in Failed'(d.failures);
      var f :| f in d.failures && f.provider == name && f.error == FailureOf(d.failures, name).value;
      assert FailureOk(cfg, w0, w, job, f);
    }
  }

  class CouncilRun {
    const engine: CouncilEngine

    constructor (engine: CouncilEngine)
      ensures this.engine == engine
    {
      this.engine := engine;
    }

    ghost predicate Resting()
      reads this, engine, engine.store, engine.gate
    {
      engine.Valid() && engine.live == map[]
    }

    // ----- Jury repair -----

    /** `_persist_jury_repair_event`: neither of its two errors can be raised. */
    method PersistRepair(juror: Provider, outcome: RepairOutcome)
      requires Resting() && Namespace(engine.Now()).Some? && OutcomeHolds(engine.cfg, engine.Now(), juror, outcome)
      modifies engine`log, engine.store`events
      ensures Resting() && old(engine.log) <= engine.log
      ensures OnlyNotes(old(engine.Now()), engine.Now()) && Adjudication(engine.Now()) == old(Adjudication(engine.Now()))
      ensures MarkerOf(engine.Now()) == old(MarkerOf(engine.Now()))
    {
      var payload := JuryRepairEvent(juror, outcome);
      var matching := Select(engine.store.events, RepairOf(juror));
      KnownRepairs(juror, outcome);
      assert |matching| <= 1;
      assert |matching| == 1 ==> matching[0] == payload;
      if matching == [] {
        ghost var w := engine.Now();
        engine.Record(payload);
        NamespaceNext(engine.cfg, w, Note(payload));
        AdjudicationNext(engine.cfg, w, Note(payload));
        MarkerNext(engine.cfg, w, Note(payload));
      }
    }

    lemma KnownRepairs(juror: Provider, outcome: RepairOutcome)
      requires Resting() && OutcomeHolds(engine.cfg, engine.Now(), juror, outcome)
      ensures Select(engine.store.events, RepairOf(juror)) in {[], [JuryRepairEvent(juror, outcome)]}
    {
      ExplainedInv(engine.cfg, engine.log, engine.Now());
      assert RepairEventOk(engine.cfg, engine.Now(), juror);
      RepairEventConsistent(engine.cfg, engine.Now(), juror, outcome);
    }

    /** The juror's answer on record. */
    ghost predicate AnswerIs(w: World, juror: Provider, content: Content) {
      SucceededAt(w, Slot(Jury, juror)) && ContentAt(w, Slot(Jury, juror)) == content
    }

    /** The record, and the failure if any, of one juror whose first answer was invalid. */
    method FinishJuror(mapping: seq<Provider>, juror: Provider, response: Response, selected: seq<Provider>, d: Done)
      returns (record: JuryRecord, failure: Option<ProviderError>)
      requires Resting() && Namespace(engine.Now()).Some? && mapping == Namespace(engine.Now()).value.mapping
      requires juror in engine.cfg.roster && Distinct(mapping) && mapping != []
      requires engine.cfg.repairAttempts ==> RepairOver(engine.cfg, engine.Now(), juror, response.content, selected, d)
      requires juror in d.successes ==> juror in selected
      requires MarkerOf(engine.Now()).Some?
      requires AnswerIs(engine.Now(), juror, response.content) && !ParsesAsJury(response.content, |mapping|)
      modifies engine`log, engine.store`events
      ensures Resting() && old(engine.log) <= engine.log
      ensures OnlyNotes(old(engine.Now()), engine.Now()) && Adjudication(engine.Now()) == old(Adjudication(engine.Now()))
      ensures MarkerOf(engine.Now()) == old(MarkerOf(engine.Now()))
      ensures RecordOk(engine.cfg, mapping, record) && record.juror == juror && (record.judgment.Some? <==> failure.None?)
      ensures record.judgment == Named(old(JudgmentAt(engine.cfg, engine.Now(), juror)), mapping)
    {
      var n := |mapping|;
      record := InvalidRecord(engine.cfg, juror, mapping, INVALID_JURY);
      failure := Some(ArtifactError(INVALID_JURY, response));
      if !engine.cfg.repairAttempts {
        return;
      }
      JudgmentAfterRepair(engine.cfg, engine.Now(), juror, response.content, selected, d);
      var here := World(engine.store.slots, engine.store.events, engine.gate.ledger, map[]);
      if !Repairable(here, response.content) {
        PersistRepair(juror, RepairImpossible);
      } else if juror !in selected {
        PersistRepair(juror, RepairOverBudget);
      } else if juror in d.successes {
        var repaired := d.successes[juror];
        if RepairAccepted(response.content, repaired.content, n) {
          PersistRepair(juror, Repaired);
          record := ValidRecord(engine.cfg, juror, mapping, repaired.content.decoded.value);
          ValidRecordOk(engine.cfg, juror, mapping, repaired.content.decoded.value);
          failure := None;
        } else {
          PersistRepair(juror, RepairRejected);
          record := InvalidRecord(engine.cfg, juror, mapping, REPAIR_INVALID);
          failure := Some(ArtifactError(REPAIR_INVALID, repaired));
        }
      } else {
        var e := FailureOf(d.failures, juror).value;
        if Slot(JuryRepair, juror) in engine.store.slots {
          PersistRepair(juror, RepairFailed(e.message));
        }
        failure := Some(e.(message := "Jury artifact repair failed after an invalid response: " + e.message, retryable := false));
      }
    }

    /** What the jury stage hands over: exactly the stored answers, under a namespace and with nothing decided yet. */
    ghost predicate JuriesIn(mapping: seq<Provider>, responses: map<Provider, Response>)
      reads this, engine, engine.store, engine.gate
    {
      var w := engine.Now();
      && Resting() && Namespace(w).Some? && Adjudication(w).None? && MarkerOf(w).Some?
      && mapping == Namespace(w).value.mapping && Distinct(mapping) && mapping != []
      && Answers(engine.cfg, w, responses)
    }

    ghost predicate RepairsOver(responses: map<Provider, Response>, selected: seq<Provider>, d: Done)
      reads this, engine, engine.store, engine.gate
    {
      && (forall p | p in responses && !ParsesAsJury(responses[p].content, CandidateCount(engine.Now())) ::
            RepairOver(engine.cfg, engine.Now(), p, responses[p].content, selected, d))
      && (forall p | p in d.successes :: p in selected)
    }

    lemma OverBudgetSince(log1: seq<Action>, w1: World, p: Provider)
      requires engine.Valid() && Explained(engine.cfg, log1, w1) && log1 <= engine.log && Namespace(w1).Some?
      ensures OverBudget(engine.cfg, w1, p) ==> OverBudget(engine.cfg, engine.Now(), p)
    {
      ExplainedInv(engine.cfg, log1, w1);
      Between(engine.cfg, log1, w1, engine.log, engine.Now());
      if OverBudget(engine.cfg, w1, p) {
        OverBudgetLater(engine.cfg, w1, engine.log[|log1|..], p);
      }
    }

    lemma OverBudgetForAll(log1: seq<Action>, w1: World)
      requires engine.Valid() && Explained(engine.cfg, log1, w1) && log1 <= engine.log && Namespace(w1).Some?
      ensures StaysOverBudget(engine.cfg, w1, engine.Now())
    {
      forall p ensures OverBudget(engine.cfg, w1, p) ==> OverBudget(engine.cfg, engine.Now(), p) {
        OverBudgetSince(log1, w1, p);
      }
    }

    lemma RepairsSettled(w1: World, responses: map<Provider, Response>, job: Job,
                         chosen: seq<Provider>, selected: seq<Provider>, capacity: nat, d: Done)
      requires ValidConfig(engine.cfg) && w1.live == map[] && Answers(engine.cfg, w1, responses)
      requires StaysOverBudget(engine.cfg, w1, engine.Now())
      requires capacity == Max0(engine.cfg.maxCalls - Calls(w1.slots) - |engine.cfg.chain|)
      requires chosen == Taken(Awaiting(w1, engine.cfg.roster), capacity)
      requires selected == Selected(w1, engine.cfg.roster, chosen)
      requires job.stage == JuryRepair && !job.retryFailed
      requires engine.Accounted(job, selected, d, w1) && d.cut == map[]
      ensures RepairsOver(responses, selected, d)
    {
      AllSettled(engine.cfg, w1, engine.Now(), responses, job, chosen, selected, capacity, d);
    }

    /** The jurors to repair: those whose repair has begun, and as many more, in roster order, as the budget has room for. */
    method ChooseRepairs(here: World, ghost capacity: nat, ghost chosen: seq<Provider>) returns (selected: seq<Provider>)
      requires Resting() && here == engine.Now() && Namespace(here).Some? && Adjudication(here).None? && MarkerOf(here).Some?
      requires capacity == Max0(engine.cfg.maxCalls - Calls(here.slots) - |engine.cfg.chain|)
      requires chosen == Taken(Awaiting(here, engine.cfg.roster), capacity)
      ensures selected == Selected(here, engine.cfg.roster, chosen) && Distinct(selected)
      ensures forall p | p in selected ::
        StageReady(engine.cfg, here, RepairJob(here, selected, MarkerOf(here).value), p)
      ensures |OpenNames(here, RepairJob(here, selected, MarkerOf(here).value), selected)|
              <= Capacity(engine.cfg, Calls(here.slots), |engine.cfg.chain|)
    {
      var used := engine.store.CountCalls();
      var room := Max0(engine.cfg.maxCalls - used - |engine.cfg.chain|);
      selected := Selected(here, engine.cfg.roster, Taken(Awaiting(here, engine.cfg.roster), room));
      RepairsCanRun(here, chosen, selected, capacity);
    }

    /** Runs the repairs the budget has room for; the stage never denies one that was chosen. */
    method RunRepairs(mapping: seq<Provider>, responses: map<Provider, Response>)
      returns (selected: seq<Provider>, d: Done, ghost denied: seq<Provider>)
      requires JuriesIn(mapping, responses)
      modifies engine`expired, engine`live, engine`log, engine.store`slots, engine.store`events, engine.gate
      ensures JuriesIn(mapping, responses) && old(engine.log) <= engine.log && (old(engine.expired) ==> engine.expired)
      ensures RepairsOver(responses, selected, d) && denied == []
      ensures MarkerOf(engine.Now()) == old(MarkerOf(engine.Now())) && Namespace(engine.Now()) == old(Namespace(engine.Now()))
    {
      hide RepairsOver, Answers, OverBudget, OpenNames, StageReady;
      ghost var log1 := engine.log;
      var here := World(engine.store.slots, engine.store.events, engine.gate.ledger, map[]);
      ghost var capacity := Max0(engine.cfg.maxCalls - Calls(here.slots) - |engine.cfg.chain|);
      ghost var chosen := Taken(Awaiting(here, engine.cfg.roster), capacity);
      selected := ChooseRepairs(here, capacity, chosen);
      var job := RepairJob(here, selected, MarkerOf(here).value);
      var recoveries;
      d, recoveries, denied := engine.RunParallelStage(job, selected);
      assert denied == [] by {
        assert DownstreamReserve(engine.cfg, Slot(JuryRepair, 0)) == |engine.cfg.chain|;
      }
      OverBudgetForAll(log1, here);
      RepairsSettled(here, responses, job, chosen, selected, capacity, d);
      JuriesKept(here, mapping, responses, job, selected, d);
    }

    lemma RepairsCanRun(w: World, chosen: seq<Provider>, selected: seq<Provider>, capacity: nat)
      requires Resting() && w == engine.Now() && Namespace(w).Some? && Adjudication(w).None? && MarkerOf(w).Some?
      requires capacity == Max0(engine.cfg.maxCalls - Calls(w.slots) - |engine.cfg.chain|)
      requires chosen == Taken(Awaiting(w, engine.cfg.roster), capacity)
      requires selected == Selected(w, engine.cfg.roster, chosen)
      ensures Distinct(selected)
      ensures forall p | p in selected :: StageReady(engine.cfg, w, RepairJob(w, selected, MarkerOf(w).value), p)
      ensures |OpenNames(w, RepairJob(w, selected, MarkerOf(w).value), selected)|
              <= Capacity(engine.cfg, Calls(w.slots), |engine.cfg.chain|)
    {
      ExplainedRepairs(engine.cfg, engine.log, w);
      RepairsReady(engine.cfg, w, chosen, selected, MarkerOf(w).value, capacity);
      SelectedMembers(w, engine.cfg.roster, chosen);
      TakenShort(Awaiting(w, engine.cfg.roster), capacity);
      RepairsAdmitted(engine.cfg, w, chosen, selected, MarkerOf(w).value, capacity);
    }

    lemma JuriesKept(w1: World, mapping: seq<Provider>, responses: map<Provider, Response>, job: Job,
                     selected: seq<Provider>, d: Done)
      requires Namespace(w1).Some? && Adjudication(w1).None? && MarkerOf(w1).Some?
      requires mapping == Namespace(w1).value.mapping && Distinct(mapping) && mapping != []
      requires Answers(engine.cfg, w1, responses)
      requires job.stage == JuryRepair && engine.Accounted(job, selected, d, w1)
      ensures JuriesIn(mapping, responses)
      ensures MarkerOf(engine.Now()) == MarkerOf(w1) && Namespace(engine.Now()) == Namespace(w1)
    {
      QuietReads(w1, engine.Now());
      AnswersWithin(engine.cfg, w1, engine.Now(), selected, responses);
    }

    /** `_parse_and_repair_juries` */
    method ParseAndRepairJuries(mapping: seq<Provider>, responses: map<Provider, Response>)
      returns (records: seq<JuryRecord>, failures: seq<StageFailure>, ghost denied: seq<Provider>)
      requires JuriesIn(mapping, responses)
      modifies engine`expired, engine`live, engine`log, engine.store`slots, engine.store`events, engine.gate
      ensures JuriesIn(mapping, responses) && old(engine.log) <= engine.log && (old(engine.expired) ==> engine.expired)
      ensures PanelPart(engine.cfg, mapping, responses.Keys, records, failures) && denied == []
      ensures Faithful(engine.cfg, engine.Now(), mapping, records)
      ensures MarkerOf(engine.Now()) == old(MarkerOf(engine.Now())) && Namespace(engine.Now()) == old(Namespace(engine.Now()))
    {
      var selected, d := [], Done(map[], [], map[]);
      denied := [];
      if engine.cfg.repairAttempts {
        selected, d, denied := RunRepairs(mapping, responses);
      }
      records, failures := RecordAll(mapping, responses, selected, d);
    }

    /** One record for every juror that answered, in roster order. */
    method RecordAll(mapping: seq<Provider>, responses: map<Provider, Response>, selected: seq<Provider>, d: Done)
      returns (records: seq<JuryRecord>, failures: seq<StageFailure>)
      requires JuriesIn(mapping, responses)
      requires engine.cfg.repairAttempts ==> RepairsOver(responses, selected, d)
      requires !engine.cfg.repairAttempts ==> d.successes == map[]
      modifies engine`log, engine.store`events
      ensures JuriesIn(mapping, responses) && old(engine.log) <= engine.log
      ensures PanelPart(engine.cfg, mapping, responses.Keys, records, failures)
      ensures Faithful(engine.cfg, engine.Now(), mapping, records)
      ensures MarkerOf(engine.Now()) == old(MarkerOf(engine.Now())) && Namespace(engine.Now()) == old(Namespace(engine.Now()))
    {
      ghost var w1 := engine.Now();
      records, failures := [], [];
      for i := 0 to |engine.cfg.roster|
        invariant JuriesIn(mapping, responses) && old(engine.log) <= engine.log
        invariant MarkerOf(engine.Now()) == MarkerOf(w1) && OnlyNotes(w1, engine.Now())
        invariant engine.cfg.repairAttempts ==> RepairsOver(responses, selected, d)
        invariant PanelPart(engine.cfg, mapping, Seen(responses, i), records, failures)
        invariant Tells(engine.cfg, w1, mapping, records)
      {
        var juror := engine.cfg.roster[i];
        SeenNext(responses, i);
        if juror in responses {
          ghost var w := engine.Now();
          var record, failure := FinishOne(mapping, responses, juror, selected, d);
          TellsGrows(engine.cfg, w1, w, mapping, records, record);
          PanelGrows(engine.cfg, mapping, Seen(responses, i), records, failures, record, failure);
          records := records + [record];
          failures := if failure.None? then failures else failures + [StageFailure(Jury, juror, failure.value)];
        }
      }
      SeenAll(responses);
      PanelIsFaithful(engine.cfg, w1, engine.Now(), mapping, responses, records, failures);
    }

    function Seen(responses: map<Provider, Response>, i: nat): set<Provider>
      requires i <= |engine.cfg.roster|
    {
      set p | p in engine.cfg.roster[..i] && p in responses
    }

    lemma SeenNext(responses: map<Provider, Response>, i: nat)
      requires engine.Valid() && i < |engine.cfg.roster|
      ensures engine.cfg.roster[i] !in Seen(responses, i)
      ensures Seen(responses, i + 1) == if engine.cfg.roster[i] in responses
                                        then Seen(responses, i) + {engine.cfg.roster[i]} else Seen(responses, i)
    {
      engine.NextOf(i);
    }

    lemma SeenAll(responses: map<Provider, Response>)
      requires forall p | p in responses :: p in engine.cfg.roster
      ensures Seen(responses, |engine.cfg.roster|) == responses.Keys
    {
      assert engine.cfg.roster[..|engine.cfg.roster|] == engine.cfg.roster;
      forall p ensures p in Seen(responses, |engine.cfg.roster|) <==> p in responses.Keys {
      }
    }

    /** One juror: its answer as it is if it parses, otherwise what its repair came to. */
    method FinishOne(mapping: seq<Provider>, responses: map<Provider, Response>, juror: Provider,
                     selected: seq<Provider>, d: Done)
      returns (record: JuryRecord, failure: Option<ProviderError>)
      requires JuriesIn(mapping, responses) && juror in responses
      requires engine.cfg.repairAttempts ==> RepairsOver(responses, selected, d)
      requires !engine.cfg.repairAttempts ==> d.successes == map[]
      modifies engine`log, engine.store`events
      ensures JuriesIn(mapping, responses) && old(engine.log) <= engine.log
      ensures MarkerOf(engine.Now()) == old(MarkerOf(engine.Now())) && Namespace(engine.Now()) == old(Namespace(engine.Now()))
      ensures engine.cfg.repairAttempts ==> RepairsOver(responses, selected, d)
      ensures RecordOk(engine.cfg, mapping, record) && record.juror == juror && (record.judgment.Some? <==> failure.None?)
      ensures OnlyNotes(old(engine.Now()), engine.Now())
      ensures record.judgment == Named(old(JudgmentAt(engine.cfg, engine.Now(), juror)), mapping)
    {
      var content := responses[juror].content;
      if ParsesAsJury(content, |mapping|) {
        record, failure := ValidRecord(engine.cfg, juror, mapping, content.decoded.value), None;
        ValidRecordOk(engine.cfg, juror, mapping, content.decoded.value);
      } else {
        ghost var w := engine.Now();
        record, failure := FinishJuror(mapping, juror, responses[juror], selected, d);
        RepairsUnderNotes(w, responses, selected, d);
      }
    }

    lemma RepairsUnderNotes(w: World, responses: map<Provider, Response>, selected: seq<Provider>, d: Done)
      requires engine.Valid() && OnlyNotes(w, engine.Now())
      ensures (forall p | p in responses && !ParsesAsJury(responses[p].content, CandidateCount(w)) ::
                 RepairOver(engine.cfg, w, p, responses[p].content, selected, d))
              && (forall p | p in d.successes :: p in selected)
              ==> RepairsOver(responses, selected, d)
    {
      var w' := engine.Now();
      forall p | p in responses && RepairOver(engine.cfg, w, p, responses[p].content, selected, d)
        ensures RepairOver(engine.cfg, w', p, responses[p].content, selected, d)
      {
        RepairOverUnderNotes(engine.cfg, w, w', p, responses[p].content, selected, d);
      }
    }

    // ----- Loading the durable decisions -----

    /** The three loaders; on a log that this engine wrote they never raise. */
    method LoadLocks() returns (r: Result<LoadedLocks>)
      requires Resting()
      ensures var w := engine.Now();
              r == Ok(LoadedLocks(Namespace(w), Adjudication(w), Position(w)))
    {
      var here := World(engine.store.slots, engine.store.events, engine.gate.ledger, map[]);
      var fallback := LoadFallback(engine.cfg, here);
      var names := LoadNamespace(engine.cfg, here.events);
      if fallback.Err? {
        r := Err(fallback.message);
      } else if names.Err? {
        r := Err(names.message);
      } else {
        var panel := LoadAdjudication(engine.cfg, here.events, names.value);
        r := if panel.Err? then Err(panel.message)
        else Ok(LoadedLocks(names.value, panel.value, fallback.value.position));
      }
      ExplainedInv(engine.cfg, engine.log, engine.Now());
      LoadersAccept(engine.cfg, engine.Now());
    }

    /** The marker is written once and read back ever after. */
    method LoadOrCreateMarker() returns (marker: string)
      requires Resting()
      modifies engine`log, engine.store`events
      ensures Resting() && old(engine.log) <= engine.log && MarkerOf(engine.Now()) == Some(marker)
      ensures old(MarkerOf(engine.Now())).Some? ==> old(MarkerOf(engine.Now())) == Some(marker)
      ensures engine.store.slots == old(engine.store.slots) && Namespace(engine.Now()) == old(Namespace(engine.Now()))
      ensures Adjudication(engine.Now()) == old(Adjudication(engine.Now())) && Position(engine.Now()) == old(Position(engine.Now()))
    {
      var found := Select(engine.store.events, Markers);
      if found != [] {
        return found[0].marker;
      }
      marker := *;
      ghost var w := engine.Now();
      engine.Record(UntrustedMarker(marker));
      MarkerNext(engine.cfg, w, Note(UntrustedMarker(marker)));
      NamespaceNext(engine.cfg, w, Note(UntrustedMarker(marker)));
      AdjudicationNext(engine.cfg, w, Note(UntrustedMarker(marker)));
      PositionNext(engine.cfg, w, Note(UntrustedMarker(marker)));
    }

    // ----- Proposals -----

    /** Asks every provider, or once the namespace is frozen just its members, for a proposal. */
    method ProposalStage(marker: string, frozen: Option<Event>)
      returns (names: seq<Provider>, proposals: seq<Provider>, failures: seq<StageFailure>)
      requires Resting() && MarkerOf(engine.Now()) == Some(marker) && frozen == Namespace(engine.Now())
      modifies engine`expired, engine`live, engine`log, engine.store`slots, engine.store`events, engine.gate
      ensures Resting() && old(engine.log) <= engine.log && (old(engine.expired) ==> engine.expired)
      ensures Within(old(engine.Now()), engine.Now(), Proposal, names)
      ensures names == if frozen.Some? then frozen.value.mapping else engine.cfg.roster
      ensures ProposalsIn(engine.Now(), names, proposals, failures)
      ensures frozen.Some? ==> forall p | p in names :: p in proposals
    {
      ghost var log0, w0 := engine.log, engine.Now();
      names := if frozen.Some? then frozen.value.mapping else engine.cfg.roster;
      var job := ProposalJob(names, marker);
      NamesReady(names, marker);
      var d, recoveries; ghost var denied;
      d, recoveries, denied := engine.RunParallelStage(job, names);
      StartParsing(w0, job, names, d);
      proposals, failures := ParseProposals(d, engine.Now());
      Parsed(engine.cfg, w0, engine.Now(), names, job, d, proposals, failures);
      if frozen.Some? {
        FrozenRecovered(log0, w0, names, job, d, proposals, failures);
      }
    }

    lemma NamesReady(names: seq<Provider>, marker: string)
      requires Resting() && MarkerOf(engine.Now()) == Some(marker)
      requires names == if Namespace(engine.Now()).Some? then Namespace(engine.Now()).value.mapping else engine.cfg.roster
      ensures Distinct(names) && forall p | p in names :: StageReady(engine.cfg, engine.Now(), ProposalJob(names, marker), p)
    {
      ExplainedInv(engine.cfg, engine.log, engine.Now());
      ProposalsReady(engine.cfg, engine.Now(), names, marker);
    }

    lemma StartParsing(w0: World, job: Job, names: seq<Provider>, d: Done)
      requires engine.Accounted(job, names, d, w0) && job.stage == Proposal && d.cut == map[]
      ensures Parsing(engine.Now(), d, d.successes.Keys, [], d.failures)
    {
      forall f | f in d.failures ensures f.stage == Proposal && f.provider in Failed'(d.failures) {
        InFailed(d.failures, f);
        assert FailureOk(engine.cfg, w0, engine.Now(), job, f);
      }
    }

    /** The error about unrecoverable frozen membership cannot be raised: every frozen proposal comes back. */
    lemma FrozenRecovered(log0: seq<Action>, w0: World, names: seq<Provider>, job: Job, d: Done,
                          proposals: seq<Provider>, failures: seq<StageFailure>)
      requires Explained(engine.cfg, log0, w0) && log0 <= engine.log && Namespace(w0).Some?
      requires names == Namespace(w0).value.mapping && job.stage == Proposal && d.cut == map[]
      requires engine.Accounted(job, names, d, w0) && Parsing(engine.Now(), d, {}, proposals, failures)
      ensures forall p | p in names :: p in proposals
    {
      Between(engine.cfg, log0, w0, engine.log, engine.Now());
      ExplainedInv(engine.cfg, log0, w0);
      forall p | p in names ensures p in proposals {
        SuccessIsFinal(engine.cfg, w0, engine.log[|log0|..], Slot(Proposal, p));
        FrozenAnswer(engine.cfg, w0, engine.Now(), names, job, d, p);
      }
    }

    // ----- Freezing the namespace -----

    /** `_lock_candidate_namespace`: labels are dealt to the proposals that came, and membership is frozen. */
    method LockNamespace(proposals: seq<Provider>, failures: seq<StageFailure>) returns (mapping: seq<Provider>)
      requires Resting() && Namespace(engine.Now()).None?
      requires ProposalsIn(engine.Now(), engine.cfg.roster, proposals, failures)
      requires |proposals| >= engine.cfg.proposalQuorum
      requires |set p | p in proposals :: engine.cfg.lineage(p)| >= engine.cfg.minLineages
      modifies engine`log, engine.store`events
      ensures Resting() && old(engine.log) <= engine.log && engine.store.slots == old(engine.store.slots)
      ensures Namespace(engine.Now()) == Some(NamespaceLocked(mapping, failures))
      ensures forall p :: p in mapping <==> p in proposals
      ensures MarkerOf(engine.Now()) == old(MarkerOf(engine.Now())) && Position(engine.Now()) == old(Position(engine.Now()))
      ensures Adjudication(engine.Now()) == old(Adjudication(engine.Now()))
    {
      mapping := engine.cfg.shuffle(set p | p in proposals);
      NamespaceLockOk(engine.cfg, engine.Now(), proposals, failures, mapping);
      ghost var w, a := engine.Now(), Action.LockNamespace(mapping, failures);
      engine.Decide(NamespaceLocked(mapping, failures), a);
      NamespaceNext(engine.cfg, w, a);
      AdjudicationNext(engine.cfg, w, a);
      MarkerNext(engine.cfg, w, a);
      PositionNext(engine.cfg, w, a);
    }

    // ----- Juries -----

    /** Asks every provider for a jury judgment and deals with the answers that are invalid. */
    method JuryStage(mapping: seq<Provider>, marker: string)
      returns (records: seq<JuryRecord>, failures: seq<StageFailure>, ghost short: seq<Provider>, ghost denied: seq<Provider>)
      requires Resting() && MarkerOf(engine.Now()) == Some(marker)
      requires Namespace(engine.Now()).Some? && mapping == Namespace(engine.Now()).value.mapping
      requires Adjudication(engine.Now()).None?
      modifies engine`expired, engine`live, engine`log, engine.store`slots, engine.store`events, engine.gate
      ensures Resting() && old(engine.log) <= engine.log && (old(engine.expired) ==> engine.expired)
      ensures Namespace(engine.Now()) == old(Namespace(engine.Now())) && Adjudication(engine.Now()).None?
      ensures MarkerOf(engine.Now()) == Some(marker)
      ensures PanelReady(engine.cfg, mapping, records, failures) && Faithful(engine.cfg, engine.Now(), mapping, records)
      ensures old(FirstPass(engine.Now(), mapping, marker)) ==> short == []
      ensures denied == []
    {
      ghost var w0 := engine.Now();
      var here := World(engine.store.slots, engine.store.events, engine.gate.ledger, map[]);
      var job := JuryJob(engine.cfg, here, mapping, marker);
      JuriesReady(engine.cfg, here, mapping, marker);
      if FirstPass(here, mapping, marker) {
        AdmitsFirstPass(here, mapping, marker);
      }
      var d, recoveries;
      d, recoveries, short := engine.RunParallelStage(job, engine.cfg.roster);
      ghost var w1 := engine.Now();
      JuriesReceived(w0, mapping, marker, job, d);
      records, failures, denied := ParseAndRepairJuries(mapping, d.successes);
      PanelComplete(engine.cfg, mapping, job, w0, w1, d, records, failures);
      failures := d.failures + failures;
    }

    /** The jurors still to be asked, with the calls juries have spent so far, are no more than the jurors there are. */
    ghost predicate FirstPass(w: World, mapping: seq<Provider>, marker: string)
      requires ValidConfig(engine.cfg)
    {
      Calls(OfStage(w.slots, Jury)) + Calls(OfStage(w.slots, JuryRepair))
      + |OpenNames(w, JuryJob(engine.cfg, w, mapping, marker), engine.cfg.roster)| <= |engine.cfg.roster|
    }

    lemma AdmitsFirstPass(w: World, mapping: seq<Provider>, marker: string)
      requires Resting() && w == engine.Now() && Namespace(w).Some? && Adjudication(w).None? && FirstPass(w, mapping, marker)
      ensures |OpenNames(w, JuryJob(engine.cfg, w, mapping, marker), engine.cfg.roster)|
              <= Capacity(engine.cfg, Calls(w.slots), |engine.cfg.chain|)
    {
      ExplainedInv(engine.cfg, engine.log, w);
      FirstJuryPassNeverDenied(engine.cfg, w, |OpenNames(w, JuryJob(engine.cfg, w, mapping, marker), engine.cfg.roster)|);
    }

    lemma JuriesReceived(w0: World, mapping: seq<Provider>, marker: string, job: Job, d: Done)
      requires engine.Accounted(job, engine.cfg.roster, d, w0) && d.cut == map[] && job.stage == Jury
      requires Namespace(w0).Some? && Adjudication(w0).None? && MarkerOf(w0) == Some(marker)
      requires mapping == Namespace(w0).value.mapping
      ensures JuriesIn(mapping, d.successes) && MarkerOf(engine.Now()) == Some(marker)
      ensures Namespace(engine.Now()) == Namespace(w0)
    {
      QuietReads(w0, engine.Now());
      ExplainedInv(engine.cfg, engine.log, engine.Now());
      AnswersAreStored(engine.cfg, w0, engine.Now(), job, d);
    }

    /** `_lock_adjudication` */
    method LockAdjudication(mapping: seq<Provider>, records: seq<JuryRecord>, failures: seq<StageFailure>)
      requires Resting() && Namespace(engine.Now()).Some? && mapping == Namespace(engine.Now()).value.mapping
      requires Adjudication(engine.Now()).None?
      requires PanelReady(engine.cfg, mapping, records, failures) && ValidRecords(records) >= engine.cfg.juryQuorum
      requires MarkerOf(engine.Now()).Some? && Faithful(engine.cfg, engine.Now(), mapping, records)
      modifies engine`log, engine.store`events
      ensures Resting() && old(engine.log) <= engine.log && engine.store.slots == old(engine.store.slots)
      ensures Adjudication(engine.Now()) == Some(AdjudicationLocked(mapping, records, failures))
      ensures Namespace(engine.Now()) == old(Namespace(engine.Now())) && MarkerOf(engine.Now()) == old(MarkerOf(engine.Now()))
      ensures Position(engine.Now()) == old(Position(engine.Now()))
    {
      AdjudicationLockOk(engine.cfg, mapping, records, failures);
      ghost var w, a := engine.Now(), Action.LockAdjudication(records, failures);
      engine.Decide(AdjudicationLocked(mapping, records, failures), a);
      NamespaceNext(engine.cfg, w, a);
      AdjudicationNext(engine.cfg, w, a);
      MarkerNext(engine.cfg, w, a);
      PositionNext(engine.cfg, w, a);
    }

    // ----- The synthesis chain -----

    /** The run is adjudicated and this is the chain position whose turn it is. */
    ghost predicate Adjudicated(mapping: seq<Provider>, marker: string, records: seq<JuryRecord>)
      reads this, engine, engine.store, engine.gate
    {
      var w := engine.Now();
      && Resting() && MarkerOf(w) == Some(marker)
      && Namespace(w).Some? && mapping == Namespace(w).value.mapping
      && Adjudication(w).Some? && records == Adjudication(w).value.juryRecords
    }

    /** One try of the current chain slot. A slot never tried before is never denied for budget. */
    method TrySynthesis(mapping: seq<Provider>, marker: string, records: seq<JuryRecord>, position: nat, mayRetry: bool)
      returns (answer: Option<Response>, failures: seq<StageFailure>, ghost denied: seq<Provider>)
      requires Adjudicated(mapping, marker, records) && 1 <= position <= |engine.cfg.chain|
      requires position == Position(engine.Now()) && (mayRetry ==> position == |engine.cfg.chain|)
      modifies engine`expired, engine`live, engine`log, engine.store`slots, engine.store`events, engine.gate
      ensures Adjudicated(mapping, marker, records) && position == Position(engine.Now())
      ensures old(engine.log) <= engine.log && (old(engine.expired) ==> engine.expired)
      ensures var slot := Slot(Synthesis, engine.cfg.chain[position - 1]);
              && (answer.Some? ==>
                    SucceededAt(engine.Now(), slot) && engine.store.slots[slot].response == answer)
              && (answer.None? ==> FailureOf(failures, slot.provider).Some? && !SucceededAt(engine.Now(), slot))
              && (answer.None? && !mayRetry ==> Recorded(engine.Now(), slot, FailureOf(failures, slot.provider).value))
              && (slot !in old(engine.store.slots) ==> denied == [])
    {
      ghost var w0 := engine.Now();
      var here := World(engine.store.slots, engine.store.events, engine.gate.ledger, map[]);
      var name := engine.cfg.chain[position - 1];
      var job := SynthesisJob(here, name, mapping, marker, records, mayRetry);
      SynthesisCanRun(here, mapping, marker, records, mayRetry);
      UntriedAdmitted(here, mapping, marker, records, mayRetry);
      var d, recoveries;
      d, recoveries, denied := engine.RunParallelStage(job, [name]);
      assert denied != [] ==> denied[0] in denied && denied[0] == name;
      StillAdjudicated(w0, mapping, marker, records, job, name, d);
      answer := if name in d.successes then Some(d.successes[name]) else None;
      failures := d.failures;
    }

    lemma StillAdjudicated(w0: World, mapping: seq<Provider>, marker: string, records: seq<JuryRecord>, job: Job,
                           name: Provider, d: Done)
      requires MarkerOf(w0) == Some(marker) && Namespace(w0).Some? && mapping == Namespace(w0).value.mapping
      requires Adjudication(w0).Some? && records == Adjudication(w0).value.juryRecords
      requires job.stage == Synthesis && engine.Accounted(job, [name], d, w0) && d.cut == map[]
      ensures Adjudicated(mapping, marker, records) && Position(engine.Now()) == Position(w0)
      ensures name in d.successes ==> SuccessOk(engine.Now(), job, name, d.successes[name])
      ensures name !in d.successes ==> FailureOf(d.failures, name).Some? && !SucceededAt(engine.Now(), Slot(Synthesis, name))
      ensures name !in d.successes && !job.retryFailed ==>
        Recorded(engine.Now(), Slot(Synthesis, name), FailureOf(d.failures, name).value)
    {
      QuietReads(w0, engine.Now());
      TryReported(engine.cfg, w0, engine.Now(), job, name, d);
    }

    lemma SynthesisCanRun(w: World, mapping: seq<Provider>, marker: string, records: seq<JuryRecord>, mayRetry: bool)
      requires Adjudicated(mapping, marker, records) && w == engine.Now() && 1 <= Position(w) <= |engine.cfg.chain|
      requires mayRetry ==> Position(w) == |engine.cfg.chain|
      ensures var name := engine.cfg.chain[Position(w) - 1];
              StageReady(engine.cfg, w, SynthesisJob(w, name, mapping, marker, records, mayRetry), name)
    {
      ExplainedLocks(engine.cfg, engine.log, w);
      SynthesisReady(engine.cfg, w, engine.cfg.chain[Position(w) - 1], mapping, marker, records, mayRetry);
    }

    lemma UntriedAdmitted(w: World, mapping: seq<Provider>, marker: string, records: seq<JuryRecord>, mayRetry: bool)
      requires Adjudicated(mapping, marker, records) && w == engine.Now() && 1 <= Position(w) <= |engine.cfg.chain|
      ensures var name := engine.cfg.chain[Position(w) - 1];
              var job := SynthesisJob(w, name, mapping, marker, records, mayRetry);
              Slot(Synthesis, name) !in w.slots ==>
                |OpenNames(w, job, [name])| <= Capacity(engine.cfg, Calls(w.slots), DownstreamReserve(engine.cfg, SlotOf(job, name)))
    {
      var name := engine.cfg.chain[Position(w) - 1];
      ExplainedBudget(engine.cfg, engine.log, w);
      if Slot(Synthesis, name) !in w.slots {
        UntriedSynthesisNeverDenied(engine.cfg, w);
        SubsetSize(OpenNames(w, SynthesisJob(w, name, mapping, marker, records, mayRetry), [name]), {name});
      }
    }

    /** `_persist_synthesis_fallback_event`: the slot is given up for good, with the failure on record. */
    method AdvanceChain(mapping: seq<Provider>, marker: string, records: seq<JuryRecord>, position: nat, error: ProviderError)
      requires Adjudicated(mapping, marker, records) && position == Position(engine.Now()) && 1 <= position < |engine.cfg.chain|
      requires Recorded(engine.Now(), Slot(Synthesis, engine.cfg.chain[position - 1]), error)
      modifies engine`log, engine.store`events
      ensures Adjudicated(mapping, marker, records) && Position(engine.Now()) == position + 1
      ensures old(engine.log) <= engine.log
    {
      var here := World(engine.store.slots, engine.store.events, engine.gate.ledger, map[]);
      ghost var a := Advance(error);
      engine.Decide(FallbackEvent(engine.cfg, here, error), a);
      NamespaceNext(engine.cfg, here, a);
      AdjudicationNext(engine.cfg, here, a);
      MarkerNext(engine.cfg, here, a);
      PositionNext(engine.cfg, here, a);
    }

    /** The ordered chain from the current position on, until one answers, the chain ends or time is up. */
    method SynthesisChain(mapping: seq<Provider>, marker: string, records: seq<JuryRecord>, current: nat)
      returns (answer: Option<Response>, failures: seq<StageFailure>)
      requires Adjudicated(mapping, marker, records) && current == Position(engine.Now()) && 1 <= current <= |engine.cfg.chain|
      modifies engine`expired, engine`live, engine`log, engine.store`slots, engine.store`events, engine.gate
      ensures Adjudicated(mapping, marker, records) && old(engine.log) <= engine.log
      ensures old(engine.expired) ==> engine.expired
      ensures answer.Some? ==> AnswerStored(answer.value.content)
      ensures answer.None? ==> ChainSpent()
    {
      hide ValidConfig;
      answer, failures := None, [];
      var position := current;
      while position <= |engine.cfg.chain|
        invariant current <= position <= |engine.cfg.chain| + 1
        invariant Adjudicated(mapping, marker, records) && old(engine.log) <= engine.log
        invariant position <= |engine.cfg.chain| ==> engine.expired || position == Position(engine.Now())
        invariant position > |engine.cfg.chain| ==> ChainSpent()
        invariant answer.None? && (old(engine.expired) ==> engine.expired)
      {
        var late := engine.DeadlinePassed();
        if late {
          break;
        }
        var name := engine.cfg.chain[position - 1];
        var more; ghost var denied;
        answer, more, denied := TrySynthesis(mapping, marker, records, position,
                                             position == current && position == |engine.cfg.chain|);
        failures := failures + more;
        if answer.Some? {
          break;
        }
        late := engine.DeadlinePassed();
        if position < |engine.cfg.chain| && !late {
          AdvanceChain(mapping, marker, records, position, FailureOf(more, name).value);
        }
        position := position + 1;
      }
    }

    /** No time left, or no provider left in the chain: the last one has been tried and has no answer on record. */
    ghost predicate ChainSpent()
      reads this, engine, engine.store, engine.gate
    {
      || engine.expired
      || (Position(engine.Now()) == |engine.cfg.chain| && |engine.cfg.chain| > 0
          && !SucceededAt(engine.Now(), Slot(Synthesis, engine.cfg.chain[|engine.cfg.chain| - 1])))
    }

    /** The answer is what the current chain slot has on record. */
    ghost predicate AnswerStored(answer: Content)
      reads engine, engine.store, engine.gate
    {
      var w := engine.Now();
      && 1 <= Position(w) <= |engine.cfg.chain|
      && var slot := Slot(Synthesis, engine.cfg.chain[Position(w) - 1]);
         SucceededAt(w, slot) && w.slots[slot].response.Some? && w.slots[slot].response.value.content == answer
    }

    // ----- A whole resume -----

    /** The retry audit that every result reads: complete for every slot. */
    lemma RetryAuditReads()
      requires Resting()
      ensures forall slot :: ReadRetries(engine.cfg, engine.Now(), slot) == Complete
    {
      ExplainedInv(engine.cfg, engine.log, engine.Now());
      forall slot ensures ReadRetries(engine.cfg, engine.Now(), slot) == Complete {
        RetryReaderNeverRaises(engine.cfg, engine.Now(), slot);
      }
    }

    /** `_build_result` and `_finish`: the retry audit is read, then result, status and event are stored together. */
    method Finish(status: RunStatus, answer: Option<Content>, aggregate: Option<Aggregate>, failures: seq<StageFailure>)
      returns (r: Result<RunResult>)
      requires Resting() && status in {Completed, Partial, RunFailed}
      modifies engine`log, engine.store`status, engine.store`result, engine.store`events
      ensures Resting() && old(engine.log) <= engine.log && engine.store.slots == old(engine.store.slots)
      ensures r == Ok(RunResult(status, answer, aggregate, failures))
      ensures engine.store.status == status && engine.store.result == Some(r.value)
      ensures Position(engine.Now()) == old(Position(engine.Now())) && Adjudication(engine.Now()) == old(Adjudication(engine.Now()))
      ensures OnlyNotes(old(engine.Now()), engine.Now())
      ensures forall slot :: ReadRetries(engine.cfg, engine.Now(), slot) == Complete
    {
      RetryAuditReads();
      ghost var w, a := engine.Now(), Note(RunFinished(status == Completed));
      var result := RunResult(status, answer, aggregate, failures);
      ExplainedStep(engine.cfg, engine.log, w, a);
      var ok := engine.store.FinishRun(result);
      engine.log := engine.log + [a];
      r := Ok(result);
      AdjudicationNext(engine.cfg, w, a);
      NamespaceNext(engine.cfg, w, a);
      MarkerNext(engine.cfg, w, a);
      PositionNext(engine.cfg, w, a);
      RetryAuditReads();
    }

    /** Marker, status and the two opening events of a process. */
    method Open() returns (marker: string)
      requires Resting()
      modifies engine`log, engine.store`status, engine.store`events
      ensures Resting() && old(engine.log) <= engine.log && MarkerOf(engine.Now()) == Some(marker)
      ensures old(MarkerOf(engine.Now())).Some? ==> old(MarkerOf(engine.Now())) == Some(marker)
      ensures engine.store.slots == old(engine.store.slots)
      ensures Namespace(engine.Now()) == old(Namespace(engine.Now()))
      ensures Adjudication(engine.Now()) == old(Adjudication(engine.Now())) && Position(engine.Now()) == old(Position(engine.Now()))
    {
      marker := LoadOrCreateMarker();
      engine.store.SetRunStatus(InProgress);
      NoteOpening(RunStarted);
      NoteOpening(Preflight);
    }

    method NoteOpening(e: Event)
      requires Resting() && (e.RunStarted? || e.Preflight?)
      modifies engine`log, engine.store`events
      ensures Resting() && old(engine.log) <= engine.log && engine.store.slots == old(engine.store.slots)
      ensures MarkerOf(engine.Now()) == old(MarkerOf(engine.Now())) && Namespace(engine.Now()) == old(Namespace(engine.Now()))
      ensures Adjudication(engine.Now()) == old(Adjudication(engine.Now())) && Position(engine.Now()) == old(Position(engine.Now()))
    {
      ghost var w := engine.Now();
      engine.Record(e);
      MarkerNext(engine.cfg, w, Note(e));
      NamespaceNext(engine.cfg, w, Note(e));
      AdjudicationNext(engine.cfg, w, Note(e));
      PositionNext(engine.cfg, w, Note(e));
    }

    /** The panel, if there is one, holds the jurors' own decisions, and the aggregate is the tally of that panel. */
    ghost predicate Tallied(aggregate: Option<Aggregate>)
      reads this, engine, engine.store, engine.gate
    {
      var w := engine.Now();
      && PanelInv(engine.cfg, w)
      && (aggregate.Some? <==> Adjudication(w).Some?)
      && (aggregate.Some? ==> exists listed :: AggregatesTo(Adjudication(w), listed, aggregate.value))
    }

    /** Why a run ends without an aggregate: too few proposals to freeze, or too few jurors to adjudicate. */
    ghost predicate Short(status: RunStatus)
      reads this, engine, engine.store, engine.gate
    {
      var w := engine.Now();
      if Namespace(w).Some? then
        status == Partial && |Jurors(engine.cfg, w)| < engine.cfg.juryQuorum
      else
        && TooFew(engine.cfg, Proposers(engine.cfg, w))
        && status == if Proposers(engine.cfg, w) != {} && engine.cfg.allowPartial then Partial else RunFailed
    }

    /** How the result follows from what is on record. */
    ghost predicate Concluded(r: RunResult)
      reads this, engine, engine.store, engine.gate
    {
      && Tallied(r.aggregate)
      && (r.status == Completed <==> r.answer.Some?)
      && (r.answer.Some? ==> r.aggregate.Some? && AnswerStored(r.answer.value))
      && (r.aggregate.Some? && r.answer.None? ==> r.status == Partial && ChainSpent())
      && (r.aggregate.None? ==> Short(r.status))
    }

    /** What is stored with a result, and how it follows from what is on record. */
    ghost predicate Finished(r: RunResult)
      reads this, engine, engine.store, engine.gate
    {
      && engine.store.status == r.status && engine.store.result == Some(r)
      && Concluded(r)
      && forall slot :: ReadRetries(engine.cfg, engine.Now(), slot) == Complete
    }

    /**
     Exactly when the next prompt cannot be built: the question contains the run's marker, or a frozen candidate does
     and jurors or synthesizers are still to be asked, or what the panel reports does and synthesizers are.
     */
    ghost predicate Refused()
      reads this, engine, engine.store, engine.gate
    {
      var w := engine.Now();
      || QuestionClashes(engine.cfg, w)
      || (CandidatesClash(w) && (Adjudication(w).None? || !engine.expired))
      || (PanelMentions(w) && !engine.expired)
    }

    /** How a process that was let run ends: with a result, unless a prompt is refused. */
    ghost predicate Ended(r: Result<RunResult>)
      reads this, engine, engine.store, engine.gate
    {
      Resting() && (r.Err? <==> Refused()) && (r.Ok? ==> Finished(r.value))
    }

    lemma CandidatesStay(log0: seq<Action>, w0: World)
      requires engine.Valid() && Explained(engine.cfg, log0, w0) && log0 <= engine.log
      requires Namespace(w0).Some? && MarkerOf(w0).Some?
      ensures CandidatesClash(engine.Now()) == CandidatesClash(w0) && MarkerOf(engine.Now()) == MarkerOf(w0)
    {
      ExplainedLocks(engine.cfg, log0, w0);
      Between(engine.cfg, log0, w0, engine.log, engine.Now());
      CandidatesFrozen(engine.cfg, w0, engine.log[|log0|..]);
      MarkerIsFinal(engine.cfg, w0, engine.log[|log0|..]);
    }

    lemma PanelHolds()
      requires engine.Valid()
      ensures PanelInv(engine.cfg, engine.Now())
    {
      RunKeepsPanel(engine.cfg, EmptyWorld, engine.log);
    }

    /** The end of a run that was adjudicated. */
    method EndAdjudicated(answer: Option<Content>, aggregate: Aggregate, failures: seq<StageFailure>, ghost listed: seq<Provider>)
      returns (r: Result<RunResult>)
      requires Resting() && AggregatesTo(Adjudication(engine.Now()), listed, aggregate) && !Refused()
      requires if answer.Some? then AnswerStored(answer.value) else ChainSpent()
      modifies engine`log, engine.store`status, engine.store`result, engine.store`events
      ensures Ended(r) && r.Ok? && old(engine.log) <= engine.log
      ensures Adjudication(engine.Now()) == old(Adjudication(engine.Now()))
    {
      hide Faithful, IsAggregate, ReadRetries, JudgmentAt, ProseMentions;
      r := Finish(if answer.Some? then Completed else Partial, answer, Some(aggregate), failures);
      PanelHolds();
    }

    /** The end of a run that falls short of a quorum. */
    method EndShort(status: RunStatus, failures: seq<StageFailure>) returns (r: Result<RunResult>)
      requires Resting() && Adjudication(engine.Now()).None? && Short(status) && !Refused()
      modifies engine`log, engine.store`status, engine.store`result, engine.store`events
      ensures Ended(r) && r.Ok? && old(engine.log) <= engine.log
    {
      ghost var w := engine.Now();
      r := Finish(status, None, None, failures);
      PanelHolds();
      SameMembers'(w, engine.Now());
    }

    /** Notes change neither who has proposed nor who can be counted. */
    lemma SameMembers'(w: World, w': World)
      requires OnlyNotes(w, w')
      ensures Proposers(engine.cfg, w') == Proposers(engine.cfg, w) && Jurors(engine.cfg, w') == Jurors(engine.cfg, w)
    {
      forall p ensures JudgmentAt(engine.cfg, w', p) == JudgmentAt(engine.cfg, w, p) {
        SameJudgment(engine.cfg, w, w', p);
      }
    }

    /** Builds the synthesis prompt and goes down the chain with it. */
    method Answer(marker: string, mapping: seq<Provider>, records: seq<JuryRecord>, current: nat, aggregate: Aggregate,
                  ghost listed: seq<Provider>)
      returns (r: Result<Option<Response>>, failures: seq<StageFailure>)
      requires Adjudicated(mapping, marker, records) && current == Position(engine.Now()) && 1 <= current <= |engine.cfg.chain|
      requires AggregatesTo(Adjudication(engine.Now()), listed, aggregate) && !engine.expired
      modifies engine`expired, engine`live, engine`log, engine.store`slots, engine.store`events, engine.gate
      ensures Adjudicated(mapping, marker, records) && old(engine.log) <= engine.log
      ensures Adjudication(engine.Now()) == old(Adjudication(engine.Now()))
      ensures r.Err? <==> CandidatesClash(engine.Now()) || PanelMentions(engine.Now())
      ensures r.Err? ==> !engine.expired
      ensures r.Ok? ==> if r.value.Some? then AnswerStored(r.value.value.content) else ChainSpent()
    {
      ghost var log0 := engine.log;
      var here := World(engine.store.slots, engine.store.events, engine.gate.ledger, map[]);
      ReportedSomewhere(Adjudication(here), listed, aggregate, marker);
      if CandidatesClash(here) || ReportMentions(aggregate, marker) {
        return Err(MARKER_COLLISION), [];
      }
      var answer;
      answer, failures := SynthesisChain(mapping, marker, records, current);
      CandidatesStay(log0, here);
      SameAdjudication(log0, here);
      r := Ok(answer);
    }

    /** From an adjudicated panel to the end. The synthesis prompt is built if there is any time left. */
    method Synthesize(marker: string, mapping: seq<Provider>, records: seq<JuryRecord>, current: nat,
                      aggregate: Aggregate, failures: seq<StageFailure>, ghost listed: seq<Provider>)
      returns (r: Result<RunResult>)
      requires Adjudicated(mapping, marker, records) && current == Position(engine.Now()) && 1 <= current <= |engine.cfg.chain|
      requires AggregatesTo(Adjudication(engine.Now()), listed, aggregate) && !QuestionClashes(engine.cfg, engine.Now())
      modifies engine`expired, engine`live, engine`log, engine.store, engine.gate
      ensures Ended(r) && old(engine.log) <= engine.log && Adjudication(engine.Now()).Some?
    {
      hide Explained, Faithful, IsAggregate, ProseMentions, JudgmentAt, ReadRetries;
      var late := engine.DeadlinePassed();
      if late {
        r := EndAdjudicated(None, aggregate, failures, listed);
        return;
      }
      var answer, more := Answer(marker, mapping, records, current, aggregate, listed);
      if answer.Err? {
        return Err(answer.message);
      }
      var content := if answer.value.Some? then Some(answer.value.value.content) else None;
      r := EndAdjudicated(content, aggregate, failures + more, listed);
    }

    lemma SameAdjudication(log0: seq<Action>, w0: World)
      requires Resting() && Explained(engine.cfg, log0, w0) && log0 <= engine.log && Adjudication(w0).Some?
      ensures Adjudication(engine.Now()) == Adjudication(w0)
    {
      Between(engine.cfg, log0, w0, engine.log, engine.Now());
      LocksAreFinal(engine.cfg, w0, engine.log[|log0|..]);
    }

    /** From frozen candidates to the end: judge them unless that is decided, aggregate, and synthesize. */
    method Judge(marker: string, mapping: seq<Provider>, proposals: seq<Provider>, failures: seq<StageFailure>,
                 panel: Option<Event>, advanced: seq<StageFailure>, current: nat)
      returns (r: Result<RunResult>)
      requires Judging(marker, mapping, proposals, current) && panel == Adjudication(engine.Now())
      modifies engine`expired, engine`live, engine`log, engine.store, engine.gate
      ensures Ended(r) && old(engine.log) <= engine.log
      ensures old(CandidatesClash(engine.Now())) && panel.None? ==> r.Err? && Adjudication(engine.Now()).None?
    {
      if panel.None? {
        r := JudgeAfresh(marker, mapping, proposals, failures, advanced, current);
      } else {
        var records := panel.value.juryRecords;
        var aggregated := AggregateJuries(Ballots(records), proposals);
        PanelPlaces(mapping, proposals);
        PanelPosition(panel, mapping, records);
        r := Synthesize(marker, mapping, records, current, aggregated.value,
                        failures + panel.value.juryFailures + advanced, proposals);
      }
    }

    /** What is settled when judging begins. */
    ghost predicate Judging(marker: string, mapping: seq<Provider>, proposals: seq<Provider>, current: nat)
      reads this, engine, engine.store, engine.gate
    {
      var w := engine.Now();
      && Resting() && MarkerOf(w) == Some(marker) && !QuestionClashes(engine.cfg, w)
      && Namespace(w).Some? && mapping == Namespace(w).value.mapping && current == Position(w)
      && Distinct(proposals) && proposals != [] && forall p :: p in mapping <==> p in proposals
    }

    /** Nobody has been asked to judge yet, or not everybody has answered: the jury prompts are built before any call. */
    method JudgeAfresh(marker: string, mapping: seq<Provider>, proposals: seq<Provider>, failures: seq<StageFailure>,
                       advanced: seq<StageFailure>, current: nat)
      returns (r: Result<RunResult>)
      requires Judging(marker, mapping, proposals, current) && Adjudication(engine.Now()).None?
      modifies engine`expired, engine`live, engine`log, engine.store, engine.gate
      ensures Ended(r) && old(engine.log) <= engine.log
      ensures old(CandidatesClash(engine.Now())) ==> r.Err? && Adjudication(engine.Now()).None?
    {
      var here := World(engine.store.slots, engine.store.events, engine.gate.ledger, map[]);
      if CandidatesClash(here) {
        return Err(MARKER_COLLISION);
      }
      ghost var log0 := engine.log;
      var records, juryFailures; ghost var short, denied;
      records, juryFailures, short, denied := JuryStage(mapping, marker);
      CandidatesStay(log0, here);
      if ValidRecords(records) < engine.cfg.juryQuorum {
        PanelShort(mapping, records, juryFailures);
        r := EndShort(Partial, failures + juryFailures);
      } else {
        r := Adjudicate(marker, mapping, proposals, records, juryFailures, failures + juryFailures + advanced);
      }
    }

    /** Tallies a panel that meets the quorum, freezes it, and goes on to the synthesis chain at its head. */
    method Adjudicate(marker: string, mapping: seq<Provider>, proposals: seq<Provider>, records: seq<JuryRecord>,
                      juryFailures: seq<StageFailure>, failures: seq<StageFailure>)
      returns (r: Result<RunResult>)
      requires Judging(marker, mapping, proposals, Position(engine.Now())) && Adjudication(engine.Now()).None?
      requires PanelReady(engine.cfg, mapping, records, juryFailures) && ValidRecords(records) >= engine.cfg.juryQuorum
      requires Faithful(engine.cfg, engine.Now(), mapping, records)
      modifies engine`expired, engine`live, engine`log, engine.store, engine.gate
      ensures Ended(r) && old(engine.log) <= engine.log
    {
      hide PanelReady, Faithful, Ended;
      var aggregated := AggregateJuries(Ballots(records), proposals);
      PanelPlaces(mapping, proposals);
      ChainUntouched();
      LockAdjudication(mapping, records, juryFailures);
      PanelPosition(None, mapping, records);
      r := Synthesize(marker, mapping, records, 1, aggregated.value, failures, proposals);
    }

    lemma PanelShort(mapping: seq<Provider>, records: seq<JuryRecord>, failures: seq<StageFailure>)
      requires Resting() && Namespace(engine.Now()).Some?
      requires PanelReady(engine.cfg, mapping, records, failures) && Faithful(engine.cfg, engine.Now(), mapping, records)
      requires ValidRecords(records) < engine.cfg.juryQuorum
      ensures Short(Partial)
    {
      CountJurors(engine.cfg, engine.Now(), mapping, records);
    }

    lemma ChainUntouched()
      requires Resting()
      ensures Adjudication(engine.Now()).None? ==> Position(engine.Now()) == 1
    {
      ExplainedLocks(engine.cfg, engine.log, engine.Now());
    }

    lemma PanelPlaces(mapping: seq<Provider>, proposals: seq<Provider>)
      requires Resting() && Namespace(engine.Now()).Some? && mapping == Namespace(engine.Now()).value.mapping
      requires Distinct(proposals) && forall p :: p in mapping <==> p in proposals
      ensures multiset(proposals) == multiset(mapping)
    {
      ExplainedLocks(engine.cfg, engine.log, engine.Now());
      SameMultiset(proposals, mapping);
    }

    lemma PanelPosition(panel: Option<Event>, mapping: seq<Provider>, records: seq<JuryRecord>)
      requires Resting() && Adjudication(engine.Now()).Some?
      ensures 1 <= Position(engine.Now()) <= |engine.cfg.chain|
      ensures Namespace(engine.Now()).Some?
              && Adjudication(engine.Now()).value.lockedMapping == Namespace(engine.Now()).value.mapping
    {
      ExplainedLocks(engine.cfg, engine.log, engine.Now());
    }

    /** From an opened run to the end: proposals, quorum, the namespace, and then `Judge`. */
    method Proceed(marker: string, locks: LoadedLocks, advanced: seq<StageFailure>) returns (r: Result<RunResult>)
      requires Resting() && MarkerOf(engine.Now()) == Some(marker)
      requires locks == LoadedLocks(Namespace(engine.Now()), Adjudication(engine.Now()), Position(engine.Now()))
      modifies engine`expired, engine`live, engine`log, engine.store, engine.gate
      ensures Ended(r) && old(engine.log) <= engine.log
      ensures old(Stuck(engine.Now())) ==> r.Err? && Stuck(engine.Now())
    {
      hide Finished, Explained;
      ghost var log0 := engine.log;
      var here := World(engine.store.slots, engine.store.events, engine.gate.ledger, map[]);
      if QuestionClashes(engine.cfg, here) {
        return Err(MARKER_COLLISION);
      }
      var frozen := locks.namespaceLock;
      var names, proposals, failures := ProposalStage(marker, frozen);
      QuietReads(here, engine.Now());
      if frozen.Some? {
        CandidatesStay(log0, here);
      }
      FrozenMembers(frozen, proposals, names);
      ProposalCount(frozen, names, proposals, failures);
      if |proposals| < engine.cfg.proposalQuorum
         || |set p | p in proposals :: engine.cfg.lineage(p)| < engine.cfg.minLineages {
        r := EndShort(if proposals != [] && engine.cfg.allowPartial then Partial else RunFailed, failures);
        return;
      }
      HasProposals(proposals);
      var mapping;
      if frozen.None? {
        mapping := LockNamespace(proposals, failures);
      } else {
        mapping := frozen.value.mapping;
        failures := frozen.value.proposalFailures + failures;
      }
      r := Judge(marker, mapping, proposals, failures, locks.adjudicationLock, advanced, locks.position);
    }

    /** The question, or a candidate nobody has judged yet, contains the marker: no process will get past it. */
    ghost predicate Stuck(w: World)
      reads engine
    {
      QuestionClashes(engine.cfg, w) || (CandidatesClash(w) && Adjudication(w).None?)
    }

    /** With a frozen namespace the proposals are its members, all of them. */
    lemma FrozenMembers(frozen: Option<Event>, proposals: seq<Provider>, names: seq<Provider>)
      requires Resting() && frozen == Namespace(engine.Now())
      requires frozen.Some? ==> names == frozen.value.mapping
      requires forall p | p in proposals :: p in names
      requires frozen.Some? ==> forall p | p in names :: p in proposals
      ensures frozen.Some? ==> forall p :: p in frozen.value.mapping <==> p in proposals
    {
    }

    /** A frozen namespace is never short of proposals, and an open one is exactly as short as the record says. */
    lemma ProposalCount(frozen: Option<Event>, names: seq<Provider>, proposals: seq<Provider>, failures: seq<StageFailure>)
      requires Resting() && frozen == Namespace(engine.Now())
      requires names == if frozen.Some? then frozen.value.mapping else engine.cfg.roster
      requires ProposalsIn(engine.Now(), names, proposals, failures)
      requires frozen.Some? ==> forall p :: p in frozen.value.mapping <==> p in proposals
      ensures |proposals| < engine.cfg.proposalQuorum
              || |set p | p in proposals :: engine.cfg.lineage(p)| < engine.cfg.minLineages ==>
                frozen.None? && Adjudication(engine.Now()).None?
                && Short(if proposals != [] && engine.cfg.allowPartial then Partial else RunFailed)
    {
      ExplainedLocks(engine.cfg, engine.log, engine.Now());
      if frozen.Some? {
        FrozenQuorum(engine.cfg, engine.Now(), proposals);
      } else {
        ProposersListed(engine.cfg, engine.Now(), proposals, failures);
        assert proposals != [] ==> proposals[0] in Proposers(engine.cfg, engine.Now());
      }
    }

    lemma HasProposals(proposals: seq<Provider>)
      requires engine.Valid() && |proposals| >= engine.cfg.proposalQuorum
      ensures proposals != []
    {
    }

    /**
     Takes a run up, as a new process: every durable decision is loaded and honoured, and what is
     missing is done. No loader, lock or audit check ever raises; the one error there is says that a
     prompt would contain the marker, and it recurs on every later resume of a stuck run. A completed
     run is only read.
     */
    method Resume() returns (r: Result<RunResult>)
      requires engine.Valid()
      modifies engine`expired, engine`live, engine`log, engine.store, engine.gate
      ensures Resting() && old(engine.log) + [Action.Resume] <= engine.log
      ensures old(engine.store.status) == Completed && old(engine.store.result).Some? ==>
        r == Ok(old(engine.store.result).value)
        && engine.store.slots == old(engine.store.slots) && engine.store.events == old(engine.store.events)
        && engine.store.status == Completed && engine.store.result == old(engine.store.result)
      ensures !(old(engine.store.status) == Completed && old(engine.store.result).Some?) ==>
        Ended(r) && (old(Stuck(engine.Now())) ==> r.Err? && Stuck(engine.Now()))
    {
      hide Explained, Finished;
      var locks := Begin();
      if engine.store.status == Completed && engine.store.result.Some? {
        return Ok(engine.store.result.value);
      }
      r := TakeUp(locks);
    }

    /** A new process: nothing is in flight, the clock starts, and the durable decisions are loaded. */
    method Begin() returns (locks: LoadedLocks)
      requires engine.Valid()
      modifies engine`expired, engine`live, engine`log
      ensures Resting() && engine.log == old(engine.log) + [Action.Resume] && !engine.expired
      ensures locks == LoadedLocks(Namespace(engine.Now()), Adjudication(engine.Now()), Position(engine.Now()))
    {
      engine.BeginProcess();
      engine.expired := false;
      var loaded := LoadLocks();
      locks := loaded.value;
    }

    method TakeUp(locks: LoadedLocks) returns (r: Result<RunResult>)
      requires Resting()
      requires locks == LoadedLocks(Namespace(engine.Now()), Adjudication(engine.Now()), Position(engine.Now()))
      modifies engine`expired, engine`live, engine`log, engine.store, engine.gate
      ensures Ended(r) && old(engine.log) <= engine.log
      ensures old(Stuck(engine.Now())) ==> r.Err? && Stuck(engine.Now())
    {
      hide Ended;
      var advanced := AdvancedFailures(Select(engine.store.events, Fallbacks));
      var marker := Open();
      r := Proceed(marker, locks, advanced);
    }
  }
}
