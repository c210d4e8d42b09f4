/**
 What the engine relies on while a stage runs many calls at once: which facts about
 one provider survive the steps of the others, and what each step establishes.
 */
module StageSteps {
  import opened Wrappers
  import opened Borda
  import opened Records
  import opened World
  import opened Audit
  import opened Locks
  import opened Prompts
  import opened TwoLedgers
  import opened Runs

  /** The arguments of `_run_parallel_stage` that stay the same while it runs. */
  datatype Job = Job(
    stage: Stage, prompts: map<Provider, Prompt>, allowTruncation: bool, limits: map<Provider, nat>,
    providerStage: Stage, retryFailed: bool, preserveIncomplete: bool)

  function SlotOf(job: Job, p: Provider): Slot {
    Slot(job.stage, p)
  }

  function RowAt(w: World, slot: Slot): Option<Invocation> {
    if slot in w.slots then Some(w.slots[slot]) else None
  }

  function FinishName(f: Finish): string {
    match f
    case Stop => "stop"
    case Length => "length"
    case Filtered => "content_filter"
    case OtherFinish(name) => name
    case Missing => "missing"
    case NoObject => "none"
  }

  /** `_completion_error`: what is wrong with a response that did not end normally. */
  function CompletionError(r: Response): Option<ProviderError> {
    if r.finish == Stop then None
    else if r.finish == NoObject then
      Some(ProviderError("Provider returned an invalid response object", InvalidResponse, false, false, None, None, 1, ""))
    else Some(ProviderError(
                "Provider response did not complete normally (finish_reason=" + FinishName(r.finish) + ")",
                if r.finish == Filtered then ContentFilter else InvalidResponse,
                false, false, None, r.requestId, r.attempts, ""))
  }

  /** The engine's finish reason and the store's reading of the stored message agree on truncation. */
  lemma TruncationIsRecognised(r: Response)
    requires r.finish == Length
    ensures CompletionError(r).Some? && IsLengthMessage(CompletionError(r).value.message)
    ensures !CompletionError(r).value.ambiguous
  {
    var front := "Provider response did not complete normally ";
    var message := CompletionError(r).value.message;
    assert message == front + LENGTH_SUFFIX;
    assert message[|message| - |LENGTH_SUFFIX|..] == LENGTH_SUFFIX;
  }

  lemma IncompleteIsCertain(r: Response)
    requires r.finish != Stop
    ensures CompletionError(r).Some? && !CompletionError(r).value.ambiguous
  {
  }

  // ----- What a step of one slot leaves alone -----

  /** Queries whose answer no step of a stage changes. */
  predicate Quiet(q: Query) {
    q.Namespaces? || q.Adjudications? || q.Fallbacks? || q.Markers? || q.RepairOf?
  }

  ghost predicate QuietSame(w: World, w': World) {
    forall q: Query | Quiet(q) :: Select(w'.events, q) == Select(w.events, q)
  }

  ghost predicate KeptAt(w: World, w': World, s: Slot) {
    && RowAt(w', s) == RowAt(w, s)
    && (s in w'.live <==> s in w.live)
    && (s in w.live && s in w'.live ==> w'.live[s] == w.live[s])
    && Retries(w', s) == Retries(w, s)
    && AttemptNumber(w', s) == AttemptNumber(w, s)
  }

  /** Everything but this slot is as it was. */
  ghost predicate Moved(w: World, w': World, slot: Slot) {
    && QuietSame(w, w')
    && forall s | s != slot :: KeptAt(w, w', s)
  }

  lemma MovedTwice(w: World, w1: World, w2: World, slot: Slot)
    requires Moved(w, w1, slot) && Moved(w1, w2, slot)
    ensures Moved(w, w2, slot)
  {
    forall s | s != slot ensures KeptAt(w, w2, s) {
      assert KeptAt(w, w1, s) && KeptAt(w1, w2, s);
    }
  }

  /** The actions a stage takes: one slot's call, or a note about truncated and incomplete responses. */
  predicate StageAction(a: Action) {
    match a
    case Note(e) => e.TruncationRecovery? || e.TruncatedPreserved? || e.IncompletePreserved?
    case _ => Concerns(a).Some?
  }

  lemma StepIsQuiet(cfg: Config, w: World, a: Action)
    requires ValidConfig(cfg) && Enabled(cfg, w, a) && StageAction(a)
    ensures QuietSame(w, Next(cfg, w, a))
  {
    hide ValidConfig, Enabled, Next, Select;
    forall q: Query | Quiet(q) ensures Select(Next(cfg, w, a).events, q) == Select(w.events, q) {
      LogNext(cfg, w, a, q);
    }
  }

  lemma StepKeeps(cfg: Config, w: World, a: Action, s: Slot)
    requires ValidConfig(cfg) && Enabled(cfg, w, a) && StageAction(a) && Concerns(a) != Some(s) && RetryAuditOf(w, s)
    ensures KeptAt(w, Next(cfg, w, a), s)
  {
    RetriesNext(cfg, w, a, s);
    AttemptNext(cfg, w, a, s);
    RowNext(cfg, w, a, s);
  }

  lemma StepMoves(cfg: Config, w: World, a: Action, slot: Slot)
    requires ValidConfig(cfg) && Enabled(cfg, w, a) && StageAction(a) && AuditInv(cfg, w)
    requires Concerns(a).Some? ==> Concerns(a) == Some(slot)
    ensures Moved(w, Next(cfg, w, a), slot)
  {
    StepIsQuiet(cfg, w, a);
    forall s | s != slot ensures KeptAt(w, Next(cfg, w, a), s) {
      assert RetryAuditOf(w, s);
      StepKeeps(cfg, w, a, s);
    }
  }

  lemma QuietReads(w: World, w': World)
    requires QuietSame(w, w')
    ensures Namespace(w') == Namespace(w) && Adjudication(w') == Adjudication(w)
    ensures MarkerOf(w') == MarkerOf(w) && Position(w') == Position(w)
    ensures forall p :: Select(w'.events, RepairOf(p)) == Select(w.events, RepairOf(p))
  {
    assert Quiet(Namespaces) && Quiet(Adjudications) && Quiet(Fallbacks) && Quiet(Markers);
    assert forall p :: Quiet(RepairOf(p));
  }

  /** Since `w0`, only rows of this stage and these providers changed. */
  ghost predicate Within(w0: World, w: World, stage: Stage, names: seq<Provider>) {
    && QuietSame(w0, w)
    && forall s: Slot | !(s.stage == stage && s.provider in names) :: RowAt(w, s) == RowAt(w0, s)
  }

  lemma WithinMoves(w0: World, w: World, w': World, stage: Stage, names: seq<Provider>, p: Provider)
    requires Within(w0, w, stage, names) && p in names && Moved(w, w', Slot(stage, p))
    ensures Within(w0, w', stage, names)
  {
    forall s: Slot | !(s.stage == stage && s.provider in names) ensures RowAt(w', s) == RowAt(w0, s) {
      assert KeptAt(w, w', s);
    }
  }

  lemma WithinChain(w0: World, w1: World, w2: World, stage: Stage, some: seq<Provider>, names: seq<Provider>)
    requires Within(w0, w1, stage, names) && Within(w1, w2, stage, some) && forall p | p in some :: p in names
    ensures Within(w0, w2, stage, names)
  {
  }

  // ----- Prompts are the ones the record prescribes -----

  ghost predicate PromptRight(cfg: Config, w: World, job: Job, p: Provider)
    requires ValidConfig(cfg)
  {
    p in job.prompts && PromptFrozen(w, SlotOf(job, p)) && job.prompts[p] == PromptOf(cfg, w, SlotOf(job, p))
  }

  lemma PromptStaysRight(cfg: Config, w: World, a: Action, job: Job, p: Provider)
    requires ValidConfig(cfg) && Enabled(cfg, w, a) && NamespaceOk(cfg, w) && PromptRight(cfg, w, job, p)
    ensures PromptRight(cfg, Next(cfg, w, a), job, p)
  {
    PromptNext(cfg, w, a, SlotOf(job, p));
    MarkerNext(cfg, w, a);
    NamespaceNext(cfg, w, a);
    AdjudicationNext(cfg, w, a);
    if job.stage == JuryRepair {
      ContentNext(cfg, w, a, Slot(Jury, p));
    }
  }

  /** Over any stretch of a run. */
  lemma {:induction false} PromptRightLater(cfg: Config, w: World, actions: seq<Action>, job: Job, p: Provider)
    requires ValidConfig(cfg) && IsRun(cfg, w, actions) && LocksInv(cfg, w) && PromptRight(cfg, w, job, p)
    ensures PromptRight(cfg, After(cfg, w, actions), job, p)
    decreases |actions|
  {
    if actions != [] {
      PromptStaysRight(cfg, w, actions[0], job, p);
      LocksKept(cfg, w, actions[0]);
      PromptRightLater(cfg, Next(cfg, w, actions[0]), actions[1..], job, p);
    }
  }

  // ----- When a slot may be started -----

  /** The phase of the run this job belongs to is open for this provider. */
  ghost predicate Reopenable(cfg: Config, w: World, job: Job, p: Provider) {
    var slot := SlotOf(job, p);
    match job.stage
    case Proposal => Namespace(w).None?
    case Jury => Adjudication(w).None?
    case JuryRepair => Adjudication(w).None? && !job.retryFailed && (slot in w.slots || Select(w.events, RepairOf(p)) == [])
    case Synthesis =>
      && p in cfg.chain && IndexOf(cfg.chain, p) + 1 == Position(w)
      && (job.retryFailed && slot in w.slots ==> Position(w) == |cfg.chain| || IsLengthFailure(w.slots[slot]))
  }

  ghost predicate StageReady(cfg: Config, w: World, job: Job, p: Provider)
    requires ValidConfig(cfg)
  {
    && p in cfg.roster
    && PromptRight(cfg, w, job, p)
    && (SucceededAt(w, SlotOf(job, p)) || Reopenable(cfg, w, job, p))
  }

  predicate Exhausted(cfg: Config, w: World, slot: Slot) {
    && slot in w.slots && IsLengthFailure(w.slots[slot])
    && TruncationRetries(Retries(w, slot)) >= cfg.truncationRetries
  }

  // ----- When a call is due -----

  /**
   Nothing on record stands against a call: no unknown outcome at this provider, and no failure of the slot that is
   final, because failed slots stay failed in this stage or because its truncation retry is spent or given up.
   */
  ghost predicate IsDue(cfg: Config, w: World, job: Job, p: Provider) {
    var slot := SlotOf(job, p);
    && Clear(w, p)
    && (slot in w.slots ==>
          && w.slots[slot].status == Failed && job.retryFailed
          && (IsLengthFailure(w.slots[slot]) ==>
                Select(w.events, RecoveryOf(slot)) == [] && TruncationRetries(Retries(w, slot)) < cfg.truncationRetries))
  }

  /** A call has been asked for since. */
  predicate Asked(w0: World, w: World, slot: Slot) {
    AttemptNumber(w0, slot) < AttemptNumber(w, slot)
  }

  /** Every call that is due has been put on the list. */
  ghost predicate DueListed(cfg: Config, w: World, job: Job, names: seq<Provider>, work: seq<Provider>) {
    forall p | p in names && IsDue(cfg, w, job, p) :: p in work
  }

  lemma WorkIsStartable(cfg: Config, w: World, job: Job, p: Provider)
    requires ValidConfig(cfg) && Inv(cfg, w) && StageReady(cfg, w, job, p) && Clear(w, p)
    requires SlotOf(job, p) in w.slots ==> job.retryFailed && IsRetryable(w.slots[SlotOf(job, p)])
    requires !Exhausted(cfg, w, SlotOf(job, p))
    ensures Startable(cfg, w, SlotOf(job, p))
  {
  }

  lemma SynthesisIsCurrent(cfg: Config, w: World, q: Provider)
    requires ValidConfig(cfg) && LocksInv(cfg, w) && SucceededAt(w, Slot(Synthesis, q))
    ensures Namespace(w).Some? && Adjudication(w).Some?
    ensures q in cfg.chain && IndexOf(cfg.chain, q) + 1 == Position(w)
  {
    LoadersAccept(cfg, w);
  }

  lemma SamePosition(xs: seq<Label>, x: Label, y: Label)
    requires y in xs && IndexOf(xs, x) == IndexOf(xs, y)
    ensures x == y
  {
  }

  /** While there is still something to start, no synthesis has succeeded. */
  lemma NoSynthesisYet(cfg: Config, w: World, slot: Slot, q: Provider)
    requires ValidConfig(cfg) && LocksInv(cfg, w) && Startable(cfg, w, slot)
    ensures !SucceededAt(w, Slot(Synthesis, q))
  {
    if SucceededAt(w, Slot(Synthesis, q)) {
      SynthesisIsCurrent(cfg, w, q);
      if slot.stage == Synthesis {
        SamePosition(cfg.chain, slot.provider, q);
      }
    }
  }

  // ----- What is reported about a provider -----

  /** The reported failure is the one on record, if there is a record. */
  predicate Recorded(w: World, slot: Slot, e: ProviderError) {
    slot in w.slots ==> w.slots[slot].status == Failed && w.slots[slot].error == Some(e)
  }

  /** The three ways a failed slot is passed over with an error of its own, all only when failed slots may be retried. */
  ghost predicate Excused(cfg: Config, w0: World, job: Job, p: Provider)
    requires p in job.prompts
  {
    && job.retryFailed && SlotOf(job, p) in w0.slots
    && (!Clear(w0, p) || cfg.promptChars(job.prompts[p]) > cfg.maxPromptChars || Exhausted(cfg, w0, SlotOf(job, p)))
  }

  ghost predicate FailureOk(cfg: Config, w0: World, w: World, job: Job, f: StageFailure) {
    && f.stage == job.stage && f.provider in job.prompts
    && !SucceededAt(w, SlotOf(job, f.provider))
    && (Recorded(w, SlotOf(job, f.provider), f.error) || Excused(cfg, w0, job, f.provider))
  }

  predicate SuccessOk(w: World, job: Job, p: Provider, r: Response) {
    SucceededAt(w, SlotOf(job, p)) && w.slots[SlotOf(job, p)].response == Some(r)
  }

  /** A response cut off in this very stage, recorded as failed and still owed a retry. */
  datatype Cut = Cut(response: Response, limit: nat, callCount: nat)

  ghost predicate CutOk(cfg: Config, w: World, job: Job, p: Provider, c: Cut) {
    var slot := SlotOf(job, p);
    && slot in w.slots && slot !in w.live
    && IsLengthFailure(w.slots[slot]) && IsRetryable(w.slots[slot])
    && CompletionError(c.response).Some? && w.slots[slot].error == CompletionError(c.response)
    && w.slots[slot].callCount == c.callCount
    && TruncationRetries(Retries(w, slot)) < cfg.truncationRetries
    && Clear(w, p)
  }

  datatype Done = Done(successes: map<Provider, Response>, failures: seq<StageFailure>, cut: map<Provider, Cut>)

  function Failed'(failures: seq<StageFailure>): (r: seq<Provider>)
    ensures |r| == |failures| && forall i | 0 <= i < |r| :: r[i] == failures[i].provider
  {
    seq(|failures|, i requires 0 <= i < |failures| => failures[i].provider)
  }

  ghost predicate DoneOk(cfg: Config, w0: World, w: World, job: Job, d: Done) {
    && (forall p | p in d.successes :: SuccessOk(w, job, p, d.successes[p]))
    && (forall f | f in d.failures :: FailureOk(cfg, w0, w, job, f))
    && (forall p | p in d.cut :: CutOk(cfg, w, job, p, d.cut[p]))
  }

  /** Every name is in exactly one place: succeeded, failed once, cut, or still to be dealt with. */
  ghost predicate Split(names: seq<Provider>, d: Done, rest: set<Provider>) {
    && Distinct(Failed'(d.failures))
    && (forall p :: p in names <==> p in d.successes || p in Failed'(d.failures) || p in d.cut || p in rest)
    && (forall p | p in d.successes :: p !in Failed'(d.failures) && p !in d.cut && p !in rest)
    && (forall p | p in Failed'(d.failures) :: p !in d.cut && p !in rest)
    && (forall p | p in d.cut :: p !in rest)
  }

  lemma FailedAppend(failures: seq<StageFailure>, f: StageFailure)
    ensures Failed'(failures + [f]) == Failed'(failures) + [f.provider]
  {
  }

  lemma SplitFails(names: seq<Provider>, d: Done, rest: set<Provider>, f: StageFailure)
    requires Split(names, d, rest) && f.provider in rest
    ensures Split(names, d.(failures := d.failures + [f]), rest - {f.provider})
  {
    FailedAppend(d.failures, f);
  }

  lemma SplitSucceeds(names: seq<Provider>, d: Done, rest: set<Provider>, p: Provider, r: Response)
    requires Split(names, d, rest) && p in rest
    ensures Split(names, d.(successes := d.successes[p := r]), rest - {p})
  {
  }

  lemma SplitCuts(names: seq<Provider>, d: Done, rest: set<Provider>, p: Provider, c: Cut)
    requires Split(names, d, rest) && p in rest
    ensures Split(names, d.(cut := d.cut[p := c]), rest - {p})
  {
  }

  /** Every provider with an invocation in this run whose outcome is unknown. */
  function AmbiguousProviders(records: Slots): set<Provider> {
    set s | s in records && (records[s].status == Running
                             || (records[s].status == Failed && records[s].errorAmbiguous == Some(true))) :: s.provider
  }

  lemma ClearExactly(w: World, p: Provider)
    requires Rows(w)
    ensures Clear(w, p) <==> p !in AmbiguousProviders(w.slots)
  {
    if p !in AmbiguousProviders(w.slots) {
      forall s | s in w.slots && s.provider == p ensures w.slots[s].status != Running && !IsAmbiguous(w.slots[s]) {
        assert RowOk(w.slots[s]);
      }
    } else {
      var s :| s in w.slots && s.provider == p && (w.slots[s].status == Running
               || (w.slots[s].status == Failed && w.slots[s].errorAmbiguous == Some(true)));
      assert RowOk(w.slots[s]);
    }
  }

  // ----- Where each call of a stage stands -----

  /** `_ProviderCallOutcome` */
  datatype CallOutcome = CallOutcome(
    started: bool, response: Option<Response>, error: Option<ProviderError>, limit: nat, dispatched: bool,
    attempt: Option<nat>)

  datatype Progress =
    | Waiting
    | Begun
    | Authorized(attempt: nat)
    | Returned(outcome: CallOutcome, phase: Phase)
    | Finished

  /** The other rows of this provider are all decided. */
  ghost predicate OthersClear(w: World, slot: Slot) {
    forall s | s in w.slots && s.provider == slot.provider && s != slot ::
      w.slots[s].status != Running && !IsAmbiguous(w.slots[s])
  }

  /** A name that is left to be worked on: absent, or failed where failed slots may be retried. */
  ghost predicate WorkOk(cfg: Config, w0: World, w: World, job: Job, p: Provider) {
    && NotBegun(cfg, w0, w, SlotOf(job, p))
    && (SlotOf(job, p) in w0.slots ==> job.retryFailed)
  }

  lemma WorkIsRight(cfg: Config, w0: World, job: Job, p: Provider)
    requires ValidConfig(cfg) && Inv(cfg, w0) && w0.live == map[] && StageReady(cfg, w0, job, p) && Clear(w0, p)
    requires SlotOf(job, p) in w0.slots ==> job.retryFailed && IsRetryable(w0.slots[SlotOf(job, p)])
    requires !Exhausted(cfg, w0, SlotOf(job, p))
    ensures WorkOk(cfg, w0, w0, job, p)
  {
    WorkIsStartable(cfg, w0, job, p);
  }

  predicate WasCut(w0: World, slot: Slot) {
    slot in w0.slots && IsLengthFailure(w0.slots[slot])
  }

  ghost predicate InFlight(w0: World, w: World, slot: Slot) {
    && slot in w.live && slot in w.slots && w.slots[slot].status == Running
    && RestoresTo(w, slot, RowAt(w0, slot))
    && OthersClear(w, slot)
    && (WasCut(w0, slot) || TruncationRetries(Retries(w, slot)) <= TruncationRetries(Retries(w0, slot)))
  }

  ghost predicate NotBegun(cfg: Config, w0: World, w: World, slot: Slot) {
    && Startable(cfg, w, slot) && slot !in w.live
    && RowAt(w, slot) == RowAt(w0, slot) && Retries(w, slot) == Retries(w0, slot)
  }

  ghost predicate OutcomeOk(cfg: Config, w: World, slot: Slot, o: CallOutcome, phase: Phase) {
    && slot in w.live && w.live[slot] == phase
    && o.attempt == Some(AttemptNumber(w, slot))
    && (phase == Free <==> !cfg.gated)
    && (if o.dispatched then o.response.Some? != o.error.Some? && phase in {Leased, Free}
        else o.error.Some? && phase in {Leased, Dropped, Free})
  }

  ghost predicate ProgressOk(cfg: Config, w0: World, w: World, slot: Slot, progress: Progress) {
    match progress
    case Waiting => NotBegun(cfg, w0, w, slot)
    case Begun => InFlight(w0, w, slot) && w.live[slot] == (if cfg.gated then Started else Free)
    case Authorized(attempt) =>
      InFlight(w0, w, slot) && attempt == AttemptNumber(w, slot) && w.live[slot] == (if cfg.gated then Leased else Free)
    case Returned(o, phase) =>
      if o.started then InFlight(w0, w, slot) && OutcomeOk(cfg, w, slot, o, phase)
      else NotBegun(cfg, w0, w, slot) && !o.dispatched && o.error.Some? && !o.error.value.ambiguous
    case Finished => slot !in w.live
  }

  /** Nothing about this provider changed. */
  ghost predicate Untouched(w: World, w': World, p: Provider) {
    QuietSame(w, w') && forall s: Slot | s.provider == p :: KeptAt(w, w', s)
  }

  lemma UntouchedMoves(w: World, w1: World, w2: World, p: Provider, moved: Slot)
    requires Untouched(w, w1, p) && Moved(w1, w2, moved) && moved.provider != p
    ensures Untouched(w, w2, p)
  {
    forall s: Slot | s.provider == p ensures KeptAt(w, w2, s) {
      assert KeptAt(w, w1, s) && KeptAt(w1, w2, s);
    }
  }

  lemma StartableFrame(cfg: Config, w: World, w': World, slot: Slot)
    requires ValidConfig(cfg) && Untouched(w, w', slot.provider) && Startable(cfg, w, slot)
    ensures Startable(cfg, w', slot)
  {
    QuietReads(w, w');
    assert KeptAt(w, w', slot) && KeptAt(w, w', Slot(Jury, slot.provider));
    forall s | s in w'.slots && s.provider == slot.provider
      ensures w'.slots[s].status != Running && !IsAmbiguous(w'.slots[s])
    {
      assert KeptAt(w, w', s);
    }
  }

  lemma NotBegunFrame(cfg: Config, w0: World, w: World, w': World, slot: Slot)
    requires ValidConfig(cfg) && Untouched(w, w', slot.provider) && NotBegun(cfg, w0, w, slot)
    ensures NotBegun(cfg, w0, w', slot)
  {
    StartableFrame(cfg, w, w', slot);
    assert KeptAt(w, w', slot);
  }

  lemma OthersClearFrame(w: World, w': World, slot: Slot)
    requires forall s: Slot | s.provider == slot.provider && s != slot :: KeptAt(w, w', s)
    requires OthersClear(w, slot)
    ensures OthersClear(w', slot)
  {
    forall s | s in w'.slots && s.provider == slot.provider && s != slot
      ensures w'.slots[s].status != Running && !IsAmbiguous(w'.slots[s])
    {
      assert KeptAt(w, w', s);
    }
  }

  /** The steps of other providers leave this one's call where it stood. */
  lemma ProgressFrame(cfg: Config, w0: World, w: World, w': World, slot: Slot, progress: Progress)
    requires ValidConfig(cfg) && Untouched(w, w', slot.provider)
    requires ProgressOk(cfg, w0, w, slot, progress)
    ensures ProgressOk(cfg, w0, w', slot, progress)
  {
    assert KeptAt(w, w', slot);
    if progress.Waiting? || (progress.Returned? && !progress.outcome.started) {
      NotBegunFrame(cfg, w0, w, w', slot);
    } else if !progress.Finished? {
      OthersClearFrame(w, w', slot);
    }
  }
}
