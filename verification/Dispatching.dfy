/**
 The invariant of a stage's dispatch loop, and one lemma for each way a call moves on.
 */
module Dispatching {
  import opened Wrappers
  import opened Borda
  import opened Records
  import opened World
  import opened Audit
  import opened TwoLedgers
  import opened StageSteps

  type Calling = map<Provider, Progress>

  function WaitingIn(progress: Calling): set<Provider> {
    set p | p in progress && progress[p].Waiting?
  }

  function PendingIn(progress: Calling): set<Provider> {
    set p | p in progress && !progress[p].Finished?
  }

  // ----- Progress -----

  function Milestone(p: Progress): nat {
    match p
    case Waiting => 0
    case Begun => 1
    case Authorized(_) => 2
    case Returned(_, _) => 3
    case Finished => 4
  }

  function AtMost(progress: Calling, k: nat): set<Provider> {
    set p | p in progress && Milestone(progress[p]) <= k
  }

  /** How many steps are left at most. */
  function Remaining(progress: Calling): nat {
    |AtMost(progress, 0)| + |AtMost(progress, 1)| + |AtMost(progress, 2)| + |AtMost(progress, 3)|
  }

  lemma AtMostShrinks(progress: Calling, p: Provider, next: Progress, k: nat)
    requires p in progress && Milestone(next) > Milestone(progress[p])
    ensures |AtMost(progress[p := next], k)| <= |AtMost(progress, k)|
    ensures k == Milestone(progress[p]) ==> |AtMost(progress[p := next], k)| < |AtMost(progress, k)|
  {
    var a, b := AtMost(progress[p := next], k), AtMost(progress, k);
    assert a <= b;
    SubsetSize(a, b);
    if k == Milestone(progress[p]) {
      assert p in b && p !in a && a <= b - {p};
      SubsetSize(a, b - {p});
    }
  }

  lemma ProgressDecreases(progress: Calling, p: Provider, next: Progress)
    requires p in progress && Milestone(next) > Milestone(progress[p])
    ensures Remaining(progress[p := next]) < Remaining(progress)
  {
    AtMostShrinks(progress, p, next, 0);
    AtMostShrinks(progress, p, next, 1);
    AtMostShrinks(progress, p, next, 2);
    AtMostShrinks(progress, p, next, 3);
  }

  // ----- Reports -----

  /** What is reported about one call: its response, its failure, or a response to be asked for again. */
  datatype Settlement = Answered(response: Response) | Refused(error: ProviderError) | CutShort(cut: Cut)

  ghost predicate SettlementOk(cfg: Config, w: World, job: Job, p: Provider, s: Settlement) {
    match s
    case Answered(response) => SuccessOk(w, job, p, response)
    case Refused(error) => Recorded(w, SlotOf(job, p), error)
    case CutShort(cut) => CutOk(cfg, w, job, p, cut)
  }

  /** A complete response is a success, any other a failure. */
  function AsSettled(r: Response): Settlement {
    var error := CompletionError(r);
    if error.Some? then Refused(error.value) else Answered(r)
  }

  /** The same, where a failed slot may also be passed over with an error of its own. */
  ghost predicate ReportOk(cfg: Config, w0: World, w: World, job: Job, p: Provider, s: Settlement) {
    && p in job.prompts
    && match s
       case Answered(response) => SuccessOk(w, job, p, response)
       case Refused(error) => FailureOk(cfg, w0, w, job, StageFailure(job.stage, p, error))
       case CutShort(cut) => CutOk(cfg, w, job, p, cut)
  }

  /** Appending to the stage's three result collections. */
  function Added(d: Done, job: Job, p: Provider, s: Settlement): Done {
    match s
    case Answered(response) => d.(successes := d.successes[p := response])
    case Refused(error) => d.(failures := d.failures + [StageFailure(job.stage, p, error)])
    case CutShort(cut) => d.(cut := d.cut[p := cut])
  }

  lemma AddedOk(cfg: Config, w0: World, w: World, job: Job, d: Done, p: Provider, s: Settlement)
    requires DoneOk(cfg, w0, w, job, d) && ReportOk(cfg, w0, w, job, p, s)
    ensures DoneOk(cfg, w0, w, job, Added(d, job, p, s))
  {
  }

  lemma AddedSplit(names: seq<Provider>, job: Job, d: Done, rest: set<Provider>, p: Provider, s: Settlement)
    requires Split(names, d, rest) && p in rest
    ensures Split(names, Added(d, job, p, s), rest - {p})
  {
    match s
    case Answered(response) => SplitSucceeds(names, d, rest, p, response);
    case Refused(error) => SplitFails(names, d, rest, StageFailure(job.stage, p, error));
    case CutShort(cut) => SplitCuts(names, d, rest, p, cut);
  }

  // ----- The loop invariant -----

  ghost predicate CallsOk(cfg: Config, w0: World, w: World, job: Job, progress: Calling) {
    && (forall p | p in progress :: ProgressOk(cfg, w0, w, SlotOf(job, p), progress[p]))
    && (forall s | s in w.live :: s.stage == job.stage && s.provider in progress && !progress[s.provider].Finished?)
  }

  ghost predicate FitsBudget(cfg: Config, w: World, progress: Calling, reserve: int) {
    Calls(w.slots) + |WaitingIn(progress)| + reserve <= cfg.maxCalls
  }

  ghost predicate DispatchInv(cfg: Config, w0: World, w: World, job: Job, names: seq<Provider>, reserve: int,
                              progress: Calling, d: Done)
  {
    && (forall p | p in progress :: p in names)
    && Within(w0, w, job.stage, names)
    && CallsOk(cfg, w0, w, job, progress)
    && FitsBudget(cfg, w, progress, reserve)
    && DoneOk(cfg, w0, w, job, d)
    && Split(names, d, PendingIn(progress))
  }

  lemma CallsOkMoves(cfg: Config, w0: World, w: World, w': World, job: Job, progress: Calling, p: Provider, next: Progress)
    requires ValidConfig(cfg) && CallsOk(cfg, w0, w, job, progress) && p in progress && !progress[p].Finished?
    requires Moved(w, w', SlotOf(job, p)) && ProgressOk(cfg, w0, w', SlotOf(job, p), next)
    ensures CallsOk(cfg, w0, w', job, progress[p := next])
  {
    var progress' := progress[p := next];
    forall q | q in progress' ensures ProgressOk(cfg, w0, w', SlotOf(job, q), progress'[q]) {
      if q != p {
        ProgressFrame(cfg, w0, w, w', SlotOf(job, q), progress[q]);
      }
    }
    forall s | s in w'.live ensures s.stage == job.stage && s.provider in progress' && !progress'[s.provider].Finished? {
      if s != SlotOf(job, p) {
        assert KeptAt(w, w', s);
      }
    }
  }

  lemma WaitingMoves(progress: Calling, p: Provider, next: Progress)
    requires p in progress && !next.Waiting?
    ensures |WaitingIn(progress[p := next])| == |WaitingIn(progress)| - if progress[p].Waiting? then 1 else 0
  {
    var a, b := WaitingIn(progress[p := next]), WaitingIn(progress);
    assert a == b - {p};
  }

  lemma OneWaiting(progress: Calling, p: Provider)
    requires p in progress
    ensures progress[p].Waiting? ==> |WaitingIn(progress)| >= 1
  {
    if progress[p].Waiting? {
      assert p in WaitingIn(progress);
    }
  }

  lemma NonePending(progress: Calling)
    requires forall p | p in progress :: progress[p].Finished?
    ensures PendingIn(progress) == {}
  {
    forall p ensures p !in PendingIn(progress) {
      assert p in progress ==> progress[p].Finished?;
    }
  }

  lemma PendingMoves(progress: Calling, p: Provider, next: Progress)
    requires p in progress && !progress[p].Finished?
    ensures PendingIn(progress[p := next]) == if next.Finished? then PendingIn(progress) - {p} else PendingIn(progress)
  {
  }

  lemma DoneFrame(cfg: Config, w0: World, w: World, w': World, job: Job, d: Done, p: Provider)
    requires DoneOk(cfg, w0, w, job, d) && Moved(w, w', SlotOf(job, p))
    requires p !in d.successes && p !in Failed'(d.failures) && p !in d.cut
    ensures DoneOk(cfg, w0, w', job, d)
  {
    forall q | q in d.successes ensures SuccessOk(w', job, q, d.successes[q]) {
      assert KeptAt(w, w', SlotOf(job, q));
    }
    forall f | f in d.failures ensures FailureOk(cfg, w0, w', job, f) {
      InFailed(d.failures, f);
      assert KeptAt(w, w', SlotOf(job, f.provider));
    }
    forall q | q in d.cut ensures CutOk(cfg, w', job, q, d.cut[q]) {
      CutFrame(cfg, w, w', job, q, d.cut[q], SlotOf(job, p));
    }
  }

  lemma CutFrame(cfg: Config, w: World, w': World, job: Job, q: Provider, c: Cut, moved: Slot)
    requires CutOk(cfg, w, job, q, c) && Moved(w, w', moved) && moved.provider != q
    ensures CutOk(cfg, w', job, q, c)
  {
    assert KeptAt(w, w', SlotOf(job, q));
    forall s | s in w'.slots && s.provider == q ensures w'.slots[s].status != Running && !IsAmbiguous(w'.slots[s]) {
      assert KeptAt(w, w', s);
    }
  }

  /** One call moves on without ending. */
  lemma CallMoves(cfg: Config, w0: World, w: World, w': World, job: Job, names: seq<Provider>, reserve: int,
                  progress: Calling, d: Done, p: Provider, next: Progress)
    requires ValidConfig(cfg) && DispatchInv(cfg, w0, w, job, names, reserve, progress, d)
    requires p in progress && !progress[p].Finished? && !next.Finished? && !next.Waiting?
    requires Moved(w, w', SlotOf(job, p)) && ProgressOk(cfg, w0, w', SlotOf(job, p), next)
    requires Calls(w'.slots) <= Calls(w.slots) + if progress[p].Waiting? then 1 else 0
    ensures DispatchInv(cfg, w0, w', job, names, reserve, progress[p := next], d)
  {
    assert p in PendingIn(progress);
    WithinMoves(w0, w, w', job.stage, names, p);
    CallsOkMoves(cfg, w0, w, w', job, progress, p, next);
    WaitingMoves(progress, p, next);
    PendingMoves(progress, p, next);
    DoneFrame(cfg, w0, w, w', job, d, p);
  }

  /** One call ends, and what is reported about it is right. */
  lemma CallEnds(cfg: Config, w0: World, w: World, w': World, job: Job, names: seq<Provider>, reserve: int,
                 progress: Calling, d: Done, p: Provider, d': Done)
    requires ValidConfig(cfg) && DispatchInv(cfg, w0, w, job, names, reserve, progress, d)
    requires p in progress && !progress[p].Finished?
    requires Moved(w, w', SlotOf(job, p)) && SlotOf(job, p) !in w'.live
    requires Calls(w'.slots) <= Calls(w.slots)
    requires DoneOk(cfg, w0, w', job, d) ==> DoneOk(cfg, w0, w', job, d')
    requires Split(names, d', PendingIn(progress) - {p})
    ensures DispatchInv(cfg, w0, w', job, names, reserve, progress[p := Finished], d')
  {
    assert p in PendingIn(progress);
    WithinMoves(w0, w, w', job.stage, names, p);
    CallsOkMoves(cfg, w0, w, w', job, progress, p, Finished);
    WaitingMoves(progress, p, Finished);
    PendingMoves(progress, p, Finished);
    DoneFrame(cfg, w0, w, w', job, d, p);
  }

  // ----- The steps of one call -----

  lemma MovedRefl(w: World, slot: Slot)
    ensures Moved(w, w, slot)
  {
  }

  lemma StartCounts(cfg: Config, w: World, slot: Slot, prompt: Prompt, now: nat)
    requires ValidConfig(cfg) && AuditInv(cfg, w) && Enabled(cfg, w, Start(slot, prompt, now))
    ensures TruncationRetries(Retries(Next(cfg, w, Start(slot, prompt, now)), slot))
            <= TruncationRetries(Retries(w, slot)) + if WasCut(w, slot) then 1 else 0
    ensures RestoresTo(Next(cfg, w, Start(slot, prompt, now)), slot, RowAt(w, slot))
  {
    assert RetryAuditOf(w, slot);
    RetriesNext(cfg, w, Start(slot, prompt, now), slot);
    if slot in w.slots {
      TruncationAppend(Retries(w, slot), RetryEvent(slot, w.slots[slot]));
    }
  }

  lemma Begins(cfg: Config, w0: World, w: World, slot: Slot, prompt: Prompt, now: nat)
    requires ValidConfig(cfg) && AuditInv(cfg, w) && Enabled(cfg, w, Start(slot, prompt, now))
    requires NotBegun(cfg, w0, w, slot)
    ensures ProgressOk(cfg, w0, Next(cfg, w, Start(slot, prompt, now)), slot, Begun)
    ensures Asked(w, Next(cfg, w, Start(slot, prompt, now)), slot)
  {
    StartCounts(cfg, w, slot, prompt, now);
    AttemptNext(cfg, w, Start(slot, prompt, now), slot);
  }

  /** A ledger step changes where the call stands and nothing else about it. */
  lemma LeaseMoves(cfg: Config, w0: World, w: World, a: Action, slot: Slot)
    requires ValidConfig(cfg) && Enabled(cfg, w, a) && InFlight(w0, w, slot)
    requires (a.Grant? || a.Refuse? || a.GiveBack? || a.Reconcile?) && a.slot == slot
    ensures InFlight(w0, Next(cfg, w, a), slot)
    ensures AttemptNumber(Next(cfg, w, a), slot) == AttemptNumber(w, slot)
    ensures Next(cfg, w, a).live[slot] ==
              if a.Grant? then Leased else if a.Reconcile? then Settled else Dropped
  {
  }

  lemma NoteKeepsFlight(cfg: Config, w0: World, w: World, e: Event, slot: Slot)
    requires ValidConfig(cfg) && AuditInv(cfg, w) && Enabled(cfg, w, Note(e)) && StageAction(Note(e)) && InFlight(w0, w, slot)
    ensures Moved(w, Next(cfg, w, Note(e)), slot) && KeptAt(w, Next(cfg, w, Note(e)), slot)
    ensures InFlight(w0, Next(cfg, w, Note(e)), slot)
  {
    var w' := Next(cfg, w, Note(e));
    StepMoves(cfg, w, Note(e), slot);
    assert RetryAuditOf(w, slot);
    StepKeeps(cfg, w, Note(e), slot);
    OthersClearFrame(w, w', slot);
  }

  /** After the failure of a completed but cut response is stored, a retry of it is known to be safe. */
  lemma Cuts(cfg: Config, w0: World, w: World, job: Job, p: Provider, r: Response, now: nat, limit: nat)
    requires ValidConfig(cfg) && AuditInv(cfg, w) && InFlight(w0, w, SlotOf(job, p)) && r.finish == Length
    requires CompletionError(r).Some? && Enabled(cfg, w, Fail(SlotOf(job, p), CompletionError(r).value, now))
    requires !WasCut(w0, SlotOf(job, p)) && TruncationRetries(Retries(w0, SlotOf(job, p))) < cfg.truncationRetries
    ensures var w' := Next(cfg, w, Fail(SlotOf(job, p), CompletionError(r).value, now));
            && SlotOf(job, p) in w'.slots
            && CutOk(cfg, w', job, p, Cut(r, limit, w'.slots[SlotOf(job, p)].callCount))
  {
    hide ValidConfig, TruncationRetries, Select, RowOk, CompletionError, IsLengthMessage, RestoresTo;
    var slot := SlotOf(job, p);
    var a := Fail(slot, CompletionError(r).value, now);
    TruncationIsRecognised(r);
    assert RetryAuditOf(w, slot);
    RetriesNext(cfg, w, a, slot);
  }

  // ----- Sorting the names out before any work -----

  /** `todo` has still to be looked at, `work` has been left to be worked on, the rest is accounted for. */
  ghost predicate SortInv(cfg: Config, w0: World, w: World, job: Job, names: seq<Provider>,
                          todo: seq<Provider>, work: seq<Provider>, d: Done)
  {
    && Within(w0, w, job.stage, names)
    && (forall p | p in todo || p in work :: Untouched(w0, w, p))
    && (forall p | p in work :: WorkOk(cfg, w0, w0, job, p))
    && Distinct(todo + work)
    && DoneOk(cfg, w0, w, job, d) && d.cut == map[]
    && Split(names, d, set p | p in todo + work)
  }

  lemma Rotate(p: Provider, rest: seq<Provider>, work: seq<Provider>)
    requires Distinct([p] + rest + work)
    ensures Distinct(rest + work) && Distinct(rest + (work + [p]))
    ensures p !in rest + work
    ensures (set q | q in rest + work) == (set q | q in [p] + rest + work) - {p}
    ensures (set q | q in rest + (work + [p])) == (set q | q in [p] + rest + work)
  {
    var all, tail := [p] + rest + work, rest + work;
    assert all[1..] == tail;
    forall i | 0 <= i < |tail| ensures tail[i] != p {
      assert all[0] != all[i + 1];
    }
    assert rest + (work + [p]) == tail + [p];
  }

  lemma SortStep(cfg: Config, w0: World, w: World, w': World, job: Job, names: seq<Provider>,
                 todo: seq<Provider>, work: seq<Provider>, d: Done, v: Option<Settlement>)
    requires todo != [] && SortInv(cfg, w0, w, job, names, todo, work, d)
    requires Moved(w, w', SlotOf(job, todo[0]))
    requires v.Some? ==> ReportOk(cfg, w0, w', job, todo[0], v.value) && !v.value.CutShort?
    requires v.None? ==> w' == w && WorkOk(cfg, w0, w0, job, todo[0])
    ensures v.Some? ==> SortInv(cfg, w0, w', job, names, todo[1..], work, Added(d, job, todo[0], v.value))
    ensures v.None? ==> SortInv(cfg, w0, w', job, names, todo[1..], work + [todo[0]], d)
  {
    var p, rest := todo[0], set q | q in todo + work;
    assert todo == [p] + todo[1..];
    assert todo + work == [p] + todo[1..] + work;
    Rotate(p, todo[1..], work);
    if v.Some? {
      AddedSplit(names, job, d, rest, p, v.value);
      DoneFrame(cfg, w0, w, w', job, d, p);
      AddedOk(cfg, w0, w', job, d, p, v.value);
      WithinMoves(w0, w, w', job.stage, names, p);
      forall q | q in todo[1..] || q in work ensures Untouched(w0, w', q) {
        UntouchedMoves(w0, w, w', q, SlotOf(job, p));
      }
    }
  }

  /** Taking names back from the work list. */
  lemma Requeue(cfg: Config, w0: World, w: World, job: Job, names: seq<Provider>,
                kept: seq<Provider>, back: seq<Provider>, d: Done)
    requires SortInv(cfg, w0, w, job, names, [], kept + back, d)
    ensures SortInv(cfg, w0, w, job, names, back, kept, d)
    ensures forall p | p in back :: WorkOk(cfg, w0, w0, job, p)
  {
    assert [] + (kept + back) == kept + back;
    Swapped(kept, back);
  }

  lemma Swapped(xs: seq<Provider>, ys: seq<Provider>)
    requires Distinct(xs + ys)
    ensures Distinct(ys + xs)
    ensures (set p | p in ys + xs) == (set p | p in xs + ys)
  {
    var a, b := xs + ys, ys + xs;
    forall i, j | 0 <= i < j < |b| ensures b[i] != b[j] {
      var i', j' := if i < |ys| then i + |xs| else i - |ys|, if j < |ys| then j + |xs| else j - |ys|;
      assert b[i] == a[i'] && b[j] == a[j'] && i' != j';
    }
  }

  /** What was stored before may be reported for a name left to be worked on; anything may if nothing was. */
  lemma PriorReport(cfg: Config, w0: World, w: World, job: Job, p: Provider, e: ProviderError)
    requires WorkOk(cfg, w0, w0, job, p) && Untouched(w0, w, p) && p in job.prompts
    requires SlotOf(job, p) in w0.slots ==> w0.slots[SlotOf(job, p)].error == Some(e)
    ensures ReportOk(cfg, w0, w, job, p, Refused(e))
  {
    assert KeptAt(w0, w, SlotOf(job, p));
  }

  lemma OversizeReport(cfg: Config, w0: World, w: World, job: Job, p: Provider, e: ProviderError)
    requires WorkOk(cfg, w0, w0, job, p) && Untouched(w0, w, p) && p in job.prompts
    requires cfg.promptChars(job.prompts[p]) > cfg.maxPromptChars
    ensures ReportOk(cfg, w0, w, job, p, Refused(e))
  {
    assert KeptAt(w0, w, SlotOf(job, p));
  }

  lemma WorkFailedBefore(cfg: Config, w0: World, job: Job, p: Provider)
    requires WorkOk(cfg, w0, w0, job, p)
    ensures SlotOf(job, p) in w0.slots ==> w0.slots[SlotOf(job, p)].status == Failed && w0.slots[SlotOf(job, p)].error.Some?
  {
  }

  /** The names left to be worked on, all waiting: the dispatch loop's starting point. */
  lemma StartDispatch(cfg: Config, w0: World, w: World, job: Job, names: seq<Provider>, work: seq<Provider>, d: Done,
                      reserve: int, progress: Calling)
    requires ValidConfig(cfg) && SortInv(cfg, w0, w, job, names, [], work, d) && w.live == map[]
    requires progress == map p | p in work :: Waiting
    requires Calls(w.slots) + |work| + reserve <= cfg.maxCalls
    ensures DispatchInv(cfg, w0, w, job, names, reserve, progress, d)
  {
    assert [] + work == work;
    forall p | p in progress ensures ProgressOk(cfg, w0, w, SlotOf(job, p), progress[p]) {
      NotBegunFrame(cfg, w0, w0, w, SlotOf(job, p));
    }
    assert WaitingIn(progress) == set p | p in work;
    assert PendingIn(progress) == set p | p in work;
    SetOfSeq(work);
  }

  lemma {:induction false} SetOfSeq(xs: seq<Provider>)
    ensures |set x | x in xs| <= |xs|
    ensures Distinct(xs) ==> |set x | x in xs| == |xs|
  {
    if xs != [] {
      var tail := set x | x in xs[1..];
      assert xs == [xs[0]] + xs[1..];
      assert (set x | x in xs) == tail + {xs[0]};
      SetOfSeq(xs[1..]);
    }
  }

  /** Names whose slot is absent, or failed where failed slots may be retried. */
  function OpenNames(w: World, job: Job, names: seq<Provider>): set<Provider> {
    set p | p in names && (SlotOf(job, p) in w.slots ==> job.retryFailed && IsRetryable(w.slots[SlotOf(job, p)]))
  }

  lemma WorkIsOpen(cfg: Config, w0: World, w: World, job: Job, names: seq<Provider>, work: seq<Provider>, d: Done)
    requires SortInv(cfg, w0, w, job, names, [], work, d)
    ensures |work| <= |OpenNames(w0, job, names)|
  {
    assert [] + work == work;
    SetOfSeq(work);
    forall p | p in work ensures p in OpenNames(w0, job, names) {
      assert WorkOk(cfg, w0, w0, job, p);
    }
    SubsetSize((set p | p in work), OpenNames(w0, job, names));
  }

  // ----- Retrying what was cut off -----

  /** Nothing at all changed that a stage looks at. */
  ghost predicate AllKept(w: World, w': World) {
    QuietSame(w, w') && forall s :: KeptAt(w, w', s)
  }

  lemma NoteKeepsAll(cfg: Config, w: World, e: Event)
    requires ValidConfig(cfg) && AuditInv(cfg, w) && Enabled(cfg, w, Note(e)) && StageAction(Note(e))
    ensures AllKept(w, Next(cfg, w, Note(e)))
  {
    StepIsQuiet(cfg, w, Note(e));
    forall s ensures KeptAt(w, Next(cfg, w, Note(e)), s) {
      assert RetryAuditOf(w, s);
      StepKeeps(cfg, w, Note(e), s);
    }
  }

  lemma DoneKept(cfg: Config, w0: World, w: World, w': World, job: Job, names: seq<Provider>, d: Done)
    requires AllKept(w, w') && DoneOk(cfg, w0, w, job, d) && Within(w0, w, job.stage, names)
    ensures DoneOk(cfg, w0, w', job, d) && Within(w0, w', job.stage, names)
  {
    hide Select, AttemptNumber, CompletionError, IsLengthFailure, IsRetryable, TruncationRetries;
    forall p | p in d.successes ensures SuccessOk(w', job, p, d.successes[p]) {
      assert KeptAt(w, w', SlotOf(job, p));
    }
    forall f | f in d.failures ensures FailureOk(cfg, w0, w', job, f) {
      assert KeptAt(w, w', SlotOf(job, f.provider));
    }
    forall p | p in d.cut ensures CutOk(cfg, w', job, p, d.cut[p]) {
      assert KeptAt(w, w', SlotOf(job, p));
      assert forall s | s in w'.slots :: KeptAt(w, w', s);
    }
    forall s: Slot | !(s.stage == job.stage && s.provider in names) ensures RowAt(w', s) == RowAt(w0, s) {
      assert KeptAt(w, w', s);
    }
  }

  /** A cut response that cannot be given a larger limit is a failure after all. */
  function GivenUp(d: Done, job: Job, p: Provider, e: ProviderError): Done {
    Done(d.successes, d.failures + [StageFailure(job.stage, p, e)], d.cut - {p})
  }

  lemma GivenUpOk(cfg: Config, w0: World, w: World, job: Job, names: seq<Provider>, d: Done, p: Provider)
    requires DoneOk(cfg, w0, w, job, d) && Split(names, d, {}) && p in d.cut && p in job.prompts
    ensures CompletionError(d.cut[p].response).Some?
    ensures DoneOk(cfg, w0, w, job, GivenUp(d, job, p, CompletionError(d.cut[p].response).value))
    ensures Split(names, GivenUp(d, job, p, CompletionError(d.cut[p].response).value), {})
  {
    hide CompletionError;
    assert CutOk(cfg, w, job, p, d.cut[p]);
    FailedAppend(d.failures, StageFailure(job.stage, p, CompletionError(d.cut[p].response).value));
  }

  /** The retry of cut responses as a stage of its own. */
  function RetryJob(job: Job, limits: map<Provider, nat>): Job {
    job.(allowTruncation := false, limits := limits, retryFailed := true)
  }

  /** A slot whose response was cut may be started again, in whatever phase of the run. */
  lemma RetryReady(cfg: Config, w0: World, w: World, job: Job, names: seq<Provider>, limits: map<Provider, nat>,
                   p: Provider, c: Cut)
    requires ValidConfig(cfg) && StageReady(cfg, w0, job, p) && !SucceededAt(w0, SlotOf(job, p))
    requires Within(w0, w, job.stage, names) && PromptRight(cfg, w, job, p) && CutOk(cfg, w, job, p, c)
    requires job.stage != JuryRepair
    ensures StageReady(cfg, w, RetryJob(job, limits), p)
  {
    QuietReads(w0, w);
  }

  /** In the retry stage a failure is always the one on record. */
  lemma RetryFailureRecorded(cfg: Config, w1: World, w: World, job: Job, limits: map<Provider, nat>, c: Cut, f: StageFailure)
    requires FailureOk(cfg, w1, w, RetryJob(job, limits), f) && CutOk(cfg, w1, job, f.provider, c)
    requires f.provider in job.prompts && cfg.promptChars(job.prompts[f.provider]) <= cfg.maxPromptChars
    ensures Recorded(w, SlotOf(job, f.provider), f.error)
  {
  }

  function Merged(d: Done, e: Done): Done {
    Done(d.successes + e.successes, d.failures + e.failures, map[])
  }

  lemma {:induction false} FailedConcat(a: seq<StageFailure>, b: seq<StageFailure>)
    ensures Failed'(a + b) == Failed'(a) + Failed'(b)
  {
  }

  lemma DistinctConcat(xs: seq<Provider>, ys: seq<Provider>)
    requires Distinct(xs) && Distinct(ys) && forall x | x in xs :: x !in ys
    ensures Distinct(xs + ys)
  {
    forall i, j | 0 <= i < j < |xs + ys| ensures (xs + ys)[i] != (xs + ys)[j] {
      assert i < |xs| ==> xs[i] in xs;
    }
  }

  lemma MergedSplit(names: seq<Provider>, d: Done, retried: seq<Provider>, e: Done)
    requires Split(names, d, {}) && Split(retried, e, {}) && e.cut == map[]
    requires forall p :: p in retried <==> p in d.cut
    ensures Split(names, Merged(d, e), {})
  {
    FailedConcat(d.failures, e.failures);
    var a, b := Failed'(d.failures), Failed'(e.failures);
    forall x | x in a ensures x !in b {
      assert x !in d.cut;
    }
    DistinctConcat(a, b);
  }

  lemma MergedOk(cfg: Config, w0: World, w1: World, w: World, job: Job, limits: map<Provider, nat>, names: seq<Provider>,
                 d: Done, retried: seq<Provider>, e: Done)
    requires DoneOk(cfg, w0, w1, job, d) && DoneOk(cfg, w1, w, RetryJob(job, limits), e)
    requires Split(names, d, {}) && Split(retried, e, {}) && e.cut == map[]
    requires forall p :: p in retried <==> p in d.cut
    requires Within(w1, w, job.stage, retried)
    requires forall p | p in d.cut :: p in job.prompts && cfg.promptChars(job.prompts[p]) <= cfg.maxPromptChars
    ensures DoneOk(cfg, w0, w, job, Merged(d, e))
  {
    var m := Merged(d, e);
    forall p | p in m.successes ensures SuccessOk(w, job, p, m.successes[p]) {
      if p in e.successes {
        assert SuccessOk(w, RetryJob(job, limits), p, e.successes[p]);
      } else {
        assert RowAt(w, SlotOf(job, p)) == RowAt(w1, SlotOf(job, p));
      }
    }
    forall f | f in m.failures ensures FailureOk(cfg, w0, w, job, f) {
      if f in e.failures {
        InFailed(e.failures, f);
        RetryFailureRecorded(cfg, w1, w, job, limits, d.cut[f.provider], f);
      } else {
        InFailed(d.failures, f);
        assert RowAt(w, SlotOf(job, f.provider)) == RowAt(w1, SlotOf(job, f.provider));
      }
    }
  }

  lemma InFailed(failures: seq<StageFailure>, f: StageFailure)
    requires f in failures
    ensures f.provider in Failed'(failures)
  {
    var i :| 0 <= i < |failures| && failures[i] == f;
    assert Failed'(failures)[i] == f.provider;
  }
}
