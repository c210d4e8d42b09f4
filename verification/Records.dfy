/**
 The durable rows and events of one council run (src/model_council/store.py and
 models.py), and the two ways the engine reads them: selecting events of one kind,
 and adding up call counts.
 */
module Records {
  import opened Wrappers
  import opened Borda

  /** A provider is represented by its place in the order (casefolded name, name). */
  type Provider = Label

  datatype Stage = Proposal | Jury | JuryRepair | Synthesis

  /** The unique key of an invocation row. */
  datatype Slot = Slot(stage: Stage, provider: Provider)

  datatype Category = Timeout | BudgetCategory | InvalidResponse | ContentFilter | UnknownCategory | Other(name: string)

  datatype ProviderError = ProviderError(
    message: string, category: Category, retryable: bool, ambiguous: bool,
    statusCode: Option<int>, requestId: Option<string>, attempts: nat, telemetry: string)

  /**
   One response text, as far as the engine looks into it: whether it parses as a
   proposal and the texts of that proposal, the jury object found in it if any,
   whether that object has exactly the required keys, and whether the text is
   too long to be quoted in a repair prompt.
   */
  datatype Content = Content(
    text: string, isProposal: bool, artifact: seq<string>, decoded: Option<Judgment>, keysMatch: bool, tooLong: bool)

  /** `NoObject` stands for a provider that returned nothing instead of a response. */
  datatype Finish = Stop | Length | Filtered | OtherFinish(name: string) | Missing | NoObject

  datatype Response = Response(content: Content, finish: Finish, requestId: Option<string>, attempts: nat)

  datatype Status = Running | Succeeded | Failed

  datatype Prompt =
    | ProposalPrompt(marker: string)
    | JuryPrompt(marker: string, order: seq<Label>, artifacts: seq<Content>)
    | RepairPrompt(marker: string, response: Content, labels: nat)
    | SynthesisPrompt(marker: string, artifacts: seq<Content>, juries: seq<JuryRecord>)

  /** The columns of one row of the table `invocations`. */
  datatype Invocation = Invocation(
    prompt: Prompt, status: Status, callCount: nat, response: Option<Response>,
    requestId: Option<string>, attempts: Option<nat>,
    errorCategory: Option<Category>, errorMessage: Option<string>, errorRetryable: Option<bool>,
    errorStatusCode: Option<int>, errorAmbiguous: Option<bool>, error: Option<ProviderError>,
    startedAt: nat, updatedAt: nat, finishedAt: Option<nat>)

  datatype StageFailure = StageFailure(stage: Stage, provider: Provider, error: ProviderError)

  datatype JuryRecord = JuryRecord(
    juror: Provider, mapping: seq<Provider>, presentation: seq<Label>,
    judgment: Option<Judgment>, error: string)

  datatype RetryKind = Application | Truncation

  datatype RecoveryStatus = Recovered | RecoveryFailed | NotAttempted | NotDispatchedRecovery

  datatype RepairOutcome =
    | RepairImpossible
    | RepairOverBudget
    | Repaired
    | RepairRejected
    | RepairFailed(message: string)

  datatype Event =
    | RunStarted
    | Preflight
    | UntrustedMarker(marker: string)
    | RetryStarted(slot: Slot, retryCallCount: nat, kind: RetryKind, priorFailure: ProviderError)
    | CallNotDispatched(slot: Slot, reservationAttempt: nat, attemptedCallCount: nat, restoredCallCount: nat,
                        retryKind: Option<RetryKind>, prior: Option<ProviderError>, error: ProviderError)
    | TruncationRecovery(slot: Slot, status: RecoveryStatus)
    | TruncatedPreserved(slot: Slot, limit: nat, response: Response)
    | IncompletePreserved(slot: Slot, response: Response)
    | NamespaceLocked(mapping: seq<Provider>, proposalFailures: seq<StageFailure>)
    | AdjudicationLocked(lockedMapping: seq<Provider>, juryRecords: seq<JuryRecord>, juryFailures: seq<StageFailure>)
    | JuryRepairEvent(juror: Provider, outcome: RepairOutcome)
    | FallbackAdvanced(fromPosition: nat, fromProvider: Provider, toPosition: nat, toProvider: Provider,
                       reason: Category, ambiguous: bool, failure: ProviderError)
    | RunFinished(completed: bool)

  type Slots = map<Slot, Invocation>

  // ----- Rows -----

  const LENGTH_SUFFIX := "(finish_reason=length)"

  predicate EndsWith(text: string, suffix: string) {
    |suffix| <= |text| && text[|text| - |suffix|..] == suffix
  }

  /** How both the store and the engine recognise a response cut off at the output limit. */
  predicate IsLengthMessage(message: string) {
    EndsWith(message, LENGTH_SUFFIX)
  }

  predicate IsFailed(row: Invocation) {
    row.status == Failed && row.error.Some?
  }

  predicate IsAmbiguous(row: Invocation) {
    IsFailed(row) && row.error.value.ambiguous
  }

  predicate IsRetryable(row: Invocation) {
    IsFailed(row) && !row.error.value.ambiguous
  }

  /** `_is_length_failure_record` */
  predicate IsLengthFailure(row: Invocation) {
    && row.status == Failed
    && row.errorAmbiguous != Some(true)
    && row.errorMessage.Some?
    && IsLengthMessage(row.errorMessage.value)
  }

  predicate NoErrorColumns(row: Invocation) {
    && row.errorCategory.None? && row.errorMessage.None? && row.errorRetryable.None?
    && row.errorStatusCode.None? && row.errorAmbiguous.None? && row.error.None?
  }

  predicate ErrorColumns(row: Invocation, e: ProviderError) {
    && row.error == Some(e)
    && row.errorCategory == Some(e.category) && row.errorMessage == Some(e.message)
    && row.errorRetryable == Some(e.retryable) && row.errorStatusCode == e.statusCode
    && row.errorAmbiguous == Some(e.ambiguous)
    && row.requestId == e.requestId && row.attempts == Some(e.attempts)
  }

  /** The columns of a row agree with its status. */
  predicate RowOk(row: Invocation) {
    && row.callCount >= 1
    && match row.status
       case Running =>
         NoErrorColumns(row) && row.response.None? && row.requestId.None? && row.attempts.None? && row.finishedAt.None?
       case Succeeded =>
         NoErrorColumns(row) && row.response.Some? && row.response.value.finish == Stop
       case Failed =>
         row.error.Some? && ErrorColumns(row, row.error.value) && row.response.None?
  }

  function NewRow(prompt: Prompt, now: nat): Invocation {
    Invocation(prompt, Running, 1, None, None, None, None, None, None, None, None, None, now, now, None)
  }

  function RestartedRow(row: Invocation, now: nat): Invocation {
    NewRow(row.prompt, now).(callCount := row.callCount + 1)
  }

  function SucceededRow(row: Invocation, r: Response, now: nat): Invocation {
    row.(status := Succeeded, response := Some(r), requestId := r.requestId, attempts := Some(r.attempts),
         errorCategory := None, errorMessage := None, errorRetryable := None, errorStatusCode := None,
         errorAmbiguous := None, error := None, updatedAt := now, finishedAt := Some(now))
  }

  function FailedRow(row: Invocation, e: ProviderError, now: nat): Invocation {
    row.(status := Failed, response := None, requestId := e.requestId, attempts := Some(e.attempts),
         errorCategory := Some(e.category), errorMessage := Some(e.message), errorRetryable := Some(e.retryable),
         errorStatusCode := e.statusCode, errorAmbiguous := Some(e.ambiguous), error := Some(e),
         updatedAt := now, finishedAt := Some(now))
  }

  // ----- Selecting events -----

  datatype Query =
    | RetryOf(slot: Slot)
    | NotDispatchedOf(slot: Slot)
    | RecoveryOf(slot: Slot)
    | RepairOf(juror: Provider)
    | Namespaces
    | Adjudications
    | Fallbacks
    | Markers

  predicate Matches(q: Query, e: Event) {
    match q
    case RetryOf(slot) => e.RetryStarted? && e.slot == slot
    case NotDispatchedOf(slot) => e.CallNotDispatched? && e.slot == slot
    case RecoveryOf(slot) => e.TruncationRecovery? && e.slot == slot && e.status != NotDispatchedRecovery
    case RepairOf(juror) => e.JuryRepairEvent? && e.juror == juror
    case Namespaces => e.NamespaceLocked?
    case Adjudications => e.AdjudicationLocked?
    case Fallbacks => e.FallbackAdvanced?
    case Markers => e.UntrustedMarker?
  }

  function Select(events: seq<Event>, q: Query): (r: seq<Event>)
    ensures forall i | 0 <= i < |r| :: Matches(q, r[i])
  {
    if events == [] then
      []
    else if Matches(q, events[0]) then
      [events[0]] + Select(events[1..], q)
    else
      Select(events[1..], q)
  }

  lemma {:induction false} SelectConcat(a: seq<Event>, b: seq<Event>, q: Query)
    ensures Select(a + b, q) == Select(a, q) + Select(b, q)
  {
    if a == [] {
      assert a + b == b;
    } else {
      assert (a + b)[1..] == a[1..] + b;
      SelectConcat(a[1..], b, q);
    }
  }

  lemma SelectAppend(events: seq<Event>, e: Event)
    ensures forall q :: Select(events + [e], q) == if Matches(q, e) then Select(events, q) + [e] else Select(events, q)
  {
    forall q
      ensures Select(events + [e], q) == if Matches(q, e) then Select(events, q) + [e] else Select(events, q)
    {
      SelectConcat(events, [e], q);
      assert Select([], q) == [];
    }
  }

  /** The event log without the retry event of one slot and call count. */
  function Without(events: seq<Event>, slot: Slot, count: nat): seq<Event> {
    if events == [] then
      []
    else if events[0].RetryStarted? && events[0].slot == slot && events[0].retryCallCount == count then
      Without(events[1..], slot, count)
    else
      [events[0]] + Without(events[1..], slot, count)
  }

  lemma {:induction false} SelectWithout(events: seq<Event>, slot: Slot, count: nat, q: Query)
    ensures Select(Without(events, slot, count), q)
            == if q == RetryOf(slot) then Without(Select(events, q), slot, count) else Select(events, q)
  {
    if events != [] {
      SelectWithout(events[1..], slot, count, q);
      assert forall e, rest {:trigger Select([e] + rest, q)} ::
          Select([e] + rest, q) == (if Matches(q, e) then [e] else []) + Select(rest, q) by {
        forall e, rest
          ensures Select([e] + rest, q) == (if Matches(q, e) then [e] else []) + Select(rest, q)
        {
          assert ([e] + rest)[1..] == rest;
        }
      }
    }
  }

  // ----- Adding up call counts -----

  /** SELECT COALESCE(SUM(call_count), 0) */
  ghost function Calls(slots: Slots): nat {
    if slots == map[] then 0 else
      var s :| s in slots;
      slots[s].callCount + Calls(slots - {s})
  }

  lemma {:induction false} CallsRemove(slots: Slots, s: Slot)
    requires s in slots
    ensures Calls(slots) == slots[s].callCount + Calls(slots - {s})
    decreases |slots|
  {
    var t :| t in slots && Calls(slots) == slots[t].callCount + Calls(slots - {t});
    if t != s {
      CallsRemove(slots - {t}, s);
      CallsRemove(slots - {s}, t);
      assert slots - {t} - {s} == slots - {s} - {t};
    }
  }

  lemma CallsUpdate(slots: Slots, s: Slot, row: Invocation)
    ensures Calls(slots[s := row]) == Calls(slots) + row.callCount - if s in slots then slots[s].callCount else 0
  {
    CallsRemove(slots[s := row], s);
    assert slots[s := row] - {s} == slots - {s};
    if s in slots {
      CallsRemove(slots, s);
    } else {
      assert slots - {s} == slots;
    }
  }

  function OfStage(slots: Slots, stage: Stage): Slots {
    map s | s in slots && s.stage == stage :: slots[s]
  }

  lemma StageCallsUpdate(slots: Slots, stage: Stage, s: Slot, row: Invocation)
    ensures s.stage != stage ==> OfStage(slots[s := row], stage) == OfStage(slots, stage)
    ensures s.stage == stage ==> OfStage(slots[s := row], stage) == OfStage(slots, stage)[s := row]
    ensures s.stage != stage ==> OfStage(slots - {s}, stage) == OfStage(slots, stage)
    ensures s.stage == stage ==> OfStage(slots - {s}, stage) == OfStage(slots, stage) - {s}
  {
  }

  lemma {:induction false} CallsSubset(small: Slots, big: Slots)
    requires forall s | s in small :: s in big && big[s] == small[s]
    ensures Calls(small) <= Calls(big)
    decreases |small|
  {
    if small != map[] {
      var s :| s in small;
      CallsRemove(small, s);
      CallsRemove(big, s);
      CallsSubset(small - {s}, big - {s});
    }
  }
}
