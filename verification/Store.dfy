/**
 The durable store of one run (src/model_council/store.py): every method is one
 transaction over the invocation rows and the event log. An invocation is named by
 its slot, which the table keeps unique; a transaction that raises changes nothing.
 */
module Store {
  import opened Wrappers
  import opened Borda
  import opened Records
  import opened World
  import opened Audit

  /** The retry events that `release_undispatched_invocation` looks for. */
  predicate IsRetryAt(e: Event, slot: Slot, count: nat) {
    e.RetryStarted? && e.slot == slot && e.retryCallCount == count
  }

  function RetriesAt(events: seq<Event>, slot: Slot, count: nat): (r: seq<Event>)
    ensures forall i | 0 <= i < |r| :: IsRetryAt(r[i], slot, count)
  {
    if events == [] then []
    else (if IsRetryAt(events[0], slot, count) then [events[0]] else []) + RetriesAt(events[1..], slot, count)
  }

  lemma {:induction false} RetriesAtAppend(events: seq<Event>, e: Event, slot: Slot, count: nat)
    ensures RetriesAt(events + [e], slot, count)
            == RetriesAt(events, slot, count) + if IsRetryAt(e, slot, count) then [e] else []
  {
    if events == [] {
      assert [] + [e] == [e];
      assert RetriesAt([e], slot, count) == (if IsRetryAt(e, slot, count) then [e] else []) + RetriesAt([], slot, count);
    } else {
      assert (events + [e])[1..] == events[1..] + [e];
      RetriesAtAppend(events[1..], e, slot, count);
    }
  }

  /** The unique-match search, seen through the audit: the only event with the current count is the last one. */
  lemma {:induction false} RetriesAtOfSelect(events: seq<Event>, slot: Slot, count: nat)
    ensures RetriesAt(events, slot, count) == RetriesAt(Select(events, RetryOf(slot)), slot, count)
  {
    if events != [] {
      RetriesAtOfSelect(events[1..], slot, count);
      var rest := Select(events[1..], RetryOf(slot));
      assert ([events[0]] + rest)[1..] == rest;
    }
  }

  lemma {:induction false} RetriesAtLast(retries: seq<Event>, slot: Slot, offset: nat)
    requires forall i | 0 <= i < |retries| ::
      retries[i].RetryStarted? && retries[i].slot == slot && retries[i].retryCallCount == i + offset
    requires |retries| > 0
    ensures RetriesAt(retries, slot, |retries| - 1 + offset) == [retries[|retries| - 1]]
  {
    if |retries| == 1 {
      assert RetriesAt(retries[1..], slot, offset) == [];
    } else {
      RetriesAtLast(retries[1..], slot, offset + 1);
    }
  }

  lemma AuditedRetryIsUnique(w: World, slot: Slot)
    requires slot in w.slots && w.slots[slot].callCount >= 2 && RetryAuditOf(w, slot)
    ensures |Retries(w, slot)| > 0
    ensures RetriesAt(w.events, slot, w.slots[slot].callCount) == [Retries(w, slot)[|Retries(w, slot)| - 1]]
  {
    RetriesAtOfSelect(w.events, slot, w.slots[slot].callCount);
    RetriesAtLast(Retries(w, slot), slot, 2);
  }

  datatype RunStatus = Pending | InProgress | Completed | Partial | RunFailed

  /** The parts of a run's result that the run itself reads back or decides by. */
  datatype RunResult = RunResult(status: RunStatus, answer: Option<Content>, aggregate: Option<Aggregate>,
                                 failures: seq<StageFailure>)

  /** What `release_undispatched_invocation` checks of a snapshot before it restores it. */
  predicate IsPrior(row: Invocation, running: Invocation) {
    && row.prompt == running.prompt
    && row.status == Failed && row.callCount >= 1 && row.callCount + 1 == running.callCount
    && row.error.Some? && !row.error.value.ambiguous
    && ErrorColumns(row, row.error.value)
  }

  /** The log has exactly one retry event for this call, and it names the snapshot's failure. */
  predicate IsPriorOf(events: seq<Event>, slot: Slot, count: nat, row: Invocation) {
    && row.error.Some?
    && |RetriesAt(events, slot, count)| == 1
    && RetriesAt(events, slot, count)[0].priorFailure == row.error.value
  }

  predicate Releasable(slots: Slots, events: seq<Event>, slot: Slot, error: ProviderError, attempt: nat,
                       prior: Option<Invocation>)
  {
    && !error.ambiguous && attempt >= 1
    && slot in slots && slots[slot].status == Running
    && attempt >= slots[slot].callCount
    && match prior
       case None => slots[slot].callCount == 1
       case Some(row) =>
         IsPrior(row, slots[slot]) && IsPriorOf(events, slot, slots[slot].callCount, row)
  }

  class CouncilStore {
    var slots: Slots
    var events: seq<Event>
    var status: RunStatus
    var result: Option<RunResult>

    ghost predicate Valid()
      reads this
    {
      forall s | s in slots && slots[s].status == Failed :: slots[s].error.Some?
    }

    constructor ()
      ensures slots == map[] && events == [] && status == Pending && result == None && Valid()
    {
      slots, events, status, result := map[], [], Pending, None;
    }

    method AppendEvent(e: Event)
      modifies `events
      ensures events == old(events) + [e]
    {
      events := events + [e];
    }

    method SetRunStatus(s: RunStatus)
      modifies `status
      ensures status == s
    {
      status := s;
    }

    /** Result, status and audit event become visible together. */
    method FinishRun(r: RunResult) returns (ok: Result<bool>)
      modifies `status, `result, `events
      ensures ok.Ok? <==> r.status in {Completed, Partial, RunFailed}
      ensures ok.Ok? ==>
        status == r.status && result == Some(r) && events == old(events) + [RunFinished(r.status == Completed)]
      ensures ok.Err? ==> status == old(status) && result == old(result) && events == old(events)
    {
      if r.status !in {Completed, Partial, RunFailed} {
        return Err("result status must be terminal");
      }
      status, result, events := r.status, Some(r), events + [RunFinished(r.status == Completed)];
      ok := Ok(true);
    }

    /**
     Creates the row, restarts a failed one under a retry event, or hands back a row
     that is running or succeeded untouched. `ok.value` says whether a call was begun.
     */
    method StartInvocation(slot: Slot, prompt: Prompt, now: nat) returns (ok: Result<bool>)
      requires Valid()
      modifies `slots, `events
      ensures Valid()
      ensures ok.Err? <==> slot in old(slots) && old(slots)[slot].prompt != prompt
      ensures ok == Ok(true) <==> slot !in old(slots) || (old(slots)[slot].prompt == prompt && old(slots)[slot].status == Failed)
      ensures ok != Ok(true) ==> slots == old(slots) && events == old(events)
      ensures ok == Ok(true) && slot !in old(slots) ==> slots == old(slots)[slot := NewRow(prompt, now)] && events == old(events)
      ensures ok == Ok(true) && slot in old(slots) ==>
        && slots == old(slots)[slot := RestartedRow(old(slots)[slot], now)]
        && events == old(events) + [RetryEvent(slot, old(slots)[slot])]
    {
      if slot in slots {
        var row := slots[slot];
        if row.prompt != prompt {
          return Err("stage/provider invocation already exists with different input");
        }
        if row.status == Running || row.status == Succeeded {
          return Ok(false);
        }
        var kind := if IsLengthMessage(row.error.value.message) then Truncation else Application;
        events := events + [RetryStarted(slot, row.callCount + 1, kind, row.error.value)];
        slots := slots[slot := RestartedRow(row, now)];
      } else {
        slots := slots[slot := NewRow(prompt, now)];
      }
      ok := Ok(true);
    }

    /** Idempotent for the response already stored; refuses to overwrite anything that is not running. */
    method FinishInvocationSuccess(slot: Slot, response: Response, now: nat) returns (ok: Result<bool>)
      requires Valid()
      modifies `slots
      ensures Valid()
      ensures ok.Ok? <==> slot in old(slots)
                          && (old(slots)[slot].status == Running
                              || (old(slots)[slot].status == Succeeded && old(slots)[slot].response == Some(response)))
      ensures slots == if ok.Ok? && old(slots)[slot].status == Running
                       then old(slots)[slot := SucceededRow(old(slots)[slot], response, now)] else old(slots)
    {
      if slot !in slots {
        return Err("unknown invocation");
      }
      if slots[slot].status == Succeeded {
        return if slots[slot].response != Some(response)
          then Err("invocation already has a different successful response") else Ok(false);
      }
      if slots[slot].status != Running {
        return Err("failed invocation must be restarted before success");
      }
      slots := slots[slot := SucceededRow(slots[slot], response, now)];
      ok := Ok(true);
    }

    method FinishInvocationFailure(slot: Slot, error: ProviderError, now: nat) returns (ok: Result<bool>)
      requires Valid()
      modifies `slots
      ensures Valid()
      ensures ok.Ok? <==> slot in old(slots)
                          && (old(slots)[slot].status == Running
                              || (old(slots)[slot].status == Failed && old(slots)[slot].error == Some(error)))
      ensures slots == if ok.Ok? && old(slots)[slot].status == Running
                       then old(slots)[slot := FailedRow(old(slots)[slot], error, now)] else old(slots)
    {
      if slot !in slots {
        return Err("unknown invocation");
      }
      if slots[slot].status == Failed {
        return if slots[slot].error != Some(error) then Err("invocation already has a different failure") else Ok(false);
      }
      if slots[slot].status != Running {
        return Err("successful invocation cannot be overwritten by failure");
      }
      slots := slots[slot := FailedRow(slots[slot], error, now)];
      ok := Ok(true);
    }

    /** The retry events of this slot and call count, in log order. */
    method FindRetries(slot: Slot, count: nat) returns (found: seq<Event>)
      ensures found == RetriesAt(events, slot, count)
    {
      found := [];
      for i := 0 to |events|
        invariant found == RetriesAt(events[..i], slot, count)
      {
        RetriesAtAppend(events[..i], events[i], slot, count);
        assert events[..i + 1] == events[..i] + [events[i]];
        if IsRetryAt(events[i], slot, count) {
          found := found + [events[i]];
        }
      }
      assert events[..|events|] == events;
    }

    /** Audits a call that never left and restores the row, or the absence of one, from before its start. */
    method ReleaseUndispatchedInvocation(slot: Slot, error: ProviderError, attempt: nat, prior: Option<Invocation>)
      returns (ok: Result<bool>)
      requires Valid()
      modifies `slots, `events
      ensures Valid()
      ensures ok.Ok? <==> Releasable(old(slots), old(events), slot, error, attempt, prior)
      ensures ok.Err? ==> slots == old(slots) && events == old(events)
      ensures ok.Ok? ==>
        var c := old(slots)[slot].callCount;
        match prior
        case None =>
          && slots == old(slots) - {slot}
          && events == old(events) + [CallNotDispatched(slot, attempt, c, 0, None, None, error)]
        case Some(row) =>
          && slots == old(slots)[slot := row]
          && events == Without(old(events)
                               + [CallNotDispatched(slot, attempt, c, row.callCount,
                                                    Some(RetriesAt(old(events), slot, c)[0].kind), row.error, error)], slot, c)
    {
      if error.ambiguous {
        return Err("undispatched invocation error must be unambiguous");
      }
      if attempt < 1 {
        return Err("reservation_attempt must be a positive integer");
      }
      if slot !in slots {
        return Err("unknown invocation");
      }
      if slots[slot].status != Running {
        return Err("only a running invocation can be released as undispatched");
      }
      var c := slots[slot].callCount;
      if attempt < c {
        return Err("reservation_attempt precedes the logical call count");
      }
      if prior.None? {
        if c != 1 {
          return Err("a retried invocation requires its prior failed state");
        }
        events := events + [CallNotDispatched(slot, attempt, c, 0, None, None, error)];
        slots := slots - {slot};
        ok := Ok(true);
      } else {
        ok := ReleaseRetry(slot, error, attempt, prior.value);
      }
    }

    /** The half of the release that puts an earlier failed row back. */
    method ReleaseRetry(slot: Slot, error: ProviderError, attempt: nat, row: Invocation) returns (ok: Result<bool>)
      requires Valid() && slot in slots
      modifies `slots, `events
      ensures Valid()
      ensures ok.Ok? <==> IsPrior(row, old(slots)[slot]) && IsPriorOf(old(events), slot, old(slots)[slot].callCount, row)
      ensures ok.Err? ==> slots == old(slots) && events == old(events)
      ensures ok.Ok? ==>
        var c := old(slots)[slot].callCount;
        && slots == old(slots)[slot := row]
        && events == Without(old(events)
                             + [CallNotDispatched(slot, attempt, c, row.callCount,
                                                  Some(RetriesAt(old(events), slot, c)[0].kind), row.error, error)], slot, c)
    {
      var c := slots[slot].callCount;
      if row.prompt != slots[slot].prompt {
        return Err("prior invocation does not match the running slot");
      }
      if row.status != Failed || row.callCount < 1 || row.callCount + 1 != c {
        return Err("prior invocation is not the immediately preceding failed state");
      }
      if row.error.None? {
        return Err("prior invocation failure is malformed");
      }
      if row.error.value.ambiguous || !ErrorColumns(row, row.error.value) {
        return Err("prior invocation failure fields are inconsistent");
      }
      var found := FindRetries(slot, c);
      if |found| != 1 {
        return Err("undispatched retry has no unique retry audit event");
      }
      if found[0].priorFailure != row.error.value {
        return Err("retry audit does not match the prior invocation");
      }
      var note := CallNotDispatched(slot, attempt, c, row.callCount, Some(found[0].kind), row.error, error);
      events := Without(events + [note], slot, c);
      slots := slots[slot := row];
      ok := Ok(true);
    }

    /** SELECT COALESCE(SUM(call_count), 0) FROM invocations */
    method CountCalls() returns (total: nat)
      ensures total == Calls(slots)
    {
      total := 0;
      var rest := slots;
      while rest != map[]
        invariant total + Calls(rest) == Calls(slots)
        decreases |rest|
      {
        var s :| s in rest;
        CallsRemove(rest, s);
        total := total + rest[s].callCount;
        rest := rest - {s};
      }
    }
  }
}
