/**
 What the event log says about retries. Readers of the log raise on any gap,
 duplicate or orphan; these lemmas show that no run ever writes one.
 */
module Audit {
  import opened Wrappers
  import opened Records
  import opened World

  // ----- How each action changes each selection -----

  /** The event, if any, that an action appends. */
  ghost function Written(cfg: Config, w: World, a: Action): seq<Event>
    requires ValidConfig(cfg) && Enabled(cfg, w, a)
  {
    match a
    case Note(e) => [e]
    case Start(slot, _, _) => if slot in w.slots then [RetryEvent(slot, w.slots[slot])] else []
    case Undispatch(slot, error, attempt, prior) => [NotDispatchedEvent(w, slot, error, attempt, prior)]
    case LockNamespace(mapping, failures) => [NamespaceLocked(mapping, failures)]
    case LockAdjudication(records, failures) => [AdjudicationLocked(Namespace(w).value.mapping, records, failures)]
    case Advance(failure) => [FallbackEvent(cfg, w, failure)]
    case _ => []
  }

  lemma SelectNext(cfg: Config, w: World, a: Action, q: Query)
    requires ValidConfig(cfg) && Enabled(cfg, w, a)
    ensures Select(Next(cfg, w, a).events, q) ==
      if a.Undispatch? && a.prior.Some? && q == RetryOf(a.slot)
      then Without(Select(w.events, q), a.slot, w.slots[a.slot].callCount)
      else Select(w.events, q) + Select(Written(cfg, w, a), q)
  {
    var e := Written(cfg, w, a);
    SelectConcat(w.events, e, q);
    if a.Undispatch? && a.prior.Some? {
      SelectWithout(w.events + e, a.slot, w.slots[a.slot].callCount, q);
      assert !Matches(RetryOf(a.slot), e[0]);
      assert Select(w.events, RetryOf(a.slot)) + Select(e, RetryOf(a.slot)) == Select(w.events, RetryOf(a.slot));
    } else if e == [] {
      assert w.events + e == w.events;
    }
  }

  lemma SelectOne(e: seq<Event>, q: Query)
    requires |e| <= 1
    ensures Select(e, q) == if |e| == 1 && Matches(q, e[0]) then e else []
  {
    if |e| == 1 {
      assert e == [e[0]] && Select(e[1..], q) == [];
    }
  }

  lemma WrittenOne(cfg: Config, w: World, a: Action)
    requires ValidConfig(cfg) && Enabled(cfg, w, a)
    ensures |Written(cfg, w, a)| <= 1
  {
  }

  // ----- The invariant -----

  ghost predicate Rows(w: World) {
    forall s | s in w.slots :: RowOk(w.slots[s])
  }

  ghost predicate LiveAreRunning(w: World) {
    forall s | s in w.live :: s in w.slots && w.slots[s].status == Running
  }

  /** The retry events of a slot carry exactly the counts 2..callCount, once each and in order. */
  ghost predicate RetryAuditOf(w: World, slot: Slot) {
    && |Retries(w, slot)| == (if slot in w.slots then w.slots[slot].callCount - 1 else 0)
    && forall i | 0 <= i < |Retries(w, slot)| ::
         Retries(w, slot)[i].RetryStarted? && Retries(w, slot)[i].retryCallCount == i + 2
  }

  ghost predicate AuditInv(cfg: Config, w: World) {
    && Rows(w)
    && LiveAreRunning(w)
    && (forall slot :: RetryAuditOf(w, slot))
    && (forall slot :: TruncationRetries(Retries(w, slot)) <= cfg.truncationRetries)
  }

  lemma {:induction false} WithoutLast(retries: seq<Event>, slot: Slot, offset: nat)
    requires forall i | 0 <= i < |retries| ::
      retries[i].RetryStarted? && retries[i].slot == slot && retries[i].retryCallCount == i + offset
    requires |retries| > 0
    ensures Without(retries, slot, |retries| - 1 + offset) == retries[..|retries| - 1]
  {
    if |retries| == 1 {
      assert Without(retries[1..], slot, offset) == [];
    } else {
      WithoutLast(retries[1..], slot, offset + 1);
      assert retries[..|retries| - 1] == [retries[0]] + retries[1..][..|retries| - 2];
    }
  }

  lemma TruncationAppend(retries: seq<Event>, e: Event)
    requires e.RetryStarted?
    ensures TruncationRetries(retries + [e]) == TruncationRetries(retries) + if e.kind == Truncation then 1 else 0
  {
    assert (retries + [e])[..|retries|] == retries;
  }

  /** The retry event an action writes, if any. */
  lemma RetryWritten(cfg: Config, w: World, a: Action, slot: Slot)
    requires ValidConfig(cfg) && Enabled(cfg, w, a)
    ensures Select(Written(cfg, w, a), RetryOf(slot)) ==
      if a.Start? && a.slot == slot && slot in w.slots then [RetryEvent(slot, w.slots[slot])] else []
  {
    WrittenOne(cfg, w, a);
    SelectOne(Written(cfg, w, a), RetryOf(slot));
  }

  /** What one action does to the retry events of one slot. */
  lemma RetriesNext(cfg: Config, w: World, a: Action, slot: Slot)
    requires ValidConfig(cfg) && Enabled(cfg, w, a) && RetryAuditOf(w, slot)
    ensures Retries(Next(cfg, w, a), slot) ==
      if a.Start? && a.slot == slot && slot in w.slots then Retries(w, slot) + [RetryEvent(slot, w.slots[slot])]
      else if a.Undispatch? && a.slot == slot && a.prior.Some? then Retries(w, slot)[..|Retries(w, slot)| - 1]
      else Retries(w, slot)
  {
    SelectNext(cfg, w, a, RetryOf(slot));
    RetryWritten(cfg, w, a, slot);
    if a.Undispatch? && a.slot == slot && a.prior.Some? {
      WithoutLast(Retries(w, slot), slot, 2);
    }
  }

  /** Only the touched row changes, and it changes to a row in order. */
  lemma RowKept(cfg: Config, w: World, a: Action, s: Slot)
    requires ValidConfig(cfg) && Enabled(cfg, w, a)
    requires s in w.slots ==> RowOk(w.slots[s])
    requires s in w.live ==> s in w.slots && w.slots[s].status == Running
    ensures s in Next(cfg, w, a).slots ==> RowOk(Next(cfg, w, a).slots[s])
    ensures s in Next(cfg, w, a).live ==> s in Next(cfg, w, a).slots && Next(cfg, w, a).slots[s].status == Running
  {
    hide ValidConfig, StageOpen, NamespaceEnabled, AdjudicationEnabled, Select;
  }

  lemma RowsKept(cfg: Config, w: World, a: Action)
    requires ValidConfig(cfg) && Enabled(cfg, w, a) && Rows(w) && LiveAreRunning(w)
    ensures Rows(Next(cfg, w, a)) && LiveAreRunning(Next(cfg, w, a))
  {
    forall s
      ensures s in Next(cfg, w, a).slots ==> RowOk(Next(cfg, w, a).slots[s])
      ensures s in Next(cfg, w, a).live ==> s in Next(cfg, w, a).slots && Next(cfg, w, a).slots[s].status == Running
    {
      RowKept(cfg, w, a, s);
    }
  }

  /** The retry audit of a slot is complete, and its truncation retries are within the policy. */
  ghost predicate Audited(cfg: Config, w: World, slot: Slot) {
    RetryAuditOf(w, slot) && TruncationRetries(Retries(w, slot)) <= cfg.truncationRetries
  }

  lemma RestartAudited(cfg: Config, w: World, a: Action, slot: Slot)
    requires ValidConfig(cfg) && Enabled(cfg, w, a) && a.Start? && a.slot == slot && slot in w.slots
    requires Audited(cfg, w, slot) && RowOk(w.slots[slot])
    ensures Audited(cfg, Next(cfg, w, a), slot)
  {
    hide ValidConfig, Select, StageOpen, Clear;
    RetriesNext(cfg, w, a, slot);
    TruncationAppend(Retries(w, slot), RetryEvent(slot, w.slots[slot]));
  }

  lemma UndispatchAudited(cfg: Config, w: World, a: Action, slot: Slot)
    requires ValidConfig(cfg) && Enabled(cfg, w, a) && a.Undispatch? && a.slot == slot && Audited(cfg, w, slot)
    ensures Audited(cfg, Next(cfg, w, a), slot)
  {
    hide ValidConfig, Select, RowOk;
    RetriesNext(cfg, w, a, slot);
    var r := Retries(w, slot);
    if a.prior.Some? {
      assert TruncationRetries(r[..|r| - 1]) <= TruncationRetries(r);
    }
  }

  lemma RetryAuditKept(cfg: Config, w: World, a: Action, slot: Slot)
    requires ValidConfig(cfg) && Enabled(cfg, w, a) && Audited(cfg, w, slot)
    requires slot in w.slots ==> RowOk(w.slots[slot])
    ensures Audited(cfg, Next(cfg, w, a), slot)
  {
    if a.Start? && a.slot == slot && slot in w.slots {
      RestartAudited(cfg, w, a, slot);
    } else if a.Undispatch? && a.slot == slot {
      UndispatchAudited(cfg, w, a, slot);
    } else {
      OthersAudited(cfg, w, a, slot);
    }
  }

  lemma OthersAudited(cfg: Config, w: World, a: Action, slot: Slot)
    requires ValidConfig(cfg) && Enabled(cfg, w, a) && Audited(cfg, w, slot)
    requires !(a.Start? && a.slot == slot && slot in w.slots) && !(a.Undispatch? && a.slot == slot)
    ensures Audited(cfg, Next(cfg, w, a), slot)
  {
    hide ValidConfig, Select, RowOk, StageOpen, Clear, NamespaceEnabled, AdjudicationEnabled, TruncationRetries;
    RetriesNext(cfg, w, a, slot);
  }

  /** Every action keeps the retry audit complete, and the truncation retries within the policy. */
  lemma AuditKept(cfg: Config, w: World, a: Action)
    requires ValidConfig(cfg) && Enabled(cfg, w, a) && AuditInv(cfg, w)
    ensures AuditInv(cfg, Next(cfg, w, a))
  {
    RowsKept(cfg, w, a);
    forall slot
      ensures RetryAuditOf(Next(cfg, w, a), slot)
      ensures TruncationRetries(Retries(Next(cfg, w, a), slot)) <= cfg.truncationRetries
    {
      assert RetryAuditOf(w, slot);
      RetryAuditKept(cfg, w, a, slot);
    }
  }

  // ----- The reader -----

  /** The outcome of `_provider_retry_recoveries` for one slot: does it find its audit complete? */
  datatype RetryReport = Complete | Malformed | Duplicated | Unaudited | Orphaned | Incomplete

  predicate HasDuplicate(retries: seq<Event>) {
    exists i, j :: 0 <= i < j < |retries| && retries[i].RetryStarted? && retries[j].RetryStarted?
                   && retries[i].retryCallCount == retries[j].retryCallCount
  }

  /** Compared as multisets: the reader sorts the counts first. */
  function CountsOf(retries: seq<Event>): seq<nat> {
    seq(|retries|, i requires 0 <= i < |retries| => if retries[i].RetryStarted? then retries[i].retryCallCount else 0)
  }

  /** list(range(2, call_count + 1)) */
  function CountsUpTo(callCount: nat): seq<nat> {
    if callCount < 2 then [] else seq(callCount - 1, i requires 0 <= i < callCount - 1 => i + 2)
  }

  /** The checks the reader makes on the events and the row of one slot, in its order. */
  ghost function ReadRetries(cfg: Config, w: World, slot: Slot): RetryReport {
    var r := Retries(w, slot);
    if exists e :: e in r && !(e.RetryStarted? && slot.provider in cfg.roster && e.retryCallCount >= 2) then Malformed
    else if HasDuplicate(r) then Duplicated
    else if slot in w.slots && w.slots[slot].callCount > 1 && r == [] then Unaudited
    else if r != [] && slot !in w.slots then Orphaned
    else if slot in w.slots && r != [] && multiset(CountsOf(r)) != multiset(CountsUpTo(w.slots[slot].callCount)) then Incomplete
    else Complete
  }

  lemma RetryReaderNeverRaises(cfg: Config, w: World, slot: Slot)
    requires AuditInv(cfg, w)
    requires forall s | s in w.slots :: s.provider in cfg.roster
    ensures ReadRetries(cfg, w, slot) == Complete
  {
    assert RetryAuditOf(w, slot);
    var r := Retries(w, slot);
    forall e | e in r ensures e.RetryStarted? && e.retryCallCount >= 2 {
      var i :| 0 <= i < |r| && r[i] == e;
    }
    if slot in w.slots {
      assert CountsOf(r) == CountsUpTo(w.slots[slot].callCount);
    }
  }

  // ----- Starting and undoing a start -----

  /**
   `start_invocation` on a failed or absent slot followed by `release_undispatched_invocation`
   with the row read before the start restores every column of the slot, or its absence,
   and the same retry events of every slot; one not-dispatched event is what remains.
   */
  lemma UndispatchUndoesStart(cfg: Config, w: World, slot: Slot, prompt: Prompt, now: nat, phase: Phase,
                              error: ProviderError, attempt: nat, row: Option<Invocation>)
    requires AuditInv(cfg, w)
    requires row == if slot in w.slots then Some(w.slots[slot]) else None
    requires slot in w.slots ==> IsRetryable(w.slots[slot])
    ensures var w1 := AfterStart(w, slot, prompt, now, phase);
            && |Retries(w1, slot)| == |Retries(w, slot)| + (if row.Some? then 1 else 0)
            && var w2 := AfterUndispatch(w1, slot, error, attempt, row);
               && w2.slots == w.slots
               && w2.events == w.events + [NotDispatchedEvent(w1, slot, error, attempt, row)]
  {
    var w1 := AfterStart(w, slot, prompt, now, phase);
    assert RetryAuditOf(w, slot);
    if row.None? {
      assert w1.slots - {slot} == w.slots;
    } else {
      var retry, c := RetryEvent(slot, w.slots[slot]), w.slots[slot].callCount + 1;
      SelectAppend(w.events, retry);
      var note := NotDispatchedEvent(w1, slot, error, attempt, row);
      WithoutConcat(w.events + [retry], [note], slot, c);
      WithoutConcat(w.events, [retry], slot, c);
      WithoutAbsent(w.events, slot, c);
      assert w1.slots[slot := row.value] == w.slots;
    }
  }

  lemma {:induction false} WithoutConcat(a: seq<Event>, b: seq<Event>, slot: Slot, count: nat)
    ensures Without(a + b, slot, count) == Without(a, slot, count) + Without(b, slot, count)
  {
    if a == [] {
      assert a + b == b;
    } else {
      assert (a + b)[1..] == a[1..] + b;
      WithoutConcat(a[1..], b, slot, count);
    }
  }

  lemma {:induction false} WithoutAbsent(events: seq<Event>, slot: Slot, count: nat)
    requires forall i | 0 <= i < |Select(events, RetryOf(slot))| ::
      Select(events, RetryOf(slot))[i].RetryStarted? && Select(events, RetryOf(slot))[i].retryCallCount != count
    ensures Without(events, slot, count) == events
  {
    if events != [] {
      var all, rest := Select(events, RetryOf(slot)), Select(events[1..], RetryOf(slot));
      if Matches(RetryOf(slot), events[0]) {
        assert all[0] == events[0] && all[0].retryCallCount != count;
        forall i | 0 <= i < |rest| ensures rest[i].RetryStarted? && rest[i].retryCallCount != count {
          assert all[i + 1] == rest[i];
        }
      }
      WithoutAbsent(events[1..], slot, count);
    }
  }
}
