/**
 The run engine (src/model_council/engine.py) over the durable store. Every store or
 ledger call an engine method makes is recorded in `log` as an action of the
 transition system, and `Valid` says that the log is a run leading to the present
 world. So whatever is proved about runs holds wherever a process stops.
 */
module Engine {
  import opened Wrappers
  import opened Borda
  import opened Records
  import opened World
  import opened Audit
  import opened Locks
  import opened Budget
  import opened TwoLedgers
  import opened Repairs
  import opened Runs
  import opened Store
  import opened StageSteps
  import opened Dispatching

  // ----- Logs that explain a world -----

  ghost predicate Explained(cfg: Config, log: seq<Action>, w: World) {
    ValidConfig(cfg) && IsRun(cfg, EmptyWorld, log) && After(cfg, EmptyWorld, log) == w
  }

  lemma ExplainedStep(cfg: Config, log: seq<Action>, w: World, a: Action)
    requires Explained(cfg, log, w) && Enabled(cfg, w, a)
    ensures Explained(cfg, log + [a], Next(cfg, w, a))
  {
    var w' := Next(cfg, w, a);
    assert [a][1..] == [];
    assert IsRun(cfg, w', []) && After(cfg, w', []) == w';
    assert IsRun(cfg, w, [a]) && After(cfg, w, [a]) == w';
    RunConcat(cfg, EmptyWorld, log, [a]);
  }

  /** The world moved by exactly this action, and the log says so. */
  ghost predicate Took(cfg: Config, log: seq<Action>, w: World, log': seq<Action>, w': World, a: Action)
    requires ValidConfig(cfg)
  {
    Enabled(cfg, w, a) && w' == Next(cfg, w, a) && log' == log + [a]
  }

  lemma ExplainedInv(cfg: Config, log: seq<Action>, w: World)
    requires Explained(cfg, log, w)
    ensures Inv(cfg, w)
  {
    Reachable(cfg, log);
  }

  lemma ExplainedLocks(cfg: Config, log: seq<Action>, w: World)
    requires Explained(cfg, log, w)
    ensures LocksInv(cfg, w)
  {
    ExplainedInv(cfg, log, w);
  }

  lemma ExplainedBudget(cfg: Config, log: seq<Action>, w: World)
    requires Explained(cfg, log, w)
    ensures BudgetInv(cfg, w)
  {
    ExplainedInv(cfg, log, w);
  }

  lemma ExplainedRepairs(cfg: Config, log: seq<Action>, w: World)
    requires Explained(cfg, log, w)
    ensures RepairsInv(cfg, w)
  {
    ExplainedInv(cfg, log, w);
  }

  /** What happened between two explained worlds is itself a run. */
  lemma Between(cfg: Config, log: seq<Action>, w: World, log': seq<Action>, w': World)
    requires Explained(cfg, log, w) && Explained(cfg, log', w') && log <= log'
    ensures IsRun(cfg, w, log'[|log|..]) && After(cfg, w, log'[|log|..]) == w'
  {
    RunPrefix(cfg, EmptyWorld, log', |log|);
    assert log'[..|log|] == log;
  }

  // ----- The call gate -----

  datatype Authorization = Granted | Denied(error: ProviderError)

  /** `DurableCallGate` as one run sees it. */
  class CallGate {
    var ledger: Ledger

    constructor ()
      ensures ledger == map[]
    {
      ledger := map[];
    }

    /** Refuses a reservation id it has seen before, ambiguously; otherwise policy decides. */
    method Reserve(slot: Slot, attempt: nat) returns (r: Authorization)
      modifies this
      ensures GateReserves(old(ledger), ledger, slot, attempt, r.Granted?)
      ensures r.Denied? && r.error.ambiguous ==> Reservation(slot, attempt) in old(ledger)
    {
      if Reservation(slot, attempt) in ledger {
        return Denied(ProviderError("Council call reservation already exists; refusing a duplicate provider execution",
                                    BudgetCategory, false, true, None, None, 1, ""));
      }
      var allowed: bool := *;
      if !allowed {
        return Denied(ProviderError("Council policy denied provider invocation", BudgetCategory, false, false, None, None, 1, ""));
      }
      var written, failed: bool := *, *;
      if written {
        ledger := ledger[Reservation(slot, attempt) := Reserved];
      }
      if failed || !written {
        return Denied(ProviderError("Provider dispatch failed safely", UnknownCategory, false, false, None, None, 1, ""));
      }
      r := Granted;
    }

    /** May fail for reasons of its own, and then changes nothing. */
    method Reconcile(slot: Slot, attempt: nat) returns (ok: bool)
      requires Reservation(slot, attempt) in ledger && ledger[Reservation(slot, attempt)] == Reserved
      modifies this
      ensures GateReconciles(old(ledger), ledger, slot, attempt, ok)
    {
      ok := *;
      if ok {
        ledger := ledger[Reservation(slot, attempt) := Reconciled];
      }
    }

    method Release(slot: Slot, attempt: nat) returns (ok: bool)
      modifies this
      ensures GateReleases(old(ledger), ledger, slot, attempt, ok)
    {
      ok := Reservation(slot, attempt) in ledger && ledger[Reservation(slot, attempt)] == Reserved;
      if ok {
        ledger := ledger[Reservation(slot, attempt) := Released];
      }
    }
  }

  function Max(a: nat, b: nat): nat {
    if a < b then b else a
  }

  function Min(a: nat, b: nat): nat {
    if a < b then a else b
  }

  function MinPosition(chain: seq<Provider>, names: seq<Provider>): nat {
    if names == [] then |chain|
    else Min(IndexOf(chain, names[0]), MinPosition(chain, names[1..]))
  }

  /** `downstream_call_reserve`, once it is known that no synthesis has succeeded. */
  function ReserveFor(cfg: Config, stage: Stage, names: seq<Provider>): int {
    match stage
    case Synthesis =>
      if exists p :: p in names && p in cfg.chain then |cfg.chain| - MinPosition(cfg.chain, names) - 1 else |cfg.chain|
    case Proposal => |cfg.roster| + |cfg.chain|
    case Jury => |cfg.chain|
    case JuryRepair => |cfg.chain|
  }

  lemma ReserveIsDownstream(cfg: Config, job: Job, work: seq<Provider>)
    requires job.stage == Synthesis ==> |work| == 1 && work[0] in cfg.chain
    ensures forall p | p in work :: DownstreamReserve(cfg, SlotOf(job, p)) == ReserveFor(cfg, job.stage, work)
  {
    if job.stage == Synthesis {
      assert work[0] in work && work[1..] == [];
      assert MinPosition(cfg.chain, work) == Min(IndexOf(cfg.chain, work[0]), MinPosition(cfg.chain, []));
    }
  }

  lemma OneOf(names: seq<Provider>, work: seq<Provider>)
    requires |names| <= 1 && Distinct(work) && work != [] && forall p | p in work :: p in names
    ensures |work| == 1
  {
    var p := work[0];
    assert p in work && p in names;
    SetOfSeq(work);
    SubsetSize((set p | p in work), {names[0]});
  }

  /** The enlarged output limit of a truncation retry. */
  function RecoveryLimit(cfg: Config, limit: nat): nat {
    Min(Max(limit + 1024, limit * 2), cfg.maxRecoveryTokens)
  }

  const REFUSED_RETRY := "Prior invocation outcome is ambiguous; automatic retry refused"
  const SUPPRESSED := "Prior provider outcome in this run is ambiguous; later-stage invocation suppressed"
  const EXHAUSTED := "Known output-length recovery is exhausted; automatic retry refused (finish_reason=length)"

  function AttemptsOf(row: Invocation): nat {
    if row.attempts.Some? && row.attempts.value > 0 then row.attempts.value else 1
  }

  const OVERSIZE_ERROR := ProviderError("Stage prompt exceeds configured workload limit", BudgetCategory, false, false,
                                        None, None, 1, "")
  const DENIED_ERROR := ProviderError("Run call budget exhausted", BudgetCategory, false, false, None, None, 1, "")

  const RECONCILE_ERROR := ProviderError("Provider call completed but budget reconciliation failed safely",
                                         BudgetCategory, false, true, None, None, 1, "")

  const DEADLINE_ERROR := ProviderError("Run deadline exhausted", Timeout, true, false, None, None, 1, "")

  class CouncilEngine {
    const cfg: Config
    const store: CouncilStore
    const gate: CallGate
    var expired: bool
    ghost var live: map<Slot, Phase>
    ghost var log: seq<Action>

    ghost function Now(): World
      reads this, store, gate
    {
      World(store.slots, store.events, gate.ledger, live)
    }

    ghost predicate Valid()
      reads this, store, gate
    {
      Explained(cfg, log, Now())
    }

    constructor (cfg: Config, store: CouncilStore, gate: CallGate)
      requires ValidConfig(cfg)
      requires store.slots == map[] && store.events == [] && gate.ledger == map[]
      ensures Valid() && live == map[] && this.cfg == cfg && this.store == store && this.gate == gate
    {
      this.cfg, this.store, this.gate := cfg, store, gate;
      expired, live, log := false, map[], [];
    }

    // ----- One action at a time -----

    /** The deadline may pass at any moment and never comes back. */
    method DeadlinePassed() returns (passed: bool)
      modifies `expired
      ensures passed == expired && (old(expired) ==> expired)
    {
      if !expired {
        expired := *;
      }
      passed := expired;
    }

    method Timestamp() returns (now: nat) {
      now := *;
    }

    lemma StoreValid()
      requires Valid()
      ensures store.Valid()
    {
      ExplainedInv(cfg, log, Now());
    }

    /** The prompt rebuilt for a restart is the one the row already has. */
    lemma RestartAccepted(slot: Slot)
      requires Valid()
      ensures store.Valid() && (slot in store.slots ==> store.slots[slot].prompt == PromptOf(cfg, Now(), slot))
    {
      ExplainedInv(cfg, log, Now());
    }

    lemma LeaseOf(slot: Slot)
      requires Valid() && cfg.gated && slot in live
      ensures live[slot] == Started ==> LastAttempt(Now(), slot) !in gate.ledger
      ensures live[slot] == Leased ==>
        LastAttempt(Now(), slot) in gate.ledger && gate.ledger[LastAttempt(Now(), slot)] == Reserved
    {
      ExplainedInv(cfg, log, Now());
      assert ViewOk(ViewOf(Now(), slot));
    }

    lemma Releases(slot: Slot, error: ProviderError, attempt: nat, prior: Option<Invocation>)
      requires Valid() && UndispatchEnabled(Now(), slot, error, attempt, prior)
      ensures store.Valid() && Releasable(store.slots, store.events, slot, error, attempt, prior)
      ensures prior.Some? ==>
        |Retries(Now(), slot)| > 0
        && RetriesAt(store.events, slot, store.slots[slot].callCount) == [Retries(Now(), slot)[|Retries(Now(), slot)| - 1]]
    {
      ExplainedInv(cfg, log, Now());
      assert RetryAuditOf(Now(), slot);
      ReleaseAccepted(Now(), slot, error, attempt, prior);
    }

    method Record(e: Event)
      requires Valid() && Enabled(cfg, Now(), Note(e))
      modifies this`log, store`events
      ensures Valid() && Took(cfg, old(log), old(Now()), log, Now(), Note(e))
    {
      ExplainedStep(cfg, log, Now(), Note(e));
      store.AppendEvent(e);
      log := log + [Note(e)];
    }

    /** A new process takes the run up; whatever an earlier one had in flight is lost. */
    ghost method BeginProcess()
      requires Valid()
      modifies this`live, this`log
      ensures Valid() && live == map[] && Took(cfg, old(log), old(Now()), log, Now(), Resume)
    {
      ExplainedStep(cfg, log, Now(), Resume);
      live := map[];
      log := log + [Resume];
    }

    /** Appends one of the durable decisions of a run. */
    method Decide(e: Event, ghost a: Action)
      requires Valid() && Enabled(cfg, Now(), a) && (a.LockNamespace? || a.LockAdjudication? || a.Advance?)
      requires Written(cfg, Now(), a) == [e]
      modifies this`log, store`events
      ensures Valid() && Took(cfg, old(log), old(Now()), log, Now(), a)
    {
      ExplainedStep(cfg, log, Now(), a);
      store.AppendEvent(e);
      log := log + [a];
    }

    method StartCall(slot: Slot, prompt: Prompt) returns (ghost a: Action)
      requires Valid() && StartEnabled(cfg, Now(), slot) && prompt == PromptOf(cfg, Now(), slot)
      modifies this`live, this`log, store`slots, store`events
      ensures Valid() && a.Start? && a.slot == slot && Took(cfg, old(log), old(Now()), log, Now(), a)
    {
      var now := Timestamp();
      RestartAccepted(slot);
      a := Start(slot, prompt, now);
      ExplainedStep(cfg, log, Now(), a);
      var ok := store.StartInvocation(slot, prompt, now);
      live := live[slot := if cfg.gated then Started else Free];
      log := log + [a];
    }

    /** `call_gate.reserve`: the attempt number is fresh, so the gate never answers that it has seen it. */
    method AskGate(slot: Slot, attempt: nat) returns (r: Authorization, ghost a: Action)
      requires Valid() && cfg.gated && slot in live && live[slot] == Started && slot in store.slots
      requires attempt == AttemptNumber(Now(), slot)
      modifies this`live, this`log, gate
      ensures Valid() && Took(cfg, old(log), old(Now()), log, Now(), a)
      ensures if r.Granted? then a == Grant(slot) else a.Refuse? && a.slot == slot
      ensures r.Denied? ==> !r.error.ambiguous
    {
      LeaseOf(slot);
      r := gate.Reserve(slot, attempt);
      a := if r.Granted? then Grant(slot) else Refuse(slot, gate.ledger != old(gate.ledger));
      ghost var w := World(store.slots, store.events, old(gate.ledger), live);
      ExplainedStep(cfg, log, w, a);
      live := live[slot := if r.Granted? then Leased else Dropped];
      log := log + [a];
    }

    method GiveBackLease(slot: Slot, attempt: nat)
      requires Valid() && cfg.gated && slot in live && live[slot] == Leased && slot in store.slots
      requires attempt == AttemptNumber(Now(), slot)
      modifies this`live, this`log, gate
      ensures Valid() && Took(cfg, old(log), old(Now()), log, Now(), GiveBack(slot))
    {
      LeaseOf(slot);
      ExplainedStep(cfg, log, Now(), GiveBack(slot));
      var ok := gate.Release(slot, attempt);
      live := live[slot := Dropped];
      log := log + [GiveBack(slot)];
    }

    method ReconcileLease(slot: Slot, attempt: nat) returns (ok: bool)
      requires Valid() && cfg.gated && slot in live && live[slot] == Leased && slot in store.slots
      requires attempt == AttemptNumber(Now(), slot)
      modifies this`live, this`log, gate
      ensures Valid()
      ensures ok ==> Took(cfg, old(log), old(Now()), log, Now(), Reconcile(slot))
      ensures !ok ==> Now() == old(Now()) && log == old(log)
    {
      LeaseOf(slot);
      ok := gate.Reconcile(slot, attempt);
      if ok {
        ghost var w := World(store.slots, store.events, old(gate.ledger), live);
        ExplainedStep(cfg, log, w, Reconcile(slot));
        live := live[slot := Settled];
        log := log + [Reconcile(slot)];
      }
    }

    method FinishSuccess(slot: Slot, response: Response) returns (ghost a: Action)
      requires Valid() && slot in live && live[slot] in {Settled, Free} && slot in store.slots
      requires store.slots[slot].status == Running && response.finish == Stop
      modifies this`live, this`log, store`slots
      ensures Valid() && a.Succeed? && a.slot == slot && a.response == response
      ensures Took(cfg, old(log), old(Now()), log, Now(), a)
    {
      var now := Timestamp();
      StoreValid();
      a := Succeed(slot, response, now);
      ExplainedStep(cfg, log, Now(), a);
      var ok := store.FinishInvocationSuccess(slot, response, now);
      live := live - {slot};
      log := log + [a];
    }

    method FinishFailure(slot: Slot, error: ProviderError) returns (ghost a: Action)
      requires Valid() && slot in store.slots && store.slots[slot].status == Running
      requires if slot !in live then error.ambiguous
               else if error.ambiguous then live[slot] != Settled && live[slot] != Started
               else live[slot] in {Settled, Free}
      modifies this`live, this`log, store`slots
      ensures Valid() && Took(cfg, old(log), old(Now()), log, Now(), a)
      ensures slot in old(live) ==> a.Fail? && a.slot == slot && a.error == error
      ensures slot !in old(live) ==> a.Settle? && a.slot == slot && a.error == error
    {
      var now := Timestamp();
      StoreValid();
      a := if slot in live then Fail(slot, error, now) else Settle(slot, error, now);
      ExplainedStep(cfg, log, Now(), a);
      var ok := store.FinishInvocationFailure(slot, error, now);
      live := live - {slot};
      log := log + [a];
    }

    method ReleaseCall(slot: Slot, error: ProviderError, attempt: nat, prior: Option<Invocation>)
      requires Valid() && UndispatchEnabled(Now(), slot, error, attempt, prior)
      modifies this`live, this`log, store`slots, store`events
      ensures Valid() && Took(cfg, old(log), old(Now()), log, Now(), Undispatch(slot, error, attempt, prior))
    {
      Releases(slot, error, attempt, prior);
      ExplainedStep(cfg, log, Now(), Undispatch(slot, error, attempt, prior));
      var ok := store.ReleaseUndispatchedInvocation(slot, error, attempt, prior);
      live := live - {slot};
      log := log + [Undispatch(slot, error, attempt, prior)];
    }

    // ----- One provider call -----

    /** The facts a step of one slot leaves the rest of the stage with. */
    lemma StepTaken(log0: seq<Action>, w: World, a: Action, slot: Slot)
      requires ValidConfig(cfg) && Explained(cfg, log0, w) && Took(cfg, log0, w, log, Now(), a)
      requires StageAction(a) && (Concerns(a).Some? ==> Concerns(a) == Some(slot))
      ensures AuditInv(cfg, w) && Moved(w, Now(), slot)
      ensures Calls(Now().slots) == Calls(w.slots) + if a.Start? then 1 else if a.Undispatch? then -1 else 0
    {
      ExplainedInv(cfg, log0, w);
      StepMoves(cfg, w, a, slot);
      CallsNext(cfg, w, a);
    }

    /** Nothing is started once the deadline has passed. */
    method BeginCall(job: Job, p: Provider, limit: nat, ghost w0: World) returns (next: Progress)
      requires Valid() && NotBegun(cfg, w0, Now(), SlotOf(job, p)) && PromptRight(cfg, Now(), job, p)
      requires Calls(store.slots) + 1 + DownstreamReserve(cfg, SlotOf(job, p)) <= cfg.maxCalls
      modifies this`expired, this`live, this`log, store`slots, store`events
      ensures Valid() && old(log) <= log && (old(expired) ==> expired)
      ensures Moved(old(Now()), Now(), SlotOf(job, p)) && Calls(store.slots) <= old(Calls(store.slots)) + 1
      ensures ProgressOk(cfg, w0, Now(), SlotOf(job, p), next) && (next.Begun? || next.Returned?)
      ensures expired || Asked(old(Now()), Now(), SlotOf(job, p))
    {
      ghost var w := Now();
      var late := DeadlinePassed();
      if late {
        MovedRefl(w, SlotOf(job, p));
        return Returned(CallOutcome(false, None, Some(DEADLINE_ERROR), limit, false, None), Free);
      }
      ghost var a := StartCall(SlotOf(job, p), job.prompts[p]);
      StepTaken(old(log), w, a, SlotOf(job, p));
      Begins(cfg, w0, w, SlotOf(job, p), job.prompts[p], a.now);
      next := Begun;
    }

    /** Asks the gate for one call unit under the next attempt number of the slot. */
    method AuthorizeCall(job: Job, p: Provider, limit: nat, ghost w0: World) returns (next: Progress)
      requires Valid() && ProgressOk(cfg, w0, Now(), SlotOf(job, p), Begun)
      modifies this`live, this`log, gate
      ensures Valid() && old(log) <= log
      ensures Moved(old(Now()), Now(), SlotOf(job, p)) && Calls(store.slots) <= old(Calls(store.slots))
      ensures ProgressOk(cfg, w0, Now(), SlotOf(job, p), next) && (next.Authorized? || next.Returned?)
    {
      var slot := SlotOf(job, p);
      ghost var w := Now();
      var undispatched := |Select(store.events, NotDispatchedOf(slot))|;
      var attempt := store.slots[slot].callCount + undispatched;
      if !cfg.gated {
        MovedRefl(w, slot);
        return Authorized(attempt);
      }
      var r; ghost var a;
      r, a := AskGate(slot, attempt);
      StepTaken(old(log), w, a, slot);
      LeaseMoves(cfg, w0, w, a, slot);
      next := match r
        case Granted => Authorized(attempt)
        case Denied(error) => Returned(CallOutcome(true, None, Some(error), limit, false, Some(attempt)), Dropped);
    }

    /** A provider answers, or fails with an outcome that is known or not. */
    method CallProvider() returns (response: Option<Response>, error: Option<ProviderError>)
      ensures response.Some? != error.Some?
    {
      var answered: bool := *;
      if answered {
        var r: Response := *;
        response, error := Some(r), None;
      } else {
        var e: ProviderError := *;
        response, error := None, Some(e);
      }
    }

    method Generate(job: Job, p: Provider, attempt: nat, limit: nat, ghost w0: World) returns (next: Progress)
      requires Valid() && ProgressOk(cfg, w0, Now(), SlotOf(job, p), Authorized(attempt))
      modifies this`expired
      ensures Valid() && Now() == old(Now()) && (old(expired) ==> expired)
      ensures ProgressOk(cfg, w0, Now(), SlotOf(job, p), next) && next.Returned?
    {
      var phase := if cfg.gated then Leased else Free;
      var late := DeadlinePassed();
      if late {
        return Returned(CallOutcome(true, None, Some(DEADLINE_ERROR), limit, false, Some(attempt)), phase);
      }
      var response, error := CallProvider();
      next := Returned(CallOutcome(true, response, error, limit, true, Some(attempt)), phase);
    }

    // ----- Processing what a call returned -----

    /** `lease.release()` */
    method ReturnLease(slot: Slot, attempt: nat, ghost w0: World)
      requires Valid() && cfg.gated && InFlight(w0, Now(), slot) && live[slot] == Leased && attempt == AttemptNumber(Now(), slot)
      modifies this`live, this`log, gate
      ensures Valid() && old(log) <= log && Moved(old(Now()), Now(), slot) && Calls(store.slots) <= old(Calls(store.slots))
      ensures InFlight(w0, Now(), slot) && live[slot] == Dropped && attempt == AttemptNumber(Now(), slot)
    {
      ghost var w := Now();
      GiveBackLease(slot, attempt);
      StepTaken(old(log), w, GiveBack(slot), slot);
      LeaseMoves(cfg, w0, w, GiveBack(slot), slot);
    }

    /** The row of a call that never left goes back to what it was, unless the refusal itself was ambiguous. */
    method UndoCall(slot: Slot, error: ProviderError, attempt: nat, prior: Option<Invocation>, ghost w0: World)
      requires Valid() && InFlight(w0, Now(), slot) && live[slot] in {Dropped, Free} && attempt == AttemptNumber(Now(), slot)
      requires prior == RowAt(w0, slot)
      modifies this`live, this`log, store`slots, store`events
      ensures Valid() && old(log) <= log && Moved(old(Now()), Now(), slot) && Calls(store.slots) <= old(Calls(store.slots))
      ensures slot !in live
      ensures if error.ambiguous then Recorded(Now(), slot, error) else RowAt(Now(), slot) == prior
    {
      ghost var w := Now();
      if !error.ambiguous {
        ReleaseCall(slot, error, attempt, prior);
        StepTaken(old(log), w, Undispatch(slot, error, attempt, prior), slot);
      } else {
        ghost var a := FinishFailure(slot, error);
        StepTaken(old(log), w, a, slot);
      }
    }

    /** A call that never left: its lease is given back and its row is as if it had not been started. */
    method SettleUndispatched(job: Job, p: Provider, o: CallOutcome, phase: Phase, records: Slots, ghost w0: World)
      returns (e: ProviderError)
      requires Valid() && records == w0.slots && !o.dispatched
      requires ProgressOk(cfg, w0, Now(), SlotOf(job, p), Returned(o, phase))
      modifies this`live, this`log, store`slots, store`events, gate
      ensures Valid() && old(log) <= log
      ensures Moved(old(Now()), Now(), SlotOf(job, p)) && Calls(store.slots) <= old(Calls(store.slots))
      ensures SlotOf(job, p) !in live && Recorded(Now(), SlotOf(job, p), e)
    {
      var slot := SlotOf(job, p);
      ghost var w := Now();
      MovedRefl(w, slot);
      var error := o.error.value;
      var prior := if slot in records then Some(records[slot]) else None;
      FailedBefore(w0, w, slot, o, phase);
      if o.started {
        if phase == Leased {
          ReturnLease(slot, o.attempt.value, w0);
        }
        ghost var w1 := Now();
        UndoCall(slot, error, o.attempt.value, prior, w0);
        MovedTwice(w, w1, Now(), slot);
      }
      e := if prior.Some? && prior.value.status == Failed && !error.ambiguous then prior.value.error.value else error;
    }

    /** A slot that is worked on was absent or had failed before. */
    lemma FailedBefore(w0: World, w: World, slot: Slot, o: CallOutcome, phase: Phase)
      requires ProgressOk(cfg, w0, w, slot, Returned(o, phase))
      ensures slot in w0.slots ==> w0.slots[slot].status == Failed && w0.slots[slot].error.Some?
    {
    }

    /** Settles the lease of a call whose outcome is known; failing to do so makes the outcome ambiguous. */
    method SettleLease(slot: Slot, o: CallOutcome, phase: Phase, ghost w0: World)
      returns (response: Option<Response>, error: Option<ProviderError>)
      requires Valid() && o.dispatched && InFlight(w0, Now(), slot) && OutcomeOk(cfg, Now(), slot, o, phase)
      modifies this`live, this`log, gate
      ensures Valid() && old(log) <= log && Moved(old(Now()), Now(), slot) && Calls(store.slots) <= old(Calls(store.slots))
      ensures InFlight(w0, Now(), slot) && response.Some? != error.Some?
      ensures if error.Some? && error.value.ambiguous then live[slot] in {Leased, Free} else live[slot] in {Settled, Free}
    {
      ghost var w := Now();
      MovedRefl(w, slot);
      response, error := o.response, o.error;
      if phase == Leased && !(error.Some? && error.value.ambiguous) {
        var ok := ReconcileLease(slot, o.attempt.value);
        if ok {
          StepTaken(old(log), w, Reconcile(slot), slot);
          LeaseMoves(cfg, w0, w, Reconcile(slot), slot);
        } else {
          response, error := None, Some(RECONCILE_ERROR);
        }
      }
    }

    /** Stores a failure and reports the very same one. */
    method FailCall(slot: Slot, error: ProviderError, ghost w0: World)
      requires Valid() && InFlight(w0, Now(), slot)
      requires if error.ambiguous then live[slot] in {Leased, Free} else live[slot] in {Settled, Free}
      modifies this`live, this`log, store`slots
      ensures Valid() && old(log) <= log && Moved(old(Now()), Now(), slot) && Calls(store.slots) <= old(Calls(store.slots))
      ensures slot !in live && Recorded(Now(), slot, error)
    {
      ghost var w := Now();
      ghost var a := FinishFailure(slot, error);
      StepTaken(old(log), w, a, slot);
    }

    method AcceptCall(slot: Slot, response: Response, ghost w0: World)
      requires Valid() && InFlight(w0, Now(), slot) && live[slot] in {Settled, Free} && response.finish == Stop
      modifies this`live, this`log, store`slots
      ensures Valid() && old(log) <= log && Moved(old(Now()), Now(), slot) && Calls(store.slots) <= old(Calls(store.slots))
      ensures slot !in live && SucceededAt(Now(), slot) && store.slots[slot].response == Some(response)
    {
      ghost var w := Now();
      ghost var a := FinishSuccess(slot, response);
      StepTaken(old(log), w, a, slot);
    }

    method NoteCall(e: Event, slot: Slot, ghost w0: World)
      requires Valid() && InFlight(w0, Now(), slot) && (e.TruncatedPreserved? || e.IncompletePreserved?)
      modifies this`log, store`events
      ensures Valid() && old(log) <= log && Moved(old(Now()), Now(), slot) && Calls(store.slots) <= old(Calls(store.slots))
      ensures InFlight(w0, Now(), slot) && live == old(live)
    {
      ghost var w := Now();
      Record(e);
      StepTaken(old(log), w, Note(e), slot);
      NoteKeepsFlight(cfg, w0, w, e, slot);
    }

    lemma CutRecorded(log1: seq<Action>, w0: World, w1: World, a: Action, job: Job, p: Provider, response: Response, limit: nat)
      requires ValidConfig(cfg) && Explained(cfg, log1, w1) && InFlight(w0, w1, SlotOf(job, p)) && response.finish == Length
      requires a.Fail? && a.slot == SlotOf(job, p) && Some(a.error) == CompletionError(response)
      requires Took(cfg, log1, w1, log, Now(), a)
      requires !WasCut(w0, SlotOf(job, p)) && TruncationRetries(Retries(w0, SlotOf(job, p))) < cfg.truncationRetries
      ensures SlotOf(job, p) in store.slots
      ensures CutOk(cfg, Now(), job, p, Cut(response, limit, store.slots[SlotOf(job, p)].callCount))
    {
      ExplainedInv(cfg, log1, w1);
      Cuts(cfg, w0, w1, job, p, response, a.now, limit);
    }

    /** A response cut off at the output limit: kept for the record, stored as a failure, and owed one retry. */
    method CutCall(job: Job, p: Provider, response: Response, limit: nat, ghost w0: World) returns (cut: Cut)
      requires Valid() && InFlight(w0, Now(), SlotOf(job, p)) && live[SlotOf(job, p)] in {Settled, Free}
      requires response.finish == Length && !WasCut(w0, SlotOf(job, p))
      requires TruncationRetries(Retries(w0, SlotOf(job, p))) < cfg.truncationRetries
      modifies this`live, this`log, store`slots, store`events
      ensures Valid() && old(log) <= log && Moved(old(Now()), Now(), SlotOf(job, p))
      ensures Calls(store.slots) <= old(Calls(store.slots)) && CutOk(cfg, Now(), job, p, cut)
    {
      hide CompletionError;
      TruncationIsRecognised(response);
      var slot := SlotOf(job, p);
      ghost var w := Now();
      NoteCall(TruncatedPreserved(slot, limit, response), slot, w0);
      ghost var l1, w1 := log, Now();
      ghost var a := FinishFailure(slot, CompletionError(response).value);
      StepTaken(l1, w1, a, slot);
      MovedTwice(w, w1, Now(), slot);
      CutRecorded(l1, w0, w1, a, job, p, response, limit);
      cut := Cut(response, limit, store.slots[slot].callCount);
    }

    /** A response that did not end normally and will not be retried here is a failure; it may be kept for the record. */
    method RejectResponse(job: Job, p: Provider, response: Response, ghost w0: World) returns (error: ProviderError)
      requires Valid() && InFlight(w0, Now(), SlotOf(job, p)) && live[SlotOf(job, p)] in {Settled, Free}
      requires response.finish != Stop
      modifies this`live, this`log, store`slots, store`events
      ensures Valid() && old(log) <= log && Moved(old(Now()), Now(), SlotOf(job, p))
      ensures Calls(store.slots) <= old(Calls(store.slots))
      ensures SlotOf(job, p) !in live && Recorded(Now(), SlotOf(job, p), error)
    {
      hide CompletionError, RestoresTo;
      var slot := SlotOf(job, p);
      ghost var w := Now();
      MovedRefl(w, slot);
      if job.preserveIncomplete && response.finish != NoObject {
        NoteCall(IncompletePreserved(slot, response), slot, w0);
      }
      ghost var w1 := Now();
      IncompleteIsCertain(response);
      error := CompletionError(response).value;
      FailCall(slot, error, w0);
      MovedTwice(w, w1, Now(), slot);
    }

    method StoreResponse(job: Job, p: Provider, response: Response, limit: nat, mayRetry: bool, ghost w0: World)
      returns (s: Settlement)
      requires Valid() && InFlight(w0, Now(), SlotOf(job, p)) && live[SlotOf(job, p)] in {Settled, Free}
      requires mayRetry ==>
        !WasCut(w0, SlotOf(job, p)) && TruncationRetries(Retries(w0, SlotOf(job, p))) < cfg.truncationRetries
      modifies this`live, this`log, store`slots, store`events
      ensures Valid() && old(log) <= log && Moved(old(Now()), Now(), SlotOf(job, p))
      ensures Calls(store.slots) <= old(Calls(store.slots))
      ensures SlotOf(job, p) !in live && SettlementOk(cfg, Now(), job, p, s)
      ensures s.CutShort? ==> mayRetry
    {
      if CompletionError(response).None? {
        AcceptCall(SlotOf(job, p), response, w0);
        s := Answered(response);
      } else if response.finish == Length && mayRetry {
        var cut := CutCall(job, p, response, limit, w0);
        s := CutShort(cut);
      } else {
        var error := RejectResponse(job, p, response, w0);
        s := Refused(error);
      }
    }

    /** A call that was made: settled with the gate, then stored as what it turned out to be. */
    method SettleDispatched(job: Job, p: Provider, o: CallOutcome, phase: Phase, mayRetry: bool, ghost w0: World)
      returns (s: Settlement)
      requires Valid() && o.dispatched && o.started && ProgressOk(cfg, w0, Now(), SlotOf(job, p), Returned(o, phase))
      requires mayRetry ==>
        !WasCut(w0, SlotOf(job, p)) && TruncationRetries(Retries(w0, SlotOf(job, p))) < cfg.truncationRetries
      modifies this`live, this`log, store`slots, store`events, gate
      ensures Valid() && old(log) <= log
      ensures Moved(old(Now()), Now(), SlotOf(job, p)) && Calls(store.slots) <= old(Calls(store.slots))
      ensures SlotOf(job, p) !in live && SettlementOk(cfg, Now(), job, p, s)
      ensures s.CutShort? ==> mayRetry
    {
      var slot := SlotOf(job, p);
      ghost var w := Now();
      var response, error := SettleLease(slot, o, phase, w0);
      ghost var w1 := Now();
      if error.Some? {
        FailCall(slot, error.value, w0);
        s := Refused(error.value);
      } else {
        s := StoreResponse(job, p, response.value, o.limit, mayRetry, w0);
      }
      MovedTwice(w, w1, Now(), slot);
    }

    // ----- Many calls at once -----

    function OutputLimit(job: Job, p: Provider, wasCut: bool): nat {
      var configured := cfg.outputTokens(p, job.providerStage);
      if p in job.limits then job.limits[p] else if wasCut then RecoveryLimit(cfg, configured) else configured
    }

    ghost predicate StageInv(job: Job, names: seq<Provider>, reserve: int, progress: Calling, d: Done, w0: World)
      reads this, store, gate
    {
      && Valid()
      && DispatchInv(cfg, w0, Now(), job, names, reserve, progress, d)
      && forall q | q in progress :: PromptRight(cfg, Now(), job, q) && DownstreamReserve(cfg, SlotOf(job, q)) == reserve
    }

    /** Prompts stay the right ones over any stretch of the run. */
    lemma PromptsLater(log0: seq<Action>, w: World, job: Job, names: set<Provider>)
      requires Valid() && Explained(cfg, log0, w) && log0 <= log
      requires forall q | q in names :: PromptRight(cfg, w, job, q)
      ensures forall q | q in names :: PromptRight(cfg, Now(), job, q)
    {
      ExplainedInv(cfg, log0, w);
      Between(cfg, log0, w, log, Now());
      forall q | q in names ensures PromptRight(cfg, Now(), job, q) {
        PromptRightLater(cfg, w, log[|log0|..], job, q);
      }
    }

    /** A call that has not returned yet moves one step on. */
    method StepCall(job: Job, p: Provider, current: Progress, limit: nat, ghost w0: World) returns (next: Progress)
      requires Valid() && PromptRight(cfg, Now(), job, p)
      requires ProgressOk(cfg, w0, Now(), SlotOf(job, p), current) && Milestone(current) < 3
      requires current.Waiting? ==> Calls(store.slots) + 1 + DownstreamReserve(cfg, SlotOf(job, p)) <= cfg.maxCalls
      modifies this`expired, this`live, this`log, store`slots, store`events, gate
      ensures Valid() && old(log) <= log && (old(expired) ==> expired)
      ensures Moved(old(Now()), Now(), SlotOf(job, p)) && ProgressOk(cfg, w0, Now(), SlotOf(job, p), next)
      ensures Milestone(current) < Milestone(next) <= 3
      ensures Calls(store.slots) <= old(Calls(store.slots)) + if current.Waiting? then 1 else 0
      ensures current.Waiting? ==> expired || Asked(old(Now()), Now(), SlotOf(job, p))
    {
      match current {
        case Waiting => next := BeginCall(job, p, limit, w0);
        case Begun => next := AuthorizeCall(job, p, limit, w0);
        case Authorized(attempt) =>
          MovedRefl(Now(), SlotOf(job, p));
          next := Generate(job, p, attempt, limit, w0);
      }
    }

    method MoveOn(job: Job, names: seq<Provider>, ghost reserve: int, progress: Calling, ghost d: Done, p: Provider,
                  records: Slots, ghost w0: World) returns (next: Progress)
      requires StageInv(job, names, reserve, progress, d, w0) && records == w0.slots
      requires p in progress && Milestone(progress[p]) < 3
      modifies this`expired, this`live, this`log, store`slots, store`events, gate
      ensures StageInv(job, names, reserve, progress[p := next], d, w0)
      ensures Milestone(progress[p]) < Milestone(next) <= 3 && old(log) <= log && (old(expired) ==> expired)
      ensures progress[p].Waiting? ==> expired || Asked(old(Now()), Now(), SlotOf(job, p))
    {
      hide ValidConfig;
      ghost var w := Now();
      var slot := SlotOf(job, p);
      var limit := OutputLimit(job, p, slot in records && IsLengthFailure(records[slot]));
      OneWaiting(progress, p);
      next := StepCall(job, p, progress[p], limit, w0);
      CallMoves(cfg, w0, w, Now(), job, names, reserve, progress, d, p, next);
      PromptsLater(old(log), w, job, progress.Keys);
    }

    /** What the stage does with one returned call, and what it reports. */
    method SettleCall(job: Job, p: Provider, o: CallOutcome, phase: Phase, records: Slots, events0: seq<Event>, ghost w0: World)
      returns (s: Settlement)
      requires Valid() && records == w0.slots && events0 == w0.events
      requires ProgressOk(cfg, w0, Now(), SlotOf(job, p), Returned(o, phase))
      modifies this`live, this`log, store`slots, store`events, gate
      ensures Valid() && old(log) <= log
      ensures Moved(old(Now()), Now(), SlotOf(job, p)) && Calls(store.slots) <= old(Calls(store.slots))
      ensures SlotOf(job, p) !in live && SettlementOk(cfg, Now(), job, p, s)
      ensures s.CutShort? ==> job.allowTruncation
    {
      var slot := SlotOf(job, p);
      if !o.dispatched {
        var e := SettleUndispatched(job, p, o, phase, records, w0);
        s := Refused(e);
      } else {
        var mayRetry :=
          && job.allowTruncation && cfg.truncationRetries > 0
          && !(slot in records && IsLengthFailure(records[slot]))
          && TruncationRetries(Select(events0, RetryOf(slot))) < cfg.truncationRetries;
        s := SettleDispatched(job, p, o, phase, mayRetry, w0);
      }
    }

    /** A call that has returned is settled, stored and reported. */
    method TakeUp(job: Job, names: seq<Provider>, ghost reserve: int, progress: Calling, d: Done, p: Provider,
                  records: Slots, events0: seq<Event>, ghost w0: World) returns (d': Done)
      requires StageInv(job, names, reserve, progress, d, w0) && records == w0.slots && events0 == w0.events
      requires p in progress && progress[p].Returned?
      modifies this`live, this`log, store`slots, store`events, gate
      ensures StageInv(job, names, reserve, progress[p := Finished], d', w0)
      ensures old(log) <= log && (!job.allowTruncation ==> d'.cut == d.cut)
      ensures forall q | q in d'.cut :: q in d.cut || q in progress
    {
      ghost var w := Now();
      assert ProgressOk(cfg, w0, w, SlotOf(job, p), progress[p]);
      var s := SettleCall(job, p, progress[p].outcome, progress[p].phase, records, events0, w0);
      d' := Added(d, job, p, s);
      Ends(job, names, reserve, progress, d, p, s, w0, w);
      PromptsLater(old(log), w, job, progress.Keys);
    }

    lemma Ends(job: Job, names: seq<Provider>, reserve: int, progress: Calling, d: Done, p: Provider, s: Settlement,
               w0: World, w: World)
      requires ValidConfig(cfg) && DispatchInv(cfg, w0, w, job, names, reserve, progress, d)
      requires p in progress && !progress[p].Finished? && p in job.prompts
      requires Moved(w, Now(), SlotOf(job, p)) && SlotOf(job, p) !in live && Calls(store.slots) <= Calls(w.slots)
      requires SettlementOk(cfg, Now(), job, p, s)
      ensures DispatchInv(cfg, w0, Now(), job, names, reserve, progress[p := Finished], Added(d, job, p, s))
    {
      assert p in PendingIn(progress);
      AddedSplit(names, job, d, PendingIn(progress), p, s);
      if DoneOk(cfg, w0, Now(), job, d) {
        AddedOk(cfg, w0, Now(), job, d, p, s);
      }
      CallEnds(cfg, w0, w, Now(), job, names, reserve, progress, d, p, Added(d, job, p, s));
    }

    /** One step of one call that is not finished. */
    method StepAny(job: Job, names: seq<Provider>, ghost reserve: int, progress: Calling, d: Done, p: Provider,
                   records: Slots, events0: seq<Event>, ghost w0: World) returns (next: Progress, d': Done)
      requires StageInv(job, names, reserve, progress, d, w0) && records == w0.slots && events0 == w0.events
      requires p in progress && !progress[p].Finished?
      modifies this`expired, this`live, this`log, store`slots, store`events, gate
      ensures StageInv(job, names, reserve, progress[p := next], d', w0) && Milestone(progress[p]) < Milestone(next)
      ensures old(log) <= log && (old(expired) ==> expired) && (!job.allowTruncation ==> d'.cut == d.cut)
      ensures forall q | q in d'.cut :: q in d.cut || q in progress
      ensures progress[p].Waiting? ==> expired || Asked(old(Now()), Now(), SlotOf(job, p))
    {
      hide StageInv;
      if progress[p].Returned? {
        d' := TakeUp(job, names, reserve, progress, d, p, records, events0, w0);
        next := Finished;
        return;
      }
      next := MoveOn(job, names, reserve, progress, d, p, records, w0);
      d' := d;
    }

    /** When every call is finished nothing is in flight and every name is accounted for. */
    lemma AllEnded(job: Job, names: seq<Provider>, reserve: int, progress: Calling, d: Done, w0: World)
      requires StageInv(job, names, reserve, progress, d, w0)
      requires forall p | p in progress :: progress[p].Finished?
      ensures live == map[] && Within(w0, Now(), job.stage, names)
      ensures DoneOk(cfg, w0, Now(), job, d) && Split(names, d, {})
    {
      NonePending(progress);
    }

    // ----- Due calls are made -----

    /** Attempt numbers never go down. */
    lemma AttemptsGrow(log1: seq<Action>, w1: World)
      requires Valid() && Explained(cfg, log1, w1) && log1 <= log
      ensures forall slot :: AttemptNumber(w1, slot) <= AttemptNumber(Now(), slot)
    {
      Between(cfg, log1, w1, log, Now());
      forall slot ensures AttemptNumber(w1, slot) <= AttemptNumber(Now(), slot) {
        AttemptsAreStarts(cfg, w1, log[|log1|..], slot);
      }
    }

    /** Every call that is no longer waiting has been asked for, unless time ran out. */
    ghost predicate SoFarAsked(job: Job, progress: Calling, w1: World)
      reads this, store, gate
    {
      forall q | q in progress && !progress[q].Waiting? :: expired || Asked(w1, Now(), SlotOf(job, q))
    }

    /** Each of these has had a call asked for, unless time ran out. */
    ghost predicate AllAsked(job: Job, asked: seq<Provider>, w0: World)
      reads this, store, gate
    {
      forall p | p in asked :: expired || Asked(w0, Now(), SlotOf(job, p))
    }

    /** Each call that was due, and not denied, has been asked for, unless time ran out. */
    ghost predicate DueAsked(job: Job, names: seq<Provider>, denied: seq<Provider>, w0: World)
      reads this, store, gate
    {
      forall p | p in names && p in job.prompts && IsDue(cfg, w0, job, p)
                 && cfg.promptChars(job.prompts[p]) <= cfg.maxPromptChars && p !in denied ::
        expired || Asked(w0, Now(), SlotOf(job, p))
    }

    lemma AskedBetween(job: Job, asked: seq<Provider>, w0: World, log1: seq<Action>, w1: World)
      requires Valid() && Explained(cfg, log1, w1) && log1 <= log
      requires forall p | p in asked :: expired || Asked(w0, w1, SlotOf(job, p))
      ensures AllAsked(job, asked, w0)
    {
      AttemptsGrow(log1, w1);
    }

    lemma StillAsked(job: Job, progress: Calling, w1: World, log2: seq<Action>, w2: World, p: Provider, next: Progress)
      requires Valid() && Explained(cfg, log2, w2) && log2 <= log && p in progress
      requires forall slot :: AttemptNumber(w1, slot) <= AttemptNumber(w2, slot)
      requires forall q | q in progress && !progress[q].Waiting? :: expired || Asked(w1, w2, SlotOf(job, q))
      requires progress[p].Waiting? ==> expired || Asked(w2, Now(), SlotOf(job, p))
      ensures SoFarAsked(job, progress[p := next], w1)
      ensures forall slot :: AttemptNumber(w1, slot) <= AttemptNumber(Now(), slot)
    {
      AttemptsGrow(log2, w2);
    }

    /** One step of the pool, and the books kept about it. */
    method StepOne(job: Job, names: seq<Provider>, ghost reserve: int, progress: Calling, d: Done, p: Provider,
                   records: Slots, events0: seq<Event>, ghost w0: World, ghost w1: World)
      returns (progress': Calling, d': Done)
      requires StageInv(job, names, reserve, progress, d, w0) && records == w0.slots && events0 == w0.events
      requires p in progress && !progress[p].Finished?
      requires SoFarAsked(job, progress, w1) && forall slot :: AttemptNumber(w1, slot) <= AttemptNumber(Now(), slot)
      modifies this`expired, this`live, this`log, store`slots, store`events, gate
      ensures StageInv(job, names, reserve, progress', d', w0) && Remaining(progress') < Remaining(progress)
      ensures old(log) <= log && (old(expired) ==> expired) && (!job.allowTruncation ==> d'.cut == d.cut)
      ensures progress'.Keys == progress.Keys && forall q | q in d'.cut :: q in d.cut || q in progress
      ensures SoFarAsked(job, progress', w1) && forall slot :: AttemptNumber(w1, slot) <= AttemptNumber(Now(), slot)
    {
      ghost var log2, w2 := log, Now();
      var next;
      next, d' := StepAny(job, names, reserve, progress, d, p, records, events0, w0);
      StillAsked(job, progress, w1, log2, w2, p, next);
      ProgressDecreases(progress, p, next);
      progress' := progress[p := next];
    }

    /** The pool runs the calls and the stage takes up their outcomes, in whatever order they come. */
    method Dispatch(job: Job, names: seq<Provider>, progress0: Calling, ghost reserve: int, d0: Done,
                    records: Slots, events0: seq<Event>, ghost w0: World) returns (d: Done)
      requires StageInv(job, names, reserve, progress0, d0, w0) && records == w0.slots && events0 == w0.events
      requires forall q | q in progress0 :: progress0[q].Waiting?
      modifies this`expired, this`live, this`log, store`slots, store`events, gate
      ensures Valid() && live == map[] && old(log) <= log && (old(expired) ==> expired)
      ensures Within(w0, Now(), job.stage, names)
      ensures DoneOk(cfg, w0, Now(), job, d) && Split(names, d, {})
      ensures !job.allowTruncation ==> d.cut == d0.cut
      ensures forall q | q in d.cut :: q in d0.cut || q in progress0
      ensures forall q | q in progress0 :: expired || Asked(old(Now()), Now(), SlotOf(job, q))
    {
      d := d0;
      var progress := progress0;
      ghost var w1 := Now();
      while exists p :: p in progress && !progress[p].Finished?
        invariant StageInv(job, names, reserve, progress, d, w0)
        invariant old(log) <= log && (old(expired) ==> expired)
        invariant !job.allowTruncation ==> d.cut == d0.cut
        invariant progress.Keys == progress0.Keys && forall q | q in d.cut :: q in d0.cut || q in progress0
        invariant SoFarAsked(job, progress, w1) && forall slot :: AttemptNumber(w1, slot) <= AttemptNumber(Now(), slot)
        decreases Remaining(progress)
      {
        var p :| p in progress && !progress[p].Finished?;
        progress, d := StepOne(job, names, reserve, progress, d, p, records, events0, w0, w1);
      }
      AllEnded(job, names, reserve, progress, d, w0);
    }

    // ----- Deciding what there is to do -----

    /** What the classification may take for granted about the row it looks at. */
    lemma RowFacts(log0: seq<Action>, w0: World, job: Job, p: Provider, w: World)
      requires Explained(cfg, log0, w0) && w0.live == map[] && Untouched(w0, w, p) && StageReady(cfg, w0, job, p)
      ensures RowAt(w, SlotOf(job, p)) == RowAt(w0, SlotOf(job, p))
      ensures SlotOf(job, p) in w0.slots ==> RowOk(w0.slots[SlotOf(job, p)])
      ensures SlotOf(job, p) in w0.slots && w0.slots[SlotOf(job, p)].status == Failed ==>
        FailureOk(cfg, w0, w, job, StageFailure(job.stage, p, w0.slots[SlotOf(job, p)].error.value))
    {
      ExplainedInv(cfg, log0, w0);
      assert KeptAt(w0, w, SlotOf(job, p));
    }

    /** A failed slot may be passed over with an error of its own for three reasons, an absent one for any. */
    lemma Excuses(log0: seq<Action>, w0: World, job: Job, p: Provider, w: World, error: ProviderError)
      requires Explained(cfg, log0, w0) && w0.live == map[] && Untouched(w0, w, p) && StageReady(cfg, w0, job, p)
      requires SlotOf(job, p) in w0.slots ==> job.retryFailed
      requires !SucceededAt(w, SlotOf(job, p))
      requires Exhausted(cfg, w0, SlotOf(job, p)) || p in AmbiguousProviders(w0.slots)
      ensures FailureOk(cfg, w0, w, job, StageFailure(job.stage, p, error)) && !IsDue(cfg, w0, job, p)
    {
      ExplainedInv(cfg, log0, w0);
      ClearExactly(w0, p);
      assert KeptAt(w0, w, SlotOf(job, p));
    }

    lemma LeftToDo(log0: seq<Action>, w0: World, job: Job, p: Provider)
      requires Explained(cfg, log0, w0) && w0.live == map[] && StageReady(cfg, w0, job, p)
      requires SlotOf(job, p) in w0.slots ==> job.retryFailed && IsRetryable(w0.slots[SlotOf(job, p)])
      requires !Exhausted(cfg, w0, SlotOf(job, p)) && p !in AmbiguousProviders(w0.slots)
      ensures WorkOk(cfg, w0, w0, job, p)
    {
      ExplainedInv(cfg, log0, w0);
      ClearExactly(w0, p);
      WorkIsRight(cfg, w0, job, p);
    }

    /** A row that an earlier process left running: nobody knows what became of the call. */
    method SettleOrphan(job: Job, p: Provider, ghost w0: World) returns (error: ProviderError)
      requires Valid() && live == map[] && p in job.prompts
      requires SlotOf(job, p) in store.slots && store.slots[SlotOf(job, p)].status == Running
      modifies this`live, this`log, store`slots
      ensures Valid() && old(log) <= log && live == map[]
      ensures Moved(old(Now()), Now(), SlotOf(job, p)) && Calls(store.slots) == old(Calls(store.slots))
      ensures FailureOk(cfg, w0, Now(), job, StageFailure(job.stage, p, error))
    {
      var slot := SlotOf(job, p);
      ghost var w := Now();
      var row := store.slots[slot];
      error := ProviderError(REFUSED_RETRY, UnknownCategory, false, true, None, row.requestId, AttemptsOf(row), "");
      ghost var a := FinishFailure(slot, error);
      StepTaken(old(log), w, a, slot);
    }

    /** The tests on one name, in order; `None` leaves it to be worked on. A row found running is recorded as ambiguous. */
    method Classify(job: Job, p: Provider, records: Slots, events0: seq<Event>, ambiguous: set<Provider>,
                    ghost log0: seq<Action>, ghost w0: World) returns (v: Option<Settlement>)
      requires Valid() && live == map[] && Explained(cfg, log0, w0) && w0.live == map[] && log0 <= log
      requires records == w0.slots && events0 == w0.events && ambiguous == AmbiguousProviders(records)
      requires StageReady(cfg, w0, job, p) && Untouched(w0, Now(), p)
      modifies this`live, this`log, store`slots
      ensures Valid() && old(log) <= log && live == map[]
      ensures Moved(old(Now()), Now(), SlotOf(job, p)) && Calls(store.slots) == old(Calls(store.slots))
      ensures v.Some? ==> ReportOk(cfg, w0, Now(), job, p, v.value) && !v.value.CutShort?
      ensures v.Some? ==> !IsDue(cfg, w0, job, p)
      ensures v.None? ==> Now() == old(Now()) && WorkOk(cfg, w0, w0, job, p)
    {
      var slot := SlotOf(job, p);
      ghost var w := Now();
      MovedRefl(w, slot);
      RowFacts(log0, w0, job, p, w);
      if slot in store.slots && store.slots[slot].status == Succeeded {
        var response := store.slots[slot].response.value;
        v := Some(AsSettled(response));
      } else if slot in records && records[slot].status == Failed && records[slot].errorAmbiguous == Some(true) {
        v := Some(Refused(records[slot].error.value));
      } else if slot in records && records[slot].status == Running {
        var error := SettleOrphan(job, p, w0);
        v := Some(Refused(error));
      } else if slot in records && !job.retryFailed {
        v := Some(Refused(records[slot].error.value));
      } else if slot in records && IsLengthFailure(records[slot]) && Select(events0, RecoveryOf(slot)) != [] {
        v := Some(Refused(records[slot].error.value));
      } else if slot in records && IsLengthFailure(records[slot])
                && TruncationRetries(Select(events0, RetryOf(slot))) >= cfg.truncationRetries {
        var error := ProviderError(EXHAUSTED, InvalidResponse, false, false, None, records[slot].requestId,
                                   AttemptsOf(records[slot]), "");
        Excuses(log0, w0, job, p, w, error);
        v := Some(Refused(error));
      } else if p in ambiguous {
        var error := ProviderError(SUPPRESSED, UnknownCategory, false, true, None, None, 1, "");
        Excuses(log0, w0, job, p, w, error);
        v := Some(Refused(error));
      } else {
        LeftToDo(log0, w0, job, p);
        v := None;
      }
    }

    /** One name sorted out. */
    method SortOne(job: Job, names: seq<Provider>, todo: seq<Provider>, work: seq<Provider>, d: Done,
                   records: Slots, events0: seq<Event>, ambiguous: set<Provider>, ghost log0: seq<Action>, ghost w0: World)
      returns (d': Done, work': seq<Provider>)
      requires Valid() && live == map[] && Explained(cfg, log0, w0) && w0.live == map[] && log0 <= log
      requires records == w0.slots && events0 == w0.events && ambiguous == AmbiguousProviders(records)
      requires todo != [] && StageReady(cfg, w0, job, todo[0]) && SortInv(cfg, w0, Now(), job, names, todo, work, d)
      modifies this`live, this`log, store`slots
      ensures Valid() && old(log) <= log && live == map[] && Calls(store.slots) == old(Calls(store.slots))
      ensures SortInv(cfg, w0, Now(), job, names, todo[1..], work', d')
      ensures work <= work' && (IsDue(cfg, w0, job, todo[0]) ==> todo[0] in work')
    {
      var p := todo[0];
      ghost var w := Now();
      var v := Classify(job, p, records, events0, ambiguous, log0, w0);
      SortStep(cfg, w0, w, Now(), job, names, todo, work, d, v);
      d' := if v.Some? then Added(d, job, p, v.value) else d;
      work' := if v.Some? then work else work + [p];
    }

    /** The first loop of the stage: what is known already, what is refused, and what is left to do. */
    method SortOut(job: Job, names: seq<Provider>) returns (d: Done, work: seq<Provider>)
      requires Valid() && live == map[] && Distinct(names)
      requires forall p | p in names :: StageReady(cfg, Now(), job, p)
      modifies this`live, this`log, store`slots
      ensures Valid() && old(log) <= log && live == map[] && Calls(store.slots) == old(Calls(store.slots))
      ensures SortInv(cfg, old(Now()), Now(), job, names, [], work, d)
      ensures DueListed(cfg, old(Now()), job, names, work)
    {
      var records, events0 := store.slots, store.events;
      var ambiguous := AmbiguousProviders(records);
      ghost var log0, w0 := log, Now();
      d, work := Done(map[], [], map[]), [];
      SortStart(job, names);
      for i := 0 to |names|
        invariant Valid() && log0 <= log && live == map[] && Calls(store.slots) == Calls(w0.slots)
        invariant SortInv(cfg, w0, Now(), job, names, names[i..], work, d)
        invariant DueListed(cfg, w0, job, names[..i], work)
      {
        assert names[..i + 1] == names[..i] + [names[i]] && names[i..][1..] == names[i + 1..];
        d, work := SortOne(job, names, names[i..], work, d, records, events0, ambiguous, log0, w0);
      }
      assert names[..|names|] == names;
    }

    lemma SortStart(job: Job, names: seq<Provider>)
      requires Valid() && Distinct(names)
      ensures SortInv(cfg, Now(), Now(), job, names, names, [], Done(map[], [], map[]))
    {
      assert names + [] == names;
    }

    /** Everything that is fixed once the names are sorted out. */
    ghost predicate Sorted(job: Job, names: seq<Provider>, todo: seq<Provider>, work: seq<Provider>, d: Done, w0: World)
      reads this, store, gate
    {
      && Valid() && live == map[]
      && (forall p | p in names :: p in job.prompts)
      && SortInv(cfg, w0, Now(), job, names, todo, work, d)
    }

    /** With the deadline past, what is left is reported as failed: as before, or for lack of time. */
    method Expire(job: Job, names: seq<Provider>, work: seq<Provider>, d0: Done, records: Slots, ghost w0: World)
      returns (d: Done)
      requires Sorted(job, names, [], work, d0, w0) && records == w0.slots
      ensures Sorted(job, names, [], [], d, w0)
    {
      d := d0;
      assert [] + work == work;
      Requeue(cfg, w0, Now(), job, names, [], work, d);
      for i := 0 to |work|
        invariant Sorted(job, names, work[i..], [], d, w0)
      {
        var p := work[i];
        assert work[i..][0] == p && work[i..][1..] == work[i + 1..] && p in work;
        WorkFailedBefore(cfg, w0, job, p);
        var e := if SlotOf(job, p) in records && records[SlotOf(job, p)].status == Failed
          then records[SlotOf(job, p)].error.value else DEADLINE_ERROR;
        Known(job, names, work[i..], [], d, w0, p);
        PriorReport(cfg, w0, Now(), job, p, e);
        MovedRefl(Now(), SlotOf(job, p));
        SortStep(cfg, w0, Now(), Now(), job, names, work[i..], [], d, Some(Refused(e)));
        d := Added(d, job, p, Refused(e));
      }
    }

    lemma Known(job: Job, names: seq<Provider>, todo: seq<Provider>, work: seq<Provider>, d: Done, w0: World, p: Provider)
      requires Sorted(job, names, todo, work, d, w0) && p in todo
      ensures Untouched(w0, Now(), p) && p in job.prompts
    {
      assert p in set q | q in todo + work;
    }

    /** Prompts beyond the configured size are refused without a call. */
    method DropOversized(job: Job, names: seq<Provider>, work: seq<Provider>, d0: Done, ghost w0: World)
      returns (d: Done, kept: seq<Provider>)
      requires Sorted(job, names, [], work, d0, w0)
      ensures Sorted(job, names, [], kept, d, w0)
      ensures forall p | p in kept :: p in job.prompts && cfg.promptChars(job.prompts[p]) <= cfg.maxPromptChars
      ensures forall p | p in work && p in job.prompts && cfg.promptChars(job.prompts[p]) <= cfg.maxPromptChars :: p in kept
    {
      hide ReportOk, WorkOk, DoneOk, Split, Within, Untouched;
      d, kept := d0, [];
      assert [] + work == work;
      Requeue(cfg, w0, Now(), job, names, [], work, d);
      for i := 0 to |work|
        invariant Sorted(job, names, work[i..], kept, d, w0)
        invariant forall p | p in kept :: p in job.prompts && cfg.promptChars(job.prompts[p]) <= cfg.maxPromptChars
        invariant forall p | p in work[..i] && p in job.prompts && cfg.promptChars(job.prompts[p]) <= cfg.maxPromptChars :: p in kept
      {
        var p := work[i];
        assert work[..i + 1] == work[..i] + [p];
        assert work[i..][0] == p && work[i..][1..] == work[i + 1..] && p in work;
        Known(job, names, work[i..], kept, d, w0, p);
        MovedRefl(Now(), SlotOf(job, p));
        if cfg.promptChars(job.prompts[p]) <= cfg.maxPromptChars {
          SortStep(cfg, w0, Now(), Now(), job, names, work[i..], kept, d, None);
          kept := kept + [p];
        } else {
          OversizeReport(cfg, w0, Now(), job, p, OVERSIZE_ERROR);
          SortStep(cfg, w0, Now(), Now(), job, names, work[i..], kept, d, Some(Refused(OVERSIZE_ERROR)));
          d := Added(d, job, p, Refused(OVERSIZE_ERROR));
        }
      }
    }

    /** One name that the budget has no call for. A retry of a cut response is noted as not attempted. */
    method DenyOne(job: Job, names: seq<Provider>, todo: seq<Provider>, allowed: seq<Provider>, d0: Done,
                   records: Slots, ghost w0: World) returns (d: Done, recoveries: seq<Event>)
      requires todo != [] && Sorted(job, names, todo, allowed, d0, w0) && records == w0.slots
      requires WorkOk(cfg, w0, w0, job, todo[0])
      modifies this`log, store`events
      ensures Sorted(job, names, todo[1..], allowed, d, w0) && old(log) <= log
      ensures forall e | e in recoveries :: e == TruncationRecovery(SlotOf(job, todo[0]), NotAttempted)
    {
      var p := todo[0];
      var slot := SlotOf(job, p);
      ghost var w := Now();
      recoveries := [];
      MovedRefl(w, slot);
      Known(job, names, todo, allowed, d0, w0, p);
      WorkFailedBefore(cfg, w0, job, p);
      if slot in records && IsLengthFailure(records[slot]) {
        recoveries := [TruncationRecovery(slot, NotAttempted)];
        Record(recoveries[0]);
        StepTaken(old(log), w, Note(recoveries[0]), slot);
        StepTaken(old(log), w, Note(recoveries[0]), Slot(job.stage, p + 1));
      }
      var e := if slot in records && records[slot].status == Failed then records[slot].error.value else DENIED_ERROR;
      assert KeptAt(w, Now(), slot);
      PriorReport(cfg, w0, w, job, p, e);
      SortStep(cfg, w0, w, Now(), job, names, todo, allowed, d0, Some(Refused(e)));
      d := Added(d0, job, p, Refused(e));
    }

    method Deny(job: Job, names: seq<Provider>, allowed: seq<Provider>, denied: seq<Provider>, d0: Done,
                records: Slots, ghost w0: World) returns (d: Done, recoveries: seq<Event>)
      requires Sorted(job, names, [], allowed + denied, d0, w0) && records == w0.slots
      modifies this`log, store`events
      ensures Sorted(job, names, [], allowed, d, w0) && old(log) <= log
      ensures forall e | e in recoveries :: e.TruncationRecovery? && e.slot.stage == job.stage && e.slot.provider in denied
    {
      d, recoveries := d0, [];
      Requeue(cfg, w0, Now(), job, names, allowed, denied, d);
      for i := 0 to |denied|
        invariant Sorted(job, names, denied[i..], allowed, d, w0) && old(log) <= log
        invariant forall e | e in recoveries :: e.TruncationRecovery? && e.slot.stage == job.stage && e.slot.provider in denied
      {
        assert denied[i..][0] == denied[i] && denied[i..][1..] == denied[i + 1..] && denied[i] in denied;
        var more;
        d, more := DenyOne(job, names, denied[i..], allowed, d, records, w0);
        recoveries := recoveries + more;
      }
    }

    method SynthesisExists() returns (b: bool)
      ensures b <==> exists p :: p in cfg.chain && SucceededAt(Now(), Slot(Synthesis, p))
    {
      b := false;
      for i := 0 to |cfg.chain|
        invariant b <==> exists p :: p in cfg.chain[..i] && SucceededAt(Now(), Slot(Synthesis, p))
      {
        var slot := Slot(Synthesis, cfg.chain[i]);
        b := b || (slot in store.slots && store.slots[slot].status == Succeeded);
      }
      assert cfg.chain[..|cfg.chain|] == cfg.chain;
    }

    /** As long as a name is left to be worked on, no synthesis has succeeded, so the reserve is never waived. */
    lemma ReserveStands(job: Job, names: seq<Provider>, work: seq<Provider>, d: Done, w0: World)
      requires Sorted(job, names, [], work, d, w0) && work != []
      requires job.stage == Synthesis ==> |names| <= 1
      ensures forall q | q in cfg.chain :: !SucceededAt(Now(), Slot(Synthesis, q))
      ensures forall p | p in work :: DownstreamReserve(cfg, SlotOf(job, p)) == ReserveFor(cfg, job.stage, work)
    {
      assert [] + work == work && work[0] in work;
      assert WorkOk(cfg, w0, w0, job, work[0]);
      ExplainedInv(cfg, log, Now());
      NotBegunFrame(cfg, w0, w0, Now(), SlotOf(job, work[0]));
      forall q | q in cfg.chain ensures !SucceededAt(Now(), Slot(Synthesis, q)) {
        NoSynthesisYet(cfg, Now(), SlotOf(job, work[0]), q);
      }
      if job.stage == Synthesis {
        OneOf(names, work);
      }
      ReserveIsDownstream(cfg, job, work);
    }

    /** What is known when every name is accounted for and nothing is in flight. */
    ghost predicate Accounted(job: Job, names: seq<Provider>, d: Done, w0: World)
      reads this, store, gate
    {
      && Valid() && live == map[]
      && Within(w0, Now(), job.stage, names)
      && DoneOk(cfg, w0, Now(), job, d) && Split(names, d, {})
    }

    lemma SortedOut(job: Job, names: seq<Provider>, d: Done, w0: World)
      requires Sorted(job, names, [], [], d, w0)
      ensures Accounted(job, names, d, w0) && d.cut == map[]
    {
      var none: seq<Provider> := [];
      assert (set p | p in none + none) == {};
    }

    lemma BeginDispatch(log0: seq<Action>, job: Job, names: seq<Provider>, work: seq<Provider>, d: Done, w0: World,
                        reserve: int, progress: Calling)
      requires Sorted(job, names, [], work, d, w0) && Explained(cfg, log0, w0) && log0 <= log
      requires forall p | p in names :: PromptRight(cfg, w0, job, p)
      requires progress == map p | p in work :: Waiting
      requires Calls(store.slots) + |work| + reserve <= cfg.maxCalls
      requires forall p | p in work :: DownstreamReserve(cfg, SlotOf(job, p)) == reserve
      ensures StageInv(job, names, reserve, progress, d, w0)
    {
      StartDispatch(cfg, w0, Now(), job, names, work, d, reserve, progress);
      PromptsLater(log0, w0, job, set p | p in names);
    }

    /**
     Runs the calls of one stage that are still to be made. Every name ends in exactly one of
     successes or failures. `denied` are the names that were left without a call for lack of budget, no more than
     there are open names beyond the capacity; every other call that is due is asked for while there is time.
     */
    method RunParallelStage(job: Job, names: seq<Provider>)
      returns (d: Done, recoveries: seq<Event>, ghost denied: seq<Provider>)
      requires Valid() && live == map[] && Distinct(names)
      requires forall p | p in names :: StageReady(cfg, Now(), job, p)
      requires job.stage == Synthesis ==> |names| <= 1
      requires job.stage == JuryRepair ==> !job.allowTruncation
      modifies this`expired, this`live, this`log, store`slots, store`events, gate
      ensures Accounted(job, names, d, old(Now())) && d.cut == map[]
      ensures old(log) <= log && (old(expired) ==> expired)
      ensures forall p | p in denied :: p in names
      ensures denied != [] ==>
        |denied| + Capacity(cfg, old(Calls(store.slots)), DownstreamReserve(cfg, SlotOf(job, denied[0])))
        <= |OpenNames(old(Now()), job, names)|
      ensures DueAsked(job, names, denied, old(Now()))
      decreases if job.allowTruncation then 1 else 0, 3
    {
      recoveries, denied := [], [];
      var records, events0 := store.slots, store.events;
      ghost var log0, w0 := log, Now();
      var work;
      d, work := SortOut(job, names);
      if work == [] {
        SortedOut(job, names, d, w0);
        return;
      }
      var late := DeadlinePassed();
      if late {
        d := Expire(job, names, work, d, records, w0);
        SortedOut(job, names, d, w0);
        return;
      }
      d, work := DropOversized(job, names, work, d, w0);
      if work == [] {
        SortedOut(job, names, d, w0);
        return;
      }
      d, recoveries, denied := RunWork(job, names, work, d, records, events0, log0, w0);
    }

    /** Divides the names into those the budget has a call for and those it has not. */
    method Allot(job: Job, names: seq<Provider>, work: seq<Provider>, d0: Done, records: Slots, ghost w0: World)
      returns (d: Done, recoveries: seq<Event>, allowed: seq<Provider>, reserve: int, ghost denied: seq<Provider>)
      requires Sorted(job, names, [], work, d0, w0) && work != [] && records == w0.slots
      requires job.stage == Synthesis ==> |names| <= 1
      modifies this`log, store`events
      ensures Sorted(job, names, [], allowed, d, w0) && old(log) <= log && allowed + denied == work
      ensures allowed != [] ==> Calls(store.slots) + |allowed| + reserve <= cfg.maxCalls
      ensures forall p | p in work :: DownstreamReserve(cfg, SlotOf(job, p)) == reserve
      ensures denied != [] ==> |denied| + Capacity(cfg, Calls(store.slots), reserve) <= |OpenNames(w0, job, names)|
    {
      var used := store.CountCalls();
      var synthesized := SynthesisExists();
      reserve := if synthesized then 0 else ReserveFor(cfg, job.stage, work);
      ReserveStands(job, names, work, d0, w0);
      WorkIsOpen(cfg, w0, Now(), job, names, work, d0);
      var capacity := Min(Capacity(cfg, used, reserve), |work|);
      allowed, denied := work[..capacity], work[capacity..];
      assert allowed + denied == work;
      d, recoveries := Deny(job, names, allowed, work[capacity..], d0, records, w0);
    }

    /** The half of the stage that may call providers. */
    method RunWork(job: Job, names: seq<Provider>, work: seq<Provider>, d0: Done, records: Slots, events0: seq<Event>,
                   ghost log0: seq<Action>, ghost w0: World)
      returns (d: Done, recoveries: seq<Event>, ghost denied: seq<Provider>)
      requires Sorted(job, names, [], work, d0, w0) && work != [] && Explained(cfg, log0, w0) && log0 <= log
      requires records == w0.slots && events0 == w0.events && Calls(store.slots) == Calls(w0.slots)
      requires forall p | p in names :: StageReady(cfg, w0, job, p)
      requires forall p | p in work :: p in job.prompts && cfg.promptChars(job.prompts[p]) <= cfg.maxPromptChars
      requires job.stage == Synthesis ==> |names| <= 1
      requires job.stage == JuryRepair ==> !job.allowTruncation
      modifies this`expired, this`live, this`log, store`slots, store`events, gate
      ensures Accounted(job, names, d, w0) && d.cut == map[]
      ensures old(log) <= log && (old(expired) ==> expired)
      ensures forall p | p in denied :: p in names
      ensures denied != [] ==>
        |denied| + Capacity(cfg, Calls(w0.slots), DownstreamReserve(cfg, SlotOf(job, denied[0]))) <= |OpenNames(w0, job, names)|
      ensures forall p | p in work :: p in denied || expired || Asked(w0, Now(), SlotOf(job, p))
      decreases if job.allowTruncation then 1 else 0, 2
    {
      hide Accounted, SortInv, DueListed;
      WorkIsNamed(job, names, work, d0, w0);
      var allowed, reserve;
      d, recoveries, allowed, reserve, denied := Allot(job, names, work, d0, records, w0);
      assert forall p | p in allowed || p in denied :: p in work;
      WorkIsNamed(job, names, allowed, d, w0);
      if allowed == [] {
        SortedOut(job, names, d, w0);
        return;
      }
      var more;
      d, more := RunAllowed(job, names, allowed, d, reserve, records, events0, log0, w0);
      recoveries := recoveries + more;
    }

    /** Makes the calls the budget allows, and then the retries they turn out to need. */
    method RunAllowed(job: Job, names: seq<Provider>, allowed: seq<Provider>, d0: Done, ghost reserve: int,
                      records: Slots, events0: seq<Event>, ghost log0: seq<Action>, ghost w0: World)
      returns (d: Done, recoveries: seq<Event>)
      requires Sorted(job, names, [], allowed, d0, w0) && d0.cut == map[] && Explained(cfg, log0, w0) && log0 <= log
      requires records == w0.slots && events0 == w0.events
      requires forall p | p in names :: StageReady(cfg, w0, job, p)
      requires forall p | p in allowed ::
        p in names && p in job.prompts && cfg.promptChars(job.prompts[p]) <= cfg.maxPromptChars
        && DownstreamReserve(cfg, SlotOf(job, p)) == reserve
      requires Calls(store.slots) + |allowed| + reserve <= cfg.maxCalls
      requires job.stage == Synthesis ==> |names| <= 1
      requires job.stage == JuryRepair ==> !job.allowTruncation
      modifies this`expired, this`live, this`log, store`slots, store`events, gate
      ensures Accounted(job, names, d, w0) && d.cut == map[]
      ensures old(log) <= log && (old(expired) ==> expired) && AllAsked(job, allowed, w0)
      decreases if job.allowTruncation then 1 else 0, 1
    {
      d := RunCalls(job, names, allowed, d0, reserve, records, events0, log0, w0);
      recoveries := [];
      if d.cut != map[] {
        ghost var log1, w1 := log, Now();
        d, recoveries := Recover(job, names, d, log0, w0);
        AskedBetween(job, allowed, w0, log1, w1);
      }
    }

    /** Makes the calls the budget allows. */
    method RunCalls(job: Job, names: seq<Provider>, allowed: seq<Provider>, d0: Done, ghost reserve: int,
                    records: Slots, events0: seq<Event>, ghost log0: seq<Action>, ghost w0: World)
      returns (d: Done)
      requires Sorted(job, names, [], allowed, d0, w0) && d0.cut == map[] && Explained(cfg, log0, w0) && log0 <= log
      requires records == w0.slots && events0 == w0.events
      requires forall p | p in names :: PromptRight(cfg, w0, job, p)
      requires forall p | p in allowed :: DownstreamReserve(cfg, SlotOf(job, p)) == reserve
      requires Calls(store.slots) + |allowed| + reserve <= cfg.maxCalls
      modifies this`expired, this`live, this`log, store`slots, store`events, gate
      ensures Accounted(job, names, d, w0) && (!job.allowTruncation ==> d.cut == map[])
      ensures forall p | p in d.cut :: p in allowed
      ensures old(log) <= log && (old(expired) ==> expired) && AllAsked(job, allowed, w0)
    {
      hide ValidConfig, Explained;
      var progress: Calling := map p | p in allowed :: Waiting;
      BeginDispatch(log0, job, names, allowed, d0, w0, reserve, progress);
      AttemptsGrow(log0, w0);
      d := Dispatch(job, names, progress, reserve, d0, records, events0, w0);
    }

    lemma WorkIsNamed(job: Job, names: seq<Provider>, work: seq<Provider>, d: Done, w0: World)
      requires Sorted(job, names, [], work, d, w0)
      ensures d.cut == map[] && forall p | p in work :: p in names
    {
      assert [] + work == work;
    }

    /** Accounts that stay right while nothing the stage looks at changes. */
    lemma NoteAccounted(log0: seq<Action>, w: World, job: Job, names: seq<Provider>, d: Done, w0: World, e: Event)
      requires ValidConfig(cfg) && Explained(cfg, log0, w) && Enabled(cfg, w, Note(e)) && StageAction(Note(e))
      requires Valid() && live == map[] && Now() == Next(cfg, w, Note(e))
      requires Within(w0, w, job.stage, names) && DoneOk(cfg, w0, w, job, d) && Split(names, d, {})
      ensures Accounted(job, names, d, w0)
    {
      ExplainedInv(cfg, log0, w);
      NoteKeepsAll(cfg, w, e);
      DoneKept(cfg, w0, w, Now(), job, names, d);
    }

    method NoteRecovery(job: Job, names: seq<Provider>, d: Done, e: Event, ghost w0: World)
      requires Accounted(job, names, d, w0) && e.TruncationRecovery?
      modifies this`log, store`events
      ensures Accounted(job, names, d, w0) && old(log) <= log
    {
      ghost var w := Now();
      Record(e);
      NoteAccounted(old(log), w, job, names, d, w0, e);
    }

    lemma GiveUp(job: Job, names: seq<Provider>, d: Done, w0: World, p: Provider, error: Option<ProviderError>)
      requires Accounted(job, names, d, w0) && p in d.cut && p in job.prompts && error == CompletionError(d.cut[p].response)
      ensures error.Some? && Accounted(job, names, GivenUp(d, job, p, error.value), w0)
    {
      GivenUpOk(cfg, w0, Now(), job, names, d, p);
    }

    /** A cut response gets a retry if its output limit can be raised; otherwise it is a failure after all. */
    method PlanOne(job: Job, names: seq<Provider>, d0: Done, p: Provider, ghost w0: World)
      returns (d: Done, raised: Option<nat>, recoveries: seq<Event>)
      requires Accounted(job, names, d0, w0) && p in d0.cut && p in job.prompts
      modifies this`log, store`events
      ensures Accounted(job, names, d, w0) && old(log) <= log
      ensures d.cut == if raised.Some? then d0.cut else d0.cut - {p}
    {
      hide Accounted;
      var initial := d0.cut[p].limit;
      var limit := RecoveryLimit(cfg, initial);
      if limit <= initial {
        var error := CompletionError(d0.cut[p].response);
        GiveUp(job, names, d0, w0, p, error);
        d := GivenUp(d0, job, p, error.value);
        recoveries := [TruncationRecovery(SlotOf(job, p), NotAttempted)];
        NoteRecovery(job, names, d, recoveries[0], w0);
        raised := None;
      } else {
        d, raised, recoveries := d0, Some(limit), [];
      }
    }

    /** Which of the cut responses are still ahead, and which have been given a larger limit. */
    ghost predicate Planned(d0: Done, d: Done, done: seq<Provider>, ahead: seq<Provider>, retried: seq<Provider>,
                            limits: map<Provider, nat>)
    {
      && d.cut.Keys <= d0.cut.Keys
      && (forall p :: p in limits <==> p in retried)
      && (forall p :: p in retried <==> p in d.cut && p in done)
      && (forall p | p in d0.cut && p in ahead :: p in d.cut)
      && Distinct(retried)
    }

    lemma PlanStep(d0: Done, d: Done, d': Done, i: nat, retried: seq<Provider>, limits: map<Provider, nat>, raised: Option<nat>)
      requires Valid() && i < |cfg.roster|
      requires Planned(d0, d, cfg.roster[..i], cfg.roster[i..], retried, limits)
      ensures cfg.roster[i] !in d.cut ==> Planned(d0, d, cfg.roster[..i + 1], cfg.roster[i + 1..], retried, limits)
      ensures cfg.roster[i] in d.cut && raised.Some? && d'.cut == d.cut ==>
        Planned(d0, d', cfg.roster[..i + 1], cfg.roster[i + 1..], retried + [cfg.roster[i]], limits[cfg.roster[i] := raised.value])
      ensures cfg.roster[i] in d.cut && d'.cut == d.cut - {cfg.roster[i]} ==>
        Planned(d0, d', cfg.roster[..i + 1], cfg.roster[i + 1..], retried, limits)
    {
      NextOf(i);
    }

    /** Which cut responses get a retry under a larger limit; the others are failures after all. */
    method PlanRecovery(job: Job, names: seq<Provider>, d0: Done, ghost w0: World)
      returns (d: Done, retried: seq<Provider>, limits: map<Provider, nat>, recoveries: seq<Event>)
      requires Accounted(job, names, d0, w0)
      requires forall p | p in d0.cut :: p in job.prompts && p in cfg.roster
      modifies this`log, store`events
      ensures Accounted(job, names, d, w0) && old(log) <= log
      ensures Distinct(retried) && d.cut.Keys <= d0.cut.Keys
      ensures forall p :: p in retried <==> p in d.cut
      ensures forall p :: p in limits <==> p in d.cut
    {
      d, retried, limits, recoveries := d0, [], map[], [];
      for i := 0 to |cfg.roster|
        invariant Accounted(job, names, d, w0) && old(log) <= log
        invariant Planned(d0, d, cfg.roster[..i], cfg.roster[i..], retried, limits)
      {
        var p := cfg.roster[i];
        ghost var before := d;
        var raised, more := None, [];
        if p in d.cut {
          d, raised, more := PlanOne(job, names, d, p, w0);
        }
        PlanStep(d0, before, d, i, retried, limits, raised);
        if raised.Some? {
          retried, limits := retried + [p], limits[p := raised.value];
        }
        recoveries := recoveries + more;
      }
      assert cfg.roster[..|cfg.roster|] == cfg.roster;
    }

    lemma NextOf(i: nat)
      requires Valid() && i < |cfg.roster|
      ensures cfg.roster[i] !in cfg.roster[..i] && cfg.roster[i] !in cfg.roster[i + 1..]
      ensures forall p :: p in cfg.roster[..i + 1] <==> p in cfg.roster[..i] || p == cfg.roster[i]
      ensures forall p :: p in cfg.roster[i..] <==> p in cfg.roster[i + 1..] || p == cfg.roster[i]
    {
      assert cfg.roster[..i + 1] == cfg.roster[..i] + [cfg.roster[i]];
      assert cfg.roster[i..] == [cfg.roster[i]] + cfg.roster[i + 1..];
    }

    // ----- Retrying what was cut off -----

    /** Every cut slot may be started again at once, in a stage that never retries a second time. */
    lemma RetriesReady(log0: seq<Action>, job: Job, names: seq<Provider>, d: Done, w0: World,
                       retried: seq<Provider>, limits: map<Provider, nat>)
      requires Accounted(job, names, d, w0) && Explained(cfg, log0, w0) && log0 <= log && job.stage != JuryRepair
      requires forall p | p in names :: StageReady(cfg, w0, job, p)
      requires forall p | p in retried :: p in d.cut && p in names
      ensures forall p | p in retried :: StageReady(cfg, Now(), RetryJob(job, limits), p)
    {
      Between(cfg, log0, w0, log, Now());
      PromptsLater(log0, w0, job, set p | p in retried);
      forall p | p in retried ensures StageReady(cfg, Now(), RetryJob(job, limits), p) {
        if SucceededAt(w0, SlotOf(job, p)) {
          SuccessIsFinal(cfg, w0, log[|log0|..], SlotOf(job, p));
        }
        assert CutOk(cfg, Now(), job, p, d.cut[p]);
        RetryReady(cfg, w0, Now(), job, names, limits, p, d.cut[p]);
      }
    }

    lemma MergeRetry(job: Job, names: seq<Provider>, d: Done, w0: World, w1: World,
                     retried: seq<Provider>, limits: map<Provider, nat>, e: Done)
      requires Within(w0, w1, job.stage, names) && DoneOk(cfg, w0, w1, job, d) && Split(names, d, {})
      requires Accounted(RetryJob(job, limits), retried, e, w1) && e.cut == map[]
      requires forall p :: p in retried <==> p in d.cut
      requires forall p | p in d.cut :: p in job.prompts && cfg.promptChars(job.prompts[p]) <= cfg.maxPromptChars
      ensures Accounted(job, names, Merged(d, e), w0)
    {
      MergedSplit(names, d, retried, e);
      MergedOk(cfg, w0, w1, Now(), job, limits, names, d, retried, e);
      WithinChain(w0, w1, Now(), job.stage, retried, names);
    }

    /** What is noted about each retry that the retry stage has not noted itself. */
    method NoteRetries(job: Job, names: seq<Provider>, d: Done, retried: seq<Provider>, cut: map<Provider, Cut>,
                       noted: seq<Event>, ghost w0: World) returns (recoveries: seq<Event>)
      requires Accounted(job, names, d, w0) && forall p | p in retried :: p in cut
      modifies this`log, store`events
      ensures Accounted(job, names, d, w0) && old(log) <= log
    {
      recoveries := [];
      for i := 0 to |retried|
        invariant Accounted(job, names, d, w0) && old(log) <= log
      {
        var p := retried[i];
        var slot := SlotOf(job, p);
        if !exists e :: e in noted && e.TruncationRecovery? && e.slot == slot {
          var dispatched := slot in store.slots && store.slots[slot].callCount > cut[p].callCount;
          var status := if p in d.successes then Recovered else if dispatched then RecoveryFailed else NotDispatchedRecovery;
          var e := TruncationRecovery(slot, status);
          NoteRecovery(job, names, d, e, w0);
          recoveries := recoveries + [e];
        }
      }
    }

    /** One more stage for the responses cut off in this one; it never leads to another. */
    method Recover(job: Job, names: seq<Provider>, d0: Done, ghost log0: seq<Action>, ghost w0: World)
      returns (d: Done, recoveries: seq<Event>)
      requires Accounted(job, names, d0, w0) && Explained(cfg, log0, w0) && log0 <= log
      requires job.allowTruncation && job.stage != JuryRepair
      requires forall p | p in names :: StageReady(cfg, w0, job, p)
      requires forall p | p in d0.cut :: p in names && p in job.prompts && cfg.promptChars(job.prompts[p]) <= cfg.maxPromptChars
      requires job.stage == Synthesis ==> |names| <= 1
      modifies this`expired, this`live, this`log, store`slots, store`events, gate
      ensures Accounted(job, names, d, w0) && d.cut == map[]
      ensures old(log) <= log && (old(expired) ==> expired)
      decreases if job.allowTruncation then 1 else 0, 0
    {
      hide Accounted, PromptRight;
      var planned, retried, limits;
      planned, retried, limits, recoveries := PlanRecovery(job, names, d0, w0);
      if retried == [] {
        d := planned;
        NoCut(planned, retried);
        return;
      }
      RetriesReady(log0, job, names, planned, w0, retried, limits);
      OneRetry(names, retried);
      ghost var w1 := Now();
      var e, more; ghost var denied;
      e, more, denied := RunParallelStage(RetryJob(job, limits), retried);
      d := Merged(planned, e);
      MergeRetry(job, names, planned, w0, w1, retried, limits, e);
      var notes := NoteRetries(job, names, d, retried, planned.cut, more, w0);
      recoveries := recoveries + more + notes;
    }

    lemma NoCut(d: Done, retried: seq<Provider>)
      requires retried == [] && forall p :: p in retried <==> p in d.cut
      ensures d.cut == map[]
    {
      forall p ensures p !in d.cut {
        assert p in d.cut ==> p in retried;
      }
    }

    lemma OneRetry(names: seq<Provider>, retried: seq<Provider>)
      requires Distinct(retried) && forall p | p in retried :: p in names
      ensures |names| <= 1 ==> |retried| <= 1
    {
      if |names| <= 1 && retried != [] {
        OneOf(names, retried);
      }
    }
  }

  /** The store accepts every release the engine asks for, and finds the retry event it means. */
  lemma ReleaseAccepted(w: World, slot: Slot, error: ProviderError, attempt: nat, prior: Option<Invocation>)
    requires UndispatchEnabled(w, slot, error, attempt, prior) && RetryAuditOf(w, slot) && RowOk(w.slots[slot])
    ensures Releasable(w.slots, w.events, slot, error, attempt, prior)
    ensures prior.Some? ==>
      |Retries(w, slot)| > 0
      && RetriesAt(w.events, slot, w.slots[slot].callCount) == [Retries(w, slot)[|Retries(w, slot)| - 1]]
  {
    if prior.Some? {
      AuditedRetryIsUnique(w, slot);
    }
  }
}
