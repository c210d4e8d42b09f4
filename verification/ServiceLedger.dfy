/**
 The call-unit ledger of the service (src/model_council/service_store.py): reservations
 against a principal's in-flight, daily and monthly limits, and the gate through which
 the engine of one run uses it (src/model_council/service.py).
 */
module ServiceLedger {
  import opened Wrappers
  import opened Windows
  import R = Records
  import W = World

  /** A reservation id: the digest of a call's coordinates, taken to be injective, or any other text. */
  datatype CallId = CallId(principal: string, run: string, slot: R.Slot, attempt: nat) | OtherId(text: string)

  datatype Tag = Tag(policy: string, principal: string, run: string, action: string, provider: string, model: string,
                     day: int, month: int)

  type Calls = map<CallId, Entry<Tag>>

  datatype Principal = Principal(tenant: string, enabled: bool)

  datatype Policy = Policy(
    principal: string, tenant: string, actions: set<string>, providers: set<string>, models: set<string>,
    maxInflight: nat, dailyUnits: nat, monthlyUnits: nat, issuedAt: int, expiresAt: int, revokedAt: Option<int>)

  datatype Request = Request(id: CallId, policy: string, principal: string, tenant: string, run: string, action: string,
                             provider: string, model: string, units: nat)

  datatype Code =
    | Granted | Replay | Conflict | UnknownPrincipal | PrincipalDisabled | TenantMismatch | RunNotOwned | UnknownPolicy
    | PolicyRevoked | PolicyNotActive | PolicyExpired | ActionDenied | ProviderDenied | ModelDenied
    | MaxInflightExceeded | DailyLimitExceeded | MonthlyLimitExceeded

  /** The owner of a run, and the request it was created for. */
  datatype Binding = Binding(principal: string, key: string, payload: string)

  type Bindings = map<string, Binding>

  datatype BindCode = Created | Replayed(bound: string) | KeyConflict(bound: string) | RunIdConflict | Disabled

  datatype ReconcileCode = Reconciled | Idempotent | ReconcileConflict | AlreadyReleased | NotFound

  // ----- Windows of one principal -----

  function Of(p: string): Tag -> bool {
    (t: Tag) => t.principal == p
  }

  function OnDay(p: string, day: int): Tag -> bool {
    (t: Tag) => t.principal == p && t.day == day
  }

  function InMonth(p: string, month: int): Tag -> bool {
    (t: Tag) => t.principal == p && t.month == month
  }

  ghost predicate DailyAtMost(policies: map<string, Policy>, p: string, limit: int) {
    limit >= 0 && forall id | id in policies && policies[id].principal == p :: policies[id].dailyUnits <= limit
  }

  ghost predicate MonthlyAtMost(policies: map<string, Policy>, p: string, limit: int) {
    limit >= 0 && forall id | id in policies && policies[id].principal == p :: policies[id].monthlyUnits <= limit
  }

  ghost predicate InflightAtMost(policies: map<string, Policy>, p: string, limit: int) {
    limit >= 0 && forall id | id in policies && policies[id].principal == p :: policies[id].maxInflight <= limit
  }

  /**
   For every principal and every day and month: what is committed stays within the largest limit
   of its policies plus the overruns, and what is in flight within the largest max_inflight.
   */
  ghost predicate Bounded(policies: map<string, Policy>, calls: Calls) {
    && (forall p, day, limit | DailyAtMost(policies, p, limit) :: Within(calls, OnDay(p, day), limit))
    && (forall p, month, limit | MonthlyAtMost(policies, p, limit) :: Within(calls, InMonth(p, month), limit))
    && (forall p, limit | InflightAtMost(policies, p, limit) :: InFlightCount(calls, Of(p)) <= limit)
  }

  /** Reserving within the limits of one of the principal's policies keeps the bound. */
  lemma ReserveKeepsBound(policies: map<string, Policy>, calls: Calls, id: CallId, e: Entry<Tag>)
    requires Bounded(policies, calls) && id !in calls && e.state == Held
    requires e.tag.policy in policies && policies[e.tag.policy].principal == e.tag.principal
    requires var policy, p := policies[e.tag.policy], e.tag.principal;
             && InFlightCount(calls, Of(p)) < policy.maxInflight
             && Committed(calls, OnDay(p, e.tag.day)) + e.reserved <= policy.dailyUnits
             && Committed(calls, InMonth(p, e.tag.month)) + e.reserved <= policy.monthlyUnits
    ensures Bounded(policies, calls[id := e])
  {
    var after := calls[id := e];
    forall p, day, limit | DailyAtMost(policies, p, limit) ensures Within(after, OnDay(p, day), limit) {
      ReserveCounts(calls, id, e, OnDay(p, day));
      OverrunsNonNegative(calls, OnDay(p, day));
      assert Within(calls, OnDay(p, day), limit);
    }
    forall p, month, limit | MonthlyAtMost(policies, p, limit) ensures Within(after, InMonth(p, month), limit) {
      ReserveCounts(calls, id, e, InMonth(p, month));
      OverrunsNonNegative(calls, InMonth(p, month));
      assert Within(calls, InMonth(p, month), limit);
    }
    forall p, limit | InflightAtMost(policies, p, limit) ensures InFlightCount(after, Of(p)) <= limit {
      ReserveCounts(calls, id, e, Of(p));
    }
  }

  /** Settling a held reservation, with any actual cost or by giving it back, keeps the bound. */
  lemma SettleKeepsBound(policies: map<string, Policy>, calls: Calls, id: CallId, state: State)
    requires Bounded(policies, calls) && id in calls && calls[id].state == Held && state != Held
    ensures Bounded(policies, calls[id := calls[id].(state := state)])
  {
    var after := calls[id := calls[id].(state := state)];
    forall p, day, limit | DailyAtMost(policies, p, limit) ensures Within(after, OnDay(p, day), limit) {
      SettleKeeps(calls, id, state, OnDay(p, day), limit);
    }
    forall p, month, limit | MonthlyAtMost(policies, p, limit) ensures Within(after, InMonth(p, month), limit) {
      SettleKeeps(calls, id, state, InMonth(p, month), limit);
    }
    forall p, limit | InflightAtMost(policies, p, limit) ensures InFlightCount(after, Of(p)) <= limit {
      SettleKeeps(calls, id, state, Of(p), limit);
    }
  }

  /** Another policy can only raise the largest limit. */
  lemma PolicyKeepsBound(policies: map<string, Policy>, calls: Calls, id: string, policy: Policy)
    requires Bounded(policies, calls) && id !in policies
    ensures Bounded(policies[id := policy], calls)
  {
    var more := policies[id := policy];
    forall p, limit ensures DailyAtMost(more, p, limit) ==> DailyAtMost(policies, p, limit) {
      assert forall i | i in policies :: i in more && more[i] == policies[i];
    }
    forall p, limit ensures MonthlyAtMost(more, p, limit) ==> MonthlyAtMost(policies, p, limit) {
      assert forall i | i in policies :: i in more && more[i] == policies[i];
    }
    forall p, limit ensures InflightAtMost(more, p, limit) ==> InflightAtMost(policies, p, limit) {
      assert forall i | i in policies :: i in more && more[i] == policies[i];
    }
  }

  ghost predicate SameLimits(a: Policy, b: Policy) {
    a.principal == b.principal && a.dailyUnits == b.dailyUnits && a.monthlyUnits == b.monthlyUnits && a.maxInflight == b.maxInflight
  }

  /** Revoking a policy changes none of its limits, so past spending stays within bounds. */
  lemma RevokeKeepsBound(policies: map<string, Policy>, calls: Calls, id: string, policy: Policy)
    requires Bounded(policies, calls) && id in policies && SameLimits(policy, policies[id])
    ensures Bounded(policies[id := policy], calls)
  {
    var after := policies[id := policy];
    assert forall i | i in policies :: i in after && SameLimits(after[i], policies[i]);
    forall p, limit ensures DailyAtMost(after, p, limit) ==> DailyAtMost(policies, p, limit) {
    }
    forall p, limit ensures MonthlyAtMost(after, p, limit) ==> MonthlyAtMost(policies, p, limit) {
    }
    forall p, limit ensures InflightAtMost(after, p, limit) ==> InflightAtMost(policies, p, limit) {
    }
  }

  // ----- Bindings -----

  /** A principal uses a key for one run only. */
  ghost predicate KeysUnique(bindings: Bindings) {
    forall r, s | r in bindings && s in bindings
                  && bindings[r].principal == bindings[s].principal && bindings[r].key == bindings[s].key :: r == s
  }

  /** Every reservation belongs to a run that is bound to the principal it is charged to. */
  ghost predicate RunsOwned(bindings: Bindings, calls: Calls) {
    forall id | id in calls ::
      calls[id].tag.run in bindings && bindings[calls[id].tag.run].principal == calls[id].tag.principal
  }

  predicate Matching(b: Binding, principal: string, key: string) {
    b.principal == principal && b.key == key
  }

  /** The run a principal has used a key for, if any. */
  ghost predicate BoundTo(bindings: Bindings, principal: string, key: string, run: string) {
    run in bindings && Matching(bindings[run], principal, key)
  }

  // ----- The store -----

  predicate SameRequest(e: Entry<Tag>, r: Request) {
    && e.tag.policy == r.policy && e.tag.principal == r.principal && e.tag.run == r.run && e.tag.action == r.action
    && e.tag.provider == r.provider && e.tag.model == r.model && e.reserved == r.units
  }

  /** Everything `reserve_call` asks before it looks at the budget. */
  function Refusal(principals: map<string, Principal>, policies: map<string, Policy>, bindings: Bindings,
                   r: Request, now: int): Option<Code>
  {
    if r.principal !in principals then Some(UnknownPrincipal)
    else if !principals[r.principal].enabled then Some(PrincipalDisabled)
    else if principals[r.principal].tenant != r.tenant then Some(TenantMismatch)
    else if r.run !in bindings || bindings[r.run].principal != r.principal then Some(RunNotOwned)
    else if r.policy !in policies || policies[r.policy].principal != r.principal then Some(UnknownPolicy)
    else
      var policy := policies[r.policy];
      if policy.tenant != r.tenant then Some(TenantMismatch)
      else if policy.revokedAt.Some? && now >= policy.revokedAt.value then Some(PolicyRevoked)
      else if now < policy.issuedAt then Some(PolicyNotActive)
      else if now >= policy.expiresAt then Some(PolicyExpired)
      else if r.action !in policy.actions then Some(ActionDenied)
      else if r.provider !in policy.providers then Some(ProviderDenied)
      else if r.model !in policy.models then Some(ModelDenied)
      else None
  }

  class ServiceStore {
    const dayOf: int -> int
    const monthOf: int -> int
    var principals: map<string, Principal>
    var policies: map<string, Policy>
    var bindings: Bindings
    var calls: Calls

    ghost predicate Valid()
      reads this
    {
      && Bounded(policies, calls) && KeysUnique(bindings) && RunsOwned(bindings, calls)
      && forall id | id in calls ::
           calls[id].tag.policy in policies && policies[calls[id].tag.policy].principal == calls[id].tag.principal
    }

    constructor (principals: map<string, Principal>, dayOf: int -> int, monthOf: int -> int)
      ensures Valid() && calls == map[] && policies == map[] && bindings == map[]
      ensures this.principals == principals && this.dayOf == dayOf && this.monthOf == monthOf
    {
      this.principals, this.dayOf, this.monthOf := principals, dayOf, monthOf;
      policies, bindings, calls := map[], map[], map[];
    }

    method SetPrincipalEnabled(principal: string, enabled: bool) returns (ok: bool)
      requires Valid()
      modifies `principals
      ensures Valid() && (ok <==> principal in old(principals))
      ensures principals == if ok then old(principals)[principal := old(principals)[principal].(enabled := enabled)]
                            else old(principals)
    {
      ok := principal in principals;
      if ok {
        principals := principals[principal := principals[principal].(enabled := enabled)];
      }
    }

    /** A registered policy is never replaced: the same id with other terms is an error. */
    method PutPolicy(id: string, policy: Policy) returns (r: Result<Policy>)
      requires Valid()
      modifies `policies
      ensures Valid()
      ensures r.Ok? <==>
        && policy.principal in principals && principals[policy.principal].tenant == policy.tenant
        && (id in old(policies) ==> old(policies)[id].(revokedAt := None) == policy.(revokedAt := None))
      ensures r.Ok? ==> r.value == if id in old(policies) then old(policies)[id] else policy
      ensures policies == if r.Ok? then old(policies)[id := r.value] else old(policies)
    {
      if policy.principal !in principals {
        return Err("policy principal is not configured");
      }
      if principals[policy.principal].tenant != policy.tenant {
        return Err("policy tenant does not match principal");
      }
      if id in policies {
        if policies[id].(revokedAt := None) != policy.(revokedAt := None) {
          return Err("policy_id is already registered");
        }
        assert policies[id := policies[id]] == policies;
        return Ok(policies[id]);
      }
      PolicyKeepsBound(policies, calls, id, policy);
      policies := policies[id := policy];
      r := Ok(policy);
    }

    /** The first revocation stands. */
    method RevokePolicy(id: string, now: int) returns (r: Result<Policy>)
      requires Valid()
      modifies `policies
      ensures Valid() && (r.Ok? <==> id in old(policies))
      ensures r.Ok? ==>
        && r.value == old(policies)[id].(revokedAt := if old(policies)[id].revokedAt.Some? then old(policies)[id].revokedAt else Some(now))
        && policies == old(policies)[id := r.value]
      ensures r.Err? ==> policies == old(policies)
    {
      if id !in policies {
        return Err("unknown policy");
      }
      var policy := policies[id];
      var revoked := policy.(revokedAt := if policy.revokedAt.Some? then policy.revokedAt else Some(now));
      RevokeKeepsBound(policies, calls, id, revoked);
      policies := policies[id := revoked];
      r := Ok(revoked);
    }

    /** A key names one run of its principal for good, and a run one owner. */
    method BindRun(principal: string, key: string, run: string, payload: string) returns (code: BindCode)
      requires Valid()
      modifies `bindings
      ensures Valid()
      ensures code == Disabled <==> principal !in principals || !principals[principal].enabled
      ensures code.Replayed? || code.KeyConflict? <==>
        code != Disabled && exists r :: BoundTo(old(bindings), principal, key, r)
      ensures code.Replayed? || code.KeyConflict? ==>
        && BoundTo(old(bindings), principal, key, code.bound)
        && (code.Replayed? <==> old(bindings)[code.bound].payload == payload)
      ensures code == Created ==> run !in old(bindings) && bindings == old(bindings)[run := Binding(principal, key, payload)]
      ensures code == RunIdConflict ==> run in old(bindings)
      ensures code != Created ==> bindings == old(bindings)
    {
      if principal !in principals || !principals[principal].enabled {
        return Disabled;
      }
      if r :| r in bindings && Matching(bindings[r], principal, key) {
        assert BoundTo(bindings, principal, key, r);
        return if bindings[r].payload == payload then Replayed(r) else KeyConflict(r);
      }
      if run in bindings {
        return RunIdConflict;
      }
      bindings := bindings[run := Binding(principal, key, payload)];
      code := Created;
    }

    /** A binding can be taken back only while nothing has been reserved for its run. */
    method AbandonRunBinding(principal: string, key: string, run: string, payload: string) returns (ok: bool)
      requires Valid()
      modifies `bindings
      ensures Valid()
      ensures ok <==> run in old(bindings) && old(bindings)[run] == Binding(principal, key, payload)
                      && forall id | id in calls :: calls[id].tag.run != run
      ensures bindings == if ok then old(bindings) - {run} else old(bindings)
    {
      ok := run in bindings && bindings[run] == Binding(principal, key, payload)
            && forall id | id in calls :: calls[id].tag.run != run;
      if ok {
        bindings := bindings - {run};
      }
    }

    /** `_usage`: one pass over the table, three totals. */
    method Usage(p: string, now: int) returns (inflight: int, daily: int, monthly: int)
      ensures inflight == InFlightCount(calls, Of(p))
      ensures daily == Committed(calls, OnDay(p, dayOf(now)))
      ensures monthly == Committed(calls, InMonth(p, monthOf(now)))
    {
      var day, month, rest := dayOf(now), monthOf(now), calls;
      inflight, daily, monthly := 0, 0, 0;
      while rest != map[]
        invariant inflight + InFlightCount(rest, Of(p)) == InFlightCount(calls, Of(p))
        invariant daily + Committed(rest, OnDay(p, day)) == Committed(calls, OnDay(p, day))
        invariant monthly + Committed(rest, InMonth(p, month)) == Committed(calls, InMonth(p, month))
        decreases |rest|
      {
        var id :| id in rest;
        TotalRemove(rest, id, HeldIn(Of(p)));
        TotalRemove(rest, id, CostIn(OnDay(p, day)));
        TotalRemove(rest, id, CostIn(InMonth(p, month)));
        var e := rest[id];
        if e.tag.principal == p {
          inflight := inflight + if e.state.Held? then 1 else 0;
          daily := daily + if e.tag.day == day then Cost(e) else 0;
          monthly := monthly + if e.tag.month == month then Cost(e) else 0;
        }
        rest := rest - {id};
      }
    }

    /** The entry a granted request adds. */
    function NewEntry(r: Request, now: int): Entry<Tag> {
      Entry(Tag(r.policy, r.principal, r.run, r.action, r.provider, r.model, dayOf(now), monthOf(now)), r.units, Held)
    }

    /** Room for one more call of this request under its policy. */
    ghost predicate HasRoom(r: Request, now: int)
      requires r.policy in policies
      reads this
    {
      && InFlightCount(calls, Of(r.principal)) < policies[r.policy].maxInflight
      && Committed(calls, OnDay(r.principal, dayOf(now))) + r.units <= policies[r.policy].dailyUnits
      && Committed(calls, InMonth(r.principal, monthOf(now))) + r.units <= policies[r.policy].monthlyUnits
    }

    /** A known id is a replay or a conflict and changes nothing; a new one is granted exactly when there is room. */
    method ReserveCall(r: Request, now: int) returns (code: Code)
      requires Valid()
      modifies `calls
      ensures Valid()
      ensures code == Replay <==> r.id in old(calls) && SameRequest(old(calls)[r.id], r)
      ensures code == Conflict <==> r.id in old(calls) && !SameRequest(old(calls)[r.id], r)
      ensures code == Granted <==>
        r.id !in old(calls) && Refusal(principals, policies, bindings, r, now) == None
        && r.policy in policies && old(HasRoom(r, now))
      ensures calls == if code == Granted then old(calls)[r.id := NewEntry(r, now)] else old(calls)
    {
      hide Bounded, KeysUnique, SameRequest;
      if r.id in calls {
        return if SameRequest(calls[r.id], r) then Replay else Conflict;
      }
      var refusal := Refusal(principals, policies, bindings, r, now);
      if refusal.Some? {
        return refusal.value;
      }
      var policy := policies[r.policy];
      var inflight, daily, monthly := Usage(r.principal, now);
      if inflight >= policy.maxInflight {
        return MaxInflightExceeded;
      }
      if daily + r.units > policy.dailyUnits {
        return DailyLimitExceeded;
      }
      if monthly + r.units > policy.monthlyUnits {
        return MonthlyLimitExceeded;
      }
      ReserveKeepsBound(policies, calls, r.id, NewEntry(r, now));
      calls := calls[r.id := NewEntry(r, now)];
      code := Granted;
    }

    /** The actual cost replaces the reservation once; saying the same again changes nothing. */
    method ReconcileCall(id: CallId, principal: string, actual: nat) returns (code: ReconcileCode)
      requires Valid()
      modifies `calls
      ensures Valid()
      ensures code == Reconciled <==> id in old(calls) && old(calls)[id].tag.principal == principal && old(calls)[id].state == Held
      ensures code == Idempotent <==>
        id in old(calls) && old(calls)[id].tag.principal == principal && old(calls)[id].state == Spent(actual)
      ensures calls == if code == Reconciled then old(calls)[id := old(calls)[id].(state := Spent(actual))] else old(calls)
    {
      if id !in calls || calls[id].tag.principal != principal {
        return NotFound;
      }
      match calls[id].state {
        case GivenBack => code := AlreadyReleased;
        case Spent(before) => code := if before != actual then ReconcileConflict else Idempotent;
        case Held =>
          SettleKeepsBound(policies, calls, id, Spent(actual));
          calls := calls[id := calls[id].(state := Spent(actual))];
          code := Reconciled;
      }
    }

    method ReleaseCall(id: CallId, principal: string) returns (ok: bool)
      requires Valid()
      modifies `calls
      ensures Valid()
      ensures ok <==> id in old(calls) && old(calls)[id].tag.principal == principal && old(calls)[id].state == Held
      ensures calls == if ok then old(calls)[id := old(calls)[id].(state := GivenBack)] else old(calls)
    {
      ok := id in calls && calls[id].tag.principal == principal && calls[id].state == Held;
      if ok {
        SettleKeepsBound(policies, calls, id, GivenBack);
        calls := calls[id := calls[id].(state := GivenBack)];
      }
    }
  }

  // ----- One run's view of the ledger -----

  function LeaseOf(e: Entry<Tag>): W.LeaseState {
    match e.state
    case Held => W.Reserved
    case GivenBack => W.Released
    case Spent(_) => W.Reconciled
  }

  /** What the transition system of one run sees of the service's ledger. */
  function RunView(calls: Calls, principal: string, run: string): (v: W.Ledger)
    ensures forall r :: r in v <==> CallId(principal, run, r.slot, r.attempt) in calls
    ensures forall r | r in v :: v[r] == LeaseOf(calls[CallId(principal, run, r.slot, r.attempt)])
  {
    map id | id in calls && id.CallId? && id.principal == principal && id.run == run ::
      W.Reservation(id.slot, id.attempt) := LeaseOf(calls[id])
  }

  lemma ViewUpdate(calls: Calls, principal: string, run: string, id: CallId, e: Entry<Tag>)
    ensures id.CallId? && id.principal == principal && id.run == run ==>
      RunView(calls[id := e], principal, run) == RunView(calls, principal, run)[W.Reservation(id.slot, id.attempt) := LeaseOf(e)]
    ensures !(id.CallId? && id.principal == principal && id.run == run) ==>
      RunView(calls[id := e], principal, run) == RunView(calls, principal, run)
  {
    var before, after := RunView(calls, principal, run), RunView(calls[id := e], principal, run);
    if id.CallId? && id.principal == principal && id.run == run {
      assert after == before[W.Reservation(id.slot, id.attempt) := LeaseOf(e)];
    } else {
      assert after == before;
    }
  }

  /** What the gate raises when a reservation is not granted. Only a replay is ambiguous. */
  function GateError(code: Code): (e: R.ProviderError)
    ensures e.ambiguous <==> code == Replay
  {
    if code == Replay then
      R.ProviderError("Council call reservation already exists; refusing a duplicate provider execution",
                      R.BudgetCategory, false, true, None, None, 1, "")
    else
      R.ProviderError("Council policy denied provider invocation",
                      if code in {MaxInflightExceeded, DailyLimitExceeded, MonthlyLimitExceeded}
                      then R.BudgetCategory else R.Other("permission"), false, false, None, None, 1, "")
  }

  /** `DurableCallGate`: the ledger as the engine of one run calls it. */
  class DurableCallGate {
    const store: ServiceStore
    const principal: string
    const tenant: string
    const policy: string
    const run: string
    const nameOf: R.Provider -> string
    const modelOf: R.Provider -> string

    constructor (store: ServiceStore, principal: string, tenant: string, policy: string, run: string,
                 nameOf: R.Provider -> string, modelOf: R.Provider -> string)
      ensures this.store == store && this.principal == principal && this.run == run
    {
      this.store, this.principal, this.tenant, this.policy := store, principal, tenant, policy;
      this.run, this.nameOf, this.modelOf := run, nameOf, modelOf;
    }

    function View(): W.Ledger
      reads store
    {
      RunView(store.calls, principal, run)
    }

    function RequestFor(slot: R.Slot, attempt: nat): Request {
      Request(CallId(principal, run, slot, attempt), policy, principal, tenant, run, "provider:invoke",
              nameOf(slot.provider), modelOf(slot.provider), 1)
    }

    /** Whatever the ledger holds for this run was asked for by this gate. */
    ghost predicate OwnRequests(calls: Calls) {
      forall slot: R.Slot, attempt: nat | RequestFor(slot, attempt).id in calls ::
        SameRequest(calls[RequestFor(slot, attempt).id], RequestFor(slot, attempt))
    }

    ghost predicate Valid()
      reads this, store
    {
      store.Valid() && OwnRequests(store.calls)
    }

    lemma OwnUpdate(calls: Calls, id: CallId, e: Entry<Tag>)
      requires OwnRequests(calls)
      requires forall slot: R.Slot, attempt: nat | RequestFor(slot, attempt).id == id :: SameRequest(e, RequestFor(slot, attempt))
      ensures OwnRequests(calls[id := e])
    {
    }

    /** Granted only under a fresh id; refused ambiguously exactly for an id the ledger has seen. */
    method Reserve(slot: R.Slot, attempt: nat, now: int) returns (granted: bool, error: Option<R.ProviderError>)
      requires Valid()
      modifies store`calls
      ensures Valid() && (granted <==> error.None?)
      ensures W.GateReserves(old(View()), View(), slot, attempt, granted) && (!granted ==> View() == old(View()))
      ensures error.Some? ==> (error.value.ambiguous <==> W.Reservation(slot, attempt) in old(View()))
    {
      var request := RequestFor(slot, attempt);
      ghost var before := store.calls;
      var code := store.ReserveCall(request, now);
      granted := code == Granted;
      error := if granted then None else Some(GateError(code));
      if granted {
        Granting(before, request, slot, attempt, store.NewEntry(request, now));
      }
    }

    lemma Granting(before: Calls, request: Request, slot: R.Slot, attempt: nat, e: Entry<Tag>)
      requires OwnRequests(before) && request == RequestFor(slot, attempt) && SameRequest(e, request) && e.state == Held
      ensures OwnRequests(before[request.id := e])
      ensures RunView(before[request.id := e], principal, run)
              == RunView(before, principal, run)[W.Reservation(slot, attempt) := W.Reserved]
    {
      OwnUpdate(before, request.id, e);
      ViewUpdate(before, principal, run, request.id, e);
    }

    lemma Settling(before: Calls, slot: R.Slot, attempt: nat, state: State)
      requires OwnRequests(before) && RequestFor(slot, attempt).id in before
      ensures var id := RequestFor(slot, attempt).id;
        var after := before[id := before[id].(state := state)];
        && OwnRequests(after)
        && RunView(after, principal, run)
           == RunView(before, principal, run)[W.Reservation(slot, attempt) := LeaseOf(before[id].(state := state))]
    {
      hide RunView;
      var id := RequestFor(slot, attempt).id;
      OwnUpdate(before, id, before[id].(state := state));
      ViewUpdate(before, principal, run, id, before[id].(state := state));
    }

    lemma Seen(calls: Calls, slot: R.Slot, attempt: nat)
      requires OwnRequests(calls) && RequestFor(slot, attempt).id in calls
      ensures calls[RequestFor(slot, attempt).id].tag.principal == principal
      ensures RunView(calls, principal, run)[W.Reservation(slot, attempt)] == LeaseOf(calls[RequestFor(slot, attempt).id])
    {
      hide RunView;
    }

    /** `lease.reconcile(1)` succeeds on a lease that is held, or was settled with one unit before. */
    method Reconcile(slot: R.Slot, attempt: nat) returns (ok: bool)
      requires Valid()
      modifies store`calls
      ensures Valid() && W.GateReconciles(old(View()), View(), slot, attempt, ok)
      ensures W.Reservation(slot, attempt) in old(View()) && old(View())[W.Reservation(slot, attempt)] == W.Reserved ==> ok
    {
      hide RunView, OwnRequests, Bounded, KeysUnique, RunsOwned;
      var id := RequestFor(slot, attempt).id;
      ghost var before := store.calls;
      var code := store.ReconcileCall(id, principal, 1);
      ok := code == Reconciled || code == Idempotent;
      if id in before {
        Seen(before, slot, attempt);
        if code == Reconciled {
          Settling(before, slot, attempt, Spent(1));
        }
      }
    }

    method Release(slot: R.Slot, attempt: nat) returns (ok: bool)
      requires Valid()
      modifies store`calls
      ensures Valid() && W.GateReleases(old(View()), View(), slot, attempt, ok)
    {
      hide RunView, OwnRequests, Bounded, KeysUnique, RunsOwned;
      var id := RequestFor(slot, attempt).id;
      ghost var before := store.calls;
      ok := store.ReleaseCall(id, principal);
      if id in before {
        Seen(before, slot, attempt);
        if ok {
          Settling(before, slot, attempt, GivenBack);
        }
      }
    }
  }

  /** Whatever happens to other ids, the view of this run stays as it is: runs do not disturb each other. */
  lemma RunsAreApart(calls: Calls, principal: string, run: string, id: CallId, e: Entry<Tag>)
    requires !(id.CallId? && id.principal == principal && id.run == run)
    ensures RunView(calls[id := e], principal, run) == RunView(calls, principal, run)
  {
    ViewUpdate(calls, principal, run, id, e);
  }

  /** A request that one policy covers. */
  ghost predicate Covers(p: Policy, id: string, r: Request, now: int) {
    && r.policy == id && r.principal == p.principal && r.tenant == p.tenant
    && p.revokedAt.None? && p.issuedAt <= now < p.expiresAt
    && r.action in p.actions && r.provider in p.providers && r.model in p.models
    && p.maxInflight >= 1 && r.units <= p.dailyUnits && r.units <= p.monthlyUnits
  }

  /** From an empty store, a policy, a binding and a request it covers lead to a granted reservation. */
  method FirstReservation(dayOf: int -> int, monthOf: int -> int, id: string, p: Policy, r: Request, key: string,
                          payload: string, now: int)
    returns (code: Code, calls: Calls)
    requires Covers(p, id, r, now)
    ensures code == Granted && calls.Keys == {r.id}
  {
    var store := new ServiceStore(map[p.principal := Principal(p.tenant, true)], dayOf, monthOf);
    var registered := store.PutPolicy(id, p);
    var bound := store.BindRun(p.principal, key, r.run, payload);
    assert store.calls == map[] && store.policies == map[id := p];
    assert forall f: Entry<Tag> -> int :: Total(store.calls, f) == 0;
    code := store.ReserveCall(r, now);
    calls := store.calls;
  }
}
