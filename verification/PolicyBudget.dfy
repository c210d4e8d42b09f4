/**
 The in-memory authorization and budget core (src/model_council/access_policy.py).
 Money is counted in the smallest unit in use, so that adding decimals is adding integers.
 */
module PolicyBudget {
  import opened Wrappers
  import opened Windows

  datatype Tenant = Personal | Work

  datatype Kind = Human | Agent

  datatype Principal = Principal(tenant: Tenant, kind: Kind, enabled: bool)

  datatype Mandate = Mandate(
    owner: string, principal: string, tenant: Tenant, actions: set<string>, providers: set<string>, models: set<string>,
    runLimit: nat, dailyLimit: nat, monthlyLimit: nat, issuedAt: int, expiresAt: int, revokedAt: Option<int>)

  datatype Request = Request(
    principal: string, tenant: Tenant, mandate: string, action: string, run: string, reservation: string,
    provider: Option<string>, model: Option<string>, maximum: nat)

  datatype Snapshot = Snapshot(
    runActual: int, runReserved: int, dailyActual: int, dailyReserved: int, monthlyActual: int, monthlyReserved: int)

  datatype Code =
    | Allowed | UnknownPrincipal | PrincipalDisabled | TenantMismatch | UnknownMandate | SubjectMismatch | OwnerInvalid
    | MandateRevoked | MandateNotActive | MandateExpired | ActionDenied | ProviderRequired | ModelRequired
    | ProviderDenied | ModelDenied | RunLimitExceeded | DailyLimitExceeded | MonthlyLimitExceeded
    | ReservationSettled | ReservationConflict

  datatype Decision = Decision(code: Code, budget: Option<Snapshot>)

  datatype ReconcileCode = Reconciled | Idempotent | ReservationNotFound | ReservationReleased | ReconciliationConflict

  /** The request and the day and month it was granted on. */
  datatype Tag = Tag(request: Request, day: int, month: int, decision: Decision)

  type Reservations = map<string, Entry<Tag>>

  const INVOKE := "provider:invoke"

  // ----- Windows -----

  function OfRun(p: string, t: Tenant, run: string): Tag -> bool {
    (g: Tag) => g.request.principal == p && g.request.tenant == t && g.request.run == run
  }

  function OnDay(p: string, t: Tenant, day: int): Tag -> bool {
    (g: Tag) => g.request.principal == p && g.request.tenant == t && g.day == day
  }

  function InMonth(p: string, t: Tenant, month: int): Tag -> bool {
    (g: Tag) => g.request.principal == p && g.request.tenant == t && g.month == month
  }

  ghost predicate Concern(m: Mandate, p: string, t: Tenant) {
    m.principal == p && m.tenant == t
  }

  ghost predicate RunAtMost(mandates: map<string, Mandate>, p: string, t: Tenant, limit: int) {
    limit >= 0 && forall id | id in mandates && Concern(mandates[id], p, t) :: mandates[id].runLimit <= limit
  }

  ghost predicate DailyAtMost(mandates: map<string, Mandate>, p: string, t: Tenant, limit: int) {
    limit >= 0 && forall id | id in mandates && Concern(mandates[id], p, t) :: mandates[id].dailyLimit <= limit
  }

  ghost predicate MonthlyAtMost(mandates: map<string, Mandate>, p: string, t: Tenant, limit: int) {
    limit >= 0 && forall id | id in mandates && Concern(mandates[id], p, t) :: mandates[id].monthlyLimit <= limit
  }

  /** In every run, day and month, a subject commits no more than the largest limit of its mandates plus the overruns. */
  ghost predicate Bounded(mandates: map<string, Mandate>, rows: Reservations) {
    && (forall p, t, run, limit | RunAtMost(mandates, p, t, limit) :: Within(rows, OfRun(p, t, run), limit))
    && (forall p, t, day, limit | DailyAtMost(mandates, p, t, limit) :: Within(rows, OnDay(p, t, day), limit))
    && (forall p, t, month, limit | MonthlyAtMost(mandates, p, t, limit) :: Within(rows, InMonth(p, t, month), limit))
  }

  lemma ReserveKeepsBound(mandates: map<string, Mandate>, rows: Reservations, id: string, e: Entry<Tag>)
    requires Bounded(mandates, rows) && id !in rows && e.state == Held && e.tag.request.mandate in mandates
    requires var m, p, t := mandates[e.tag.request.mandate], e.tag.request.principal, e.tag.request.tenant;
             && Concern(m, p, t)
             && Committed(rows, OfRun(p, t, e.tag.request.run)) + e.reserved <= m.runLimit
             && Committed(rows, OnDay(p, t, e.tag.day)) + e.reserved <= m.dailyLimit
             && Committed(rows, InMonth(p, t, e.tag.month)) + e.reserved <= m.monthlyLimit
    ensures Bounded(mandates, rows[id := e])
  {
    var after := rows[id := e];
    forall p, t, run, limit | RunAtMost(mandates, p, t, limit) ensures Within(after, OfRun(p, t, run), limit) {
      ReserveCounts(rows, id, e, OfRun(p, t, run));
      OverrunsNonNegative(rows, OfRun(p, t, run));
      assert Within(rows, OfRun(p, t, run), limit);
    }
    forall p, t, day, limit | DailyAtMost(mandates, p, t, limit) ensures Within(after, OnDay(p, t, day), limit) {
      ReserveCounts(rows, id, e, OnDay(p, t, day));
      OverrunsNonNegative(rows, OnDay(p, t, day));
      assert Within(rows, OnDay(p, t, day), limit);
    }
    forall p, t, month, limit | MonthlyAtMost(mandates, p, t, limit) ensures Within(after, InMonth(p, t, month), limit) {
      ReserveCounts(rows, id, e, InMonth(p, t, month));
      OverrunsNonNegative(rows, InMonth(p, t, month));
      assert Within(rows, InMonth(p, t, month), limit);
    }
  }

  lemma SettleKeepsBound(mandates: map<string, Mandate>, rows: Reservations, id: string, state: State)
    requires Bounded(mandates, rows) && id in rows && rows[id].state == Held && state != Held
    ensures Bounded(mandates, rows[id := rows[id].(state := state)])
  {
    var after := rows[id := rows[id].(state := state)];
    forall p, t, run, limit | RunAtMost(mandates, p, t, limit) ensures Within(after, OfRun(p, t, run), limit) {
      SettleKeeps(rows, id, state, OfRun(p, t, run), limit);
    }
    forall p, t, day, limit | DailyAtMost(mandates, p, t, limit) ensures Within(after, OnDay(p, t, day), limit) {
      SettleKeeps(rows, id, state, OnDay(p, t, day), limit);
    }
    forall p, t, month, limit | MonthlyAtMost(mandates, p, t, limit) ensures Within(after, InMonth(p, t, month), limit) {
      SettleKeeps(rows, id, state, InMonth(p, t, month), limit);
    }
  }

  /** Registering or revoking a mandate leaves no limit smaller. */
  lemma MandateKeepsBound(mandates: map<string, Mandate>, rows: Reservations, id: string, m: Mandate)
    requires Bounded(mandates, rows)
    requires id in mandates ==> m == mandates[id].(revokedAt := m.revokedAt)
    ensures Bounded(mandates[id := m], rows)
  {
    var more := mandates[id := m];
    forall i, p, t | i in mandates ensures i in more && (Concern(mandates[i], p, t) <==> Concern(more[i], p, t)) {
    }
    forall p, t, limit ensures RunAtMost(more, p, t, limit) ==> RunAtMost(mandates, p, t, limit) {
      assert forall i | i in mandates :: i in more && more[i].runLimit == mandates[i].runLimit;
    }
    forall p, t, limit ensures DailyAtMost(more, p, t, limit) ==> DailyAtMost(mandates, p, t, limit) {
      assert forall i | i in mandates :: i in more && more[i].dailyLimit == mandates[i].dailyLimit;
    }
    forall p, t, limit ensures MonthlyAtMost(more, p, t, limit) ==> MonthlyAtMost(mandates, p, t, limit) {
      assert forall i | i in mandates :: i in more && more[i].monthlyLimit == mandates[i].monthlyLimit;
    }
  }

  /** Everything `_evaluate_locked` asks before it looks at the budget. */
  function Refusal(principals: map<string, Principal>, mandates: map<string, Mandate>, r: Request, now: int): Option<Code> {
    if r.principal !in principals then Some(UnknownPrincipal)
    else if !principals[r.principal].enabled then Some(PrincipalDisabled)
    else if principals[r.principal].tenant != r.tenant then Some(TenantMismatch)
    else if r.mandate !in mandates then Some(UnknownMandate)
    else
      var m := mandates[r.mandate];
      if m.principal != r.principal then Some(SubjectMismatch)
      else if m.tenant != r.tenant then Some(TenantMismatch)
      else if m.owner !in principals || principals[m.owner].kind != Human || !principals[m.owner].enabled
              || principals[m.owner].tenant != r.tenant then Some(OwnerInvalid)
      else if m.revokedAt.Some? && now >= m.revokedAt.value then Some(MandateRevoked)
      else if now < m.issuedAt then Some(MandateNotActive)
      else if now >= m.expiresAt then Some(MandateExpired)
      else if r.action !in m.actions then Some(ActionDenied)
      else if r.action == INVOKE && r.provider.None? then Some(ProviderRequired)
      else if r.action == INVOKE && r.model.None? then Some(ModelRequired)
      else if r.provider.Some? && r.provider.value !in m.providers then Some(ProviderDenied)
      else if r.model.Some? && r.model.value !in m.models then Some(ModelDenied)
      else None
  }

  class PolicyCore {
    const dayOf: int -> int
    const monthOf: int -> int
    var principals: map<string, Principal>
    var mandates: map<string, Mandate>
    var reservations: Reservations

    ghost predicate Valid()
      reads this
    {
      && Bounded(mandates, reservations)
      && forall id | id in reservations :: reservations[id].tag.request.mandate in mandates
    }

    constructor (principals: map<string, Principal>, dayOf: int -> int, monthOf: int -> int)
      ensures Valid() && mandates == map[] && reservations == map[]
    {
      this.principals, this.dayOf, this.monthOf := principals, dayOf, monthOf;
      mandates, reservations := map[], map[];
    }

    method RegisterMandate(id: string, m: Mandate) returns (r: Result<Mandate>)
      requires Valid()
      modifies `mandates
      ensures Valid()
      ensures r.Ok? <==>
        && m.principal in principals && m.owner in principals && principals[m.owner].kind == Human
        && principals[m.owner].tenant == m.tenant && principals[m.principal].tenant == m.tenant
        && (id in old(mandates) ==> old(mandates)[id] == m)
      ensures mandates == if r.Ok? then old(mandates)[id := m] else old(mandates)
    {
      if m.principal !in principals {
        return Err("mandate subject is not a configured principal");
      }
      if m.owner !in principals || principals[m.owner].kind != Human {
        return Err("mandate owner must be a configured human");
      }
      if principals[m.owner].tenant != m.tenant || principals[m.principal].tenant != m.tenant {
        return Err("mandate tenant does not match");
      }
      if id in mandates && mandates[id] != m {
        return Err("mandate_id is already registered");
      }
      MandateKeepsBound(mandates, reservations, id, m);
      mandates := mandates[id := m];
      r := Ok(m);
    }

    /** Revoking is idempotent: the first time stands. */
    method RevokeMandate(id: string, now: int) returns (r: Result<Mandate>)
      requires Valid()
      modifies `mandates
      ensures Valid()
      ensures r.Ok? <==> id in old(mandates)
      ensures r.Ok? ==>
        var m := old(mandates)[id];
        mandates == old(mandates)[id := if m.revokedAt.Some? then m else m.(revokedAt := Some(now))] && r.value == mandates[id]
      ensures r.Err? ==> mandates == old(mandates)
    {
      if id !in mandates {
        return Err("unknown mandate");
      }
      if mandates[id].revokedAt.Some? {
        assert mandates[id := mandates[id]] == mandates;
        return Ok(mandates[id]);
      }
      var revoked := mandates[id].(revokedAt := Some(now));
      MandateKeepsBound(mandates, reservations, id, revoked);
      mandates := mandates[id := revoked];
      r := Ok(revoked);
    }

    /** `_snapshot_locked`: six totals in one pass over the reservations. */
    method TakeSnapshot(r: Request, now: int) returns (s: Snapshot)
      ensures s.runActual + s.runReserved == Committed(reservations, OfRun(r.principal, r.tenant, r.run))
      ensures s.dailyActual + s.dailyReserved == Committed(reservations, OnDay(r.principal, r.tenant, dayOf(now)))
      ensures s.monthlyActual + s.monthlyReserved == Committed(reservations, InMonth(r.principal, r.tenant, monthOf(now)))
    {
      var day, month, rest := dayOf(now), monthOf(now), reservations;
      s := Snapshot(0, 0, 0, 0, 0, 0);
      while rest != map[]
        invariant s.runActual + s.runReserved + Committed(rest, OfRun(r.principal, r.tenant, r.run))
                  == Committed(reservations, OfRun(r.principal, r.tenant, r.run))
        invariant s.dailyActual + s.dailyReserved + Committed(rest, OnDay(r.principal, r.tenant, day))
                  == Committed(reservations, OnDay(r.principal, r.tenant, day))
        invariant s.monthlyActual + s.monthlyReserved + Committed(rest, InMonth(r.principal, r.tenant, month))
                  == Committed(reservations, InMonth(r.principal, r.tenant, month))
        decreases |rest|
      {
        var id :| id in rest;
        TotalRemove(rest, id, CostIn(OfRun(r.principal, r.tenant, r.run)));
        TotalRemove(rest, id, CostIn(OnDay(r.principal, r.tenant, day)));
        TotalRemove(rest, id, CostIn(InMonth(r.principal, r.tenant, month)));
        CountedOnce(s, rest[id], r, day, month);
        s := Counted(s, rest[id], r, day, month);
        rest := rest - {id};
      }
    }

    /** One reservation, added to the totals of the windows it falls in. */
    function Counted(s: Snapshot, e: Entry<Tag>, r: Request, day: int, month: int): Snapshot {
      var q := e.tag.request;
      if q.principal != r.principal || q.tenant != r.tenant || e.state.GivenBack? then s
      else
        var actual := if e.state.Spent? then e.state.actual else 0;
        var reserved := if e.state.Held? then e.reserved else 0;
        var s1 := if q.run == r.run then s.(runActual := s.runActual + actual, runReserved := s.runReserved + reserved) else s;
        var s2 := if e.tag.day == day
          then s1.(dailyActual := s1.dailyActual + actual, dailyReserved := s1.dailyReserved + reserved) else s1;
        if e.tag.month == month
        then s2.(monthlyActual := s2.monthlyActual + actual, monthlyReserved := s2.monthlyReserved + reserved) else s2
    }

    /** Each pair of totals grows by what the reservation costs in its window. */
    lemma CountedOnce(s: Snapshot, e: Entry<Tag>, r: Request, day: int, month: int)
      ensures var t := Counted(s, e, r, day, month);
              && t.runActual + t.runReserved == s.runActual + s.runReserved + CostIn(OfRun(r.principal, r.tenant, r.run))(e)
              && t.dailyActual + t.dailyReserved
                 == s.dailyActual + s.dailyReserved + CostIn(OnDay(r.principal, r.tenant, day))(e)
              && t.monthlyActual + t.monthlyReserved
                 == s.monthlyActual + s.monthlyReserved + CostIn(InMonth(r.principal, r.tenant, month))(e)
    {
    }

    ghost predicate HasRoom(r: Request, now: int)
      requires r.mandate in mandates
      reads this
    {
      var m := mandates[r.mandate];
      && Committed(reservations, OfRun(r.principal, r.tenant, r.run)) + r.maximum <= m.runLimit
      && Committed(reservations, OnDay(r.principal, r.tenant, dayOf(now))) + r.maximum <= m.dailyLimit
      && Committed(reservations, InMonth(r.principal, r.tenant, monthOf(now))) + r.maximum <= m.monthlyLimit
    }

    /** `_evaluate_locked`: allowed exactly when nothing refuses the request and all three windows have room. */
    method Evaluate(r: Request, now: int) returns (d: Decision)
      ensures d.code == Allowed <==>
        Refusal(principals, mandates, r, now) == None && r.mandate in mandates && HasRoom(r, now)
      ensures Refusal(principals, mandates, r, now).Some? ==> d == Decision(Refusal(principals, mandates, r, now).value, None)
    {
      var refusal := Refusal(principals, mandates, r, now);
      if refusal.Some? {
        return Decision(refusal.value, None);
      }
      var m := mandates[r.mandate];
      var s := TakeSnapshot(r, now);
      if s.runActual + s.runReserved + r.maximum > m.runLimit {
        return Decision(RunLimitExceeded, Some(s));
      }
      if s.dailyActual + s.dailyReserved + r.maximum > m.dailyLimit {
        return Decision(DailyLimitExceeded, Some(s));
      }
      if s.monthlyActual + s.monthlyReserved + r.maximum > m.monthlyLimit {
        return Decision(MonthlyLimitExceeded, Some(s));
      }
      d := Decision(Allowed, Some(s.(runReserved := s.runReserved + r.maximum, dailyReserved := s.dailyReserved + r.maximum,
                                     monthlyReserved := s.monthlyReserved + r.maximum)));
    }

    /** The same request again gets the decision it got; a settled or different one is refused; nothing is counted twice. */
    method AuthorizeAndReserve(r: Request, now: int) returns (d: Decision)
      requires Valid()
      modifies `reservations
      ensures Valid()
      ensures r.reservation in old(reservations) ==>
        var e := old(reservations)[r.reservation];
        && reservations == old(reservations)
        && d == if e.tag.request != r then Decision(ReservationConflict, None)
                else if e.state == Held then e.tag.decision else Decision(ReservationSettled, None)
      ensures r.reservation !in old(reservations) ==>
        && (d.code == Allowed <==>
              Refusal(principals, mandates, r, now) == None && r.mandate in mandates && old(HasRoom(r, now)))
        && reservations == if d.code == Allowed
                           then old(reservations)[r.reservation := Entry(Tag(r, dayOf(now), monthOf(now), d), r.maximum, Held)]
                           else old(reservations)
    {
      if r.reservation in reservations {
        var e := reservations[r.reservation];
        return if e.tag.request == r && e.state == Held then e.tag.decision
          else if e.tag.request == r then Decision(ReservationSettled, None)
          else Decision(ReservationConflict, None);
      }
      d := Evaluate(r, now);
      if d.code == Allowed {
        var e := Entry(Tag(r, dayOf(now), monthOf(now), d), r.maximum, Held);
        ReserveKeepsBound(mandates, reservations, r.reservation, e);
        reservations := reservations[r.reservation := e];
      }
    }

    /** The actual cost is always accounted for, once. */
    method Reconcile(id: string, principal: string, tenant: Tenant, actual: nat) returns (code: ReconcileCode)
      requires Valid()
      modifies `reservations
      ensures Valid()
      ensures code == ReservationNotFound <==>
        id !in old(reservations) || old(reservations)[id].tag.request.principal != principal
        || old(reservations)[id].tag.request.tenant != tenant
      ensures code == Reconciled ==> old(reservations)[id].state == Held
      ensures code == Idempotent ==> old(reservations)[id].state == Spent(actual)
      ensures code == ReservationReleased ==> old(reservations)[id].state == GivenBack
      ensures reservations == if code == Reconciled
                              then old(reservations)[id := old(reservations)[id].(state := Spent(actual))] else old(reservations)
    {
      if id !in reservations || reservations[id].tag.request.principal != principal
         || reservations[id].tag.request.tenant != tenant {
        return ReservationNotFound;
      }
      match reservations[id].state {
        case GivenBack => code := ReservationReleased;
        case Spent(before) => code := if before == actual then Idempotent else ReconciliationConflict;
        case Held =>
          SettleKeepsBound(mandates, reservations, id, Spent(actual));
          reservations := reservations[id := reservations[id].(state := Spent(actual))];
          code := Reconciled;
      }
    }

    method ReleaseReservation(id: string, principal: string, tenant: Tenant) returns (ok: bool)
      requires Valid()
      modifies `reservations
      ensures Valid()
      ensures ok <==>
        id in old(reservations) && old(reservations)[id].tag.request.principal == principal
        && old(reservations)[id].tag.request.tenant == tenant && old(reservations)[id].state == Held
      ensures reservations == if ok then old(reservations)[id := old(reservations)[id].(state := GivenBack)]
                              else old(reservations)
    {
      ok := id in reservations && reservations[id].tag.request.principal == principal
            && reservations[id].tag.request.tenant == tenant && reservations[id].state == Held;
      if ok {
        SettleKeepsBound(mandates, reservations, id, GivenBack);
        reservations := reservations[id := reservations[id].(state := GivenBack)];
      }
    }
  }
}
