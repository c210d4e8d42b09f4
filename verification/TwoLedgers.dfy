/**
 The engine counts calls in the invocation table; the service counts call units in
 its own ledger. For gated runs the two agree: attempts are numbered without reuse,
 and the difference of the totals is exactly the calls whose outcome is unknown.
 */
module TwoLedgers {
  import opened Wrappers
  import opened Records
  import opened World
  import opened Locks
  import opened Budget

  /** The reservation the latest start of a slot asks for. */
  function LastAttempt(w: World, slot: Slot): Reservation {
    Reservation(slot, AttemptNumber(w, slot))
  }

  predicate IsReconciled(ledger: Ledger, r: Reservation) {
    r in ledger && ledger[r] == Reconciled
  }

  function ReconciledIds(ledger: Ledger): set<Reservation> {
    set r | r in ledger && ledger[r] == Reconciled
  }

  predicate Undecided(row: Invocation) {
    row.status == Running || IsAmbiguous(row)
  }

  /** One slot as the ledger argument sees it: its row, its call in flight, and the lease of its latest start. */
  datatype View = View(row: Option<Invocation>, phase: Option<Phase>, lease: Option<LeaseState>)

  function ViewOf(w: World, slot: Slot): View {
    View(if slot in w.slots then Some(w.slots[slot]) else None,
         if slot in w.live then Some(w.live[slot]) else None,
         if LastAttempt(w, slot) in w.ledger then Some(w.ledger[LastAttempt(w, slot)]) else None)
  }

  /** What the ledger holds for a call in flight, by the phase of the call. */
  predicate ViewOk(v: View) {
    v.phase.Some? ==>
      && v.row.Some? && v.row.value.status == Running
      && match v.phase.value
         case Started => v.lease.None?
         case Leased => v.lease == Some(Reserved)
         case Dropped => v.lease != Some(Reconciled)
         case Settled => v.lease == Some(Reconciled)
         case Free => false
  }

  predicate IsUnsettled(v: View) {
    v.row.Some? && Undecided(v.row.value) && v.lease != Some(Reconciled)
  }

  /** Slots whose latest call is counted by the engine and not by the ledger. */
  function Unsettled(w: World): set<Slot> {
    set s | s in w.slots && IsUnsettled(ViewOf(w, s))
  }

  ghost predicate IdsWithinAttempts(w: World) {
    forall r | r in w.ledger :: r.attempt <= AttemptNumber(w, r.slot)
  }

  ghost predicate LedgerInv(w: World) {
    && IdsWithinAttempts(w)
    && (forall s :: ViewOk(ViewOf(w, s)))
    && Calls(w.slots) == |ReconciledIds(w.ledger)| + |Unsettled(w)|
  }

  // ----- Attempt numbers -----

  /** A start asks for the next attempt number; nothing else moves it, an undispatched release included. */
  lemma AttemptNext(cfg: Config, w: World, a: Action, slot: Slot)
    requires ValidConfig(cfg) && Enabled(cfg, w, a)
    ensures AttemptNumber(Next(cfg, w, a), slot)
            == AttemptNumber(w, slot) + if a.Start? && a.slot == slot then 1 else 0
  {
    LogNext(cfg, w, a, NotDispatchedOf(slot));
    RowNext(cfg, w, a, slot);
  }

  /** The id a start asks for has never been in the ledger. */
  lemma ReservationIsFresh(cfg: Config, w: World, a: Action)
    requires ValidConfig(cfg) && Enabled(cfg, w, a) && a.Start? && IdsWithinAttempts(w)
    ensures LastAttempt(Next(cfg, w, a), a.slot) !in w.ledger
  {
    AttemptNext(cfg, w, a, a.slot);
  }

  lemma IdsKept(cfg: Config, w: World, a: Action)
    requires ValidConfig(cfg) && Enabled(cfg, w, a) && IdsWithinAttempts(w)
    ensures IdsWithinAttempts(Next(cfg, w, a))
  {
    forall r | r in Next(cfg, w, a).ledger ensures r.attempt <= AttemptNumber(Next(cfg, w, a), r.slot) {
      AttemptNext(cfg, w, a, r.slot);
    }
  }

  /** The slot whose view an action changes, `Resume` apart. */
  function Concerns(a: Action): Option<Slot> {
    match a
    case Grant(slot) => Some(slot)
    case Refuse(slot, _) => Some(slot)
    case GiveBack(slot) => Some(slot)
    case Reconcile(slot) => Some(slot)
    case _ => Touched(a)
  }

  /** How an action moves the view of the slot it concerns. */
  predicate ViewStep(a: Action, v: View, v': View) {
    match a
    case Start(_, _, _) =>
      (v.row.Some? ==> !Undecided(v.row.value))
      && v'.row.Some? && v'.row.value.status == Running && v'.phase == Some(Started) && v'.lease == None
    case Grant(_) => v.phase == Some(Started) && v' == v.(phase := Some(Leased), lease := Some(Reserved)) && v.lease == None
    case Refuse(_, stranded) =>
      v.phase == Some(Started) && (stranded ==> v.lease == None)
      && v' == v.(phase := Some(Dropped), lease := if stranded then Some(Reserved) else v.lease)
    case GiveBack(_) => v.phase == Some(Leased) && v' == v.(phase := Some(Dropped), lease := Some(Released))
    case Reconcile(_) => v.phase == Some(Leased) && v' == v.(phase := Some(Settled), lease := Some(Reconciled))
    case Succeed(_, _, _) =>
      v.phase.Some? && v.phase.value in {Settled, Free}
      && v'.row.Some? && v'.row.value.status == Succeeded && v'.phase == None && v'.lease == v.lease
    case Fail(_, error, _) =>
      v.phase.Some?
      && (if error.ambiguous then v.phase.value !in {Settled, Started} else v.phase.value in {Settled, Free})
      && v'.row.Some? && v'.row.value.status == Failed && IsAmbiguous(v'.row.value) == error.ambiguous
      && v'.phase == None && v'.lease == v.lease
    case Settle(_, error, _) =>
      v.phase == None && v.row.Some? && v.row.value.status == Running
      && v'.row.Some? && IsAmbiguous(v'.row.value) && v'.phase == None && v'.lease == v.lease
    case Undispatch(_, _, _, _) =>
      v.phase.Some? && v.phase.value in {Dropped, Free}
      && (v'.row.Some? ==> !Undecided(v'.row.value)) && v'.phase == None && v'.lease == v.lease
    case _ => false
  }

  lemma ViewElsewhere(cfg: Config, w: World, a: Action, s: Slot)
    requires ValidConfig(cfg) && Enabled(cfg, w, a) && Concerns(a) != Some(s)
    ensures ViewOf(Next(cfg, w, a), s) == if a.Resume? then ViewOf(w, s).(phase := None) else ViewOf(w, s)
  {
    AttemptNext(cfg, w, a, s);
  }

  lemma ViewHere(cfg: Config, w: World, a: Action, s: Slot)
    requires ValidConfig(cfg) && cfg.gated && Enabled(cfg, w, a) && IdsWithinAttempts(w) && Concerns(a) == Some(s)
    ensures ViewStep(a, ViewOf(w, s), ViewOf(Next(cfg, w, a), s))
  {
    AttemptNext(cfg, w, a, s);
  }

  lemma ViewNext(cfg: Config, w: World, a: Action, s: Slot)
    requires ValidConfig(cfg) && cfg.gated && Enabled(cfg, w, a) && IdsWithinAttempts(w)
    ensures Concerns(a) != Some(s) ==>
      ViewOf(Next(cfg, w, a), s) == if a.Resume? then ViewOf(w, s).(phase := None) else ViewOf(w, s)
    ensures Concerns(a) == Some(s) ==> ViewStep(a, ViewOf(w, s), ViewOf(Next(cfg, w, a), s))
  {
    if Concerns(a) == Some(s) {
      ViewHere(cfg, w, a, s);
    } else {
      ViewElsewhere(cfg, w, a, s);
    }
  }

  lemma ViewOkStep(a: Action, v: View, v': View)
    requires ViewOk(v) && ViewStep(a, v, v')
    ensures ViewOk(v')
    ensures IsUnsettled(v) == (!a.Start? && (a.Reconcile? || a.Undispatch? || IsUnsettled(v')))
    ensures IsUnsettled(v') == (a.Start? || (!a.Reconcile? && !a.Undispatch? && IsUnsettled(v)))
  {
  }

  lemma ViewsKept(cfg: Config, w: World, a: Action)
    requires ValidConfig(cfg) && cfg.gated && Enabled(cfg, w, a) && LedgerInv(w)
    ensures forall s :: ViewOk(ViewOf(Next(cfg, w, a), s))
  {
    forall s ensures ViewOk(ViewOf(Next(cfg, w, a), s)) {
      ViewNext(cfg, w, a, s);
      assert ViewOk(ViewOf(w, s));
      if Concerns(a) == Some(s) {
        ViewOkStep(a, ViewOf(w, s), ViewOf(Next(cfg, w, a), s));
      }
    }
  }

  // ----- The totals -----

  lemma UnsettledAt(cfg: Config, w: World, a: Action, s: Slot)
    requires ValidConfig(cfg) && cfg.gated && Enabled(cfg, w, a) && LedgerInv(w)
    ensures Concerns(a) != Some(s) ==> (s in Unsettled(Next(cfg, w, a)) <==> s in Unsettled(w))
    ensures Concerns(a) == Some(s) ==>
      (s in Unsettled(w) <==> !a.Start? && (a.Reconcile? || a.Undispatch? || s in Unsettled(Next(cfg, w, a))))
      && (s in Unsettled(Next(cfg, w, a)) <==> a.Start? || (!a.Reconcile? && !a.Undispatch? && s in Unsettled(w)))
  {
    ViewNext(cfg, w, a, s);
    assert ViewOk(ViewOf(w, s));
    if Concerns(a) == Some(s) {
      ViewOkStep(a, ViewOf(w, s), ViewOf(Next(cfg, w, a), s));
    }
  }

  /** Only a start adds an unsettled slot; only reconciling or undoing it takes it away. */
  lemma UnsettledSize(a: Action, before: set<Slot>, after: set<Slot>)
    requires forall s :: Concerns(a) != Some(s) ==> (s in after <==> s in before)
    requires forall s :: Concerns(a) == Some(s) ==>
                (s in before <==> !a.Start? && (a.Reconcile? || a.Undispatch? || s in after))
                && (s in after <==> a.Start? || (!a.Reconcile? && !a.Undispatch? && s in before))
    ensures |after| == |before| + if a.Start? then 1 else if a.Reconcile? || a.Undispatch? then -1 else 0
  {
    if a.Start? {
      assert a.slot !in before && after == before + {a.slot};
    } else if a.Reconcile? || a.Undispatch? {
      assert a.slot in before && after == before - {a.slot};
    } else {
      assert after == before;
    }
  }

  function LeaseWritten(a: Action): Option<LeaseState> {
    match a
    case Grant(_) => Some(Reserved)
    case Refuse(_, stranded) => if stranded then Some(Reserved) else None
    case GiveBack(_) => Some(Released)
    case Reconcile(_) => Some(Reconciled)
    case _ => None
  }

  /** Every ledger write is about the latest attempt of the slot it concerns. */
  lemma LedgerNext(cfg: Config, w: World, a: Action)
    requires ValidConfig(cfg) && Enabled(cfg, w, a)
    ensures LeaseWritten(a).None? ==> Next(cfg, w, a).ledger == w.ledger
    ensures LeaseWritten(a).Some? ==>
      Concerns(a).Some?
      && Next(cfg, w, a).ledger == w.ledger[LastAttempt(w, Concerns(a).value) := LeaseWritten(a).value]
  {
  }

  /** None overwrites a reconciled reservation. */
  lemma NeverReconciledTwice(cfg: Config, w: World, a: Action)
    requires ValidConfig(cfg) && cfg.gated && Enabled(cfg, w, a) && LedgerInv(w)
    ensures LeaseWritten(a).Some? ==> Concerns(a).Some? && !IsReconciled(w.ledger, LastAttempt(w, Concerns(a).value))
  {
    if LeaseWritten(a).Some? {
      ViewNext(cfg, w, a, Concerns(a).value);
      assert ViewOk(ViewOf(w, Concerns(a).value));
    }
  }

  lemma ReconciledUpdate(ledger: Ledger, r: Reservation, state: LeaseState)
    requires !IsReconciled(ledger, r)
    ensures |ReconciledIds(ledger[r := state])| == |ReconciledIds(ledger)| + if state == Reconciled then 1 else 0
  {
    if state == Reconciled {
      assert ReconciledIds(ledger[r := state]) == ReconciledIds(ledger) + {r};
    } else {
      assert ReconciledIds(ledger[r := state]) == ReconciledIds(ledger);
    }
  }

  lemma ReconciledSize(cfg: Config, w: World, a: Action)
    requires ValidConfig(cfg) && cfg.gated && Enabled(cfg, w, a) && LedgerInv(w)
    ensures |ReconciledIds(Next(cfg, w, a).ledger)| == |ReconciledIds(w.ledger)| + if a.Reconcile? then 1 else 0
  {
    LedgerNext(cfg, w, a);
    NeverReconciledTwice(cfg, w, a);
    if LeaseWritten(a).Some? {
      ReconciledUpdate(w.ledger, LastAttempt(w, Concerns(a).value), LeaseWritten(a).value);
    }
  }

  /** Conservation: whatever one total gains, the other or the unsettled slots gain too. */
  lemma TotalsKept(cfg: Config, w: World, a: Action)
    requires ValidConfig(cfg) && cfg.gated && Enabled(cfg, w, a) && LedgerInv(w)
    ensures Calls(Next(cfg, w, a).slots) == |ReconciledIds(Next(cfg, w, a).ledger)| + |Unsettled(Next(cfg, w, a))|
  {
    forall s {
      UnsettledAt(cfg, w, a, s);
    }
    UnsettledSize(a, Unsettled(w), Unsettled(Next(cfg, w, a)));
    ReconciledSize(cfg, w, a);
    CallsNext(cfg, w, a);
  }

  lemma LedgerKept(cfg: Config, w: World, a: Action)
    requires ValidConfig(cfg) && cfg.gated && Enabled(cfg, w, a) && LedgerInv(w)
    ensures LedgerInv(Next(cfg, w, a))
  {
    IdsKept(cfg, w, a);
    ViewsKept(cfg, w, a);
    TotalsKept(cfg, w, a);
  }

  // ----- What it means for the totals -----

  function UndecidedSlots(w: World): set<Slot> {
    set s | s in w.slots && Undecided(w.slots[s])
  }

  lemma SubsetSize<T>(a: set<T>, b: set<T>)
    requires a <= b
    ensures |a| <= |b|
  {
    assert |b - a| == |b| - |a|;
  }

  /** Reconciled units never exceed the engine's count, and fall short of it by at most the undecided calls. */
  lemma LedgersAgree(w: World)
    requires LedgerInv(w)
    ensures |ReconciledIds(w.ledger)| <= Calls(w.slots) <= |ReconciledIds(w.ledger)| + |UndecidedSlots(w)|
  {
    SubsetSize(Unsettled(w), UndecidedSlots(w));
  }

  /** Every running row belongs to a live process, and no ambiguous outcome was reconciled. */
  predicate IsKnown(v: View) {
    v.row.Some? && Undecided(v.row.value) ==>
      if v.row.value.status == Running then v.phase.Some? else v.lease != Some(Reconciled)
  }

  ghost predicate NothingLost(w: World) {
    forall s :: IsKnown(ViewOf(w, s))
  }

  /** A process only starts after one that ended with nothing in flight. */
  predicate NoCrashInCall(w: World, a: Action) {
    a.Resume? ==> w.live == map[]
  }

  lemma NothingLostKept(cfg: Config, w: World, a: Action)
    requires ValidConfig(cfg) && cfg.gated && Enabled(cfg, w, a) && LedgerInv(w)
    requires NothingLost(w) && NoCrashInCall(w, a)
    ensures NothingLost(Next(cfg, w, a))
  {
    forall s ensures IsKnown(ViewOf(Next(cfg, w, a), s)) {
      ViewNext(cfg, w, a, s);
      assert ViewOk(ViewOf(w, s)) && IsKnown(ViewOf(w, s));
      if Concerns(a) == Some(s) {
        KnownStep(a, ViewOf(w, s), ViewOf(Next(cfg, w, a), s));
      }
    }
  }

  lemma KnownStep(a: Action, v: View, v': View)
    requires ViewOk(v) && IsKnown(v) && ViewStep(a, v, v')
    ensures IsKnown(v')
  {
  }

  /** With no crash inside a call, whenever nothing is in flight the upper bound is an equality. */
  lemma LedgersAgreeExactly(w: World)
    requires LedgerInv(w) && NothingLost(w) && w.live == map[]
    ensures Calls(w.slots) == |ReconciledIds(w.ledger)| + |UndecidedSlots(w)|
  {
    forall s | s in w.slots && Undecided(w.slots[s]) ensures IsUnsettled(ViewOf(w, s)) {
      assert IsKnown(ViewOf(w, s));
    }
    assert Unsettled(w) == UndecidedSlots(w);
  }
}
