/**
 Jury repair events. `_persist_jury_repair_event` raises when a juror already has an
 event with a different payload. It never finds one: what an event says stays true,
 and in particular a repair denied for budget stays over budget for the whole run.
 */
module Repairs {
  import opened Wrappers
  import opened Borda
  import opened Records
  import opened World
  import opened Audit
  import opened Locks
  import opened Budget
  import opened Prompts

  ghost predicate RepairEventOk(cfg: Config, w: World, juror: Provider) {
    var found := Select(w.events, RepairOf(juror));
    && |found| <= 1
    && (|found| == 1 ==> Namespace(w).Some? && found[0].JuryRepairEvent? && OutcomeHolds(cfg, w, juror, found[0].outcome))
  }

  /** At most one repair is ever asked of a juror. */
  ghost predicate RepairedOnce(w: World) {
    forall s | s in w.slots && s.stage == JuryRepair :: w.slots[s].callCount == 1
  }

  ghost predicate RepairsInv(cfg: Config, w: World) {
    && RepairedOnce(w)
    && forall juror :: RepairEventOk(cfg, w, juror)
  }

  // ----- Being over budget is for good -----

  /** Once a juror's answer calls for a repair, it always does. */
  lemma EligibleStays(cfg: Config, w: World, a: Action, juror: Provider)
    requires ValidConfig(cfg) && Enabled(cfg, w, a) && Namespace(w).Some? && Eligible(w, juror)
    ensures Eligible(Next(cfg, w, a), juror)
  {
    NamespaceNext(cfg, w, a);
    MarkerNext(cfg, w, a);
    ContentNext(cfg, w, a, Slot(Jury, juror));
  }

  /** Who can leave the queue: everyone in flight when the process stops, or the one whose repair ends. */
  lemma QueuedStays(cfg: Config, w: World, a: Action, juror: Provider)
    requires ValidConfig(cfg) && Enabled(cfg, w, a) && LiveAreRunning(w) && RepairedOnce(w) && Namespace(w).Some? && Queued(w, juror)
    ensures Queued(Next(cfg, w, a), juror)
            || (a.Resume? && Slot(JuryRepair, juror) in w.live)
            || ((a.Succeed? || a.Fail?) && a.slot == Slot(JuryRepair, juror))
  {
    EligibleStays(cfg, w, a, juror);
    RowNext(cfg, w, a, Slot(JuryRepair, juror));
  }

  /** Everyone but at most one of these names stays queued. */
  lemma {:induction false} AheadStep(w: World, w': World, names: seq<Provider>, gone: Option<Provider>)
    requires Distinct(names)
    requires forall p | p in names && Queued(w, p) && Some(p) != gone :: Queued(w', p)
    ensures Ahead(w', names) >= Ahead(w, names) - if gone.Some? && gone.value in names then 1 else 0
  {
    if names != [] {
      assert names == [names[0]] + names[1..];
      AheadStep(w, w', names[1..], gone);
    }
  }

  /** When a process stops, no more jurors leave the queue than calls were in flight. */
  lemma {:induction false} AheadAfterStop(w: World, w': World, names: seq<Provider>, live: set<Slot>)
    requires Distinct(names)
    requires forall p | p in names && Queued(w, p) && Slot(JuryRepair, p) !in live :: Queued(w', p)
    ensures Ahead(w', names) >= Ahead(w, names) - |live|
  {
    if names != [] {
      assert names == [names[0]] + names[1..];
      var s := Slot(JuryRepair, names[0]);
      if s in live {
        AheadAfterStop(w, w', names[1..], live - {s});
      } else {
        AheadAfterStop(w, w', names[1..], live);
      }
    }
  }

  /** Calls not yet spent for good, as far as the budget test can see them. */
  ghost function Room(cfg: Config, w: World): int {
    cfg.maxCalls - |cfg.chain| - Calls(w.slots) + |w.live.Keys|
  }

  /** A call in flight is not counted as spent, so only an outcome, or the end of the process, uses room up. */
  lemma RoomNext(cfg: Config, w: World, a: Action)
    requires ValidConfig(cfg) && Enabled(cfg, w, a) && LiveAreRunning(w)
    ensures Room(cfg, Next(cfg, w, a)) ==
      Room(cfg, w) - if a.Resume? then |w.live.Keys| else if a.Succeed? || a.Fail? then 1 else 0
  {
    CallsNext(cfg, w, a);
    LiveNext(cfg, w, a);
  }

  /** Which calls are in flight after an action. */
  lemma LiveKeysNext(cfg: Config, w: World, a: Action, s: Slot)
    requires ValidConfig(cfg) && Enabled(cfg, w, a)
    ensures s in Next(cfg, w, a).live <==>
      !a.Resume? && ((a.Start? && s == a.slot) || (s in w.live && !((a.Succeed? || a.Fail? || a.Undispatch?) && s == a.slot)))
    ensures a.Start? && s == a.slot ==> s in w.slots ==> w.slots[s].status == Failed
    ensures (a.Succeed? || a.Fail? || a.Undispatch?) && s == a.slot ==> s in w.live
  {
  }

  lemma LiveNext(cfg: Config, w: World, a: Action)
    requires ValidConfig(cfg) && Enabled(cfg, w, a) && LiveAreRunning(w)
    ensures |Next(cfg, w, a).live.Keys| ==
      if a.Resume? then 0 else |w.live.Keys| + if a.Start? then 1 else if a.Succeed? || a.Fail? || a.Undispatch? then -1 else 0
  {
    forall s
      ensures s in Next(cfg, w, a).live <==>
        !a.Resume? && ((a.Start? && s == a.slot) || (s in w.live && !((a.Succeed? || a.Fail? || a.Undispatch?) && s == a.slot)))
      ensures a.Start? && s == a.slot ==> s !in w.live
      ensures (a.Succeed? || a.Fail? || a.Undispatch?) && s == a.slot ==> s in w.live
    {
      LiveKeysNext(cfg, w, a, s);
    }
    LiveSize(a, w.live.Keys, Next(cfg, w, a).live.Keys);
  }

  lemma LiveSize(a: Action, before: set<Slot>, after: set<Slot>)
    requires forall s :: s in after <==>
      !a.Resume? && ((a.Start? && s == a.slot) || (s in before && !((a.Succeed? || a.Fail? || a.Undispatch?) && s == a.slot)))
    requires a.Start? ==> a.slot !in before
    requires a.Succeed? || a.Fail? || a.Undispatch? ==> a.slot in before
    ensures |after| ==
      if a.Resume? then 0 else |before| + if a.Start? then 1 else if a.Succeed? || a.Fail? || a.Undispatch? then -1 else 0
  {
    if a.Resume? {
      assert after == {};
    } else if a.Start? {
      assert after == before + {a.slot};
    } else if a.Succeed? || a.Fail? || a.Undispatch? {
      assert after == before - {a.slot};
    } else {
      assert after == before;
    }
  }

  lemma OverBudgetStays(cfg: Config, w: World, a: Action, juror: Provider)
    requires ValidConfig(cfg) && Enabled(cfg, w, a) && LiveAreRunning(w) && RepairedOnce(w) && Namespace(w).Some?
    requires OverBudget(cfg, w, juror)
    ensures OverBudget(cfg, Next(cfg, w, a), juror)
  {
    var names, w' := cfg.roster[..IndexOf(cfg.roster, juror)], Next(cfg, w, a);
    forall p | p in names && Queued(w, p)
      ensures Queued(w', p)
              || (a.Resume? && Slot(JuryRepair, p) in w.live)
              || ((a.Succeed? || a.Fail?) && a.slot == Slot(JuryRepair, p))
    {
      QueuedStays(cfg, w, a, p);
    }
    if a.Resume? {
      AheadAfterStop(w, w', names, w.live.Keys);
    } else {
      AheadStep(w, w', names, if a.Succeed? || a.Fail? then Some(a.slot.provider) else None);
    }
    RoomNext(cfg, w, a);
  }

  // ----- The invariant is kept -----

  /** Nothing an event says about a juror can become false. */
  lemma OutcomeStays(cfg: Config, w: World, a: Action, juror: Provider, outcome: RepairOutcome)
    requires ValidConfig(cfg) && Enabled(cfg, w, a) && LiveAreRunning(w) && RepairedOnce(w) && Namespace(w).Some?
    requires Select(w.events, RepairOf(juror)) != []
    requires OutcomeHolds(cfg, w, juror, outcome)
    ensures OutcomeHolds(cfg, Next(cfg, w, a), juror, outcome)
  {
    NamespaceNext(cfg, w, a);
    MarkerNext(cfg, w, a);
    ContentNext(cfg, w, a, Slot(Jury, juror));
    var repair := Slot(JuryRepair, juror);
    RowNext(cfg, w, a, repair);
    if outcome.RepairOverBudget? {
      OverBudgetStays(cfg, w, a, juror);
    } else if SucceededAt(w, repair) {
      ContentNext(cfg, w, a, repair);
    }
  }

  lemma RepairEventKept(cfg: Config, w: World, a: Action, juror: Provider)
    requires ValidConfig(cfg) && Enabled(cfg, w, a) && LiveAreRunning(w) && RepairedOnce(w) && RepairEventOk(cfg, w, juror)
    ensures RepairEventOk(cfg, Next(cfg, w, a), juror)
  {
    var found := Select(w.events, RepairOf(juror));
    LogNext(cfg, w, a, RepairOf(juror));
    NamespaceNext(cfg, w, a);
    if found != [] {
      OutcomeStays(cfg, w, a, juror, found[0].outcome);
    } else if a.Note? && a.event.JuryRepairEvent? && a.event.juror == juror {
      NoteKeepsOutcome(cfg, w, a);
    }
  }

  /** Rows, marker and namespace are the same; only notes were added. */
  ghost predicate OnlyNotes(w: World, w': World) {
    w'.slots == w.slots && w'.live == w.live && Namespace(w') == Namespace(w) && MarkerOf(w') == MarkerOf(w)
  }

  lemma OutcomeUnderNotes(cfg: Config, w: World, w': World, juror: Provider, outcome: RepairOutcome)
    requires OnlyNotes(w, w') && Distinct(cfg.roster) && OutcomeHolds(cfg, w, juror, outcome)
    ensures OutcomeHolds(cfg, w', juror, outcome)
  {
    if outcome.RepairOverBudget? {
      PrefixDistinct(cfg.roster, IndexOf(cfg.roster, juror));
      AheadStep(w, w', cfg.roster[..IndexOf(cfg.roster, juror)], None);
    }
  }

  lemma NoteIsOnlyANote(cfg: Config, w: World, a: Action)
    requires ValidConfig(cfg) && Enabled(cfg, w, a) && a.Note? && a.event.JuryRepairEvent?
    ensures OnlyNotes(w, Next(cfg, w, a)) && OutcomeHolds(cfg, w, a.event.juror, a.event.outcome)
  {
    NamespaceNext(cfg, w, a);
    MarkerNext(cfg, w, a);
  }

  lemma NoteKeepsOutcome(cfg: Config, w: World, a: Action)
    requires ValidConfig(cfg) && Enabled(cfg, w, a) && a.Note? && a.event.JuryRepairEvent?
    ensures OutcomeHolds(cfg, Next(cfg, w, a), a.event.juror, a.event.outcome)
  {
    NoteIsOnlyANote(cfg, w, a);
    OutcomeUnderNotes(cfg, w, Next(cfg, w, a), a.event.juror, a.event.outcome);
  }

  lemma PrefixDistinct(xs: seq<Label>, k: nat)
    requires Distinct(xs) && k <= |xs|
    ensures Distinct(xs[..k])
  {
  }

  lemma RepairedOnceKept(cfg: Config, w: World, a: Action)
    requires ValidConfig(cfg) && Enabled(cfg, w, a) && RepairedOnce(w)
    ensures RepairedOnce(Next(cfg, w, a))
  {
    forall s | s in Next(cfg, w, a).slots && s.stage == JuryRepair ensures Next(cfg, w, a).slots[s].callCount == 1 {
      RowNext(cfg, w, a, s);
    }
  }

  lemma RepairsKept(cfg: Config, w: World, a: Action)
    requires ValidConfig(cfg) && Enabled(cfg, w, a) && LiveAreRunning(w) && RepairsInv(cfg, w)
    ensures RepairsInv(cfg, Next(cfg, w, a))
  {
    RepairedOnceKept(cfg, w, a);
    forall juror ensures RepairEventOk(cfg, Next(cfg, w, a), juror) {
      assert RepairEventOk(cfg, w, juror);
      RepairEventKept(cfg, w, a, juror);
    }
  }
}
