/**
 The call budget of a run. Each phase keeps enough calls back for the phases after
 it, over every crash, retry, truncation and undispatched call.
 */
module Budget {
  import opened Borda
  import opened Records
  import opened World
  import opened Locks

  /** The chain slot whose turn it is. */
  function CurrentSlot(cfg: Config, w: World): Slot
    requires Position(w) <= |cfg.chain|
  {
    Slot(Synthesis, cfg.chain[Position(w) - 1])
  }

  /** Calls that must still be available in this phase of the run. */
  function Withheld(cfg: Config, w: World): int
    requires Position(w) <= |cfg.chain|
  {
    if Adjudication(w).Some? then
      |cfg.chain| - Position(w) + if CurrentSlot(cfg, w) in w.slots then 0 else 1
    else if Namespace(w).Some? then
      |cfg.chain|
    else
      |cfg.roster| + |cfg.chain|
  }

  ghost predicate BudgetInv(cfg: Config, w: World) {
    && Position(w) <= |cfg.chain|
    && Calls(w.slots) + Withheld(cfg, w) <= cfg.maxCalls
    && Calls(OfStage(w.slots, Proposal)) + |cfg.roster| + |cfg.chain| <= cfg.maxCalls
  }

  function CountIn(slots: Slots, slot: Slot): nat {
    if slot in slots then slots[slot].callCount else 0
  }

  function CountOf(w: World, slot: Slot): nat {
    CountIn(w.slots, slot)
  }

  /** A call count goes up by a start, down by an undispatched release, and in no other way. */
  lemma CountNext(cfg: Config, w: World, a: Action, slot: Slot)
    requires ValidConfig(cfg) && Enabled(cfg, w, a)
    ensures CountOf(Next(cfg, w, a), slot) == CountOf(w, slot)
              + if a.Start? && a.slot == slot then 1 else if a.Undispatch? && a.slot == slot then -1 else 0
  {
    RowNext(cfg, w, a, slot);
  }

  /** One row written or removed. */
  predicate Rewritten(before: Slots, after: Slots, slot: Slot) {
    (slot in after && after == before[slot := after[slot]]) || (slot !in after && after == before - {slot})
  }

  lemma SlotsNext(cfg: Config, w: World, a: Action)
    requires ValidConfig(cfg) && Enabled(cfg, w, a)
    ensures Touched(a).None? ==> Next(cfg, w, a).slots == w.slots
    ensures Touched(a).Some? ==> Rewritten(w.slots, Next(cfg, w, a).slots, Touched(a).value)
  {
  }

  lemma CallsRewritten(before: Slots, after: Slots, slot: Slot)
    requires Rewritten(before, after, slot)
    ensures Calls(after) == Calls(before) + CountIn(after, slot) - CountIn(before, slot)
  {
    if slot in after {
      CallsUpdate(before, slot, after[slot]);
    } else if slot in before {
      CallsRemove(before, slot);
    } else {
      assert after == before;
    }
  }

  lemma StageRewritten(before: Slots, after: Slots, slot: Slot, stage: Stage)
    requires Rewritten(before, after, slot)
    ensures slot.stage != stage ==> OfStage(after, stage) == OfStage(before, stage)
    ensures slot.stage == stage ==> Rewritten(OfStage(before, stage), OfStage(after, stage), slot)
  {
    if slot in after {
      StageCallsUpdate(before, stage, slot, after[slot]);
    } else if slot in before {
      StageCallsUpdate(before, stage, slot, before[slot]);
    } else {
      assert after == before;
    }
  }

  /** What an action does to the total of call counts: only an undispatched release lowers it, and then by one. */
  lemma CallsNext(cfg: Config, w: World, a: Action)
    requires ValidConfig(cfg) && Enabled(cfg, w, a)
    ensures Calls(Next(cfg, w, a).slots) == Calls(w.slots) + if a.Start? then 1 else if a.Undispatch? then -1 else 0
  {
    SlotsNext(cfg, w, a);
    if Touched(a).Some? {
      CallsRewritten(w.slots, Next(cfg, w, a).slots, Touched(a).value);
      CountNext(cfg, w, a, Touched(a).value);
    }
  }

  /** The same for the calls of one stage. */
  lemma StageCallsNext(cfg: Config, w: World, a: Action, stage: Stage)
    requires ValidConfig(cfg) && Enabled(cfg, w, a)
    ensures Calls(OfStage(Next(cfg, w, a).slots, stage)) == Calls(OfStage(w.slots, stage))
              + if a.Start? && a.slot.stage == stage then 1 else if a.Undispatch? && a.slot.stage == stage then -1 else 0
  {
    SlotsNext(cfg, w, a);
    if Touched(a).Some? {
      var slot, after := Touched(a).value, Next(cfg, w, a).slots;
      StageRewritten(w.slots, after, slot, stage);
      CountNext(cfg, w, a, slot);
      if slot.stage == stage {
        CallsRewritten(OfStage(w.slots, stage), OfStage(after, stage), slot);
      }
    }
  }

  lemma BudgetKept(cfg: Config, w: World, a: Action)
    requires ValidConfig(cfg) && Enabled(cfg, w, a) && LocksInv(cfg, w) && BudgetInv(cfg, w)
    ensures BudgetInv(cfg, Next(cfg, w, a))
  {
    CallsNext(cfg, w, a);
    StageCallsNext(cfg, w, a, Proposal);
    ProposalCallsFit(cfg, w, a);
    WithheldKept(cfg, w, a);
  }

  lemma ProposalCallsFit(cfg: Config, w: World, a: Action)
    requires ValidConfig(cfg) && Enabled(cfg, w, a)
    ensures a.Start? && a.slot.stage == Proposal ==>
      Calls(OfStage(w.slots, Proposal)) + 1 + |cfg.roster| + |cfg.chain| <= cfg.maxCalls
  {
    CallsSubset(OfStage(w.slots, Proposal), w.slots);
  }

  lemma WithheldKept(cfg: Config, w: World, a: Action)
    requires ValidConfig(cfg) && Enabled(cfg, w, a) && LocksInv(cfg, w) && BudgetInv(cfg, w)
    ensures Position(Next(cfg, w, a)) <= |cfg.chain|
    ensures Calls(w.slots) + (if a.Start? then 1 else if a.Undispatch? then -1 else 0)
              + Withheld(cfg, Next(cfg, w, a)) <= cfg.maxCalls
  {
    hide ValidConfig, Clear, MembershipOk, RestoresTo;
    PositionNext(cfg, w, a);
    NamespaceNext(cfg, w, a);
    AdjudicationNext(cfg, w, a);
    RowNext(cfg, w, a, CurrentSlot(cfg, w));
    if a.Start? && a.slot.stage == Synthesis {
      assert cfg.chain[IndexOf(cfg.chain, a.slot.provider)] == a.slot.provider;
    }
  }

  // ----- What the reserves buy -----

  lemma {:induction false} CallsOfStages(slots: Slots)
    ensures Calls(slots) == Calls(OfStage(slots, Proposal)) + Calls(OfStage(slots, Jury))
                            + Calls(OfStage(slots, JuryRepair)) + Calls(OfStage(slots, Synthesis))
    decreases |slots|
  {
    if slots != map[] {
      var s :| s in slots;
      CallsRemove(slots, s);
      CallsRemove(OfStage(slots, s.stage), s);
      CallsOfStages(slots - {s});
      StageCallsUpdate(slots, Proposal, s, slots[s]);
      StageCallsUpdate(slots, Jury, s, slots[s]);
      StageCallsUpdate(slots, JuryRepair, s, slots[s]);
      StageCallsUpdate(slots, Synthesis, s, slots[s]);
    }
  }

  /** How many names of a stage may start: `max(0, remaining - downstream_call_reserve)`. */
  function Capacity(cfg: Config, used: nat, reserve: int): nat {
    Max0(Max0(cfg.maxCalls - used) - reserve)
  }

  function Max0(n: int): nat {
    if n < 0 then 0 else n
  }

  /**
   While the jurors have together spent no more calls than there are jurors already
   asked, every juror not asked yet is admitted. In particular the first pass is.
   */
  lemma FirstJuryPassNeverDenied(cfg: Config, w: World, waiting: nat)
    requires ValidConfig(cfg) && LocksInv(cfg, w) && BudgetInv(cfg, w)
    requires Namespace(w).Some? && Adjudication(w).None?
    requires Calls(OfStage(w.slots, Jury)) + Calls(OfStage(w.slots, JuryRepair)) + waiting <= |cfg.roster|
    ensures waiting <= Capacity(cfg, Calls(w.slots), |cfg.chain|)
  {
    CallsOfStages(w.slots);
    assert OfStage(w.slots, Synthesis) == map[] by {
      assert forall s | s in w.slots :: s.stage != Synthesis;
    }
  }

  /** A chain slot whose turn it is and that was never tried is always admitted. */
  lemma UntriedSynthesisNeverDenied(cfg: Config, w: World)
    requires ValidConfig(cfg) && BudgetInv(cfg, w)
    requires Adjudication(w).Some? && CurrentSlot(cfg, w) !in w.slots
    ensures 1 <= Capacity(cfg, Calls(w.slots), DownstreamReserve(cfg, CurrentSlot(cfg, w)))
  {
    IndexOfDistinct(cfg.chain, Position(w) - 1);
  }

  /** The reserve of each phase, in the terms of the policy's call limit. */
  lemma PhaseReserves(cfg: Config, w: World)
    requires ValidConfig(cfg) && LocksInv(cfg, w) && BudgetInv(cfg, w)
    ensures Calls(w.slots) <= cfg.maxCalls
    ensures Namespace(w).None? ==> Calls(w.slots) <= cfg.maxCalls - |cfg.roster| - |cfg.chain|
    ensures Adjudication(w).None? ==> Calls(w.slots) <= cfg.maxCalls - |cfg.chain|
    ensures Adjudication(w).Some? && CurrentSlot(cfg, w) !in w.slots ==>
      Calls(w.slots) <= cfg.maxCalls - (|cfg.chain| - Position(w) + 1)
  {
  }

  /** The capacity `_parse_and_repair_juries` computes is the one the stage computes. */
  lemma RepairCapacityAgrees(cfg: Config, used: nat)
    ensures Capacity(cfg, used, |cfg.chain|) == Max0(cfg.maxCalls - used - |cfg.chain|)
  {
  }
}
