/**
 Resuming a run rebuilds every prompt from the durable record. The store refuses a
 restart whose prompt differs from the stored one; here is why it never has to.
 */
module Prompts {
  import opened Borda
  import opened Records
  import opened World
  import opened Locks

  /** A repair is only ever asked of a juror whose jury response is on record. */
  ghost predicate RepairsFollowJuries(w: World) {
    forall s | s in w.slots && s.stage == JuryRepair :: SucceededAt(w, Slot(Jury, s.provider))
  }

  ghost predicate PromptsInv(cfg: Config, w: World)
    requires ValidConfig(cfg)
  {
    && RepairsFollowJuries(w)
    && forall s | s in w.slots :: w.slots[s].prompt == PromptOf(cfg, w, s)
  }

  lemma ContentNext(cfg: Config, w: World, a: Action, slot: Slot)
    requires ValidConfig(cfg) && Enabled(cfg, w, a) && SucceededAt(w, slot)
    ensures SucceededAt(Next(cfg, w, a), slot)
    ensures ContentAt(Next(cfg, w, a), slot) == ContentAt(w, slot)
  {
    RowNext(cfg, w, a, slot);
  }

  lemma {:induction false} PlacesWithin(mapping: seq<Provider>, order: seq<Label>)
    requires forall i | i in order :: 0 <= i < |mapping|
    ensures forall p | p in Places(mapping, order) :: p in mapping
  {
    if order != [] {
      assert order[0] in order;
      assert forall i | i in order[1..] :: i in order;
      PlacesWithin(mapping, order[1..]);
    }
  }

  lemma ArtifactsNext(cfg: Config, w: World, a: Action, providers: seq<Provider>)
    requires ValidConfig(cfg) && Enabled(cfg, w, a) && NamespaceOk(cfg, w) && Namespace(w).Some?
    requires forall p | p in providers :: p in Namespace(w).value.mapping
    ensures ProposalArtifacts(Next(cfg, w, a), providers) == ProposalArtifacts(w, providers)
  {
    hide ValidConfig, Enabled, Next, MembershipOk;
    forall i | 0 <= i < |providers|
      ensures ContentAt(Next(cfg, w, a), Slot(Proposal, providers[i])) == ContentAt(w, Slot(Proposal, providers[i]))
    {
      var p := providers[i];
      assert p in providers && p in Namespace(w).value.mapping;
      ContentNext(cfg, w, a, Slot(Proposal, p));
    }
  }

  /** What each stage's prompt is made of is frozen before the stage first starts. */
  ghost predicate PromptFrozen(w: World, slot: Slot) {
    && MarkerOf(w).Some?
    && (slot.stage != Proposal ==> Namespace(w).Some?)
    && (slot.stage == JuryRepair ==> SucceededAt(w, Slot(Jury, slot.provider)))
    && (slot.stage == Synthesis ==> Adjudication(w).Some?)
  }

  lemma PromptNext(cfg: Config, w: World, a: Action, slot: Slot)
    requires ValidConfig(cfg) && Enabled(cfg, w, a) && NamespaceOk(cfg, w) && PromptFrozen(w, slot)
    ensures PromptOf(cfg, Next(cfg, w, a), slot) == PromptOf(cfg, w, slot)
  {
    MarkerNext(cfg, w, a);
    NamespaceNext(cfg, w, a);
    AdjudicationNext(cfg, w, a);
    if slot.stage == Jury {
      var mapping := Namespace(w).value.mapping;
      var order := cfg.present(slot.provider, |mapping|);
      PlacesWithin(mapping, order);
      ArtifactsNext(cfg, w, a, Places(mapping, order));
    } else if slot.stage == JuryRepair {
      ContentNext(cfg, w, a, Slot(Jury, slot.provider));
    } else if slot.stage == Synthesis {
      ArtifactsNext(cfg, w, a, Namespace(w).value.mapping);
    }
  }

  lemma RepairOrderKept(cfg: Config, w: World, a: Action)
    requires ValidConfig(cfg) && Enabled(cfg, w, a) && RepairsFollowJuries(w)
    ensures RepairsFollowJuries(Next(cfg, w, a))
  {
    forall s | s in Next(cfg, w, a).slots && s.stage == JuryRepair
      ensures SucceededAt(Next(cfg, w, a), Slot(Jury, s.provider))
    {
      RowNext(cfg, w, a, s);
      RowNext(cfg, w, a, Slot(Jury, s.provider));
    }
  }

  /** A row keeps its prompt for as long as it exists. */
  lemma PromptColumn(cfg: Config, w: World, a: Action, slot: Slot)
    requires ValidConfig(cfg) && Enabled(cfg, w, a) && slot in Next(cfg, w, a).slots
    ensures slot in w.slots ==> Next(cfg, w, a).slots[slot].prompt == w.slots[slot].prompt
    ensures slot !in w.slots ==> a.Start? && a.slot == slot && Next(cfg, w, a).slots[slot].prompt == PromptOf(cfg, w, slot)
  {
  }

  lemma StartFreezes(cfg: Config, w: World, a: Action)
    requires ValidConfig(cfg) && Enabled(cfg, w, a) && AdjudicationOk(cfg, w)
    ensures a.Start? ==> PromptFrozen(w, a.slot)
  {
  }

  lemma PromptsKept(cfg: Config, w: World, a: Action)
    requires ValidConfig(cfg) && Enabled(cfg, w, a) && LocksInv(cfg, w) && PromptsInv(cfg, w)
    ensures PromptsInv(cfg, Next(cfg, w, a))
  {
    RepairOrderKept(cfg, w, a);
    forall s | s in Next(cfg, w, a).slots
      ensures Next(cfg, w, a).slots[s].prompt == PromptOf(cfg, Next(cfg, w, a), s)
    {
      PromptColumn(cfg, w, a, s);
      StartFreezes(cfg, w, a);
      PromptNext(cfg, w, a, s);
    }
  }
}
