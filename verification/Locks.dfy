/**
 The durable locks and the fallback chain: what every reachable world satisfies, and
 why the loaders that validate those events on every resume always accept them.
 */
module Locks {
  import opened Wrappers
  import opened Borda
  import opened Records
  import opened World
  import opened Audit

  /** The slot an action rewrites, if any. */
  function Touched(a: Action): Option<Slot> {
    match a
    case Start(slot, _, _) => Some(slot)
    case Succeed(slot, _, _) => Some(slot)
    case Fail(slot, _, _) => Some(slot)
    case Settle(slot, _, _) => Some(slot)
    case Undispatch(slot, _, _, _) => Some(slot)
    case _ => None
  }

  /** Only the touched row changes, and a row that succeeded never does. */
  lemma RowNext(cfg: Config, w: World, a: Action, slot: Slot)
    requires ValidConfig(cfg) && Enabled(cfg, w, a)
    ensures Touched(a) != Some(slot) ==>
      (slot in Next(cfg, w, a).slots <==> slot in w.slots)
      && (slot in w.slots ==> Next(cfg, w, a).slots[slot] == w.slots[slot])
    ensures slot in w.slots && w.slots[slot].status == Succeeded ==> Touched(a) != Some(slot)
    ensures slot in w.slots && w.slots[slot].status == Failed && Touched(a) == Some(slot) ==> a.Start?
  {
  }

  // ----- The invariant -----

  ghost predicate AtMostOneLock(w: World) {
    && |Select(w.events, Namespaces)| <= 1
    && |Select(w.events, Adjudications)| <= 1
    && |Select(w.events, Markers)| <= 1
  }

  ghost predicate SlotsBelong(cfg: Config, w: World) {
    forall s | s in w.slots ::
      && s.provider in cfg.roster
      && MarkerOf(w).Some?
      && (s.stage != Proposal ==> Namespace(w).Some?)
      && (s.stage == Synthesis ==> Adjudication(w).Some? && s.provider in cfg.chain
                                   && IndexOf(cfg.chain, s.provider) + 1 <= Position(w))
  }

  ghost predicate NamespaceOk(cfg: Config, w: World) {
    Namespace(w).Some? ==>
      && MembershipOk(cfg, Namespace(w).value.mapping, Namespace(w).value.proposalFailures)
      && forall p | p in Namespace(w).value.mapping ::
           && Slot(Proposal, p) in w.slots
           && w.slots[Slot(Proposal, p)].status == Succeeded
           && ContentAt(w, Slot(Proposal, p)).isProposal
  }

  ghost predicate AdjudicationOk(cfg: Config, w: World) {
    Adjudication(w).Some? ==>
      && Namespace(w).Some?
      && Adjudication(w).value.lockedMapping == Namespace(w).value.mapping
      && PanelOk(cfg, Namespace(w).value.mapping, Adjudication(w).value.juryRecords, Adjudication(w).value.juryFailures)
  }

  /** Transition i records why chain position i + 1 was given up, and its row still says the same. */
  predicate FallbackOk(cfg: Config, w: World, i: nat)
    requires i < |Select(w.events, Fallbacks)|
  {
    var e := Select(w.events, Fallbacks)[i];
    && i + 1 < |cfg.chain|
    && e == FallbackAdvanced(i + 1, cfg.chain[i], i + 2, cfg.chain[i + 1], e.failure.category, e.failure.ambiguous, e.failure)
    && var slot := Slot(Synthesis, cfg.chain[i]);
       slot in w.slots ==> w.slots[slot].status == Failed && w.slots[slot].error == Some(e.failure)
  }

  ghost predicate FallbacksOk(cfg: Config, w: World) {
    && Position(w) <= |cfg.chain|
    && (Position(w) > 1 ==> Adjudication(w).Some?)
    && forall i | 0 <= i < |Select(w.events, Fallbacks)| :: FallbackOk(cfg, w, i)
  }

  ghost predicate LocksInv(cfg: Config, w: World) {
    && AtMostOneLock(w)
    && SlotsBelong(cfg, w)
    && NamespaceOk(cfg, w)
    && AdjudicationOk(cfg, w)
    && FallbacksOk(cfg, w)
  }

  // ----- Preservation -----

  /** What an action adds to the selection of a query. */
  ghost function Adds(cfg: Config, w: World, a: Action, q: Query): seq<Event>
    requires ValidConfig(cfg) && Enabled(cfg, w, a)
  {
    var e := Written(cfg, w, a);
    if |e| == 1 && Matches(q, e[0]) then e else []
  }

  /** Apart from retry events, the log is only ever added to. */
  lemma LogNext(cfg: Config, w: World, a: Action, q: Query)
    requires ValidConfig(cfg) && Enabled(cfg, w, a) && !q.RetryOf?
    ensures Select(Next(cfg, w, a).events, q) == Select(w.events, q) + Adds(cfg, w, a, q)
  {
    SelectNext(cfg, w, a, q);
    WrittenOne(cfg, w, a);
    SelectOne(Written(cfg, w, a), q);
  }

  lemma NamespaceNext(cfg: Config, w: World, a: Action)
    requires ValidConfig(cfg) && Enabled(cfg, w, a)
    ensures Select(Next(cfg, w, a).events, Namespaces)
            == Select(w.events, Namespaces) + if a.LockNamespace? then [NamespaceLocked(a.mapping, a.proposalFailures)] else []
    ensures Namespace(w).Some? || !a.LockNamespace? ==> Namespace(Next(cfg, w, a)) == Namespace(w)
  {
    LogNext(cfg, w, a, Namespaces);
  }

  lemma AdjudicationNext(cfg: Config, w: World, a: Action)
    requires ValidConfig(cfg) && Enabled(cfg, w, a)
    ensures a.LockAdjudication? ==>
      Select(Next(cfg, w, a).events, Adjudications)
      == Select(w.events, Adjudications) + [AdjudicationLocked(Namespace(w).value.mapping, a.juryRecords, a.juryFailures)]
    ensures !a.LockAdjudication? ==> Select(Next(cfg, w, a).events, Adjudications) == Select(w.events, Adjudications)
    ensures Adjudication(w).Some? || !a.LockAdjudication? ==> Adjudication(Next(cfg, w, a)) == Adjudication(w)
  {
    LogNext(cfg, w, a, Adjudications);
  }

  lemma MarkerNext(cfg: Config, w: World, a: Action)
    requires ValidConfig(cfg) && Enabled(cfg, w, a)
    ensures Select(Next(cfg, w, a).events, Markers)
            == Select(w.events, Markers) + if a.Note? && a.event.UntrustedMarker? then [a.event] else []
    ensures MarkerOf(w).Some? ==> MarkerOf(Next(cfg, w, a)) == MarkerOf(w)
  {
    LogNext(cfg, w, a, Markers);
  }

  lemma PositionNext(cfg: Config, w: World, a: Action)
    requires ValidConfig(cfg) && Enabled(cfg, w, a)
    ensures a.Advance? ==>
      Select(Next(cfg, w, a).events, Fallbacks) == Select(w.events, Fallbacks) + [FallbackEvent(cfg, w, a.failure)]
    ensures !a.Advance? ==> Select(Next(cfg, w, a).events, Fallbacks) == Select(w.events, Fallbacks)
    ensures Position(Next(cfg, w, a)) == Position(w) + if a.Advance? then 1 else 0
  {
    LogNext(cfg, w, a, Fallbacks);
  }

  lemma LocksKept(cfg: Config, w: World, a: Action)
    requires ValidConfig(cfg) && Enabled(cfg, w, a) && LocksInv(cfg, w)
    ensures LocksInv(cfg, Next(cfg, w, a))
  {
    OneLockKept(cfg, w, a);
    SlotsBelongKept(cfg, w, a);
    NamespaceKept(cfg, w, a);
    AdjudicationKept(cfg, w, a);
    FallbacksKept(cfg, w, a);
  }

  lemma OneLockKept(cfg: Config, w: World, a: Action)
    requires ValidConfig(cfg) && Enabled(cfg, w, a) && AtMostOneLock(w)
    ensures AtMostOneLock(Next(cfg, w, a))
  {
    NamespaceNext(cfg, w, a);
    AdjudicationNext(cfg, w, a);
    MarkerNext(cfg, w, a);
  }

  lemma SlotsBelongKept(cfg: Config, w: World, a: Action)
    requires ValidConfig(cfg) && Enabled(cfg, w, a) && SlotsBelong(cfg, w) && AdjudicationOk(cfg, w)
    ensures SlotsBelong(cfg, Next(cfg, w, a))
  {
    NamespaceNext(cfg, w, a);
    AdjudicationNext(cfg, w, a);
    MarkerNext(cfg, w, a);
    PositionNext(cfg, w, a);
    var w' := Next(cfg, w, a);
    forall s | s in w'.slots
      ensures s.provider in cfg.roster && MarkerOf(w').Some?
      ensures s.stage != Proposal ==> Namespace(w').Some?
      ensures s.stage == Synthesis ==> Adjudication(w').Some? && s.provider in cfg.chain
                                       && IndexOf(cfg.chain, s.provider) + 1 <= Position(w')
    {
      RowNext(cfg, w, a, s);
      if s in w.slots {
        assert MarkerOf(w).Some?;
      }
    }
  }

  lemma NamespaceKept(cfg: Config, w: World, a: Action)
    requires ValidConfig(cfg) && Enabled(cfg, w, a) && NamespaceOk(cfg, w)
    ensures NamespaceOk(cfg, Next(cfg, w, a))
  {
    NamespaceNext(cfg, w, a);
    var w' := Next(cfg, w, a);
    if Namespace(w').Some? {
      forall p | p in Namespace(w').value.mapping
        ensures Slot(Proposal, p) in w'.slots && w'.slots[Slot(Proposal, p)].status == Succeeded
                && ContentAt(w', Slot(Proposal, p)).isProposal
      {
        RowNext(cfg, w, a, Slot(Proposal, p));
      }
    }
  }

  lemma AdjudicationKept(cfg: Config, w: World, a: Action)
    requires ValidConfig(cfg) && Enabled(cfg, w, a) && AdjudicationOk(cfg, w)
    ensures AdjudicationOk(cfg, Next(cfg, w, a))
  {
    NamespaceNext(cfg, w, a);
    AdjudicationNext(cfg, w, a);
  }

  lemma FallbacksKept(cfg: Config, w: World, a: Action)
    requires ValidConfig(cfg) && Enabled(cfg, w, a) && FallbacksOk(cfg, w)
    ensures FallbacksOk(cfg, Next(cfg, w, a))
  {
    PositionNext(cfg, w, a);
    AdjudicationNext(cfg, w, a);
    var w' := Next(cfg, w, a);
    var f, f' := Select(w.events, Fallbacks), Select(w'.events, Fallbacks);
    forall i | 0 <= i < |f'| ensures FallbackOk(cfg, w', i) {
      var slot := Slot(Synthesis, cfg.chain[i]);
      RowNext(cfg, w, a, slot);
      IndexOfDistinct(cfg.chain, i);
      if i < |f| {
        assert f'[i] == f[i];
        assert FallbackOk(cfg, w, i);
      }
    }
  }

  // ----- The loaders -----

  /** `_load_candidate_namespace_lock` */
  function LoadNamespace(cfg: Config, events: seq<Event>): Result<Option<Event>> {
    var found := Select(events, Namespaces);
    if found == [] then Ok(None)
    else if |found| != 1 then Err("Run contains duplicate candidate namespace locks")
    else if !MembershipOk(cfg, found[0].mapping, found[0].proposalFailures) then
      Err("Frozen proposal membership is inconsistent")
    else Ok(Some(found[0]))
  }

  /** `_load_adjudication_lock` */
  function LoadAdjudication(cfg: Config, events: seq<Event>, namespaceLock: Option<Event>): Result<Option<Event>>
    requires namespaceLock.Some? ==> namespaceLock.value.NamespaceLocked?
  {
    var found := Select(events, Adjudications);
    if found == [] then Ok(None)
    else if namespaceLock.None? then Err("Adjudication lock exists without a candidate namespace")
    else if |found| != 1 then Err("Run contains duplicate adjudication locks")
    else if found[0].lockedMapping != namespaceLock.value.mapping then
      Err("Adjudication lock candidate namespace is inconsistent")
    else if !PanelOk(cfg, namespaceLock.value.mapping, found[0].juryRecords, found[0].juryFailures) then
      Err("Locked jury membership is inconsistent")
    else if !ValidLabels(namespaceLock.value.mapping) then Err("Locked jury judgments are inconsistent")
    else Ok(Some(found[0]))
  }

  datatype FallbackState = FallbackState(position: nat, advanced: seq<StageFailure>)

  function AdvancedFailures(found: seq<Event>): seq<StageFailure>
    requires forall e | e in found :: e.FallbackAdvanced?
  {
    seq(|found|, i requires 0 <= i < |found| =>
      assert found[i] in found; StageFailure(Synthesis, found[i].fromProvider, found[i].failure))
  }

  /** `_load_synthesis_fallback_state`: the current position, and the failures of the positions before it. */
  function LoadFallback(cfg: Config, w: World): Result<FallbackState> {
    var found := Select(w.events, Fallbacks);
    if !(forall i | 0 <= i < |found| :: FallbackOk(cfg, w, i)) then
      Err("Synthesis fallback audit event is inconsistent")
    else if exists p :: p in cfg.chain && Slot(Synthesis, p) in w.slots
                        && w.slots[Slot(Synthesis, p)].status == Succeeded
                        && IndexOf(cfg.chain, p) != |found| then
      Err("Synthesis fallback audit state disagrees with successful invocations")
    else
      Ok(FallbackState(|found| + 1, AdvancedFailures(found)))
  }

  /** On every reachable world the three loaders accept what they find. */
  lemma LoadersAccept(cfg: Config, w: World)
    requires ValidConfig(cfg) && LocksInv(cfg, w)
    ensures LoadNamespace(cfg, w.events) == Ok(Namespace(w))
    ensures LoadAdjudication(cfg, w.events, Namespace(w)) == Ok(Adjudication(w))
    ensures LoadFallback(cfg, w).Ok? && LoadFallback(cfg, w).value.position == Position(w)
  {
    var found := Select(w.events, Fallbacks);
    forall p | p in cfg.chain && Slot(Synthesis, p) in w.slots && w.slots[Slot(Synthesis, p)].status == Succeeded
      ensures IndexOf(cfg.chain, p) == |found|
    {
      var i := IndexOf(cfg.chain, p);
      assert i < |found| ==> FallbackOk(cfg, w, i);
    }
  }

  /** At most one slot of the chain ever holds a successful synthesis. */
  lemma OneSynthesisSucceeds(cfg: Config, w: World, p: Provider, q: Provider)
    requires ValidConfig(cfg) && LocksInv(cfg, w)
    requires Slot(Synthesis, p) in w.slots && w.slots[Slot(Synthesis, p)].status == Succeeded
    requires Slot(Synthesis, q) in w.slots && w.slots[Slot(Synthesis, q)].status == Succeeded
    ensures p == q
  {
    LoadersAccept(cfg, w);
    assert p in cfg.chain && q in cfg.chain;
    assert IndexOf(cfg.chain, p) == IndexOf(cfg.chain, q);
  }
}
