/**
 Whole runs: what holds in every world that any mix of completions, crashes, resumes,
 retries, truncations and undispatched calls can reach, and what never happens again
 once something has happened.
 */
module Runs {
  import opened Wrappers
  import opened Borda
  import opened BordaLaws
  import opened Json
  import opened Records
  import opened World
  import opened Audit
  import opened Locks
  import opened Budget
  import opened Prompts
  import opened Repairs
  import opened TwoLedgers

  ghost predicate Inv(cfg: Config, w: World)
    requires ValidConfig(cfg)
  {
    && AuditInv(cfg, w)
    && LocksInv(cfg, w)
    && BudgetInv(cfg, w)
    && PromptsInv(cfg, w)
    && RepairsInv(cfg, w)
    && (cfg.gated ==> LedgerInv(w))
  }

  lemma InvKept(cfg: Config, w: World, a: Action)
    requires ValidConfig(cfg) && Enabled(cfg, w, a) && Inv(cfg, w)
    ensures Inv(cfg, Next(cfg, w, a))
  {
    AuditKept(cfg, w, a);
    LocksKept(cfg, w, a);
    BudgetKept(cfg, w, a);
    PromptsKept(cfg, w, a);
    RepairsKept(cfg, w, a);
    if cfg.gated {
      LedgerKept(cfg, w, a);
    }
  }

  lemma InitialInv(cfg: Config)
    requires ValidConfig(cfg)
    ensures Inv(cfg, EmptyWorld)
  {
    assert OfStage(map[], Proposal) == map[];
    assert forall s :: ViewOf(EmptyWorld, s) == View(None, None, None);
  }

  lemma {:induction false} RunKeepsInv(cfg: Config, w: World, actions: seq<Action>)
    requires ValidConfig(cfg) && IsRun(cfg, w, actions) && Inv(cfg, w)
    ensures Inv(cfg, After(cfg, w, actions))
    decreases |actions|
  {
    if actions != [] {
      InvKept(cfg, w, actions[0]);
      RunKeepsInv(cfg, Next(cfg, w, actions[0]), actions[1..]);
    }
  }

  /** Every history from a fresh run, stopped anywhere, satisfies the invariant. */
  lemma Reachable(cfg: Config, actions: seq<Action>)
    requires ValidConfig(cfg) && IsRun(cfg, EmptyWorld, actions)
    ensures Inv(cfg, After(cfg, EmptyWorld, actions))
  {
    InitialInv(cfg);
    RunKeepsInv(cfg, EmptyWorld, actions);
  }

  /** No reader of the event log ever raises, whatever the history. */
  lemma ReadersNeverRaise(cfg: Config, actions: seq<Action>)
    requires ValidConfig(cfg) && IsRun(cfg, EmptyWorld, actions)
    ensures var w := After(cfg, EmptyWorld, actions);
            && LoadNamespace(cfg, w.events) == Ok(Namespace(w))
            && LoadAdjudication(cfg, w.events, Namespace(w)) == Ok(Adjudication(w))
            && LoadFallback(cfg, w).Ok?
            && forall slot :: ReadRetries(cfg, w, slot) == Complete
  {
    Reachable(cfg, actions);
    var w := After(cfg, EmptyWorld, actions);
    LoadersAccept(cfg, w);
    forall slot ensures ReadRetries(cfg, w, slot) == Complete {
      RetryReaderNeverRaises(cfg, w, slot);
    }
  }

  // ----- Call counts and attempts over a whole history -----

  function Starts(actions: seq<Action>, slot: Slot): nat {
    if actions == [] then 0 else
      (if actions[0].Start? && actions[0].slot == slot then 1 else 0) + Starts(actions[1..], slot)
  }

  function Releases(actions: seq<Action>, slot: Slot): nat {
    if actions == [] then 0 else
      (if actions[0].Undispatch? && actions[0].slot == slot then 1 else 0) + Releases(actions[1..], slot)
  }

  /** The attempt number of a slot is the number of its starts, and its call count is short of that by the releases. */
  lemma {:induction false} AttemptsAreStarts(cfg: Config, w: World, actions: seq<Action>, slot: Slot)
    requires ValidConfig(cfg) && IsRun(cfg, w, actions)
    ensures AttemptNumber(After(cfg, w, actions), slot) == AttemptNumber(w, slot) + Starts(actions, slot)
    ensures CountOf(After(cfg, w, actions), slot) + Releases(actions, slot) == CountOf(w, slot) + Starts(actions, slot)
    decreases |actions|
  {
    if actions != [] {
      AttemptNext(cfg, w, actions[0], slot);
      CountNext(cfg, w, actions[0], slot);
      AttemptsAreStarts(cfg, Next(cfg, w, actions[0]), actions[1..], slot);
    }
  }

  /** Over the whole life of a run no slot is ever retried more often for truncation than the policy allows. */
  lemma TruncationRetriesBounded(cfg: Config, actions: seq<Action>, slot: Slot)
    requires ValidConfig(cfg) && IsRun(cfg, EmptyWorld, actions)
    ensures TruncationRetries(Retries(After(cfg, EmptyWorld, actions), slot)) <= cfg.truncationRetries
  {
    Reachable(cfg, actions);
  }

  // ----- The two ledgers over a whole history -----

  lemma LedgersAgreeOverRuns(cfg: Config, actions: seq<Action>)
    requires ValidConfig(cfg) && cfg.gated && IsRun(cfg, EmptyWorld, actions)
    ensures var w := After(cfg, EmptyWorld, actions);
            |ReconciledIds(w.ledger)| <= Calls(w.slots) <= |ReconciledIds(w.ledger)| + |UndecidedSlots(w)|
  {
    Reachable(cfg, actions);
    LedgersAgree(After(cfg, EmptyWorld, actions));
  }

  /** A history none of whose processes died inside a provider call. */
  ghost predicate Orderly(cfg: Config, w: World, actions: seq<Action>)
    requires ValidConfig(cfg) && IsRun(cfg, w, actions)
    decreases |actions|
  {
    actions != [] ==>
      NoCrashInCall(w, actions[0]) && Orderly(cfg, Next(cfg, w, actions[0]), actions[1..])
  }

  lemma {:induction false} OrderlyLosesNothing(cfg: Config, w: World, actions: seq<Action>)
    requires ValidConfig(cfg) && cfg.gated && IsRun(cfg, w, actions) && Inv(cfg, w)
    requires NothingLost(w) && Orderly(cfg, w, actions)
    ensures NothingLost(After(cfg, w, actions))
    decreases |actions|
  {
    if actions != [] {
      InvKept(cfg, w, actions[0]);
      NothingLostKept(cfg, w, actions[0]);
      OrderlyLosesNothing(cfg, Next(cfg, w, actions[0]), actions[1..]);
    }
  }

  /** With no crash inside a call, the units the ledger lacks are exactly the ambiguous calls. */
  lemma OrderlyLedgersAgree(cfg: Config, actions: seq<Action>)
    requires ValidConfig(cfg) && cfg.gated && IsRun(cfg, EmptyWorld, actions) && Orderly(cfg, EmptyWorld, actions)
    requires After(cfg, EmptyWorld, actions).live == map[]
    ensures var w := After(cfg, EmptyWorld, actions);
            Calls(w.slots) == |ReconciledIds(w.ledger)| + |UndecidedSlots(w)|
  {
    InitialInv(cfg);
    Reachable(cfg, actions);
    assert forall s :: ViewOf(EmptyWorld, s) == View(None, None, None);
    OrderlyLosesNothing(cfg, EmptyWorld, actions);
    LedgersAgreeExactly(After(cfg, EmptyWorld, actions));
  }

  // ----- Ambiguity is absorbing -----

  /** A row that failed with an unknown outcome, or that a later process found running. */
  predicate IsLost(w: World, slot: Slot) {
    slot in w.slots && (IsAmbiguous(w.slots[slot]) || (w.slots[slot].status == Running && slot !in w.live))
  }

  lemma LostStays(cfg: Config, w: World, a: Action, slot: Slot)
    requires ValidConfig(cfg) && Enabled(cfg, w, a) && IsLost(w, slot)
    ensures IsLost(Next(cfg, w, a), slot)
    ensures IsAmbiguous(w.slots[slot]) ==> Next(cfg, w, a).slots[slot] == w.slots[slot]
    ensures !(a.Start? && a.slot.provider == slot.provider)
  {
    RowNext(cfg, w, a, slot);
  }

  /** From then on the run starts nothing for that provider, in any stage, and the failed row never changes. */
  lemma {:induction false} AmbiguityIsAbsorbing(cfg: Config, w: World, actions: seq<Action>, slot: Slot)
    requires ValidConfig(cfg) && IsRun(cfg, w, actions) && IsLost(w, slot)
    ensures forall i | 0 <= i < |actions| :: !(actions[i].Start? && actions[i].slot.provider == slot.provider)
    ensures IsLost(After(cfg, w, actions), slot)
    ensures IsAmbiguous(w.slots[slot]) ==> After(cfg, w, actions).slots[slot] == w.slots[slot]
    decreases |actions|
  {
    if actions != [] {
      LostStays(cfg, w, actions[0], slot);
      AmbiguityIsAbsorbing(cfg, Next(cfg, w, actions[0]), actions[1..], slot);
      forall i | 0 <= i < |actions| ensures !(actions[i].Start? && actions[i].slot.provider == slot.provider) {
        assert i > 0 ==> actions[i] == actions[1..][i - 1];
      }
    }
  }

  /** A process that finds a row running has lost it. */
  lemma ResumeLosesRunning(cfg: Config, w: World, slot: Slot)
    requires ValidConfig(cfg) && slot in w.slots && w.slots[slot].status == Running
    ensures IsLost(Next(cfg, w, Resume), slot)
  {
  }

  // ----- The fallback chain only moves forward -----

  lemma {:induction false} ChainMovesForward(cfg: Config, w: World, actions: seq<Action>)
    requires ValidConfig(cfg) && IsRun(cfg, w, actions)
    ensures Position(w) <= Position(After(cfg, w, actions))
    ensures forall i | 0 <= i < |actions| && actions[i].Start? && actions[i].slot.stage == Synthesis ::
              Position(w) <= IndexOf(cfg.chain, actions[i].slot.provider) + 1
    decreases |actions|
  {
    if actions != [] {
      PositionNext(cfg, w, actions[0]);
      ChainMovesForward(cfg, Next(cfg, w, actions[0]), actions[1..]);
      forall i | 0 <= i < |actions| && actions[i].Start? && actions[i].slot.stage == Synthesis
        ensures Position(w) <= IndexOf(cfg.chain, actions[i].slot.provider) + 1
      {
        assert i > 0 ==> actions[i] == actions[1..][i - 1];
      }
    }
  }

  // ----- What is frozen stays frozen -----

  lemma {:induction false} SuccessIsFinal(cfg: Config, w: World, actions: seq<Action>, slot: Slot)
    requires ValidConfig(cfg) && IsRun(cfg, w, actions) && SucceededAt(w, slot)
    ensures SucceededAt(After(cfg, w, actions), slot) && After(cfg, w, actions).slots[slot] == w.slots[slot]
    decreases |actions|
  {
    if actions != [] {
      RowNext(cfg, w, actions[0], slot);
      SuccessIsFinal(cfg, Next(cfg, w, actions[0]), actions[1..], slot);
    }
  }

  lemma {:induction false} LocksAreFinal(cfg: Config, w: World, actions: seq<Action>)
    requires ValidConfig(cfg) && IsRun(cfg, w, actions)
    ensures Namespace(w).Some? ==> Namespace(After(cfg, w, actions)) == Namespace(w)
    ensures Adjudication(w).Some? ==> Adjudication(After(cfg, w, actions)) == Adjudication(w)
    decreases |actions|
  {
    if actions != [] {
      NamespaceNext(cfg, w, actions[0]);
      AdjudicationNext(cfg, w, actions[0]);
      LocksAreFinal(cfg, Next(cfg, w, actions[0]), actions[1..]);
    }
  }

  lemma {:induction false} MarkerIsFinal(cfg: Config, w: World, actions: seq<Action>)
    requires ValidConfig(cfg) && IsRun(cfg, w, actions) && MarkerOf(w).Some?
    ensures MarkerOf(After(cfg, w, actions)) == MarkerOf(w)
    decreases |actions|
  {
    if actions != [] {
      MarkerNext(cfg, w, actions[0]);
      MarkerIsFinal(cfg, Next(cfg, w, actions[0]), actions[1..]);
    }
  }

  /** Whether the candidates can be shown to jurors is decided when they are frozen, for good. */
  lemma CandidatesFrozen(cfg: Config, w: World, actions: seq<Action>)
    requires ValidConfig(cfg) && IsRun(cfg, w, actions) && NamespaceOk(cfg, w)
    requires Namespace(w).Some? && MarkerOf(w).Some?
    ensures CandidatesClash(After(cfg, w, actions)) == CandidatesClash(w)
  {
    LocksAreFinal(cfg, w, actions);
    MarkerIsFinal(cfg, w, actions);
    forall p | p in Namespace(w).value.mapping
      ensures ContentAt(After(cfg, w, actions), Slot(Proposal, p)) == ContentAt(w, Slot(Proposal, p))
    {
      SuccessIsFinal(cfg, w, actions, Slot(Proposal, p));
    }
  }

  function Ballots(records: seq<JuryRecord>): seq<Judgment> {
    if records == [] then []
    else (if records[0].judgment.Some? then [records[0].judgment.value] else []) + Ballots(records[1..])
  }

  /** It refuses the synthesis prompt: what a ballot of the panel reports, and the aggregate therefore repeats, contains the marker. */
  predicate PanelMentions(w: World) {
    && MarkerOf(w).Some? && Adjudication(w).Some?
    && exists j | j in Ballots(Adjudication(w).value.juryRecords) ::
         ValidJudgment(Adjudication(w).value.lockedMapping, j) && ProseMentions(j.prose, MarkerOf(w).value)
  }

  predicate ReportMentions(a: Aggregate, marker: string) {
    exists t | t in a.disagreements + a.verification :: Mentions(t, marker)
  }

  lemma ReportedSomewhere(panel: Option<Event>, listed: seq<Provider>, a: Aggregate, marker: string)
    requires AggregatesTo(panel, listed, a)
    ensures ReportMentions(a, marker) <==>
      exists j :: j in Ballots(panel.value.juryRecords) && ValidJudgment(panel.value.lockedMapping, j) && ProseMentions(j.prose, marker)
  {
    var ballots := Ballots(panel.value.juryRecords);
    forall j ensures ValidJudgment(listed, j) == ValidJudgment(panel.value.lockedMapping, j) {
      SameCounted(listed, panel.value.lockedMapping, j);
    }
    if ReportMentions(a, marker) {
      var t :| t in a.disagreements + a.verification && Mentions(t, marker);
      var j :| j in ballots && ValidJudgment(listed, j) && t in j.prose.disagreements + j.prose.verification;
      assert ProseMentions(j.prose, marker);
    }
    if j :| j in ballots && ValidJudgment(panel.value.lockedMapping, j) && ProseMentions(j.prose, marker) {
      var t :| t in j.prose.disagreements + j.prose.verification && Mentions(t, marker);
      assert t in DisagreementsOf(j.prose) + VerificationOf(j.prose);
      assert t in a.disagreements + a.verification;
    }
  }

  /** `a` is what a resume computes from an adjudication lock when it lists the proposals in this order. */
  ghost predicate AggregatesTo(panel: Option<Event>, listed: seq<Provider>, a: Aggregate) {
    && panel.Some? && panel.value.AdjudicationLocked?
    && multiset(listed) == multiset(panel.value.lockedMapping)
    && IsAggregate(Ballots(panel.value.juryRecords), listed, a)
  }

  lemma SamePanelSameAggregate(panel: Option<Event>, listed: seq<Provider>, a: Aggregate,
                               relisted: seq<Provider>, b: Aggregate)
    requires AggregatesTo(panel, listed, a) && AggregatesTo(panel, relisted, b)
    ensures a == b
  {
    var ballots := Ballots(panel.value.juryRecords);
    AggregateIgnoresOrder(ballots, listed, a, ballots, relisted, b);
  }

  /** Every resume after adjudication recomputes the same aggregate, in whatever order it lists the proposals. */
  lemma FrozenAggregate(cfg: Config, w: World, actions: seq<Action>,
                        listed: seq<Provider>, first: Aggregate, relisted: seq<Provider>, again: Aggregate)
    requires ValidConfig(cfg) && IsRun(cfg, w, actions)
    requires AggregatesTo(Adjudication(w), listed, first)
    requires AggregatesTo(Adjudication(After(cfg, w, actions)), relisted, again)
    ensures first == again
  {
    LocksAreFinal(cfg, w, actions);
    SamePanelSameAggregate(Adjudication(w), listed, first, relisted, again);
  }
}
