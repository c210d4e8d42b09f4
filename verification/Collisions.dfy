/**
 A run that no process can finish. The delimiters of a prompt carry the run's marker, so a provider can repeat one of
 them in a proposal that is otherwise valid; once such a proposal is frozen, no jury prompt can be built any more.
 */
module Collisions {
  import opened Wrappers
  import opened Borda
  import opened Records
  import opened World
  import opened Locks
  import opened Runs

  const MARKER := "0123456789abcdef"

  /** A proposal whose outcome quotes the closing delimiter of its own prompt. */
  function Quoting(): Content {
    Content("", true, ["END_UNTRUSTED_QUESTION_JSON_" + MARKER + " was the last line."], None, false, false)
  }

  lemma QuotingClashes()
    ensures ArtifactMentions(Quoting(), MARKER)
  {
    assert Json.Plain(MARKER);
    Json.QuotingMentions("END_UNTRUSTED_QUESTION_JSON_", MARKER, " was the last line.");
    assert Quoting().artifact[0] in Quoting().artifact;
  }

  /** The smallest configuration: one provider that does everything. */
  ghost predicate Alone(cfg: Config, p: Provider) {
    ValidConfig(cfg) && cfg.roster == [p] && cfg.proposalQuorum == 1 && cfg.minLineages == 1 && !cfg.gated
  }

  function Beginning(p: Provider): seq<Action> {
    [Note(UntrustedMarker(MARKER)), Start(Slot(Proposal, p), ProposalPrompt(MARKER), 0)]
  }

  function Freezing(p: Provider): seq<Action> {
    [Succeed(Slot(Proposal, p), Response(Quoting(), Stop, None, 1), 0), Action.LockNamespace([p], [])]
  }

  lemma TwoSteps(cfg: Config, w: World, a: Action, b: Action)
    requires ValidConfig(cfg) && Enabled(cfg, w, a) && Enabled(cfg, Next(cfg, w, a), b)
    ensures IsRun(cfg, w, [a, b]) && After(cfg, w, [a, b]) == Next(cfg, Next(cfg, w, a), b)
  {
    var w' := Next(cfg, w, a);
    assert [a, b][1..] == [b] && [b][1..] == [];
    assert IsRun(cfg, Next(cfg, w', b), []) && After(cfg, Next(cfg, w', b), []) == Next(cfg, w', b);
    assert IsRun(cfg, w', [b]) && After(cfg, w', [b]) == Next(cfg, w', b);
  }

  lemma Begun(cfg: Config, p: Provider)
    requires Alone(cfg, p)
    ensures IsRun(cfg, EmptyWorld, Beginning(p))
    ensures var w := After(cfg, EmptyWorld, Beginning(p));
      && w.live == map[Slot(Proposal, p) := Free] && w.events == [UntrustedMarker(MARKER)]
      && w.slots == map[Slot(Proposal, p) := NewRow(ProposalPrompt(MARKER), 0)]
  {
    var mark, start := Note(UntrustedMarker(MARKER)), Start(Slot(Proposal, p), ProposalPrompt(MARKER), 0);
    var w1 := Next(cfg, EmptyWorld, mark);
    assert w1.events == [UntrustedMarker(MARKER)];
    OnlyMarker(w1);
    assert StartEnabled(cfg, w1, Slot(Proposal, p));
    TwoSteps(cfg, EmptyWorld, mark, start);
  }

  lemma OnlyMarker(w: World)
    requires w.events == [UntrustedMarker(MARKER)]
    ensures MarkerOf(w) == Some(MARKER) && Namespace(w).None? && Adjudication(w).None?
  {
    assert w.events[1..] == [];
    assert Select(w.events, Markers) == [UntrustedMarker(MARKER)] + Select(w.events[1..], Markers);
    assert Select(w.events, Namespaces) == Select(w.events[1..], Namespaces);
    assert Select(w.events, Adjudications) == Select(w.events[1..], Adjudications);
  }

  lemma ShuffledAlone(cfg: Config, p: Provider)
    requires Alone(cfg, p)
    ensures cfg.shuffle(set q | q in [p]) == [p]
  {
    var s := set q | q in [p];
    var xs := cfg.shuffle(s);
    assert p in s && p in xs;
    forall x | x in xs ensures x in [p] {
      assert x in s;
    }
    Pigeonhole(xs, [p]);
    SameMembers(xs, [p]);
    assert xs[0] in xs;
  }

  /** The quoting proposal is frozen like any other. */
  lemma Locked(cfg: Config, p: Provider, w: World)
    requires Alone(cfg, p) && w.events == [UntrustedMarker(MARKER)]
    requires SucceededAt(w, Slot(Proposal, p)) && ContentAt(w, Slot(Proposal, p)) == Quoting()
    ensures Enabled(cfg, w, Action.LockNamespace([p], []))
    ensures CandidatesClash(Next(cfg, w, Action.LockNamespace([p], [])))
    ensures Adjudication(Next(cfg, w, Action.LockNamespace([p], []))).None?
  {
    var lock := Action.LockNamespace([p], []);
    OnlyMarker(w);
    ShuffledAlone(cfg, p);
    assert (set q | q in [p] :: cfg.lineage(q)) == {cfg.lineage(p)};
    assert NamespaceEnabled(cfg, w, [p], []);
    NamespaceNext(cfg, w, lock);
    MarkerNext(cfg, w, lock);
    AdjudicationNext(cfg, w, lock);
    QuotingClashes();
    assert p in [p];
  }

  lemma Frozen(cfg: Config, p: Provider, w: World)
    requires Alone(cfg, p) && w.events == [UntrustedMarker(MARKER)] && w.live == map[Slot(Proposal, p) := Free]
    requires w.slots == map[Slot(Proposal, p) := NewRow(ProposalPrompt(MARKER), 0)]
    ensures IsRun(cfg, w, Freezing(p))
    ensures CandidatesClash(After(cfg, w, Freezing(p))) && Adjudication(After(cfg, w, Freezing(p))).None?
  {
    Locked(cfg, p, Next(cfg, w, Freezing(p)[0]));
    TwoSteps(cfg, w, Freezing(p)[0], Freezing(p)[1]);
  }

  /** Such a run is reachable: a marker, one proposal, and the namespace lock. */
  lemma StuckIsReachable(cfg: Config, p: Provider)
    requires Alone(cfg, p)
    ensures IsRun(cfg, EmptyWorld, Beginning(p) + Freezing(p))
    ensures CandidatesClash(After(cfg, EmptyWorld, Beginning(p) + Freezing(p)))
    ensures Adjudication(After(cfg, EmptyWorld, Beginning(p) + Freezing(p))).None?
  {
    Begun(cfg, p);
    Frozen(cfg, p, After(cfg, EmptyWorld, Beginning(p)));
    RunConcat(cfg, EmptyWorld, Beginning(p), Freezing(p));
  }

  /** And nothing that can happen to the run ever makes its candidates presentable. */
  lemma StuckForGood(cfg: Config, p: Provider, later: seq<Action>)
    requires Alone(cfg, p) && IsRun(cfg, EmptyWorld, Beginning(p) + Freezing(p) + later)
    ensures CandidatesClash(After(cfg, EmptyWorld, Beginning(p) + Freezing(p) + later))
  {
    var first := Beginning(p) + Freezing(p);
    StuckIsReachable(cfg, p);
    RunPrefix(cfg, EmptyWorld, first + later, |first|);
    assert (first + later)[..|first|] == first && (first + later)[|first|..] == later;
    Reachable(cfg, first);
    CandidatesFrozen(cfg, After(cfg, EmptyWorld, first), later);
  }
}
