/**
 The panel that is frozen at adjudication: in every reachable world its records are the
 answers on record, and every vote in it is the decision its juror made in the first place.
 */
module Panels {
  import opened Borda
  import opened Records
  import opened World
  import opened Locks

  /** Once adjudicated, nothing but synthesis is in flight and the frozen records are still those of the rows. */
  ghost predicate PanelInv(cfg: Config, w: World) {
    Adjudication(w).Some? ==>
      && (forall s | s in w.live :: s.stage == Synthesis)
      && MarkerOf(w).Some? && Namespace(w).Some?
      && Faithful(cfg, w, Namespace(w).value.mapping, Adjudication(w).value.juryRecords)
  }

  ghost predicate IsJury(s: Slot) {
    s.stage == Jury || s.stage == JuryRepair
  }

  /** After adjudication no jury or repair row gains or loses an answer. */
  lemma JuryRowKept(cfg: Config, w: World, a: Action, s: Slot)
    requires ValidConfig(cfg) && Enabled(cfg, w, a) && IsJury(s)
    requires Adjudication(w).Some? && forall s | s in w.live :: s.stage == Synthesis
    ensures SucceededAt(Next(cfg, w, a), s) == SucceededAt(w, s)
    ensures SucceededAt(w, s) ==> ContentAt(Next(cfg, w, a), s) == ContentAt(w, s)
  {
    RowNext(cfg, w, a, s);
  }

  lemma JudgmentKept(cfg: Config, w: World, a: Action, p: Provider)
    requires ValidConfig(cfg) && Enabled(cfg, w, a) && PanelInv(cfg, w) && Adjudication(w).Some?
    ensures JudgmentAt(cfg, Next(cfg, w, a), p) == JudgmentAt(cfg, w, p)
    ensures SucceededAt(Next(cfg, w, a), Slot(Jury, p)) == SucceededAt(w, Slot(Jury, p))
  {
    JuryRowKept(cfg, w, a, Slot(Jury, p));
    JuryRowKept(cfg, w, a, Slot(JuryRepair, p));
    NamespaceNext(cfg, w, a);
    MarkerNext(cfg, w, a);
  }

  lemma PanelKept(cfg: Config, w: World, a: Action)
    requires ValidConfig(cfg) && Enabled(cfg, w, a) && PanelInv(cfg, w)
    ensures PanelInv(cfg, Next(cfg, w, a))
  {
    NamespaceNext(cfg, w, a);
    MarkerNext(cfg, w, a);
    AdjudicationNext(cfg, w, a);
    if Adjudication(w).Some? {
      FaithfulKept(cfg, w, a, Namespace(w).value.mapping, Adjudication(w).value.juryRecords);
      OnlySynthesisStarts(cfg, w, a);
    } else if a.LockAdjudication? {
      Locking(cfg, w, a);
    }
  }

  lemma FaithfulKept(cfg: Config, w: World, a: Action, mapping: seq<Provider>, records: seq<JuryRecord>)
    requires ValidConfig(cfg) && Enabled(cfg, w, a) && PanelInv(cfg, w) && Adjudication(w).Some?
    requires Faithful(cfg, w, mapping, records)
    ensures Faithful(cfg, Next(cfg, w, a), mapping, records)
  {
    forall p
      ensures JudgmentAt(cfg, Next(cfg, w, a), p) == JudgmentAt(cfg, w, p)
      ensures SucceededAt(Next(cfg, w, a), Slot(Jury, p)) == SucceededAt(w, Slot(Jury, p))
    {
      JudgmentKept(cfg, w, a, p);
    }
  }

  lemma OnlySynthesisStarts(cfg: Config, w: World, a: Action)
    requires ValidConfig(cfg) && Enabled(cfg, w, a) && Adjudication(w).Some? && Namespace(w).Some?
    requires forall s | s in w.live :: s.stage == Synthesis
    ensures forall s | s in Next(cfg, w, a).live :: s.stage == Synthesis
  {
  }

  /** The lock is written with nothing in flight, and changes no row. */
  lemma Locking(cfg: Config, w: World, a: Action)
    requires ValidConfig(cfg) && Enabled(cfg, w, a) && a.LockAdjudication?
    requires Namespace(Next(cfg, w, a)) == Namespace(w) && MarkerOf(Next(cfg, w, a)) == MarkerOf(w)
    ensures Next(cfg, w, a).live == map[]
    ensures Faithful(cfg, Next(cfg, w, a), Namespace(w).value.mapping, a.juryRecords)
  {
    var w' := Next(cfg, w, a);
    forall p ensures JudgmentAt(cfg, w', p) == JudgmentAt(cfg, w, p) {
    }
  }

  lemma {:induction false} RunKeepsPanel(cfg: Config, w: World, actions: seq<Action>)
    requires ValidConfig(cfg) && IsRun(cfg, w, actions) && PanelInv(cfg, w)
    ensures PanelInv(cfg, After(cfg, w, actions))
    decreases |actions|
  {
    if actions != [] {
      PanelKept(cfg, w, actions[0]);
      RunKeepsPanel(cfg, Next(cfg, w, actions[0]), actions[1..]);
    }
  }

  /** A repair may rewrite the prose of an answer, never its decision. */
  lemma OwnDecision(cfg: Config, w: World, juror: Provider)
    requires JudgmentAt(cfg, w, juror).Some?
    ensures ValidJudgment(LabelsOf(CandidateCount(w)), JudgmentAt(cfg, w, juror).value)
    ensures ContentAt(w, Slot(Jury, juror)).decoded.Some?
    ensures SameDecision(JudgmentAt(cfg, w, juror).value, ContentAt(w, Slot(Jury, juror)).decoded.value)
  {
  }

  /**
   Whatever the history: every vote that counts is the decision in the juror's own first answer, under the providers'
   names, and every juror with an answer that could be counted is counted.
   */
  lemma VotesAreTheJurors(cfg: Config, actions: seq<Action>)
    requires ValidConfig(cfg) && IsRun(cfg, EmptyWorld, actions)
    ensures var w := After(cfg, EmptyWorld, actions);
      Adjudication(w).Some? ==>
        && Namespace(w).Some?
        && Faithful(cfg, w, Namespace(w).value.mapping, Adjudication(w).value.juryRecords)
        && forall r | r in Adjudication(w).value.juryRecords && r.judgment.Some? ::
             var own := ContentAt(w, Slot(Jury, r.juror)).decoded;
             own.Some? && SameDecision(r.judgment.value, Named(own, Namespace(w).value.mapping).value)
  {
    RunKeepsPanel(cfg, EmptyWorld, actions);
    var w := After(cfg, EmptyWorld, actions);
    if Adjudication(w).Some? {
      forall r | r in Adjudication(w).value.juryRecords && r.judgment.Some?
        ensures ContentAt(w, Slot(Jury, r.juror)).decoded.Some?
        ensures SameDecision(r.judgment.value, Named(ContentAt(w, Slot(Jury, r.juror)).decoded, Namespace(w).value.mapping).value)
      {
        OwnDecision(cfg, w, r.juror);
      }
    }
  }
}
