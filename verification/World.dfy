/**
 One council run as a transition system. A `World` is everything that outlives or
 interleaves with a process: the invocation table, the event log, the call-unit
 ledger, and the set of calls that some live process has in flight. An `Action` is
 one store (or ledger) transaction; `Resume` is the start of a process, after a
 crash or not, and forgets what was in flight.
 */
module World {
  import opened Wrappers
  import opened Borda
  import Blinding
  import Json
  import opened Records

  datatype Config = Config(
    question: string, roster: seq<Provider>, chain: seq<Provider>, maxCalls: nat,
    truncationRetries: nat, repairAttempts: bool,
    proposalQuorum: nat, juryQuorum: nat, minLineages: nat, allowPartial: bool, lineage: Provider -> int,
    outputTokens: (Provider, Stage) -> nat, maxRecoveryTokens: nat,
    promptChars: Prompt -> nat, maxPromptChars: nat,
    gated: bool,
    shuffle: set<Provider> -> seq<Provider>, present: (Provider, nat) -> seq<Label>)

  predicate IsPlaces(order: seq<Label>, n: nat) {
    |order| == n && Distinct(order) && forall i | i in order :: 0 <= i < n
  }

  /** What the constructor of the engine and the policy validation insist on. */
  ghost predicate ValidConfig(cfg: Config) {
    && cfg.roster != [] && Distinct(cfg.roster)
    && cfg.chain != [] && Distinct(cfg.chain) && (forall p | p in cfg.chain :: p in cfg.roster)
    && cfg.maxCalls >= 2 * |cfg.roster| + |cfg.chain|
    && cfg.proposalQuorum >= 1 && cfg.juryQuorum >= 1 && cfg.minLineages >= 1
    && (forall s: set<Provider> :: Distinct(cfg.shuffle(s)) && forall p :: p in cfg.shuffle(s) <==> p in s)
    && (forall p, n: nat :: IsPlaces(cfg.present(p, n), n))
  }

  // ----- The ledger as one run sees it -----

  datatype Reservation = Reservation(slot: Slot, attempt: nat)

  datatype LeaseState = Reserved | Released | Reconciled

  type Ledger = map<Reservation, LeaseState>

  // What the gate promises the engine, whichever gate it is.

  /** A lease only under a new id; without one nothing changed, or the new id was written before the gate failed. */
  predicate GateReserves(before: Ledger, after: Ledger, slot: Slot, attempt: nat, granted: bool) {
    var id := Reservation(slot, attempt);
    if granted then id !in before && after == before[id := Reserved]
    else after == before || (id !in before && after == before[id := Reserved])
  }

  predicate GateReconciles(before: Ledger, after: Ledger, slot: Slot, attempt: nat, ok: bool) {
    after == if ok then before[Reservation(slot, attempt) := Reconciled] else before
  }

  predicate GateReleases(before: Ledger, after: Ledger, slot: Slot, attempt: nat, ok: bool) {
    var id := Reservation(slot, attempt);
    && (ok <==> id in before && before[id] == Reserved)
    && after == if ok then before[id := Released] else before
  }

  /**
   Where an in-flight call stands: started; holding a lease; refused or given its
   lease back; settled with the ledger; or never subject to one.
   */
  datatype Phase = Started | Leased | Dropped | Settled | Free

  datatype World = World(slots: Slots, events: seq<Event>, ledger: Ledger, live: map<Slot, Phase>)

  const EmptyWorld := World(map[], [], map[], map[])

  datatype Action =
    | Resume
    | Note(event: Event)
    | Start(slot: Slot, prompt: Prompt, now: nat)
    | Grant(slot: Slot)
    /** `stranded`: the gate failed after it had written the reservation, which nobody gives back. */
    | Refuse(slot: Slot, stranded: bool)
    | GiveBack(slot: Slot)
    | Reconcile(slot: Slot)
    | Succeed(slot: Slot, response: Response, now: nat)
    | Fail(slot: Slot, error: ProviderError, now: nat)
    | Settle(slot: Slot, error: ProviderError, now: nat)
    | Undispatch(slot: Slot, error: ProviderError, attempt: nat, prior: Option<Invocation>)
    | LockNamespace(mapping: seq<Provider>, proposalFailures: seq<StageFailure>)
    | LockAdjudication(juryRecords: seq<JuryRecord>, juryFailures: seq<StageFailure>)
    | Advance(failure: ProviderError)

  // ----- Reading a world -----

  function Retries(w: World, slot: Slot): seq<Event> {
    Select(w.events, RetryOf(slot))
  }

  function TruncationRetries(retries: seq<Event>): nat {
    if retries == [] then 0
    else TruncationRetries(retries[..|retries| - 1])
         + if retries[|retries| - 1].RetryStarted? && retries[|retries| - 1].kind == Truncation then 1 else 0
  }

  /** The attempt number the gate is given: calls so far plus earlier attempts that were not dispatched. */
  function AttemptNumber(w: World, slot: Slot): nat {
    (if slot in w.slots then w.slots[slot].callCount else 0) + |Select(w.events, NotDispatchedOf(slot))|
  }

  function Namespace(w: World): Option<Event> {
    var s := Select(w.events, Namespaces);
    if s == [] then None else Some(s[0])
  }

  function Adjudication(w: World): Option<Event> {
    var s := Select(w.events, Adjudications);
    if s == [] then None else Some(s[0])
  }

  function MarkerOf(w: World): Option<string> {
    var s := Select(w.events, Markers);
    if s == [] then None else Some(s[0].marker)
  }

  /** 1-based position of the synthesis chain that is current. */
  function Position(w: World): nat {
    |Select(w.events, Fallbacks)| + 1
  }

  function ContentAt(w: World, slot: Slot): Content {
    if slot in w.slots && w.slots[slot].response.Some? then w.slots[slot].response.value.content
    else Content("", false, [], None, false, false)
  }

  function ProposalArtifacts(w: World, providers: seq<Provider>): (r: seq<Content>)
    ensures |r| == |providers|
    ensures forall i | 0 <= i < |r| :: r[i] == ContentAt(w, Slot(Proposal, providers[i]))
  {
    seq(|providers|, i requires 0 <= i < |providers| => ContentAt(w, Slot(Proposal, providers[i])))
  }

  /** `mapping[label]` for every label of a presentation order. */
  function Places(mapping: seq<Provider>, order: seq<Label>): (r: seq<Provider>)
    requires forall i | i in order :: 0 <= i < |mapping|
    ensures |r| == |order|
  {
    if order == [] then []
    else
      assert order[0] in order;
      assert forall i | i in order[1..] :: i in order;
      [mapping[order[0]]] + Places(mapping, order[1..])
  }

  /** The prompt that the durable record of the run prescribes for a slot. */
  ghost function PromptOf(cfg: Config, w: World, slot: Slot): Prompt
    requires ValidConfig(cfg)
  {
    var marker := if MarkerOf(w).Some? then MarkerOf(w).value else "";
    var mapping := if Namespace(w).Some? then Namespace(w).value.mapping else [];
    match slot.stage
    case Proposal => ProposalPrompt(marker)
    case Jury =>
      var order := cfg.present(slot.provider, |mapping|);
      JuryPrompt(marker, order, ProposalArtifacts(w, Places(mapping, order)))
    case JuryRepair => RepairPrompt(marker, ContentAt(w, Slot(Jury, slot.provider)), |mapping|)
    case Synthesis =>
      SynthesisPrompt(marker, ProposalArtifacts(w, mapping),
                      if Adjudication(w).Some? then Adjudication(w).value.juryRecords else [])
  }

  // ----- Prompts that cannot be built -----

  predicate ArtifactMentions(c: Content, marker: string) {
    exists t | t in c.artifact :: Json.Mentions(t, marker)
  }

  /** `_checked_marker` refuses every prompt of the run: the question itself contains the marker. */
  predicate QuestionClashes(cfg: Config, w: World) {
    MarkerOf(w).Some? && Json.Mentions(cfg.question, MarkerOf(w).value)
  }

  /** It refuses the jury prompts, and the synthesis prompt: a frozen proposal contains the marker. */
  predicate CandidatesClash(w: World) {
    && MarkerOf(w).Some? && Namespace(w).Some?
    && exists p | p in Namespace(w).value.mapping :: ArtifactMentions(ContentAt(w, Slot(Proposal, p)), MarkerOf(w).value)
  }

  /** Something a judgment reports contains the marker. */
  predicate ProseMentions(p: Prose, marker: string) {
    exists t | t in p.disagreements + p.verification :: Json.Mentions(t, marker)
  }

  // ----- Jury artifacts and their repair -----

  /** `parse_jury` accepts the text. */
  predicate ParsesAsJury(c: Content, n: nat) {
    c.decoded.Some? && c.keysMatch && ValidJudgment(LabelsOf(n), c.decoded.value)
  }

  /** `jury_repair_prompts` accepts the text: one complete object whose decision is valid, and no mention of the marker. */
  predicate Repairable(w: World, c: Content) {
    && !c.tooLong && c.decoded.Some? && c.keysMatch && ValidDecision(LabelsOf(CandidateCount(w)), c.decoded.value)
    && MarkerOf(w).Some? && !Json.Mentions(c.text, MarkerOf(w).value)
  }

  predicate SameDecision(j: Judgment, k: Judgment) {
    j.winner == k.winner && j.ranking == k.ranking && j.confidence == k.confidence && j.abstain == k.abstain
  }

  predicate RepairAccepted(original: Content, repaired: Content, n: nat) {
    && ParsesAsJury(repaired, n)
    && original.decoded.Some? && SameDecision(repaired.decoded.value, original.decoded.value)
  }

  /** The dictionary label -> provider of a namespace. */
  function MappingOf(mapping: seq<Provider>): (m: Blinding.Mapping)
    ensures forall i :: i in m <==> 0 <= i < |mapping|
    ensures forall i | i in m :: m[i] == mapping[i]
    ensures Distinct(mapping) ==> Blinding.Injective(m)
  {
    map i | 0 <= i < |mapping| :: mapping[i]
  }

  predicate SucceededAt(w: World, slot: Slot) {
    slot in w.slots && w.slots[slot].status == Succeeded
  }

  function CandidateCount(w: World): nat {
    if Namespace(w).Some? then |Namespace(w).value.mapping| else 0
  }

  /** What a juror is counted with: its stored answer if that parses, otherwise a stored repair of it that keeps the decision. */
  function JudgmentAt(cfg: Config, w: World, juror: Provider): Option<Judgment> {
    var n, jury, repair := CandidateCount(w), Slot(Jury, juror), Slot(JuryRepair, juror);
    if !SucceededAt(w, jury) then None
    else if ParsesAsJury(ContentAt(w, jury), n) then ContentAt(w, jury).decoded
    else if cfg.repairAttempts && Repairable(w, ContentAt(w, jury)) && SucceededAt(w, repair)
            && RepairAccepted(ContentAt(w, jury), ContentAt(w, repair), n) then ContentAt(w, repair).decoded
    else None
  }

  /** A judgment under the providers' names. */
  function Named(j: Option<Judgment>, mapping: seq<Provider>): Option<Judgment> {
    if j.None? then None else Some(Blinding.CanonicalizeJury(j.value, MappingOf(mapping)))
  }

  /** One record for every juror that answered, holding what the juror is counted with. */
  ghost predicate Faithful(cfg: Config, w: World, mapping: seq<Provider>, records: seq<JuryRecord>) {
    && (forall r | r in records ::
          SucceededAt(w, Slot(Jury, r.juror)) && r.judgment == Named(JudgmentAt(cfg, w, r.juror), mapping))
    && (forall p | p in cfg.roster && SucceededAt(w, Slot(Jury, p)) :: exists r :: r in records && r.juror == p)
  }

  /** The juror answered, the answer is invalid, and a repair could be asked for. */
  predicate Eligible(w: World, juror: Provider) {
    var slot := Slot(Jury, juror);
    && SucceededAt(w, slot)
    && !ParsesAsJury(ContentAt(w, slot), CandidateCount(w))
    && Repairable(w, ContentAt(w, slot))
  }

  /** Eligible, and its repair has not taken a call for good. */
  predicate Queued(w: World, juror: Provider) {
    Eligible(w, juror) && (Slot(JuryRepair, juror) in w.slots ==> Slot(JuryRepair, juror) in w.live)
  }

  function Ahead(w: World, names: seq<Provider>): nat {
    if names == [] then 0 else (if Queued(w, names[0]) then 1 else 0) + Ahead(w, names[1..])
  }

  /** The jurors queued before this one take all the calls that are not withheld for synthesis. */
  ghost predicate OverBudget(cfg: Config, w: World, juror: Provider) {
    cfg.maxCalls - |cfg.chain| - Calls(w.slots) + |w.live.Keys| <= Ahead(w, cfg.roster[..IndexOf(cfg.roster, juror)])
  }

  /** What a repair event says about a juror is what the rows say. */
  ghost predicate OutcomeHolds(cfg: Config, w: World, juror: Provider, outcome: RepairOutcome) {
    var n, jury, repair := CandidateCount(w), Slot(Jury, juror), Slot(JuryRepair, juror);
    && MarkerOf(w).Some? && SucceededAt(w, jury) && !ParsesAsJury(ContentAt(w, jury), n)
    && match outcome
       case RepairImpossible => !Repairable(w, ContentAt(w, jury))
       case RepairOverBudget => Eligible(w, juror) && repair !in w.slots && OverBudget(cfg, w, juror)
       case Repaired =>
         Eligible(w, juror) && SucceededAt(w, repair) && RepairAccepted(ContentAt(w, jury), ContentAt(w, repair), n)
       case RepairRejected =>
         Eligible(w, juror) && SucceededAt(w, repair) && !RepairAccepted(ContentAt(w, jury), ContentAt(w, repair), n)
       case RepairFailed(message) =>
         Eligible(w, juror) && repair in w.slots && w.slots[repair].status == Failed
         && w.slots[repair].error.Some? && w.slots[repair].error.value.message == message
  }

  // ----- Guards -----

  /** No invocation of this provider, in any stage, is running or failed with an unknown outcome. */
  predicate Clear(w: World, p: Provider) {
    forall s | s in w.slots && s.provider == p :: w.slots[s].status != Running && !IsAmbiguous(w.slots[s])
  }

  /** How many calls must stay available for the stages after this one. */
  function DownstreamReserve(cfg: Config, slot: Slot): int {
    match slot.stage
    case Proposal => |cfg.roster| + |cfg.chain|
    case Jury => |cfg.chain|
    case JuryRepair => |cfg.chain|
    case Synthesis => |cfg.chain| - IndexOf(cfg.chain, slot.provider) - 1
  }

  ghost predicate StageOpen(cfg: Config, w: World, slot: Slot) {
    match slot.stage
    case Proposal => Namespace(w).None?
    case Jury => Namespace(w).Some? && Adjudication(w).None?
    case JuryRepair =>
      && Namespace(w).Some? && Adjudication(w).None? && slot !in w.slots
      && SucceededAt(w, Slot(Jury, slot.provider))
      && Select(w.events, RepairOf(slot.provider)) == []
    case Synthesis =>
      && Adjudication(w).Some?
      && IndexOf(cfg.chain, slot.provider) + 1 == Position(w) <= |cfg.chain|
      && (slot in w.slots ==> Position(w) == |cfg.chain| || IsLengthFailure(w.slots[slot]))
  }

  /** Everything a start needs but the budget. */
  ghost predicate Startable(cfg: Config, w: World, slot: Slot) {
    && slot.provider in cfg.roster
    && Clear(w, slot.provider)
    && (slot in w.slots ==>
          && IsRetryable(w.slots[slot])
          && (IsLengthFailure(w.slots[slot]) ==> TruncationRetries(Retries(w, slot)) < cfg.truncationRetries))
    && StageOpen(cfg, w, slot)
    && MarkerOf(w).Some?
  }

  ghost predicate StartEnabled(cfg: Config, w: World, slot: Slot) {
    Startable(cfg, w, slot) && Calls(w.slots) + 1 + DownstreamReserve(cfg, slot) <= cfg.maxCalls
  }

  /** The row a release would put back: none, or the failed row the latest retry event speaks of. */
  ghost predicate RestoresTo(w: World, slot: Slot, prior: Option<Invocation>)
    requires slot in w.slots
  {
    match prior
    case None => w.slots[slot].callCount == 1
    case Some(row) =>
      && RowOk(row) && IsRetryable(row)
      && row.callCount + 1 == w.slots[slot].callCount
      && row.prompt == w.slots[slot].prompt
      && |Retries(w, slot)| > 0
      && Retries(w, slot)[|Retries(w, slot)| - 1].priorFailure == row.error.value
  }

  ghost predicate UndispatchEnabled(w: World, slot: Slot, error: ProviderError, attempt: nat, prior: Option<Invocation>) {
    && slot in w.live && w.live[slot] in {Dropped, Free}
    && slot in w.slots && w.slots[slot].status == Running
    && !error.ambiguous
    && attempt == AttemptNumber(w, slot)
    && RestoresTo(w, slot, prior)
  }

  ghost predicate Enabled(cfg: Config, w: World, a: Action)
    requires ValidConfig(cfg)
  {
    match a
    case Resume => true
    case Note(e) =>
      || e.RunStarted? || e.Preflight? || e.RunFinished?
      || e.TruncatedPreserved? || e.IncompletePreserved? || e.TruncationRecovery?
      || (e.JuryRepairEvent? && Namespace(w).Some? && Select(w.events, RepairOf(e.juror)) == []
          && OutcomeHolds(cfg, w, e.juror, e.outcome))
      || (e.UntrustedMarker? && MarkerOf(w).None?)
    case Start(slot, prompt, now) => StartEnabled(cfg, w, slot) && prompt == PromptOf(cfg, w, slot)
    case Grant(slot) =>
      slot in w.live && w.live[slot] == Started && slot in w.slots
      && Reservation(slot, AttemptNumber(w, slot)) !in w.ledger
    case Refuse(slot, stranded) =>
      slot in w.live && w.live[slot] == Started && slot in w.slots
      && (stranded ==> Reservation(slot, AttemptNumber(w, slot)) !in w.ledger)
    case GiveBack(slot) =>
      slot in w.live && w.live[slot] == Leased && slot in w.slots
      && Reservation(slot, AttemptNumber(w, slot)) in w.ledger
    case Reconcile(slot) =>
      slot in w.live && w.live[slot] == Leased && slot in w.slots
      && Reservation(slot, AttemptNumber(w, slot)) in w.ledger
    case Succeed(slot, response, now) =>
      slot in w.live && w.live[slot] in {Settled, Free} && slot in w.slots && w.slots[slot].status == Running
      && response.finish == Stop
    case Fail(slot, error, now) =>
      slot in w.live && slot in w.slots && w.slots[slot].status == Running
      && (if error.ambiguous then w.live[slot] != Settled && w.live[slot] != Started else w.live[slot] in {Settled, Free})
    case Settle(slot, error, now) =>
      slot !in w.live && slot in w.slots && w.slots[slot].status == Running && error.ambiguous
    case Undispatch(slot, error, attempt, prior) => UndispatchEnabled(w, slot, error, attempt, prior)
    case LockNamespace(mapping, failures) => NamespaceEnabled(cfg, w, mapping, failures)
    case LockAdjudication(records, failures) => AdjudicationEnabled(cfg, w, records, failures)
    case Advance(failure) => AdvanceEnabled(cfg, w, failure)
  }

  ghost predicate NamespaceEnabled(cfg: Config, w: World, mapping: seq<Provider>, failures: seq<StageFailure>) {
    && Namespace(w).None?
    && (forall p | p in mapping ::
          Slot(Proposal, p) in w.slots && w.slots[Slot(Proposal, p)].status == Succeeded
          && ContentAt(w, Slot(Proposal, p)).isProposal)
    && MembershipOk(cfg, mapping, failures)
  }

  /** The checks of the namespace loader: labels, shuffle, quorum, lineages, and the roster partition. */
  predicate MembershipOk(cfg: Config, mapping: seq<Provider>, failures: seq<StageFailure>) {
    && mapping != [] && Distinct(mapping)
    && (forall p | p in mapping :: p in cfg.roster)
    && mapping == cfg.shuffle(set p | p in mapping)
    && |mapping| >= cfg.proposalQuorum
    && |set p | p in mapping :: cfg.lineage(p)| >= cfg.minLineages
    && (forall f | f in failures :: f.stage == Proposal && f.provider in cfg.roster)
    && (forall p | p in cfg.roster :: p in mapping <==> forall f | f in failures :: f.provider != p)
  }

  ghost predicate AdjudicationEnabled(cfg: Config, w: World, records: seq<JuryRecord>, failures: seq<StageFailure>) {
    && MarkerOf(w).Some? && Namespace(w).Some? && Adjudication(w).None?
    && PanelOk(cfg, Namespace(w).value.mapping, records, failures)
    && w.live == map[] && Faithful(cfg, w, Namespace(w).value.mapping, records)
  }

  /** The checks of the adjudication loader on its records and failures. */
  predicate PanelOk(cfg: Config, mapping: seq<Provider>, records: seq<JuryRecord>, failures: seq<StageFailure>) {
    && (forall i, j | 0 <= i < j < |records| :: records[i].juror != records[j].juror)
    && (forall r | r in records ::
          && r.juror in cfg.roster && r.mapping == mapping
          && IsPlaces(r.presentation, |mapping|))
    && (forall f | f in failures :: f.stage == Jury && f.provider in cfg.roster)
    && (forall r | r in records :: r.judgment.Some? <==> forall f | f in failures :: f.provider != r.juror)
    && (forall p | p in cfg.roster :: (exists r :: r in records && r.juror == p) || exists f :: f in failures && f.provider == p)
    && ValidRecords(records) >= cfg.juryQuorum
  }

  function JurorsOf(records: seq<JuryRecord>): (r: seq<Provider>)
    ensures |r| == |records| && forall i | 0 <= i < |r| :: r[i] == records[i].juror
  {
    seq(|records|, i requires 0 <= i < |records| => records[i].juror)
  }

  function ValidRecords(records: seq<JuryRecord>): nat {
    if records == [] then 0 else (if records[0].judgment.Some? then 1 else 0) + ValidRecords(records[1..])
  }

  ghost predicate AdvanceEnabled(cfg: Config, w: World, failure: ProviderError) {
    && Adjudication(w).Some?
    && Position(w) < |cfg.chain|
    && var slot := Slot(Synthesis, cfg.chain[Position(w) - 1]);
       slot in w.slots ==> w.slots[slot].status == Failed && w.slots[slot].error == Some(failure)
  }

  // ----- Transitions -----

  /** The retry event that restarting a failed row writes. */
  function RetryEvent(slot: Slot, row: Invocation): Event
    requires row.error.Some?
  {
    RetryStarted(slot, row.callCount + 1,
                 if IsLengthMessage(row.error.value.message) then Truncation else Application, row.error.value)
  }

  function AfterStart(w: World, slot: Slot, prompt: Prompt, now: nat, phase: Phase): World
    requires slot in w.slots ==> w.slots[slot].error.Some?
  {
    if slot in w.slots then
      w.(slots := w.slots[slot := RestartedRow(w.slots[slot], now)],
         events := w.events + [RetryEvent(slot, w.slots[slot])],
         live := w.live[slot := phase])
    else
      w.(slots := w.slots[slot := NewRow(prompt, now)], live := w.live[slot := phase])
  }

  function NotDispatchedEvent(w: World, slot: Slot, error: ProviderError, attempt: nat, prior: Option<Invocation>): Event
    requires slot in w.slots && (prior.Some? ==> prior.value.error.Some? && |Retries(w, slot)| > 0)
  {
    CallNotDispatched(
      slot, attempt, w.slots[slot].callCount, if prior.Some? then prior.value.callCount else 0,
      if prior.Some? then Some(Retries(w, slot)[|Retries(w, slot)| - 1].kind) else None,
      if prior.Some? then prior.value.error else None, error)
  }

  function AfterUndispatch(w: World, slot: Slot, error: ProviderError, attempt: nat, prior: Option<Invocation>): World
    requires slot in w.slots && (prior.Some? ==> prior.value.error.Some? && |Retries(w, slot)| > 0)
  {
    var note := NotDispatchedEvent(w, slot, error, attempt, prior);
    match prior
    case None => w.(slots := w.slots - {slot}, events := w.events + [note], live := w.live - {slot})
    case Some(row) =>
      w.(slots := w.slots[slot := row],
         events := Without(w.events + [note], slot, w.slots[slot].callCount),
         live := w.live - {slot})
  }

  function FallbackEvent(cfg: Config, w: World, failure: ProviderError): Event
    requires 1 <= Position(w) < |cfg.chain|
  {
    FallbackAdvanced(Position(w), cfg.chain[Position(w) - 1], Position(w) + 1, cfg.chain[Position(w)],
                     failure.category, failure.ambiguous, failure)
  }

  ghost function Next(cfg: Config, w: World, a: Action): World
    requires ValidConfig(cfg) && Enabled(cfg, w, a)
  {
    match a
    case Resume => w.(live := map[])
    case Note(e) => w.(events := w.events + [e])
    case Start(slot, prompt, now) => AfterStart(w, slot, prompt, now, if cfg.gated then Started else Free)
    case Grant(slot) =>
      w.(ledger := w.ledger[Reservation(slot, AttemptNumber(w, slot)) := Reserved], live := w.live[slot := Leased])
    case Refuse(slot, stranded) =>
      w.(ledger := if stranded then w.ledger[Reservation(slot, AttemptNumber(w, slot)) := Reserved] else w.ledger,
         live := w.live[slot := Dropped])
    case GiveBack(slot) =>
      w.(ledger := w.ledger[Reservation(slot, AttemptNumber(w, slot)) := Released], live := w.live[slot := Dropped])
    case Reconcile(slot) =>
      w.(ledger := w.ledger[Reservation(slot, AttemptNumber(w, slot)) := Reconciled], live := w.live[slot := Settled])
    case Succeed(slot, response, now) =>
      w.(slots := w.slots[slot := SucceededRow(w.slots[slot], response, now)], live := w.live - {slot})
    case Fail(slot, error, now) =>
      w.(slots := w.slots[slot := FailedRow(w.slots[slot], error, now)], live := w.live - {slot})
    case Settle(slot, error, now) =>
      w.(slots := w.slots[slot := FailedRow(w.slots[slot], error, now)])
    case Undispatch(slot, error, attempt, prior) => AfterUndispatch(w, slot, error, attempt, prior)
    case LockNamespace(mapping, failures) => w.(events := w.events + [NamespaceLocked(mapping, failures)])
    case LockAdjudication(records, failures) =>
      w.(events := w.events + [AdjudicationLocked(Namespace(w).value.mapping, records, failures)])
    case Advance(failure) => w.(events := w.events + [FallbackEvent(cfg, w, failure)])
  }

  /** A run is any list of enabled actions; a crash is simply where a list ends and the next `Resume` begins. */
  ghost predicate IsRun(cfg: Config, w: World, actions: seq<Action>)
    requires ValidConfig(cfg)
    decreases |actions|
  {
    actions == [] || (Enabled(cfg, w, actions[0]) && IsRun(cfg, Next(cfg, w, actions[0]), actions[1..]))
  }

  ghost function After(cfg: Config, w: World, actions: seq<Action>): World
    requires ValidConfig(cfg) && IsRun(cfg, w, actions)
    decreases |actions|
  {
    if actions == [] then w else After(cfg, Next(cfg, w, actions[0]), actions[1..])
  }

  lemma {:induction false} RunConcat(cfg: Config, w: World, first: seq<Action>, second: seq<Action>)
    requires ValidConfig(cfg) && IsRun(cfg, w, first) && IsRun(cfg, After(cfg, w, first), second)
    ensures IsRun(cfg, w, first + second)
    ensures After(cfg, w, first + second) == After(cfg, After(cfg, w, first), second)
    decreases |first|
  {
    if first == [] {
      assert first + second == second;
    } else {
      assert (first + second)[1..] == first[1..] + second;
      RunConcat(cfg, Next(cfg, w, first[0]), first[1..], second);
    }
  }

  /** Stopping a run anywhere leaves a run: this is what a crash is. */
  lemma {:induction false} RunPrefix(cfg: Config, w: World, actions: seq<Action>, n: nat)
    requires ValidConfig(cfg) && IsRun(cfg, w, actions) && n <= |actions|
    ensures IsRun(cfg, w, actions[..n]) && IsRun(cfg, After(cfg, w, actions[..n]), actions[n..])
    ensures After(cfg, w, actions) == After(cfg, After(cfg, w, actions[..n]), actions[n..])
    decreases |actions|
  {
    if n > 0 {
      RunPrefix(cfg, Next(cfg, w, actions[0]), actions[1..], n - 1);
      assert actions[..n][1..] == actions[1..][..n - 1];
      assert actions[1..][n - 1..] == actions[n..];
    } else {
      assert actions[..0] == [] && actions[0..] == actions;
    }
  }
}
