# A model council, verified

A council run asks several providers for a proposal, shows the proposals blinded to the same providers as jurors,
tallies the judgments with a Borda count, and lets a chain of synthesizers write the answer. Every call is written to a
durable store before it is made, a run can be killed at any moment and resumed by a new process, and a service in front
of the engine limits what each principal may spend. This project models that behaviour and proves what it keeps.

Provider names and candidate labels are integers, ordered as the program orders names. The main pieces:

- `Borda`, `BordaLaws`, `Blinding`, `SelfVotes`: the tally as the loop the program runs, proved to meet one definition of
  an aggregate (`Borda.IsAggregate`), and the laws of that definition.
- `Records`, `World`: the durable rows and events of one run, and the run as a transition system. An action is one store
  or ledger transaction; `Resume` is the start of a process, after a crash or not, and forgets what was in flight. A
  history is any sequence of enabled actions, so a statement over histories covers every crash and every interleaving of
  the stage's threads.
- `Audit`, `Locks`, `Budget`, `Prompts`, `Repairs`, `TwoLedgers`, `Panels`: the invariants, one topic each. `Runs` puts
  them together and states what holds over whole histories. `Collisions` has the history that gets a run stuck.
- `Store`, `Engine`, `Council`: the classes, as the program has them, with the fields they update. `StageSteps`,
  `Dispatching` and `Juries` hold the facts their loops need. The engine carries a ghost log of actions, and each method
  is proved to extend a history (`Engine.Explained`): whatever is proved of histories is true of what the code does.
- `Windows`, `ServiceLedger`, `PolicyBudget`, `Scheduler`: the service's policy ledger, the spending mandates, and the
  slots of the scheduler. `ServiceLedger.DurableCallGate` promises the engine's gate contract of the ledger class.
- `Json`, `PromptSizes`, `SynthesisSize`, `RepairSize`, `Workload`, `PromptLimits`: the workload preflight. Its
  projections bound every prompt a run can build, and its reported capacity is exact.

`dafny verify dfyconfig.toml` covers all of it.

## Model

| member | source | states |
|---|---|---|
| `Borda.AggregateJuries` | src/model_council/protocol.py:961-1071 | errs exactly on empty or repeated labels; otherwise scores, counts, ranking, winner or tie, consensus and reported lists are those of `IsAggregate` |
| `Borda.Tally` | src/model_council/protocol.py:976-1006 | after the loop each candidate's points and wins are the sums over the valid, non-abstaining ballots, and every ballot is counted valid or invalid |
| `Borda.BestIsTwoStage` | src/model_council/protocol.py:1017-1031 | keeping the best points and then the most wins among those selects exactly the candidates no other beats on the pair |
| `BordaLaws.PairwisePoints` | src/model_council/protocol.py:1003-1006 | a candidate's points are its pairwise victories: over all rivals, the ballots that place it above |
| `BordaLaws.TotalPoints` | src/model_council/protocol.py:961-1008 | points are conserved: over all candidates they add up to counted ballots times n(n-1)/2 |
| `BordaLaws.TotalWins` | src/model_council/protocol.py:1003-1008 | first places add up to the counted ballots |
| `BordaLaws.CondorcetLoserNeverLeads` | src/model_council/protocol.py:1003-1031 | with two candidates or more, one that loses to every other by majority is neither winner nor in a tie |
| `BordaLaws.CondorcetLoserLeadsExactly` | src/model_council/protocol.py:1003-1031 | without a bound on the candidates, a Condorcet loser leads if and only if it is the only candidate and a ballot counted |
| `BordaLaws.CondorcetWinnerNeverLast` | src/model_council/protocol.py:1003-1012 | with two candidates or more, one that beats every other by majority is not ranked last |
| `BordaLaws.DominatedNeverLeads` | src/model_council/protocol.py:1003-1031 | a candidate below the same rival on every counted ballot is neither winner nor tied |
| `BordaLaws.UnanimousExactly` | src/model_council/protocol.py:1039-1050 | consensus is unanimous if and only if a ballot counted and all counted ballots share their first place |
| `BordaLaws.TieExactly` | src/model_council/protocol.py:1014-1031 | a tie is announced if and only if two candidates share the best points and wins |
| `BordaLaws.TiedIsPrefixOfRanking` | src/model_council/protocol.py:1009-1031 | the tied candidates are the head of the ranking in its order, and a winner is its first entry |
| `BordaLaws.AggregateIgnoresOrder` | src/model_council/protocol.py:961-1071 | two aggregates of the same ballots and candidates in any listing orders are equal |
| `BordaLaws.RaisingTheWinner` | src/model_council/protocol.py:961-1050 | moving the winner up one place on one counted ballot leaves it the winner |
| `SelfVotes.AggregateExcludingSelfVotes` | src/model_council/protocol.py:1074-1135 | errs exactly on invalid labels; otherwise each candidate's points and wins are sums over the ballots with the juror's own candidate struck out |
| `SelfVotes.ExclusionVersusFull` | src/model_council/protocol.py:1074-1135 | the excluded score is the full score less the candidate's own ballot and less one point for each other candidate-juror that ranked it above itself |
| `Blinding.AnonymizeUndoesCanonicalize` | src/model_council/engine.py:2579-2626 | a valid judgment rewritten to names and back to labels is the judgment the juror gave |
| `Blinding.BlindingKeepsPoints` | src/model_council/engine.py:2579-2626 | tallied under names and rewritten, the points are those of the label ballots |
| `Blinding.BlindingKeepsOutcome` | src/model_council/engine.py:2579-2626 | so are winner, tie, outcome, consensus and the set of tied candidates |
| `Blinding.BlindingKeepsRanking` | src/model_council/engine.py:2579-2626 | the ranking is the label ranking if and only if no exact tie is listed against the order of the names |
| `Blinding.BlindingReordersTies` | src/model_council/engine.py:2592-2611 | two labels dealt against name order and only abstentions: the ranking differs |
| `Runs.Reachable` | src/model_council/engine.py:197-587 | every history from an empty store, stopped anywhere, satisfies the audit, lock, budget, prompt, repair and ledger invariants together |
| `Runs.ReadersNeverRaise` | src/model_council/engine.py:2429-2565 | after any history the namespace, adjudication and fallback loaders return what was written and the retry audit of every slot is complete |
| `Locks.LoadersAccept` | src/model_council/engine.py:2180-2401 | the three loaders accept every world with the lock invariant, and the fallback loader finds the chain position |
| `Runs.TruncationRetriesBounded` | src/model_council/engine.py:1357-1375 | over the whole life of a run no slot is retried for truncation more often than the policy allows |
| `Runs.AttemptsAreStarts` | src/model_council/engine.py:1966-1988 | a slot's attempt number counts its starts, and its call count is that less its undispatched releases |
| `Audit.UndispatchUndoesStart` | src/model_council/store.py:963-1482 | starting a slot and releasing the undispatched call restores every column of every row and every other event; one not-dispatched event remains |
| `Audit.AuditKept` | src/model_council/store.py:963-1083 | every action keeps the retry events of each slot exactly the counts 2 to the call count, once each, in order |
| `Runs.AmbiguityIsAbsorbing` | src/model_council/engine.py:1231-1388 | once a slot is ambiguous, or found running by a later process, no later action starts that provider in any stage and an ambiguous row stays as it is |
| `Runs.SuccessIsFinal` | src/model_council/store.py:963-1083 | a row that succeeded is never written again |
| `Runs.LocksAreFinal` | src/model_council/engine.py:2272-2427 | a namespace or adjudication lock, once read, reads the same after any history |
| `Runs.FrozenAggregate` | src/model_council/engine.py:454-464 | every resume after adjudication computes the same aggregate, in whatever order it lists the proposals |
| `Runs.ChainMovesForward` | src/model_council/engine.py:1000-1169 | the chain position never goes back and no synthesis before it is ever started |
| `Locks.OneSynthesisSucceeds` | src/model_council/engine.py:488-545 | at most one slot of the chain holds a successful synthesis |
| `Panels.VotesAreTheJurors` | src/model_council/engine.py:609-918 | after any history each frozen vote is the decision in that juror's own first answer under the providers' names, and every countable juror is counted |
| `Budget.PhaseReserves` | src/model_council/engine.py:1454-1501 | in every world with the invariants of `Runs.Reachable` the calls spent leave the reserve of the phase: juries and chain before the namespace lock, the chain before adjudication, the rest of the chain after it |
| `Budget.FirstJuryPassNeverDenied` | src/model_council/engine.py:1488-1501 | if the calls of the jury and repair stages and the jurors waiting together do not exceed the roster, everyone waiting fits the capacity; the first pass in particular |
| `Budget.UntriedSynthesisNeverDenied` | src/model_council/engine.py:1470-1501 | the chain slot whose turn it is, if never tried, fits its capacity |
| `Budget.CallsNext` | src/model_council/store.py:1521-1527 | a start adds one to the total of call counts, an undispatched release takes one off, and nothing else moves it |
| `TwoLedgers.TotalsKept` | src/model_council/engine.py:1936-2081 | conservation: engine calls equal reconciled ledger units plus unsettled slots after every action |
| `TwoLedgers.ReservationIsFresh` | src/model_council/engine.py:1976-1997 | the reservation id a start asks for was never in the ledger |
| `Runs.LedgersAgreeOverRuns` | src/model_council/engine.py:1936-2081 | over any history, crashes included, reconciled units never exceed the engine's calls and fall short by at most the undecided slots |
| `Runs.OrderlyLedgersAgree` | src/model_council/engine.py:1936-2081 | if no process died inside a call, the shortfall at rest is exactly the ambiguous calls |
| `Prompts.PromptsKept` | src/model_council/store.py:963-1083 | every row's prompt stays the one the durable record prescribes, so a restart is never refused for a different prompt |
| `Repairs.OverBudgetStays` | src/model_council/engine.py:706-719 | a juror that was over the repair budget is so after every later action, including crashes and released calls |
| `Repairs.RepairsKept` | src/model_council/engine.py:978-998 | what a repair event says of a juror stays true, and no juror is repaired twice |
| `Juries.ChosenExactly` | src/model_council/engine.py:706-725 | the repair list takes a waiting juror exactly when it is not over budget |
| `Juries.RepairsAdmitted` | src/model_council/engine.py:709-747 | the stage admits every repair that was chosen |
| `Juries.RepairEventConsistent` | src/model_council/engine.py:978-998 | writing a repair outcome again finds no event or the very same one, so its conflict error cannot occur |
| `Store.CouncilStore.StartInvocation` | src/model_council/store.py:963-1083 | a new row, or a restart of a failed one under one retry event, or the untouched row; an error exactly for another prompt |
| `Store.CouncilStore.FinishInvocationSuccess` | src/model_council/store.py:1085-1141 | accepts a running row, or the same response again; nothing else is overwritten |
| `Store.CouncilStore.FinishInvocationFailure` | src/model_council/store.py:1143-1195 | accepts a running row, or the same error again; nothing else is overwritten |
| `Store.CouncilStore.ReleaseUndispatchedInvocation` | src/model_council/store.py:1197-1444 | accepts exactly a running row with its unique retry event and a matching prior row; then puts the prior row back, or none, and removes that retry event |
| `Store.CouncilStore.FinishRun` | src/model_council/store.py:869-917 | result, status and event change together, or not at all for a status that is not final |
| `Engine.CouncilEngine.RunParallelStage` | src/model_council/engine.py:1171-1934 | for any schedule of the calls the log stays a history; every name ends in one of successes and failures, each backed by its row; only names beyond the capacity are denied, and every other due call is asked for while there is time |
| `Engine.CouncilEngine.DropOversized` | src/model_council/engine.py:1426-1445 | keeps exactly the names whose prompt is within the limit and reports the others without a call |
| `Engine.CouncilEngine.Recover` | src/model_council/engine.py:1803-1934 | every cut-off response, retried or not, ends as a success or a failure backed by its row, and the log stays a history |
| `Engine.CouncilEngine.AskGate` | src/model_council/engine.py:1989-2014 | the gate is asked under a fresh attempt number, so it never answers that it has seen the id; a failure after its durable write is allowed for |
| `StageSteps.TruncationIsRecognised` | src/model_council/engine.py:2084-2121 | the message made for a length-limited response is one that the store's reader recognises as truncation |
| `Council.CouncilRun.ParseAndRepairJuries` | src/model_council/engine.py:609-918 | one record per juror that answered, each counted with its own valid answer or an accepted repair of it; no chosen repair is denied |
| `Council.CouncilRun.ProposalStage` | src/model_council/engine.py:260-319 | every provider ends as a stored valid proposal or a reported failure; frozen members all come back |
| `Council.CouncilRun.LockNamespace` | src/model_council/engine.py:2272-2291 | deals labels to exactly the proposals that came and freezes them |
| `Council.CouncilRun.JuryStage` | src/model_council/engine.py:370-425 | yields a complete panel of records; nobody is denied on a first pass |
| `Council.CouncilRun.TrySynthesis` | src/model_council/engine.py:492-521 | a stored answer, or a failure on record that says the same; a slot never tried is not denied |
| `Council.CouncilRun.SynthesisChain` | src/model_council/engine.py:492-545 | an answer on record at the current position, or the chain is spent or time is up |
| `Council.CouncilRun.Resume` | src/model_council/engine.py:193-587 | from any history: a completed run is only read; otherwise it ends with a stored result that follows from the record, or errs exactly when the next prompt would contain the run's marker, and a stuck run errs and stays stuck |
| `Council.CouncilRun.Answer` | src/model_council/engine.py:473-545 | errs exactly when a candidate or the panel's report contains the marker; otherwise answers or spends the chain |
| `Collisions.StuckIsReachable` | src/model_council/protocol.py:498-505 | one provider whose proposal quotes its prompt's delimiter: the history that freezes it, after which no jury prompt can be built |
| `Collisions.StuckForGood` | src/model_council/engine.py:370-385 | no continuation of that history makes the candidates presentable |
| `Collisions.QuotingClashes` | src/model_council/protocol.py:498-505 | a text that quotes the delimiter line contains the marker in its JSON form |
| `Runs.ReportedSomewhere` | src/model_council/protocol.py:622-665 | the aggregate's report contains the marker if and only if the prose of a valid frozen ballot does |
| `Json.JsonTextLength` | src/model_council/protocol.py:789-796 | the length the size model gives a string is the length of its JSON text |
| `Windows.SettleKeeps` | src/model_council/service_store.py:1192-1276 | settling a held entry, either way, keeps each window within its limit plus recorded overruns |
| `ServiceLedger.ReserveKeepsBound` | src/model_council/service_store.py:1045-1190 | a reservation granted with room keeps in-flight, daily and monthly totals of every principal within its largest policy plus recorded overruns |
| `ServiceLedger.SettleKeepsBound` | src/model_council/service_store.py:1192-1276 | so does reconciling with any actual cost, or releasing |
| `ServiceLedger.RevokeKeepsBound` | src/model_council/service_store.py:836-858 | so does revoking a policy |
| `ServiceLedger.ServiceStore.ReserveCall` | src/model_council/service_store.py:1045-1190 | a known id is a replay or a conflict and changes nothing; a new one is granted exactly when nothing refuses it and all three limits have room |
| `ServiceLedger.ServiceStore.ReconcileCall` | src/model_council/service_store.py:1192-1259 | the actual cost replaces a held reservation once; repeating it is recognised and changes nothing |
| `ServiceLedger.ServiceStore.ReleaseCall` | src/model_council/service_store.py:1261-1276 | succeeds exactly for the principal's held reservation |
| `ServiceLedger.ServiceStore.BindRun` | src/model_council/service_store.py:860-943 | a key names one run of its principal for good and a run one owner: replay or conflict exactly for a bound key |
| `ServiceLedger.ServiceStore.AbandonRunBinding` | src/model_council/service_store.py:1014-1043 | succeeds exactly for the same binding with nothing reserved for its run |
| `ServiceLedger.ServiceStore.PutPolicy` | src/model_council/service_store.py:731-767 | registers a policy or accepts the same again; other terms under the id are an error |
| `ServiceLedger.ServiceStore.RevokePolicy` | src/model_council/service_store.py:836-858 | the first revocation time stands |
| `ServiceLedger.ServiceStore.SetPrincipalEnabled` | src/model_council/service_store.py:401-415 | changes that principal's flag and nothing else |
| `ServiceLedger.FirstReservation` | src/model_council/service_store.py:860-1190 | from an empty store, a policy, a binding and a covered request lead to a granted reservation |
| `ServiceLedger.DurableCallGate.Reserve` | src/model_council/service.py:114-186 | the ledger as one run sees it changes as the engine's gate contract says; refused ambiguously exactly for an id it has seen |
| `ServiceLedger.DurableCallGate.Reconcile` | src/model_council/service.py:80-111 | keeps the same contract for reconciling, and succeeds on every held lease |
| `ServiceLedger.RunsAreApart` | src/model_council/service.py:1242-1252 | a write about another run leaves this run's view of the ledger as it was |
| `PolicyBudget.PolicyCore.AuthorizeAndReserve` | src/model_council/access_policy.py:482-518 | the same request again gets its decision back and is not counted twice; a new one is allowed exactly when nothing refuses it and run, day and month have room |
| `PolicyBudget.PolicyCore.Reconcile` | src/model_council/access_policy.py:520-603 | the actual cost is accounted for once, whatever it is |
| `PolicyBudget.PolicyCore.TakeSnapshot` | src/model_council/access_policy.py:743-803 | the six totals of one pass are the committed sums of the three windows |
| `PolicyBudget.ReserveKeepsBound` | src/model_council/access_policy.py:650-741 | an allowed reservation keeps every subject's windows within its largest mandate plus recorded overruns |
| `Scheduler.Scheduler.DrainPending` | src/model_council/service.py:661-675 | starts the waiting runs there are slots for up to the first refusal; it is cut short exactly when one of them is refused, and then that run is off the queue and not started |
| `Scheduler.Scheduler.CreateRun` | src/model_council/service.py:319-482 | slots are conserved with those lost counted: one is lost if and only if a slot was taken, the run was bound, cleanup raises, and preparing or dispatching failed |
| `Scheduler.Scheduler.RunFinished` | src/model_council/service.py:594-601 | the finished run's slot is given back and every waiting run is started, still waiting, or the one dropped |
| `Scheduler.Scheduler.RecoverNonterminal` | src/model_council/service.py:621-632 | after startup every unfinished run is scheduled, waiting, or the one dropped |
| `Scheduler.LeakExample` | src/model_council/service.py:451-482 | one slot, a refused dispatch and a cleanup that raises: nothing runs and the next run finds the queue full |
| `Scheduler.DropExample` | src/model_council/service.py:661-675 | two waiting runs, the first refused: it is gone from the queue and the second waits beside a free slot |
| `PromptSizes.MaximumAtEveryBound` | src/model_council/workload.py:50-79 | the filler artifact stands exactly at every bound for every label |
| `PromptSizes.JuryWithin` | src/model_council/workload.py:82-92 | no jury prompt, for any accepted proposals in any order, is longer than the projected one |
| `SynthesisSize.SynthesisWithin` | src/model_council/workload.py:94-151 | no synthesis prompt, for any judgments and their aggregate, is longer than the projected one |
| `SynthesisSize.WinsWithin` | src/model_council/workload.py:99-143 | labels named in votes and the digits of the win counts together stay within the projection, although neither does alone |
| `RepairSize.RepairWithin` | src/model_council/workload.py:152-182 | no repair prompt, for any quotable response and any error it can have, is longer than the projected one |
| `Workload.SynthesisFits` | src/model_council/workload.py:263-330 | within the plan's limits the prompt built from the anonymized aggregate and votes fits |
| `Workload.RepairFits` | src/model_council/workload.py:263-330 | within the plan's limits every repair prompt fits |
| `Workload.JuryFits` | src/model_council/workload.py:263-330 | within the plan's limits every jury prompt fits |
| `Workload.PlainQuestionCapacity` | src/model_council/workload.py:186-260 | a capacity is always reported; a plain question passes if and only if it is no longer than it, the headroom is exactly what may be appended, and the limiting stages are those that stop one more character |
| `Workload.EstimateWorkload` | src/model_council/workload.py:263-330 | errs exactly on a blank question or no providers; otherwise the plan is within limits if and only if the question can be encoded, is not too long and every stage fits |
| `PromptLimits.NoPromptTooLong` | src/model_council/workload.py:333-355 | if the plan is within its limits and the stored responses are within the parsers' bounds, then after any history every prompt the engine builds from the record is within the stage limit |
| `PromptLimits.StageKeepsEveryCall` | src/model_council/engine.py:1426-1445 | so no stage reports a call as over the workload limit |

## Findings

- A run can get stuck for good. `_checked_marker` (src/model_council/protocol.py:498-505) refuses a prompt whose content
  contains the run's marker, providers see the marker in their own prompts, and a valid proposal that quotes it is frozen
  before the first jury prompt is built; the refusal is not caught. `Collisions.StuckIsReachable` has the history,
  `Collisions.StuckForGood` shows that nothing undoes it, and `Council.CouncilRun.Resume` says exactly when a resume ends
  in this error.
- A scheduler slot can be lost (src/model_council/service.py:451-482): exactly when cleanup raises after a run was bound
  and could not be prepared or was refused by the executor. `Scheduler.LeakExample` is the shortest case; slots are
  conserved once lost ones are counted.
- A waiting run can be dropped (src/model_council/service.py:661-675): it is taken off the queue before it is handed over,
  and if the executor refuses it nobody puts it back before the next startup, while the rest of the queue waits beside a
  free slot. `Scheduler.DropExample` is an instance, `Scheduler.Scheduler.DrainPending` the exact condition.
- The ranking shown to the synthesizer can differ from the ranking of the label ballots among exact ties, because the
  tally breaks ties by provider name: exactly when a tie is listed against the order of the names
  (`Blinding.BlindingKeepsRanking`, `Blinding.BlindingReordersTies`). Scores, winner and tie are never affected.
- The majority laws of the tally need a second candidate: a lone candidate loses to nobody and is its own Condorcet loser
  (`BordaLaws.CondorcetLoserLeadsExactly`).

## Left out

- The credential scan, token tables and their rotation, HTTP, the command line, provider adapters and configuration files.
- `_resume_locked` repeats the checks of `create_run` on providers, policy and preflight; on the unchanged inputs they pass
  again, and the model takes that as given. A plan within its limits is therefore at hand in every resume.
- BordaLaws.AggregateIgnoresOrder: reported disagreements, verification items and reasons of invalidity are sets or counts
  here, while the program lists them in the order of the judgments; that order is all that a reordering can change.
- Exceptions of the store or a ledger in the middle of a stage: they stop the process, so what they leave is a prefix of a
  history, which the statements over histories cover.
- The number of worker threads: any schedule of a stage's calls is allowed.
- The texts of messages and warnings, except where the code looks into them; the columns for model, lineage, usage and latency.
- The synthesis outcome comparison and the self-vote report that only decorate a result.
- Parsing of provider text: a response enters as what the parsers find in it, and `PromptLimits` takes their bounds as hypotheses.
- SHA-256 and the seeded shuffles: any injective id and any fixed shuffle is allowed. That a preflight marker drawn afresh
  occurs in a question by chance, and that a marker occurs in the fixed text of a template, are not modelled.
- Clocks: the deadline may pass at any moment and stays passed; day and month are arbitrary functions of the time.
- Money is a whole number of the smallest unit, where the program keeps decimals; only sums and comparisons are used of it.
- The order in which the limiting stages of a capacity are listed.
- Two engines on one run at a time: the run lock rules them out.
- `Scheduler.Scheduler.Close` does not wait for runs in flight; their end is `RunFinished` like any other.
