# Sketch-and-refine experiments: estimators and harness, modelled in Dafny

The repository runs budgeted solve, critique and revise conversations with a language model, audits the
solutions frozen at budget checkpoints, and fits statistical models that predict the chance that at least one of
n arms of depth k solves a problem. This project models four of its parts and proves what they are for.

**Estimators** (exact arithmetic over `real`, any budget, any n and k).
`Numbers`, `Moments`, `Expectations` and `Trajectories` are the kernel: rising factorials, Beta and Dirichlet
moments with their conjugacy and total-probability laws, expectations as functionals on monomials in alpha,
1-alpha and the block shares, and the sum over success paths. On it stand `SimpleGeometric`,
`RegularizedSimpleGeometric`, `Observations` (runs to counts to curve), `Likelihood` and `DiscoveryExecution`
(the constrained maximum-likelihood fit), `RegularizedDiscoveryExecution` (the posterior mixture and its
prediction), `BayesPosterior` (the mixture is the Bayes posterior), `MeasuredLikelihood` (its likelihood is the
product over the runs measured), `PriorSupport` (which fits are accepted and what follows for every fitted problem)
and `KnownParameters` (agreement with the plain estimator).

**Refinement** (any block size, any stream of events). `TokenUsage` is the ledger, `AgentSession` interprets one
conversation, `Attribution` says whose text it hands on, and `SessionInputs` how a run depends on its messages.
`Refinement` gives progress, one phase and whole runs as functions. `PhaseOutcomes` reads the end of a phase off its
events, `PhaseOrder` follows the phases of whole runs, `RefinementRuns` and `Convergence` prove what every run
keeps, `Continuations` (with `ContinuationExamples`) the same of reopened and forked work, and `SessionPhases` joins
them to the conversation.
`SelfRefine` holds the objects that the source updates in place, each method proved against those functions.
`ContinuationLauncher` is the protocol above: any number of processes that share one prefix per problem and seed.

**Audits.** `AuditRunner` models verdict reuse and the judging loop with crashes and changes of judge.

**Credentials.** `CredentialPool` models rotation, cooldowns and exclusion.

A phase, the unit of a refinement run, is an `Attempt`: the events that arrived, whether the connection was then
lost, and the message identities sealed. The environment chooses it freely; `SessionsNeverBreak` shows what the
session's own guarantees rule out. `Play` runs phases from a saved state with the retry allowance, and `Replay`
strings together processes that die. A branch of the launcher protocol may be entered, run and abandoned at any
point, and abandoning covers normal return, errors, cancellation and the death of the process.

What the proofs found about the code, beyond what its documentation says:

- The label of a prefix boundary is decided by the prefix's own history. It agrees with the longer history of every
  branch if and only if the prefix has spent that boundary (`PrefixLabelsExactly`), for the shared prefix all three
  blocks (`BranchHistoryExactly`). A prefix that finished early or was paused by a rollback has not; two concrete
  runs show the difference (`EarlyFinishExample`, `RollbackExample`).
- Split text is not always recognised. The flag for several envelopes of one response is cleared whenever another
  fresh response begins, so that a completion can carry the last part of a text that was interrupted by another
  response (`SplitTextExample`). `FallbackExactly` says which envelope supplies the text, `SplitTextExactly` when it
  is the only one of its response.
- A continuation of several blocks can stop with fewer labels than it counted, because label boundaries are
  multiples of the block while the allowance counts from the tokens spent. `CompleteExactly` and
  `ContinuationCompletesExactly` give the condition, checkable beforehand, under which no run does;
  `SeveralBlocksExample` is an input that fails it. One-block forks are always complete (`ForkedRunAgrees`).
- The marginal likelihood of the regularised estimator is exact if and only if no oracle completion falls in a
  category the prior excludes (`EvidenceExactness`); the fit's guard and its choice of categories ensure this for
  every fitted problem (`FittedPredictionsAreExact`).

## Model

| member | source | states |
|---|---|---|
| `Moments.BetaConjugate` | frameworks/utils/probabilities.py:27-34 | E[q^(s+s')(1-q)^(f+f')] under Beta(a,b) is E[q^s(1-q)^f] times the moment of (s',f') under Beta(a+s,b+f), for all positive shapes |
| `Moments.BetaTotal` | frameworks/utils/probabilities.py:27-34 | total probability: a moment is the sum of the moments with one more success and with one more failure |
| `Moments.DirichletConjugate` | frameworks/utils/probabilities.py:37-46 | a Dirichlet moment of r+q is the moment of r times the moment of q under concentrations d+r, zero concentrations included |
| `Moments.DirichletTotal` | frameworks/utils/probabilities.py:37-46 | total probability over the categories: the moments with one more draw of each category add up to the moment |
| `Moments.DirichletFactors` | frameworks/discovery_execution/regularized_discovery_execution.py:310-334 | the full Dirichlet moment is the Beta moment of the first share times the Dirichlet moment of the relative later shares, which is how the code evaluates it |
| `SimpleGeometric.PassAtCountsSubsets` | frameworks/geometric/simple_geometric.py:22-33 | 1-C(T-S,a)/C(T,a) is the fraction of a-element subsets of the measured trials that contain a success, subsets counted by recursion over the sample |
| `SimpleGeometric.PredictionCountsSubsets` | frameworks/geometric/simple_geometric.py:22-33 | a prediction for n arms of k blocks is refused exactly when fewer than nk trials were measured; otherwise it is the fraction of the nk-element subsets of the sample that contain a success |
| `SimpleGeometric.Unbiased` | frameworks/geometric/simple_geometric.py:11-33 | for all T>=a and q in [0,1] the binomial expectation of the estimate is 1-(1-q)^a |
| `SimpleGeometric.PassAtIsProbability` | frameworks/geometric/simple_geometric.py:22-33 | every estimate lies in [0,1] |
| `SimpleGeometric.PassAtGrowsWithSuccesses` | frameworks/geometric/simple_geometric.py:22-33 | the estimate never drops when more trials succeeded |
| `SimpleGeometric.PassAtGrowsWithAttempts` | frameworks/geometric/simple_geometric.py:22-33 | the estimate never drops when more attempts are allowed |
| `RegularizedSimpleGeometric.SuccessProbability` | frameworks/geometric/regularized_simple_geometric.py:40-49 | the loop returns one minus the Beta posterior moment of nk failures |
| `RegularizedSimpleGeometric.PredictionIsPosterior` | frameworks/geometric/regularized_simple_geometric.py:40-49 | one minus the prediction is E_prior[q^s (1-q)^(f+nk)] over E_prior[q^s (1-q)^f], the posterior chance that nk further trials all fail |
| `RegularizedSimpleGeometric.StrictlyIncreasing` | frameworks/geometric/regularized_simple_geometric.py:40-49 | the prediction grows strictly with every attempt and stays within [0,1) |
| `RegularizedSimpleGeometric.BelowPlugIn` | frameworks/geometric/regularized_simple_geometric.py:46-48 | the prediction is at most 1-(1-mean)^N, strictly less for N>1 |
| `RegularizedSimpleGeometric.DependsOnTotalOnly` | frameworks/geometric/regularized_simple_geometric.py:45-49 | allocations with the same nk have the same prediction |
| `Observations.CumulativeSuccesses` | frameworks/utils/dataloader.py:102-110 | entry j counts the runs whose first pass is at or before checkpoint j, later failures notwithstanding |
| `Observations.CountsRoundTrip` | frameworks/utils/dataloader.py:102-110 | the curve of any complete runs is a valid observation, and differencing it gives the number of runs first passing at each checkpoint and never |
| `Observations.OracleCountsInvert` | frameworks/discovery_execution/regularized_discovery_execution.py:123-126 | for every valid observation the counts sum to the attempts and their prefix sums are the observed curve |
| `Observations.Observation.Cumulative` | frameworks/models.py:145-175 | an observation that construction accepts, identity included, has a curve that is nondecreasing over any distance and stays within the attempts |
| `Likelihood.PeaksAtRate` | frameworks/discovery_execution/discovery_execution.py:19-46 | x^u(1-x)^v over [0,1] is largest at the observed rate, by weighted AM-GM |
| `Likelihood.CloserToRate` | frameworks/discovery_execution/discovery_execution.py:33-46 | the binomial likelihood never drops when moving towards the observed rate |
| `DiscoveryExecution.FitParameters` | frameworks/discovery_execution/discovery_execution.py:13-62 | the two append loops return the parameters of Fitted, whose meaning the next rows prove |
| `DiscoveryExecution.FitInCounts` | frameworks/discovery_execution/discovery_execution.py:13-54 | every checkpoint in counts: off the boundary e_j times the oracle attempts are the successes by checkpoint j; on it the fitted unsolved share at j is to the one at the first checkpoint as the unsolved runs then are to those at the first |
| `DiscoveryExecution.PoolingBound` | frameworks/discovery_execution/discovery_execution.py:33-41 | when the short rate exceeds the execution rate, no feasible pair beats both samples pooled at one rate |
| `DiscoveryExecution.FitIsMaximumLikelihood` | frameworks/discovery_execution/discovery_execution.py:13-47 | the fitted pair maximises (ae)^u(1-ae)^(m-u) e^c(1-e)^(o-c) over the whole square, in the unidentified, interior and pooled branches |
| `DiscoveryExecution.UnidentifiedExactly` | frameworks/discovery_execution/discovery_execution.py:23-27 | the flag is set if and only if every alpha is a maximiser next to the fitted first execution probability |
| `DiscoveryExecution.OthersAreWorse` | frameworks/discovery_execution/discovery_execution.py:13-47 | once discovery is identified, every other pair of the square has a strictly smaller likelihood than the fitted one |
| `DiscoveryExecution.UniqueExactly` | frameworks/discovery_execution/discovery_execution.py:13-47 | the fitted pair is the only maximiser over the square if and only if discovery is identified |
| `DiscoveryExecution.FitIsValid` | frameworks/discovery_execution/discovery_execution.py:13-62 | alpha in [0,1], a nondecreasing curve in [0,1], the boundary flag by cross-multiplied counts, and the measured unsolved tail ratios preserved |
| `DiscoveryExecution.SuccessProbability` | frameworks/discovery_execution/discovery_execution.py:64-76 | the loop returns 1-(1-s_k)^n for the convolution s_k |
| `DiscoveryExecution.ConvolutionIsProcess` | frameworks/discovery_execution/discovery_execution.py:64-76 | the convolution is the success chance of the block-by-block process: discover now and execute in the blocks left, or go on |
| `DiscoveryExecution.PredictionsAreMonotone` | frameworks/discovery_execution/discovery_execution.py:64-76 | predictions lie in [0,1] and never drop with n or k |
| `DiscoveryExecution.FittedPredictionsAreProbabilities` | frameworks/base/base_framework.py:49-51 | the validity check on predictions cannot fire for any accepted observation in exact arithmetic |
| `Expectations.AlternatingIsComplement` | frameworks/discovery_execution/regularized_discovery_execution.py:258-271 | for any functional on monomials the alternating binomial sum over powers of a path sum is the expectation of the complement power |
| `Trajectories.SuccessPathsExact` | frameworks/discovery_execution/regularized_discovery_execution.py:299-308 | the path list holds exactly the pairs with f+j+1<=k, each once |
| `Trajectories.SelectionsArePower` | frameworks/discovery_execution/regularized_discovery_execution.py:273-297 | summing over all ordered r-tuples of paths is the expectation of the r-th power of the path sum |
| `Trajectories.SuccessOrFailure` | frameworks/discovery_execution/regularized_discovery_execution.py:258-271 | one minus the path sum acts as the sum of the failing paths |
| `Trajectories.AnySuccessIsProbability` | frameworks/discovery_execution/regularized_discovery_execution.py:258-271 | under every normalised nonnegative expectation that obeys total probability the alternating sum lies in [0,1] and never drops with n or k |
| `RegularizedDiscoveryExecution.CaseConsistent` | frameworks/discovery_execution/regularized_discovery_execution.py:164-188 | each case's product of moments is a normalised nonnegative expectation obeying total probability for discovery and execution |
| `RegularizedDiscoveryExecution.CaseProbabilities` | frameworks/discovery_execution/regularized_discovery_execution.py:128-162 | case probabilities sum to one, are positive exactly for h<=m-u, and padded columns change neither them nor the evidence |
| `RegularizedDiscoveryExecution.SelectionMomentIsExpectation` | frameworks/discovery_execution/regularized_discovery_execution.py:282-297 | the product of Beta and Dirichlet moments added per selection is the case expectation of the product of its paths |
| `RegularizedDiscoveryExecution.ExpectedSuccessPower` | frameworks/discovery_execution/regularized_discovery_execution.py:273-297 | the loop over ordered selections returns E[s_k^r] for every case |
| `RegularizedDiscoveryExecution.ConditionalSuccessProbability` | frameworks/discovery_execution/regularized_discovery_execution.py:258-271 | the loop over powers returns the any-of-n success expectation for every case |
| `RegularizedDiscoveryExecution.SuccessProbability` | frameworks/discovery_execution/regularized_discovery_execution.py:247-256 | the method returns the mixture of the case expectations, which the following rows show to be a probability and the posterior predictive |
| `RegularizedDiscoveryExecution.PredictionIsProbability` | frameworks/base/base_framework.py:49-51 | the prediction lies in [0,1] and never drops with n or with k up to the budget, for every valid prior and data |
| `BayesPosterior.FailureCauses` | frameworks/discovery_execution/regularized_discovery_execution.py:82-96 | a trial that is no short success either misses discovery or discovers and fails to execute, as moments |
| `BayesPosterior.CaseExpansion` | frameworks/discovery_execution/regularized_discovery_execution.py:190-223 | the expansion of (1-alpha pi_1)^(m-u) over h agrees with its alternating expansion under the prior moments |
| `BayesPosterior.CaseTermFactors` | frameworks/discovery_execution/regularized_discovery_execution.py:164-223 | each case term is oracle evidence times case weight times the conditional expectation under the updated shapes |
| `BayesPosterior.MixtureIsBayes` | frameworks/discovery_execution/regularized_discovery_execution.py:128-162 | E_prior[L g] = E_prior[L] times the mixture's expectation of g, for every monomial g |
| `BayesPosterior.EvidenceExactness` | frameworks/discovery_execution/regularized_discovery_execution.py:225-245 | the reported marginal likelihood is E_prior[L] if and only if no oracle completion fell in a category the prior excludes; otherwise the true value is zero and the reported one is positive |
| `BayesPosterior.PredictionIsPosteriorPredictive` | frameworks/discovery_execution/regularized_discovery_execution.py:247-256 | the computed prediction is E_posterior[1-(1-s_k)^n] for supported data |
| `MeasuredLikelihood.RunsAtKnown` | frameworks/discovery_execution/regularized_discovery_execution.py:82-96 | with alpha and pi known, acting with the measured runs multiplies by alpha pi_1 per solved short run, 1 - alpha pi_1 per unsolved one and pi_j per oracle run that first passed at j |
| `MeasuredLikelihood.LikelihoodIsProduct` | frameworks/discovery_execution/regularized_discovery_execution.py:82-121 | for all short and complete oracle runs that reduce to the observation, the likelihood of the derived data is the product over the runs, whichever run came in which order |
| `PriorSupport.AcceptedExactly` | frameworks/discovery_execution/regularized_discovery_execution.py:45-49 | the guard on the fit holds if and only if the prior built from any positive shapes has the shapes every expectation needs |
| `PriorSupport.ObservedExactly` | frameworks/discovery_execution/regularized_discovery_execution.py:41-49 | a category is kept if and only if some problem had an oracle run that completed in it |
| `PriorSupport.PriorMeans` | frameworks/discovery_execution/regularized_discovery_execution.py:98-110 | the optimiser's values end up where they belong: discovery has prior mean a/(a+b), and a kept category the mean of the shape at its place among the kept ones; excluded ones have mean zero |
| `PriorSupport.FittedProblemIsSupported` | frameworks/discovery_execution/regularized_discovery_execution.py:98-110 | every problem the prior is fitted to has its counts in categories the prior keeps |
| `PriorSupport.FittedPredictionsAreExact` | frameworks/discovery_execution/regularized_discovery_execution.py:98-126 | from runs to predictions: for all accepted problems, positive shapes and any runs that reduce to the problem's counts, each prediction is the expectation given those runs, a probability, monotone in n and k, and its evidence is the likelihood of the runs |
| `PriorSupport.ObservationsComeFromRuns` | frameworks/models.py:145-175 | every observation that construction accepts is what some short and complete oracle runs reduce to, so the previous row covers all problems |
| `KnownParameters.PathSumIsConvolution` | frameworks/discovery_execution/regularized_discovery_execution.py:299-308 | at known alpha and pi the path sum equals the plain estimator's convolution on the prefix sums of pi |
| `KnownParameters.TuplesArePowers` | frameworks/discovery_execution/regularized_discovery_execution.py:273-297 | summed over all ordered r-tuples, path probabilities give s_k^r |
| `KnownParameters.AgreesWithPlainEstimator` | frameworks/discovery_execution/discovery_execution.py:64-76 | at known parameters the whole alternating expansion is the plain estimator's prediction |
| `TokenUsage.TokenUsage.UpdateMessageTokens` | harness/session/token_usage.py:32-38 | refuses a negative count; otherwise the ledger becomes the one with the larger count of the fresh message, sealed ones ignored |
| `TokenUsage.TokenUsage.FinalizeTurnUsage` | harness/session/token_usage.py:40-45 | refuses a negative count; otherwise charges the larger of reported and observed, seals the messages and starts a new turn |
| `TokenUsage.TokenUsage.OutputTokens` | harness/session/token_usage.py:18-26 | returns finished turns plus the sum over the current turn's messages |
| `TokenUsage.Ledger.Monotone` | harness/session/token_usage.py:32-45 | neither a snapshot nor a turn result lowers the total |
| `TokenUsage.ObserveKeepsLargest` | harness/session/token_usage.py:32-38 | snapshots in any order leave the largest one of every fresh identity |
| `TokenUsage.LedgerIsSum` | harness/session/token_usage.py:18-45 | after any turns and snapshots the total is the sum over turns of max(reported, sum of largest fresh snapshots) plus the open turn |
| `TokenUsage.OrderIndependent` | harness/session/token_usage.py:32-45 | reordering or repeating the snapshots of a turn changes neither its cost nor what it seals |
| `TokenUsage.ChargedOnce` | harness/session/token_usage.py:12-16 | over all turns sharing the sealed set no identity is charged in two finished turns |
| `AgentSession.BeginGrows` | harness/session/agent_session.py:113-181 | a message never lowers the total, reports it exactly, and a successful result has positive tokens and text |
| `AgentSession.EveryRunIsWellBehaved` | harness/session/agent_session.py:53-75 | for every message sequence and every consumer: usage never decreases, at most one terminal event and nothing after it, completions with text and positive tokens, interruptions only when asked |
| `AgentSession.OnlyFreshMainText` | harness/session/agent_session.py:123-126 | child, replayed and unidentified envelopes leave the retained text alone |
| `Attribution.RetainedText` | harness/session/agent_session.py:113-150 | in every run, whatever is interleaved, the retained text is that of the last standing envelope of the response the turn is at (no other response has begun since), and the flag says whether several stand |
| `Attribution.FallbackExactly` | harness/session/agent_session.py:183-194 | in every open run a result without text has a text to fall back on if and only if exactly one envelope with text of the current response stands and that response was charged in this turn, and then it is that text |
| `Attribution.CompletionIsAttributed` | harness/session/agent_session.py:53-75 | every run that ends does so at a result, and a completion has the result's own text or that of the one standing envelope of a response not sealed by then and charged in the closing turn |
| `Attribution.SplitTextExactly` | harness/session/agent_session.py:141-150 | the envelope that supplies the text is the only one of its response with text in the whole turn if and only if no other fresh main response began between an earlier one and it |
| `Attribution.SplitTextExample` | harness/session/agent_session.py:141-150 | a concrete run that completes with the second part of a split text, because another response came between the parts |
| `AgentSession.FallbackIsFreshAndMetered` | harness/session/agent_session.py:183-194 | fallback text is the unambiguous text of a fresh response charged in this turn |
| `AgentSession.Interpreter.BeginDispatch` | harness/session/agent_session.py:92-174 | the interpreter's state, error and usage event are those of Begin for every message |
| `AgentSession.Interpreter.EndDispatch` | harness/session/agent_session.py:169-174 | after the consumer's reaction the dispatch ends as End says: fails, goes on, or yields the terminal event |
| `SessionInputs.PendingExactly` | harness/session/agent_session.py:77-111 | in every open run the pending input is the last one queued, by the start or by a reaction to a usage event, unless a user message with its identity came since |
| `SessionInputs.InterruptedExactly` | harness/session/agent_session.py:84-90 | a run is being interrupted if and only if some reaction asked for it, in every run |
| `SessionInputs.ResultDecides` | harness/session/agent_session.py:152-181 | what a result does, for every open run: it completes exactly if successful, fresh, accounted for, not interrupted and the last input has been echoed; a successful result with an unechoed input and no interrupt leaves the run open; the other outcomes exactly as well |
| `SessionInputs.CompletionIsAnswered` | harness/session/agent_session.py:172-174 | every completed run closed at a result before which its last queued input had been echoed |
| `SessionInputs.MessageDecides` | harness/session/agent_session.py:92-139 | any other message leaves the run open or fails it with a given error, exactly as the message and the streams begun before it say |
| `SessionInputs.RunLedger` | harness/session/agent_session.py:113-228 | in every run the ledger is that of the snapshots and turn results read off the messages, each delta counted for the latest response of its stream |
| `SessionInputs.NothingUnreported` | harness/session/agent_session.py:210-214 | over every run usage events come only with a new, larger total, and the last event of a run that has not failed carries its total |
| `SessionInputs.ReportedIsSum` | harness/session/agent_session.py:210-228 | the total the consumer was last told is the sum over finished turns of max(reported, largest fresh snapshots) plus the open turn's, read off the messages alone |
| `RefinementRuns.CaptureFacts` | harness/self_refine/self_refine.py:118-124 | capturing adds consecutive labels with the current solution, exactly while their boundary is reached, and rewrites none |
| `PhaseOutcomes.AcceptedExactly` | harness/self_refine/self_refine.py:69-93 | an event stream is accepted if and only if usage never drops, only its last event is terminal and an interruption follows a usage event at the limit; an interrupt has been requested if and only if such an event came |
| `PhaseOutcomes.StepOutcome` | harness/self_refine/self_refine.py:69-109 | the end of every phase in terms of its events: lost, refused or saved exactly when; completed within the limit it is kept whole, followed by the right instruction and status; otherwise a prefix is as before but paused, and any other attempt has spent its tokens and is exhausted |
| `PhaseOutcomes.NoticedExactly` | harness/self_refine/self_refine.py:126-139 | a phase has sent the low-budget notice if and only if it was sent before or, at its start or some usage event, the allowance was low while the limit had not been reached |
| `PhaseOutcomes.StepNotices` | harness/self_refine/self_refine.py:95-139 | a saved phase records exactly that; a prefix phase that is undone leaves the notice unsent |
| `PhaseOrder.PlayTakesTurns` | harness/self_refine/self_refine.py:166-181 | over every run, with losses and rollbacks, kept critiques and solutions alternate strictly, the instruction archived follows the last of them, and the history and verdicts are those of the kept phases |
| `PhaseOrder.ReplayTakesTurns` | harness/self_refine/self_refine.py:166-181 | the same through any number of processes that resume the archive and vanish |
| `PhaseOrder.OneSolutionBetween` | harness/self_refine/self_refine.py:166-181 | between two successive critiques exactly one solution was completed |
| `PhaseOrder.PrefixHoldsCompletions` | harness/self_refine/self_refine.py:95-109 | every state archived for a prefix stays within its pause and has spent exactly the tokens at its last kept phase |
| `PhaseOrder.RetryAllowance` | harness/self_refine/recovery.py:44-60 | any number of losses in a row is survived if and only if it is within what remains of MAX_RETRIES, each leaving the state as it was |
| `PhaseOrder.SavingResetsAllowance` | harness/self_refine/recovery.py:66-72 | every saved phase gives the whole allowance back |
| `PhaseOrder.PlayConverses` | harness/self_refine/recovery.py:79-89 | in every run the archived conversation is as before until a phase is saved without rollback, then that of the last such phase, not marked for forking |
| `PhaseOrder.ReplayConverses` | harness/self_refine/recovery.py:79-89 | the same through any number of processes |
| `RefinementRuns.OpensItsOwn` | harness/session/session_manager.py:64-82 | a request starts from the archive of its own problem and budget, or afresh when there is none, and is refused exactly when invalid or when the archive is of another problem or budget |
| `RefinementRuns.StepKeeps` | harness/self_refine/self_refine.py:69-124 | a saved phase keeps frozen labels in agreement with the history for any usage jumps, and either stops or spends at least one token |
| `RefinementRuns.StepExtends` | harness/self_refine/self_refine.py:95-124 | a saved phase changes neither problem, allowance nor any frozen label |
| `RefinementRuns.FreshIsReady` | harness/self_refine/models.py:65-91 | a fresh attempt is accepted exactly for nonblank text, a positive budget and a pause inside it; it then affords every block label |
| `RefinementRuns.RunKeeps` | harness/self_refine/self_refine.py:53-109 | every state a run saves or returns, with losses and retries, agrees with the history of the phases kept and passes validation |
| `RefinementRuns.FreshRunAgrees` | harness/self_refine/self_refine.py:53-124 | fresh and paused runs: every label holds the last solution completed within its boundary, and a run that returns has exactly checkpoint_count labels |
| `RefinementRuns.SavesPassValidation` | harness/self_refine/recovery.py:66-72 | a phase of a valid attempt is never refused by the validation before the save |
| `RefinementRuns.StopsComplete` | launcher/launcher/audit_launcher.py:63-64 | a stopped attempt that was allotted its block labels has all of them |
| `RefinementRuns.FailuresLeaveNothing` | harness/self_refine/recovery.py:44-77 | saved state and history are those of the loss-free run of the kept phases alone |
| `RefinementRuns.ReplayKeeps` | harness/session/session_manager.py:64-82 | archive and history stay in agreement however many processes open the archive, run and vanish |
| `RefinementRuns.WaitingCostsTokens` | harness/self_refine/recovery.py:44-72 | a run still going has spent a token for every MAX_RETRIES+1 attempts |
| `RefinementRuns.EveryRunEnds` | harness/self_refine/recovery.py:44-72 | no run outlives (limit - tokens)(MAX_RETRIES+1) attempts |
| `Continuations.ReopenedIsReady` | harness/session/session_manager.py:153-165 | reopening is possible exactly with a larger total, keeps tokens, rounds, labels and solution, and is ready if and only if the last solution lies within the next boundary |
| `Continuations.ReopenedExactly` | harness/session/session_manager.py:153-165 | running work and a total not above the tokens spent are refused and nothing else; reopening changes the total, the pause, the status, the streak, the number of labels to that of the blocks begun, and clears the notice exactly for a larger total |
| `Continuations.CompleteExactly` | harness/session/session_manager.py:153-165 | every run of running work, however it goes, stops with all its labels if and only if its allowance covers the block labels it was given |
| `Continuations.ContinuationCompletesExactly` | harness/session/session_manager.py:153-165 | any stopped attempt reopened with a larger total: all runs complete their labels if and only if one block suffices or the last whole block lies within the total |
| `Continuations.OneBlockFork` | harness/session/session_manager.py:129-165 | a one-block fork keeps everything, adds one label whose boundary is the new budget, and is ready on the prefix's history |
| `Continuations.ForkKeepsConversation` | harness/session/session_manager.py:129-142 | for both kinds of fork: the published archive keeps conversation and sealed identities, is marked for forking if and only if the source has a conversation, and holds the saved progress or its continuation in phase continue |
| `Continuations.BranchConverses` | harness/session/session_manager.py:129-142 | through any runs of a branch the mark and the source's conversation stand until the first phase saved without rollback; from then on the archived conversation is the last such phase's own, unmarked |
| `Continuations.ForkedRunAgrees` | harness/session/session_manager.py:129-165 | running the fork keeps prefix labels, decides the new one by the whole history, and stops with exactly one label more |
| `Continuations.PrefixLabelsExactly` | harness/self_refine/self_refine.py:118-124 | the labels of a stopped prefix agree with the whole history of every run of its fork if and only if the prefix has spent every boundary they stand for |
| `Continuations.SpentLabelsRead` | harness/self_refine/self_refine.py:118-124 | the label of a spent boundary agrees with the whole history through any number of processes |
| `Continuations.FreshLabelsExactly` | harness/self_refine/self_refine.py:118-124 | for a stopped fresh attempt that condition is to have spent the whole limit |
| `ContinuationExamples.EarlyFinishExample` | harness/self_refine/self_refine.py:118-124 | a concrete prefix run that finishes early and a run of its fork, whose history has another solution within the first boundary than label one holds |
| `ContinuationExamples.RollbackExample` | harness/self_refine/self_refine.py:95-109 | the same with a prefix paused by rolling an overrunning critique back |
| `ContinuationExamples.SeveralBlocksExample` | harness/session/session_manager.py:153-165 | a concrete finished run, reopened for two more labels, whose next run is exhausted without them |
| `SessionPhases.SessionsNeverBreak` | harness/self_refine/self_refine.py:69-93 | a phase driven by any session run and the controller's own interrupts is saved with all the run sealed unless rolled back, lost if the run was cut off or failed recoverably, and breaks only on a fatal failure |
| `Convergence.StepCounts` | harness/self_refine/self_refine.py:95-109 | a phase finishes the run if and only if it is a kept critique after which both conditions hold |
| `Convergence.FinishedHasConverged` | harness/self_refine/self_refine.py:166-181 | rounds and streak are those of the kept critiques over every run, and a finished run had enough of them, the last ones all clean |
| `Convergence.ContinuationCountsAnew` | harness/session/session_manager.py:153-165 | a continuation keeps the rounds and starts a new streak |
| `Convergence.RunsNeverWarnEarly` | harness/self_refine/self_refine.py:126-139 | over every run a saved notice was due |
| `Convergence.EventWarns` | harness/self_refine/self_refine.py:126-139 | every usage event that leaves a running budget low has the notice sent |
| `Convergence.ContinuationWarnsAgain` | harness/session/session_manager.py:153-165 | after continuation a recorded notice is still due, so a larger allowance gets its own |
| `SelfRefine.SessionManager.Open` | harness/session/session_manager.py:64-82 | resumes the archive of the same problem and budget as fresh objects, archives a new valid attempt, refuses anything else without a change |
| `SelfRefine.SessionManager.Checkpoint` | harness/session/session_manager.py:103-109 | the archive becomes the live objects' value, unless they fail validation |
| `SelfRefine.SessionManager.ContinueRun` | harness/session/session_manager.py:116-127 | the archive is reopened with the new total, or left as it is if it is running, the total too small or the state invalid |
| `SelfRefine.SessionManager.Restore` | harness/session/session_manager.py:111-114 | the live objects are replaced by fresh ones equal to the archive |
| `SelfRefine.SessionManager.Fork` | harness/session/session_manager.py:129-142 | a target without an archive receives the forked value in one replacement; the source is untouched |
| `SelfRefine.Controller.CaptureSolutionCheckpoints` | harness/self_refine/self_refine.py:118-124 | the in-place loop computes Capture |
| `SelfRefine.Controller.ResolvePhaseOutcome` | harness/self_refine/self_refine.py:95-109 | the returned object is the one a checkpoint would archive; an ineligible prefix phase leaves the archived progress, paused |
| `SelfRefine.Controller.EndPhase` | harness/self_refine/self_refine.py:62-65 | the end of a phase archives the resolved and captured state, rolled back or not, if it passes validation |
| `SelfRefine.Controller.RunPhase` | harness/self_refine/self_refine.py:69-109 | one phase archives exactly what Step says, or nothing if it is lost or breaks off, although its sealed identities are live at once |
| `SelfRefine.Controller.RunPhases` | harness/self_refine/self_refine.py:53-67 | the loop follows Play and always advances the object that is archived, even after a rollback replaced it |
| `SelfRefine.Controller.RetryPhases` | harness/self_refine/recovery.py:44-60 | losses are retried from the archive within the allowance, as Play says |
| `SelfRefine.Controller.Run` | harness/self_refine/recovery.py:37-64 | a whole run from open to close returns and archives what Play says |
| `ContinuationLauncher.EveryScheduleIsSafe` | launcher/launcher/continuation_launcher.py:41-86 | for any number of processes, interleavings and crashes: locks match their holders, and every branch archive grew from a fork of the stopped prefix with budget prefix tokens plus one block |
| `ContinuationLauncher.EarlierIsPreserved` | launcher/launcher/continuation_launcher.py:41-86 | a stopped prefix never changes, and a published branch keeps its archive, budget and labels, through any later steps |
| `ContinuationLauncher.OnlyHoldersWrite` | launcher/launcher/continuation_launcher.py:41-49 | only the process working on a branch changes its archive, only the holder of the prefix lock changes the prefix, and a fork never replaces a branch |
| `ContinuationLauncher.LocksExclude` | harness/session/run_lock.py:20-40 | no two processes share a branch or the prefix, and an idle or dead one holds nothing |
| `ContinuationLauncher.NoDeadlock` | launcher/launcher/continuation_launcher.py:73-86 | a process waiting for the prefix can take it, or the holder is not waiting and each way it ends lets the waiter in |
| `ContinuationLauncher.PrefixWorkSuffices` | launcher/launcher/continuation_launcher.py:56-71 | enough attempts settle the prefix, and once it is stopped the holder publishes its fork |
| `ContinuationLauncher.PrefixLabels` | launcher/launcher/continuation_launcher.py:92-95 | every stopped prefix, whatever its runs: four blocks advertised, the pause at three, at most three spent, and label m is the last solution completed within m blocks |
| `ContinuationLauncher.StepsDoTheirWork` | launcher/launcher/continuation_launcher.py:41-71 | in every safe world each step does its part: an existing branch is worked on without the prefix, a new one waits; runs advance the archives from where they were saved; a stopped prefix is forked for the branch, a running one is given back |
| `ContinuationLauncher.BranchesAreComplete` | launcher/launcher/audit_launcher.py:59-64 | every branch archive comes from runs of its fork and the prefix from runs of its request; labels one to three are those of the prefix's history, label four that of the whole history at the branch's budget, and a stopped branch has exactly four |
| `ContinuationLauncher.BranchHistoryExactly` | launcher/launcher/continuation_launcher.py:56-71 | the three prefix labels agree with the history of every branch if and only if the prefix has spent all three blocks |
| `ContinuationLauncher.PrepareFork` | launcher/launcher/continuation_launcher.py:56-71 | on the objects: the prefix archive and the branch archive become those of PreparedPrefix and PreparedBranch, and the budget returned is the branch's |
| `ContinuationLauncher.PreparationIsTwoSteps` | launcher/launcher/continuation_launcher.py:56-71 | in every reachable world the method's effect is that of the protocol's run and publish steps |
| `AuditRunner.ReuseSavedVerdicts` | audit/audit_runner.py:73-87 | the two loops leave the record as Reused, or refuse exactly when a blank solution has a verdict of its own |
| `AuditRunner.ReuseIsExact` | audit/audit_runner.py:73-93 | every verdict is kept with its judge, new ones come only from a label with the same text, and identical texts end with identical stages |
| `AuditRunner.ReuseIsIdempotent` | audit/audit_runner.py:73-93 | reusing twice is reusing once |
| `AuditRunner.ReuseIsValid` | audit/audit_runner.py:73-93 | the reused record can be written if and only if no label with a judged correctness verdict and no step has a text whose first step verdict is that of an empty solution |
| `AuditRunner.AcceptableExactly` | audit/audit_runner.py:62-87 | an audit starts if and only if there is a solution, every saved label belongs to one and is valid, nothing but the empty record is saved where no text was written, and no label mixes the two kinds of verdict |
| `AuditRunner.NothingIsSettled` | audit/audit_runner.py:78-82 | a missing or blank solution starts with the empty record and is never asked about |
| `AuditRunner.ReuseStaysJudged` | audit/audit_runner.py:73-93 | if no solution with text carries the empty record, none does after reuse, and no step verdict lacks its correctness verdict |
| `AuditRunner.JudgmentSpreads` | audit/audit_runner.py:57-58 | judging one label and reusing gives the judgment to every label with that text and to no other |
| `AuditRunner.PrepareRecord` | audit/audit_runner.py:62-71 | publishes the reused record, or refuses without a change |
| `AuditRunner.Prepare` | audit/audit_runner.py:34-40 | reports work remaining if and only if a text and stage is pending |
| `AuditRunner.Run` | audit/audit_runner.py:42-60 | asks the pending pairs in order, publishes after each, finishes if and only if all were asked, and leaves a record the next audit accepts |
| `AuditRunner.FinishedIsComplete` | audit/audit_runner.py:42-60 | a finished audit asked exactly the lacking pairs, each once and none blank; every label is complete with its earlier verdict or the present judge's result |
| `AuditRunner.RestIsPending` | audit/audit_runner.py:42-60 | after k judgments exactly the rest is pending |
| `AuditRunner.SittingsAskOnce` | audit/audit_runner.py:42-60 | over any interruptions and changes of judge the pairs judged are those of one uninterrupted audit, none twice |
| `CredentialPool.CreatePool` | harness/proxy/credential_pool.py:19-32 | refuses an empty or mixed batch; otherwise the distinct credentials in the order of their first occurrence, all ready |
| `CredentialPool.CredentialPool.TryAcquire` | harness/proxy/credential_pool.py:37-50 | one pass of the loop has the outcome and the turn of Pool.Acquire |
| `CredentialPool.CredentialPool.Acquire` | harness/proxy/credential_pool.py:34-50 | the loop passes until a credential is found or all are disabled, with any actions of other tasks between its passes |
| `CredentialPool.WakesAreUseful` | harness/proxy/credential_pool.py:78-88 | a waiting task is awake once all credentials are disabled and then fails; one that slept its time out gets a credential unless another task cooled or disabled one |
| `CredentialPool.CredentialPool.MarkRateLimited` | harness/proxy/credential_pool.py:56-63 | a future reset or five minutes, never shortening a cooldown |
| `CredentialPool.CredentialPool.Disable` | harness/proxy/credential_pool.py:69-76 | the credential is excluded and waiting tasks are signalled, the first time only; nothing else changes |
| `CredentialPool.AcquireMeaning` | harness/proxy/credential_pool.py:34-50 | only eligible credentials are returned, an eligible current one is kept, waits are positive and end exactly when one can be eligible, and it fails if and only if all are disabled |
| `CredentialPool.RateLimitMeaning` | harness/proxy/credential_pool.py:56-63 | after a rate limit the credential is eligible exactly when it was and the reset, if it lay ahead, or else five minutes have passed; disabled ones and all others stay as they were |
| `CredentialPool.DisabledMeaning` | harness/proxy/credential_pool.py:69-76 | a disabled credential is never eligible again, waiting tasks are woken if and only if it was not disabled before, and all others stay as they were |
| `CredentialPool.RotationIsCyclic` | harness/proxy/credential_pool.py:41-46 | a rotation takes the eligible credential closest after the turn and moves the turn just behind it |
| `CredentialPool.CooldownsNeverShrink` | harness/proxy/credential_pool.py:56-76 | over every run cooldowns never shrink and a disabled credential stays disabled |
| `CredentialPool.WaitingMissesNothing` | harness/proxy/credential_pool.py:47-50 | whatever others do meanwhile, nothing becomes eligible before a wait is over |
| `CredentialPool.NoStarvation` | harness/proxy/credential_pool.py:41-46 | a credential eligible throughout is handed out within as many rotations as there are credentials |
| `CredentialPool.EveryCredentialOnce` | harness/proxy/credential_pool.py:41-46 | with all eligible, n fresh acquisitions hand out each credential exactly once |

## Left out

- Prior optimisation (L-BFGS-B, the Beta-binomial likelihood and its gradient): the prior's positive shapes are inputs.
- Floating point, logarithms and clamping of predictions: arithmetic is over `real`, evidence is a product instead of a log, and the rounding of `ceil` on a float quotient is not modelled.
- Vectorised rows and broadcasting: one problem at a time, with any number of padded columns.
- Reading result files and selecting problems and complete runs: runs are given as sequences of passes.
- Zip archives, transcripts, symbolic links, file modes, `fsync` and exported solution files: an archive is a value that is replaced as a whole.
- The connection manager, SDK options, prompts and JSON schemas: received messages, the consumer's reactions and the connection's conversation identity are inputs.
- Error texts: whether a provider error is recoverable, and whether a response is a diagnostic, are inputs to the interpreter.
- The critique's last-line verdict: an arbitrary predicate `clean` on the text.
- Backoff delays and the cancellation of tasks: a failed attempt is followed by the next one or by the end of the run.
- The connection a checkpoint opens at its end counts as the beginning of the next phase, so that a failure to connect is a lost phase with no events.
- A container that outlives the host process holding its lock: locks are free when their holder is gone, and so is its work.
- RefinementRuns.StopsComplete: continuations of several blocks whose allowance does not cover their labels, for which it does not hold; Continuations.CompleteExactly gives the exact condition.
- Continuations.ForkedRunAgrees: agreement of the prefix labels with the branch's whole history, which can fail; Continuations.PrefixLabelsExactly gives the exact condition.
- AuditRunner.Run: the judge's sandbox, its stage directory and the contents and schema of a verdict; a judgment is a string.
- CredentialPool.CredentialPool.Acquire: how long a task really sleeps; the clock readings of its passes and what others do between them are inputs, and WakesAreUseful says when it is awake.
- The worker loop that distributes attempts, the compilation of audits and the proxy's request handling: no further property that spans operations.
