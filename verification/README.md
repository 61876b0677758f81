# Kogg: evidence kernel, execution registry, agent registry and Codex protocol

Kogg runs coding agents in disposable workspaces and decides by evidence what their work is worth.
This project models the four stateful cores of that system and the codecs they rest on, and proves
what they keep over whole runs.

- **Evidence kernel** (`Kernel*.dfy`). An append-only journal of facts. `KernelFacts` has the data,
  with digests as free constructors, `KernelPlan` decides every operation of the adapter on the
  whole journal, `KernelInvariant` and `KernelSteps` show what every request keeps, `KernelTheorems`,
  `KernelHistory` and `KernelRepeats` hold the results on uniqueness, soundness, currentness, replay
  and the hash chain, `KernelWitness` has runs that reach what they speak of, and `KernelAdapter` has
  the adapter in its imperative form.
- **Canonical JSON** (`Canonical*.dfy`). The encoders of the kernel (Python) and of the client
  (TypeScript): values, key orders and texts; injectivity down to the hashed bytes; when the two
  agree; and both encoders with their shared member counters.
- **Native helper** (`Helper*.dfy`, `AllocationName.dfy`). The record parser over fixed buffers, the
  metadata file it checks, the decimal fields, and the base 32 names of allocation directories.
- **Execution registry** (`Execution*.dfy`). `ExecutionTables` and `ExecutionTransactions` have the
  database and every transaction as a function; `ExecutionSystem` lets checks, commits, clock,
  crashes, starts and recovery interleave; `ExecutionTheorems` and `ExecutionFates` say what holds of
  every run, and `ExecutionWitness` has runs that reach what they speak of; `ExecutionPromises` is
  what each transaction promises its caller, and `ExecutionRegistry` has the registry and the import
  controller updating tables in place.
- **Agent registry** (`Agent*.dfy`). Attempts in a tree with authority containment, their event log
  and the startup self-check, with starts that interleave at every wait, sessions, cleanups and the
  recovery (`AgentRuns`, `AgentTheorems`, `AgentRecovery`), what ends an attempt (`AgentEnds`), what
  overlapping starts can exceed (`AgentLimits`), runs that reach it (`AgentWitness`), and the registry
  with its loops (`AgentRegistry`).
- **Codex protocol** (`Codex*.dfy`). The framer and phase machine (`CodexCore`), independence from
  chunking (`CodexFraming`), the client around it as a machine of waits (`CodexClient`,
  `CodexInvariant`, `CodexTheorems`), the order in which the observer is told (`CodexOrder`), inputs
  for what fails (`CodexFault`), and both as classes (`CodexProtocol`).

Time, identifiers, tokens, answers of external owners, the order of interleavings and the moments of
crashes are parameters of the operations and actions, so every theorem holds for all of them. A
method that changes state is proved equal to a function of the old state, the theorems are about
runs of these functions, and the contract of the method says what they mean for its caller.

## What the proofs found

The model follows the code. Where the code does less than its checks or callers assume, the
exact condition is proved.

- `failCandidateImport` quarantines the allocation and leaves its quota lease allocated. The
  registry's own lease check then fails, and no later start succeeds
  (`ExecutionTheorems.LeasesValidIff`, `NeverStartsAfterFailedImport`).
  A run that gets there is `ExecutionWitness.FailedImportHappens`.
- Of the edges the workspace controller asks for the table refuses exactly one, executing to
  cancelled. Such an execution goes on, and is not cleaned up, until another outcome is asked for
  or the process recovers it (`ExecutionFates.ControllerRequestsCommitIff`,
  `CancelledExecutionGoesOn`, with a run in `ExecutionWitness.CancelIsRefused`).
- The commit of a physical allocation tests no state. It relies on nothing coming between its check
  and its commit (`ExecutionTheorems.PrepareKeepsLeasesIff`, with a run in
  `ExecutionWitness.PrepareCanBreakLeases`).
- Retention asks for a sealed row, not for a closed import. An import that is open then can neither
  be completed nor failed in any later run, and its repository stays held through every crash and
  recovery (`ExecutionFates.RetentionStrandsImport`, with a run in
  `ExecutionWitness.RetentionStrandsOpenImport`).
- An `absent` reconciliation does not fence its target: the target may commit later, and repeating
  the reconciliation is then a conflict (`KernelHistory.ReconcileReplay`, with a run in
  `KernelWitness.AbsentTargetCommits`).
- The root count of the child check already includes the child being checked, so at most 30
  attempts, not 31, can pass beside their root, and 30 do (`AgentTheorems.AtMostThirtyOnePerRoot`,
  `AgentLimits.ThirtyOneUnderOneRoot`).
- The cap on direct children is tested on a parent read before a wait. Starts that overlap exceed it:
  exactly when one attaches after the room it saw was taken (`AgentLimits.ChildrenExceedCapIff`, with
  a run in `AgentLimits.CapIsExceeded`).
- Recovery of agents blocks admission only for residuals it meets itself. One more start, with
  nothing in between, enables admission again while the residual stays (`AgentRecovery.StartEnablesIff`,
  `BlockedThenEnabled`, with a run in `AgentWitness.ResidualBlocksOnce`).
- A cancel of an attempt that is not live is refused in place: it stores `cleaned` and the code of a
  recovery, over whatever the attempt ended with, and it stops neither a start that still waits nor a
  recovery that has the attempt to do. Either goes on: the start to further stages, up to a live
  session, or to a failure with another code; the recovery to another end. A late report of ready is
  believed too. `AgentEnds.EndedCodeIsReplacedIff` and `EndIsLeftIff` say for every reachable state
  which steps replace the code of an ended attempt and which take it out of its end; runs are
  `AgentWitness.EndIsOverwritten`, `CancelDoesNotStop` and `CancelDoesNotStopRecovery`.
- Of an attempt whose cleaning began, over whole runs: whenever it has ended, its code is the one of
  the last cancel of it while not live, failed cleanup or recovery, and without any of these the one
  its cleaning began with (`AgentEnds.CleaningFixesCode`).
- Decimal fields of the helper accept leading white space and signs
  (`HelperMetadata.AcceptedDecimalIsCanonicalIff`, `SignedDecimalIsAccepted`), and its parser
  accepts a comma after the last member (`HelperRecords.AcceptsExactlyPrinted`).
- The two canonical encoders order astral keys differently (`CanonicalJson.EncodersCanDiffer`).
- A push of many bytes may leave a remainder over the limit that the same bytes in two pushes would
  not be allowed to reach (`CodexFraming.TwoChunksOrOne`, `CodexFault.OversizedHappens`).
- A request that faults the core does not fail the client, and the decoding that waits for content
  still queues its observation, after the queue before it was dropped. The observer then misses what
  was queued, if that was anything else (`CodexOrder.ObserverIsToldInOrderIff`,
  `FaultingCallOvertakesIff`, with a run in `CodexFault.FaultHidesTheStart`).

## Model

| member | source | states |
|---|---|---|
| KernelTheorems.FactsAreUnique | packages/kogg-kernel/python/kogg_ranex_adapter.py:349-356 | in every journal a run can reach, no two facts share an idempotency key, and no two of a kind share their subject digest, evidence id or verdict id |
| KernelTheorems.NeverAmbiguous | packages/kogg-kernel/python/kogg_ranex_adapter.py:475-477 | the refusal KERNEL_JOURNAL_AMBIGUOUS is unreachable: no run of enveloped requests ends in a journal on which any request gets it |
| KernelTheorems.DecisionIsLattice | packages/kogg-kernel/python/kogg_ranex_adapter.py:816-870 | a recorded decision is blocked, fail or pass exactly by its rows, and the verdict carries the length and the root of the journal before it |
| KernelTheorems.RowIsDecided | packages/kogg-kernel/python/kogg_ranex_adapter.py:816-847 | in a reachable journal a row is blocked if and only if its requirement does not have exactly one evidence fact; the execution and artifact tests never block it |
| KernelTheorems.EvidenceRestsOnExecution | packages/kogg-kernel/python/kogg_ranex_adapter.py:672-734 | every evidence fact has exactly one execution of its digest, recorded earlier, on the same subject, suite, check and result artifact |
| KernelTheorems.VerifierIsSeparate | packages/kogg-kernel/python/kogg_ranex_adapter.py:594-633 | the verifier of an execution behind evidence is none of the producers recorded for that task before the execution, and its check is one check of the frozen suite |
| KernelTheorems.PassIsBacked | packages/kogg-kernel/python/kogg_ranex_adapter.py:816-870 | every row of a pass rests on exactly one earlier evidence fact and a still earlier, unique execution that completed with exit zero, on the same subject, suite, task and authority, verified by a non-producer |
| KernelWitness.PassHappens | packages/kogg-kernel/python/kogg_ranex_adapter.py:816-870 | a run of six requests from the empty journal that ends with a passing verdict of one row, which an immediate read calls current |
| KernelSteps.ReachableIsValid | packages/kogg-kernel/python/kogg_ranex_adapter.py:1135-1177 | every journal reachable from the empty one is keyed, grounded and unambiguous, fact by fact |
| KernelSteps.HandleKeepsValid | packages/kogg-kernel/python/kogg_ranex_adapter.py:1135-1177 | any request, whatever it carries, keeps a valid journal valid and appends at most one fact |
| KernelSteps.RunExtends | packages/kogg-kernel/python/kogg_ranex_adapter.py:1135-1177 | the journal only grows: a longer run has the journal of a shorter one as its prefix |
| KernelHistory.ReadDecidesCurrentness | packages/kogg-kernel/python/kogg_ranex_adapter.py:908-981 | reading a recorded verdict always succeeds with its decision and rows, and says current exactly when it is the last fact and subject, runtime and task still fit; the journal-integrity refusal cannot occur |
| KernelHistory.EvaluateThenRead | packages/kogg-kernel/python/kogg_ranex_adapter.py:848-870 | right after an evaluation commits, reading the verdict back on a clean subject before the task expires answers current, with the decision and the rows of the evaluation |
| KernelHistory.StaleForever | packages/kogg-kernel/python/kogg_ranex_adapter.py:951-981 | once anything was appended after a verdict, every enveloped read of it in any longer run is answered with its decision and as not current |
| KernelHistory.OneCurrentVerdict | packages/kogg-kernel/python/kogg_ranex_adapter.py:951-981 | two reads that say current name the same, last fact |
| KernelHistory.ReplayAnswersFromRecord | packages/kogg-kernel/python/kogg_ranex_adapter.py:634-641 | a request whose key is recorded appends nothing and, when it succeeds, is answered with the recorded projection and position |
| KernelHistory.ReplayIsStable | packages/kogg-kernel/python/kogg_ranex_adapter.py:349-356 | repeating a committed request after any further run appends nothing and, when it succeeds, gives the very first answer |
| KernelRepeats.RepeatSucceedsIff | packages/kogg-kernel/python/kogg_ranex_adapter.py:349-356 | a request whose key is recorded is answered again if and only if its task has not expired (bind), its verifier is no producer of the task recorded since (execute), runtime and clock fit (evidence, gate), its runtime fits and its outcome still stands (reconcile); dispatch, freeze and cancel always are |
| KernelRepeats.RepeatAnswersIff | packages/kogg-kernel/python/kogg_ranex_adapter.py:349-356 | after any further run a committed request that is sent again leaves the journal alone and gets the very first answer if and only if that condition holds of the fact it committed; otherwise it is refused |
| KernelHistory.ReconcileReplay | packages/kogg-kernel/python/kogg_ranex_adapter.py:984-1046 | a recorded reconciliation is repeated with the same answer if and only if it was acknowledged or its target is still absent; otherwise it is an idempotency conflict |
| KernelWitness.AbsentTargetCommits | packages/kogg-kernel/python/kogg_ranex_adapter.py:984-1046 | a run in which a reconciliation is answered with absent, its target is then bound, and repeating the reconciliation is an idempotency conflict |
| KernelHistory.RecoveryReplay | packages/kogg-kernel/python/kogg_ranex_adapter.py:984-1000 | a recovery fact under a recorded key replays exactly when it is the recorded fact |
| KernelHistory.TwoMatchesBlockForever | packages/kogg-kernel/python/kogg_ranex_adapter.py:819-847 | a requirement with two matching evidence facts stays blocked in every longer journal |
| KernelHistory.GateNeverFlips | packages/kogg-kernel/python/kogg_ranex_adapter.py:819-850 | for one expectation no extension of the journal turns pass into fail or fail into pass |
| KernelHistory.ChainIsInjective | packages/kogg-kernel/python/kogg_ranex_adapter.py:258-263 | equal chain roots mean equal journals |
| KernelHistory.PositionPinsHistory | packages/kogg-kernel/python/kogg_ranex_adapter.py:258-263 | equal root digests of two positions mean equal sequence numbers and equal prefixes |
| KernelInvariant.Lookup | packages/kogg-kernel/python/kogg_ranex_adapter.py:699-734 | a lookup by digest in a valid journal finds exactly the fact that has it |
| KernelInvariant.ChecksDistinct | packages/kogg-kernel/python/kogg_ranex_adapter.py:475-477 | in a suite whose check ids ascend no definition digest occurs twice |
| KernelAdapter.Kernel.JournalPosition | packages/kogg-kernel/python/kogg_ranex_adapter.py:258-263 | the fold over the records computes the position of the chain |
| KernelAdapter.Kernel.EvaluateRow | packages/kogg-kernel/python/kogg_ranex_adapter.py:819-841 | over a journal in order the row is blocked if and only if not exactly one evidence fact matches, and passes if and only if the execution behind that fact, recorded before it, passed |
| KernelAdapter.Kernel.EvaluateRows | packages/kogg-kernel/python/kogg_ranex_adapter.py:816-847 | the row loop with its two flags yields the rows, the selected evidence and whether any row is blocked or failed |
| KernelAdapter.Kernel.EvaluateGate | packages/kogg-kernel/python/kogg_ranex_adapter.py:773-875 | the evaluation appends and answers as its plan says |
| KernelAdapter.Kernel.Serve | packages/kogg-kernel/python/kogg_ranex_adapter.py:1135-1177 | a journal in order stays in order and is never found ambiguous; at most one fact is appended, none by a refusal and none under a key that is already recorded |
| CanonicalJson.Readable | packages/kogg-kernel/python/kogg_ranex_adapter.py:44-82 | canonical text can be read in one way only, whatever follows it and whichever encoder wrote it |
| CanonicalJson.EncodeInjective | packages/kogg-kernel/python/kogg_ranex_adapter.py:44-82 | two accepted values with one canonical text are one value |
| CanonicalJson.DomainTextInjective | packages/kogg-kernel/python/kogg_ranex_adapter.py:88-90 | with the domain prefix the text determines domain and value, and never is a text without a domain |
| CanonicalJson.DomainBytesInjective | packages/kogg-kernel/python/kogg_ranex_adapter.py:84-90 | so do the UTF-8 bytes that are hashed |
| CanonicalJson.OrdersDisagreeIff | packages/kogg-contracts/src/kernel-evidence-protocol.ts:380 | code-point order and UTF-16 order of two keys differ if and only if the keys first differ in an astral character against one at or above U+E000 |
| CanonicalJson.EncodersAgreeIffNoClashes | packages/kogg-contracts/src/kernel-evidence-protocol.ts:361-385 | on a value TypeScript accepts both encoders write one text if and only if no object holds two such keys |
| CanonicalJson.EncodersAgreeOnBmp | packages/kogg-contracts/src/kernel-evidence-protocol.ts:361-385 | what TypeScript accepts Python accepts, and on values whose keys are in the Basic Multilingual Plane the texts agree |
| CanonicalJson.EncodersCanDiffer | packages/kogg-contracts/src/kernel-evidence-protocol.ts:380 | a value with a key U+FF5E and a key U+1F600 on which they differ |
| CanonicalEncoders.Encoder.Validate | packages/kogg-kernel/python/kogg_ranex_adapter.py:47-80 | the recursive validator with its shared member counter accepts exactly the values within type, depth and member limits |
| CanonicalEncoders.Encoder.Visit | packages/kogg-contracts/src/kernel-evidence-protocol.ts:363-383 | the one-pass visitor with its shared counter writes the canonical text of exactly the accepted values |
| CanonicalEncoders.Canonical | packages/kogg-kernel/python/kogg_ranex_adapter.py:44-82 | the Python encoder gives the canonical text of exactly the accepted values |
| CanonicalEncoders.CanonicalKernelJson | packages/kogg-contracts/src/kernel-evidence-protocol.ts:361-385 | so does the TypeScript encoder |
| AllocationName.EncodeBase32 | packages/kogg-execution/src/node/execution-allocation-registry.ts:898 | the loop over a 32-bit accumulator that is never masked computes section 6 of RFC 4648, lowercase and unpadded, on any number of bytes |
| AllocationName.ComputeName | packages/kogg-execution/src/node/execution-allocation-registry.ts:898 | the name of a worktree is r- and the base 32 text of its 128 bits |
| AllocationName.NameIsAccepted | packages/kogg-execution/native/kogg-execution-helper.c:111 | every name has 26 alphabet characters after the prefix: the helper accepts it |
| AllocationName.NameRoundTrip | packages/kogg-execution/src/node/execution-allocation-registry.ts:898 | decoding a name gives the identifier back |
| AllocationName.NamesAreDistinct | packages/kogg-execution/src/node/execution-allocation-registry.ts:898 | two worktrees never share a directory name |
| AllocationName.DigitsAreUnique | packages/kogg-execution/src/node/execution-allocation-registry.ts:898 | a digit string of known length is determined by its value |
| HelperBuffers.JsonString | packages/kogg-execution/native/kogg-execution-helper.c:46-55 | reads exactly one quoted run of safe characters that fits, stays inside the input and inside its own buffer row, and leaves every other row alone |
| HelperBuffers.JsonNumber | packages/kogg-execution/native/kogg-execution-helper.c:69-75 | reads exactly one run of digits that fits, within input and row |
| HelperBuffers.KeyIsKnown | packages/kogg-execution/native/kogg-execution-helper.c:64 | tells whether the new key equals an earlier one |
| HelperBuffers.ParseObject | packages/kogg-execution/native/kogg-execution-helper.c:57-82 | never reads past the terminator or writes past a buffer, and accepts, with the same pairs, exactly what the grammar below accepts |
| HelperRecords.AcceptsExactlyPrinted | packages/kogg-execution/native/kogg-execution-helper.c:57-82 | the accepted texts are exactly the printed records with distinct keys that fit, optionally with one comma after the last member |
| HelperMetadata.FindField | packages/kogg-execution/native/kogg-execution-helper.c:84-87 | finds a row with the key if and only if there is one |
| HelperMetadata.ExactFields | packages/kogg-execution/native/kogg-execution-helper.c:89-93 | is true exactly when the record has as many pairs as wanted keys and every wanted key |
| HelperMetadata.ExactKeysLeaveNoOther | packages/kogg-execution/native/kogg-execution-helper.c:89-93 | with distinct keys that leaves no other key: the loop over the wanted ones is enough |
| HelperMetadata.WritesPrintedRecord | packages/kogg-execution/native/kogg-execution-helper.c:226-239 | what the metadata printer writes for a validated request fits its buffer and is a printed record |
| HelperMetadata.MetadataMatches | packages/kogg-execution/native/kogg-execution-helper.c:241-255 | the reader accepts exactly the files that hold the metadata of the request |
| HelperMetadata.MetadataIdentifies | packages/kogg-execution/native/kogg-execution-helper.c:226-255 | what was written for one validated request matches another if and only if all four identity fields agree |
| HelperMetadata.OneIdentityPerFile | packages/kogg-execution/native/kogg-execution-helper.c:241-255 | no file, however it came to be, matches two identities |
| HelperMetadata.DecimalIsExact | packages/kogg-execution/native/kogg-execution-helper.c:122-127 | on text that begins with a digit a decimal field is accepted exactly when it is the canonical decimal of a 64-bit value |
| HelperMetadata.AcceptedDecimalIsCanonicalIff | packages/kogg-execution/native/kogg-execution-helper.c:122-127 | an accepted field is the decimal of its value if and only if its first character is a digit |
| HelperMetadata.SignedDecimalIsAccepted | packages/kogg-execution/native/kogg-execution-helper.c:122-127 | the field -1 is accepted as the largest 64-bit value |
| HelperMetadata.DecimalRoundTrip | packages/kogg-execution/native/kogg-execution-helper.c:122-127 | every value that is printed is read back |
| ExecutionSystem.RunIsOk | packages/kogg-execution/src/node/execution-allocation-registry.ts:690-711 | through any interleaving of checks and commits, crashes at any commit and restarts, leases, intents, candidates, imports, events and admission fit together |
| ExecutionSystem.IntegrityIff | packages/kogg-execution/src/node/execution-allocation-registry.ts:680-688 | the lease check of a start passes exactly when no candidate import was failed |
| ExecutionTheorems.LeasesValidIff | packages/kogg-execution/src/node/execution-allocation-registry.ts:955-968 | in every reachable database the lease check holds if and only if no import.quarantined event was recorded |
| ExecutionTheorems.NeverStartsAfterFailedImport | packages/kogg-execution/src/node/execution-allocation-registry.ts:472-483 | once an import was failed, no later start succeeds |
| ExecutionWitness.FailedImportHappens | packages/kogg-execution/src/node/execution-allocation-registry.ts:457-483 | a run from an empty registry, through reservation, allocation, execution, seal and import, in which a failed import is recorded, and after which a start stays down |
| ExecutionTheorems.StartsOtherwise | packages/kogg-execution/src/node/execution-allocation-registry.ts:680-711 | without one every start passes its checks and goes on to recover |
| ExecutionTheorems.AdvanceBreaksLeasesIff | packages/kogg-execution/src/node/execution-allocation-registry.ts:203-229 | exactly which committed raw requests of advance break the lease check: those on a row whose lease is active, or to quarantined or admitted on a leased row |
| ExecutionTheorems.PrepareKeepsLeasesIff | packages/kogg-execution/src/node/execution-allocation-registry.ts:262-281 | the commit of a physical allocation keeps the lease check if and only if the row is still admitted |
| ExecutionWitness.AdvanceCanBreakLeases | packages/kogg-execution/src/node/execution-allocation-registry.ts:203-229 | a reachable database that passes the lease check and a raw request of advance that commits on it and breaks the check |
| ExecutionWitness.PrepareCanBreakLeases | packages/kogg-execution/src/node/execution-allocation-registry.ts:262-281 | a running registry whose database passes the lease check and on which the commit of a physical allocation, as a continuation that outlived a stop and a start would make it, breaks the check |
| ExecutionTheorems.ProjectsAreIssuedOnce | packages/kogg-execution/src/node/execution-allocation-registry.ts:269-281 | quota project ids are issued without a gap from 10000, in range, to one worktree each, and stay with it |
| ExecutionTheorems.ImporterRunsOnce | packages/kogg-execution/src/node/candidate-lifecycle-controller.ts:36-47 | over any run the external importer is run at most once per worktree |
| ExecutionTheorems.RepositoryIsHeldOnce | packages/kogg-execution/src/node/execution-allocation-registry.ts:394-421 | at most one repository lease is active or quarantined per repository |
| ExecutionTheorems.CrashedIntentNeverCompletes | packages/kogg-execution/src/node/execution-allocation-registry.ts:437-451 | an import intent recorded before a crash is never completed after it |
| ExecutionFates.RetentionStrandsImport | packages/kogg-execution/src/node/execution-allocation-registry.ts:489-514 | in every run after a committed retention, through crashes and recoveries, the import of its row still holds the repository if and only if it was requested and not ended when the retention committed, and no request completes or fails it any more |
| ExecutionWitness.RetentionStrandsOpenImport | packages/kogg-execution/src/node/execution-allocation-registry.ts:489-514 | a run reaches a sealed row with an open import on which a retention commits, and the repository is held in every run after it |
| ExecutionTheorems.OneChangePerRevision | packages/kogg-execution/src/node/execution-allocation-registry.ts:212-226 | between any two moments of a run, a row with the same revision is the same row, and revisions never go back |
| ExecutionTheorems.LogExplainsTable | packages/kogg-execution/src/node/execution-allocation-registry.ts:1020-1032 | the digest chain is intact, every row is in the state its last event names, and its first event carries its mode |
| ExecutionTheorems.HistoryIsPath | packages/kogg-execution/src/node/execution-allocation-registry.ts:30-38 | every allocation moves along the transition table and the named physical, import, retention and recovery edges only |
| ExecutionFates.ControllerRequestsCommitIff | packages/kogg-execution/src/node/agent-workspace-controller.ts:92-94 | a request of the controller that fits its row, with admission enabled and a new request id, commits if and only if it does not ask to take an executing row to cancelled |
| ExecutionWitness.CancelIsRefused | packages/kogg-execution/src/node/agent-workspace-controller.ts:92-94 | a run with an executing row on which a fitting request for cancelled is refused and changes nothing |
| ExecutionFates.CancelledExecutionGoesOn | packages/kogg-execution/src/node/agent-workspace-controller.ts:92-104 | so an execution whose cancellation was asked for keeps executing, with its row as it is and not cleaned up, in every longer run that neither asks for another outcome nor recovers it |
| ExecutionFates.AnotherOutcomeEndsIt | packages/kogg-execution/src/node/agent-workspace-controller.ts:92-94 | in a running process a fitting request takes an executing row out of that state if and only if it asks for stopping, timed-out or failed |
| ExecutionTheorems.NoRetentionViolation | packages/kogg-execution/src/node/execution-allocation-registry.ts:506-518 | with a clock that does not go back the count of retention violations is always zero |
| ExecutionTheorems.RecoveryLeavesNothingOpen | packages/kogg-execution/src/node/execution-allocation-registry.ts:690-711 | after recovery every allocation is refused, cleaned or quarantined and no quota lease is active or allocated |
| ExecutionTheorems.BlockedForever | packages/kogg-execution/src/node/execution-allocation-registry.ts:347-353 | admission that was blocked in a running process is blocked whenever a process runs later |
| ExecutionTheorems.EnabledIff | packages/kogg-execution/src/node/execution-allocation-registry.ts:690-711 | admission is enabled in a running process exactly when nothing faulted before |
| ExecutionRegistry.Registry.Reserve | packages/kogg-execution/src/node/execution-allocation-registry.ts:148-201 | a refusal or replay changes nothing; a commit in order on a registry in order leaves it in order, changes that one row, logs one event that reports it, takes nothing back, and a start accepts the database as it did before; only rows, results and events are written |
| ExecutionRegistry.Registry.Advance | packages/kogg-execution/src/node/execution-allocation-registry.ts:203-229 | a refusal or replay changes nothing; a commit in order on a registry in order leaves it in order, changes that one row, logs one event that reports it, takes nothing back, and a start accepts the database as it did before, for every request the workspace controller makes; only rows, results and events are written |
| ExecutionRegistry.Registry.PreparePhysicalAllocation | packages/kogg-execution/src/node/execution-allocation-registry.ts:241-284 | a refusal or replay changes nothing; a commit in order on a registry in order leaves it in order, changes that one row, logs one event that reports it, takes nothing back, and a start accepts the database as it did before, provided the row is still admitted; no row changes state, and the next project id is taken once |
| ExecutionRegistry.Registry.RecordPhysicalAllocation | packages/kogg-execution/src/node/execution-allocation-registry.ts:286-325 | a refusal or replay changes nothing; a commit in order on a registry in order leaves it in order, changes that one row, logs one event that reports it, takes nothing back, and a start accepts the database as it did before; row, intent and lease move together, and candidates, imports and admission are untouched |
| ExecutionRegistry.Registry.FailPhysicalAllocation | packages/kogg-execution/src/node/execution-allocation-registry.ts:327-358 | a refusal or replay changes nothing; a commit in order on a registry in order leaves it in order, changes that one row, logs one event that reports it, takes nothing back, and a start accepts the database as it did before, with admission blocked; candidates and imports are untouched |
| ExecutionRegistry.Registry.Seal | packages/kogg-execution/src/node/execution-allocation-registry.ts:360-390 | a refusal or replay changes nothing; a commit in order on a registry in order leaves it in order, changes that one row, logs one event that reports it, takes nothing back, and a start accepts the database as it did before; leases, intents and imports are untouched |
| ExecutionRegistry.Registry.PrepareCandidateImport | packages/kogg-execution/src/node/execution-allocation-registry.ts:392-425 | a refusal or replay changes nothing; a commit in order on a registry in order leaves it in order, changes that one row, logs one event that reports it, takes nothing back, and a start accepts the database as it did before; no row changes state, and rows, leases and candidates are untouched |
| ExecutionRegistry.Registry.CompleteCandidateImport | packages/kogg-execution/src/node/execution-allocation-registry.ts:427-455 | a refusal or replay changes nothing; a commit in order on a registry in order leaves it in order, changes that one row, logs one event that reports it, takes nothing back, and a start accepts the database as it did before; quota leases and intents are untouched |
| ExecutionRegistry.Registry.FailCandidateImport | packages/kogg-execution/src/node/execution-allocation-registry.ts:457-487 | a refusal or replay changes nothing; a commit on a registry in order leaves it in order but for the check of a start, which no longer accepts the database; quota leases, intents and candidates are untouched |
| ExecutionRegistry.Registry.Retain | packages/kogg-execution/src/node/execution-allocation-registry.ts:489-523 | a refusal or replay changes nothing; a commit in order on a registry in order leaves it in order, changes that one row, logs one event that reports it, takes nothing back, and a start accepts the database as it did before; leases, imports and repository leases are untouched |
| ExecutionRegistry.Registry.PreparePhysicalCleanup | packages/kogg-execution/src/node/execution-allocation-registry.ts:525-552 | a refusal or replay changes nothing; a commit in order on a registry in order leaves it in order, changes that one row, logs one event that reports it, takes nothing back, and a start accepts the database as it did before, for a state found without a fault; leases and candidates are untouched |
| ExecutionRegistry.Registry.CompletePhysicalCleanup | packages/kogg-execution/src/node/execution-allocation-registry.ts:554-578 | a refusal or replay changes nothing; a commit in order on a registry in order leaves it in order, changes that one row, logs one event that reports it, takes nothing back, and a start accepts the database as it did before; row, intent and lease move together, and candidates and imports are untouched |
| ExecutionRegistry.Registry.FailPhysicalCleanup | packages/kogg-execution/src/node/execution-allocation-registry.ts:580-601 | a refusal or replay changes nothing; a commit in order on a registry in order leaves it in order, changes that one row, logs one event that reports it, takes nothing back, and a start accepts the database as it did before, with admission blocked; candidates and imports are untouched |
| ExecutionRegistry.Registry.CheckEvents | packages/kogg-execution/src/node/execution-allocation-registry.ts:1020-1032 | the walk along the log decides whether chain and digests are intact |
| ExecutionRegistry.Registry.AssertIntegrity | packages/kogg-execution/src/node/execution-allocation-registry.ts:680-688 | the walk along the log and then the checks of rows and leases accept exactly the sound databases |
| ExecutionRegistry.Registry.Recover | packages/kogg-execution/src/node/execution-allocation-registry.ts:690-711 | one row is quarantined and its quota lease closed; every repository that was held still is, no other row or lease changes, and a registry in order stays in order |
| ExecutionRegistry.Registry.Start | packages/kogg-execution/src/node/execution-allocation-registry.ts:631-711 | a registry in order starts if and only if no import was ever failed; then each open row is recovered once, in some order, every row is settled, no quota lease is open, and admission is enabled exactly when there was nothing to recover |
| ExecutionRegistry.ImportController.Import | packages/kogg-execution/src/node/candidate-lifecycle-controller.ts:32-53 | the intent is recorded first, only a new intent runs the importer, and whatever goes wrong after that fails the import |
| AgentTheorems.IntegrityAlwaysHolds | packages/kogg-agents/src/node/agent-registry.ts:275 | after any run with crashes at any commit the startup self-check accepts the database: counts, last states, first events, ancestors |
| AgentTheorems.ChildrenAreContained | packages/kogg-agents/src/node/agent-registry.ts:256 | in every interleaving of starts an attempt that passed its check may use only what each ancestor may use, no role revision repeats on its root path, and the path has at most four attempts |
| AgentTheorems.AtMostThirtyOnePerRoot | packages/kogg-agents/src/node/agent-registry.ts:256 | at most 31 attempts under one root ever pass their check |
| AgentLimits.ThirtyOneUnderOneRoot | packages/kogg-agents/src/node/agent-registry.ts:256 | a run in which 31 do: the root and thirty children whose starts overlap |
| AgentLimits.ChildrenExceedCapIff | packages/kogg-agents/src/node/agent-registry.ts:256-258 | in every run an attempt has more direct children than the cap of its role, and of eight, if and only if a start attached one when there was no room left, and each such start had read the parent while there still was |
| AgentLimits.CapIsExceeded | packages/kogg-agents/src/node/agent-registry.ts:256-258 | a run that attaches thirty children to an attempt that may have eight |
| AgentTheorems.RunningHasPassed | packages/kogg-agents/src/node/agent-registry.ts:129-171 | in every run, with the stages of a start in their order and observations of its session arriving at any time, even late, an attempt in a running state has passed its child check |
| AgentRecovery.SessionsAreAttached | packages/kogg-agents/src/node/agent-registry.ts:151-171 | an attempt whose adapter session exists passed its check and is linked to its parent |
| AgentTheorems.OneAuthorityPerTree | packages/kogg-agents/src/node/agent-registry.ts:118-128 | however starts interleave, every attempt acts under the mode, sequence and operation of its root, and none mutates under the plan mode |
| AgentTheorems.PathIsUnique | packages/kogg-agents/src/node/agent-registry.ts:257 | the chain of parents of an attempt is unique |
| AgentTheorems.CountersAgree | packages/kogg-agents/src/node/agent-registry.ts:258 | the registry revision counts the events, a child counter counts the recorded links, and every link joins a passed attempt to its parent |
| AgentTheorems.HistoryIsKept | packages/kogg-agents/src/node/agent-registry.ts:229-276 | whatever follows, the log keeps its beginning, rows keep their place and authority, and a code once given is not lost |
| AgentEnds.CleaningFixesCode | packages/kogg-agents/src/node/agent-registry.ts:214-229 | once the cleaning of a live attempt has begun, whatever transitions, observations, crashes and recoveries follow, a clean end stores the code decided at that moment, and from then on, whenever the attempt has ended, it has the code of the last step that overwrote it (a cancel of what is not live, a failed cleanup, a recovery), or that one if there was none |
| AgentEnds.EndedCodeIsReplacedIff | packages/kogg-agents/src/node/agent-registry.ts:191-196 | in every reachable state a step replaces the code of an ended attempt if and only if it stores another one and is a cancel by request, or the failure or refusal of a start that an earlier cancel did not stop, or belongs to a recovery that an earlier cancel did not stop |
| AgentEnds.EndIsLeftIff | packages/kogg-agents/src/node/agent-registry.ts:151-171 | in every reachable state a step takes an ended attempt out of its end if and only if its session reports ready to a running process, or a start that an earlier cancel did not stop goes on to a stage that writes a state, or a recovery that had the attempt to do takes it up |
| AgentWitness.EndIsOverwritten | packages/kogg-agents/src/node/agent-registry.ts:191-196 | a run that ends an attempt with AGENT_OK, after which a cancel stores RECOVERY_REQUIRED and a late report of ready makes it ready again |
| AgentWitness.CancelDoesNotStop | packages/kogg-agents/src/node/agent-registry.ts:151-196 | a run that cancels an attempt whose start still waits: the start goes on to a live session, or fails and stores another code |
| AgentWitness.CancelDoesNotStopRecovery | packages/kogg-agents/src/node/agent-registry.ts:51-56 | a run that cancels an attempt while its recovery waits for the owners: the recovery ends it again with another code |
| AgentRecovery.StartEnablesIff | packages/kogg-agents/src/node/agent-registry.ts:42-59 | after any run, and with requests interleaving, a start ends with every attempt terminal and with admission enabled if and only if every attempt that was left under way was proved clean in that recovery |
| AgentRecovery.NextStartEnables | packages/kogg-agents/src/node/agent-registry.ts:42-59 | once every attempt is terminal, proved or not, the next start enables admission |
| AgentRecovery.BlockedThenEnabled | packages/kogg-agents/src/node/agent-registry.ts:42-59 | so a start that blocks admission is followed by one that enables it, with nothing in between |
| AgentWitness.ResidualBlocksOnce | packages/kogg-agents/src/node/agent-registry.ts:42-59 | a run that leaves one attempt under way: unproved it becomes a residual and blocks admission, and after one more start it is still a residual and admission is enabled |
| AgentRegistry.Registry.AncestorRows | packages/kogg-agents/src/node/agent-registry.ts:257 | the walk up ends: with the path to the root, or with nothing exactly when there is no path because a parent is missing or comes twice |
| AgentRegistry.Registry.RequireChild | packages/kogg-agents/src/node/agent-registry.ts:256 | accepts exactly the children the authority, depth, count and cycle rules allow |
| AgentRegistry.Registry.Transition | packages/kogg-agents/src/node/agent-registry.ts:229 | whatever state is written, the self-check still accepts the database, the log grows by one event that names the state, rows keep their place in the tree and a code is not lost |
| AgentRegistry.Registry.AttachChild | packages/kogg-agents/src/node/agent-registry.ts:258 | the self-check still accepts the database, the log grows by one event that names no state, and rows keep their place |
| AgentRegistry.Registry.InsertAttempt | packages/kogg-agents/src/node/agent-registry.ts:128 | below a parent captured with its root, a new attempt leaves a database the self-check accepts as one it accepts, and rows keep their place |
| AgentRegistry.Registry.CheckEvents | packages/kogg-agents/src/node/agent-registry.ts:275 | the walk along the log decides whether the digest chain is intact |
| AgentRegistry.Registry.EventsOf | packages/kogg-agents/src/node/agent-registry.ts:275 | one pass finds how many events an attempt has, the last state they name and the first |
| AgentRegistry.Registry.CheckAttempt | packages/kogg-agents/src/node/agent-registry.ts:275 | decides whether one attempt agrees with its events, its ancestors and its authority |
| AgentRegistry.Registry.AssertIntegrity | packages/kogg-agents/src/node/agent-registry.ts:275 | accepts exactly the intact databases |
| AgentRegistry.Registry.Start | packages/kogg-agents/src/node/agent-registry.ts:42-59 | a start on an intact database brings every open attempt to a terminal state, keeps the database intact, and blocks admission exactly when one of those it recovered is unproved |
| AgentRegistry.TransitionIntact | packages/kogg-agents/src/node/agent-registry.ts:229 | a transition to any state keeps the verdict of the self-check |
| AgentRegistry.AttachIntact | packages/kogg-agents/src/node/agent-registry.ts:258 | so does attaching a child |
| AgentRegistry.InsertIntact | packages/kogg-agents/src/node/agent-registry.ts:128 | so does inserting an attempt that no event names yet, below a parent that is there or as a root |
| CodexFraming.TwoChunksOrOne | packages/kogg-codex-adapter/src/node/codex-protocol-core.ts:56-65 | two chunks do what one does (state, buffer, queue, traffic, refusal) unless, and only unless, the first is accepted and ends a line, the second ends none, and more than the limit stands behind the last newline of the buffer and both; then the one is accepted and the second of the two refused |
| CodexFraming.ChunkingDoesNotMatter | packages/kogg-codex-adapter/src/node/codex-protocol-core.ts:56-65 | any cutting of the bytes does what the whole does, provided the whole is refused or no more than the limit stands behind its last newline |
| CodexFraming.AcceptedChunksJoin | packages/kogg-codex-adapter/src/node/codex-protocol-core.ts:56-65 | whatever a cutting accepts, the whole accepts with the same result |
| CodexFraming.CleanEnd | packages/kogg-codex-adapter/src/node/codex-protocol-core.ts:67 | after an accepted push the stream may end if and only if the last byte was a newline |
| CodexFault.OversizedHappens | packages/kogg-codex-adapter/src/node/codex-protocol-core.ts:56-65 | a core that waits for its first answer, and two chunks whose remainder is one byte over the limit: accepted as one, refused as two |
| CodexTheorems.AtMostTwoOutstanding | packages/kogg-codex-adapter/src/node/codex-protocol-core.ts:37-46 | however calls, waits and failures interleave, at most two client requests are outstanding |
| CodexTheorems.QueueIsBounded | packages/kogg-codex-adapter/src/node/codex-protocol-core.ts:80-86 | the queue never exceeds its count and byte limits, waits for content included, and its byte counter is what it holds |
| CodexTheorems.RequestsAndAnswersMatch | packages/kogg-codex-adapter/src/node/codex-protocol-core.ts:37-46 | each kind of request is accepted at most once, and every response observation answers exactly one earlier request |
| CodexTheorems.OneTurn | packages/kogg-codex-adapter/src/node/codex-protocol-core.ts:89-102 | the accepted notifications are a prefix of (turn-started activity*)? turn-completed |
| CodexOrder.ObserverIsToldInOrderIff | packages/kogg-codex-adapter/src/node/codex-protocol-client.ts:53-70 | in every run the observer is told a prefix of the accepted observations if and only if no call faulted the core while content was routed with something else at the head of the queue and the waiting observation was told after it; what it is told is numbered without a gap, and as a prefix it is one turn |
| CodexOrder.FaultingCallOvertakesIff | packages/kogg-codex-adapter/src/node/codex-protocol-client.ts:39-50 | in every reachable state with content being routed, a request or initialized that the core refuses, then the content, the end of the push and the delivery: the client has not failed, and the order holds if and only if the queue was empty or began with the waiting observation |
| CodexFault.FaultHidesTheStart | packages/kogg-codex-adapter/src/node/codex-protocol-core.ts:81-86 | a run in which a request faults the core during a content wait: the observer is told of an activity without the start of its turn, and the client has not failed |
| CodexTheorems.PendingMirrorsCore | packages/kogg-codex-adapter/src/node/codex-protocol-client.ts:39-46 | while neither side has failed the pending map is the core request map, but for a response whose content is being routed; abandoned ids are in neither |
| CodexTheorems.AuthorityRequestsEndTheRun | packages/kogg-codex-adapter/src/node/codex-protocol-client.ts:57-69 | between pushes, while neither side has failed, no authority request was ever accepted |
| CodexTheorems.ResponsesAreRefusedIff | packages/kogg-codex-adapter/src/node/codex-protocol-core.ts:90-96 | in every reachable state a response is refused exactly when nobody asked for it or it is an error for one of the three requests that must succeed; the phase tests never fire |
| CodexTheorems.EveryRequestSettlesOnce | packages/kogg-codex-adapter/src/node/codex-protocol-client.ts:77-93 | every accepted request is pending or was settled exactly once |
| CodexTheorems.FailureSettlesAll | packages/kogg-codex-adapter/src/node/codex-protocol-client.ts:87-93 | after a failure every request was settled exactly once |
| CodexProtocol.ProtocolCore.Request | packages/kogg-codex-adapter/src/node/codex-protocol-core.ts:37-46 | an accepted request with a new id continues the log and a refused one does not; a core in order stays in order: requests once per kind, answers matched, one turn, and everything accepted drained, queued or waiting |
| CodexProtocol.ProtocolCore.BeginCleanup | packages/kogg-codex-adapter/src/node/codex-protocol-core.ts:53 | the loop moves every outstanding request to the abandoned ones |
| CodexProtocol.ProtocolCore.ReduceFrame | packages/kogg-codex-adapter/src/node/codex-protocol-core.ts:89-102 | an accepted frame continues the log by the observation that now waits and leaves a core in order in order; a refused one fails it |
| CodexProtocol.ProtocolCore.BeginDecode | packages/kogg-codex-adapter/src/node/codex-protocol-core.ts:70-81 | a line is refused, dropped without a trace, or one more observation waits, for which there is room in the queue; a core in order stays in order |
| CodexProtocol.ProtocolCore.DecodeLine | packages/kogg-codex-adapter/src/node/codex-protocol-core.ts:70-87 | decoding without interruption queues the one observation it accepts behind the others, or the core has failed; a core in order stays in order |
| CodexProtocol.ProtocolCore.PushBytes | packages/kogg-codex-adapter/src/node/codex-protocol-core.ts:56-65 | the loop over the growing buffer does what the specification of a push says, and every observation an accepted push accepts is queued, in order |
| CodexProtocol.ProtocolCore.DrainQueue | packages/kogg-codex-adapter/src/node/codex-protocol-core.ts:68 | the first observations leave the queue in order with as many bytes as they were counted for; what was drained before, these and the rest are still the accepted ones |
| CodexProtocol.OrderMeans | packages/kogg-codex-adapter/src/node/codex-protocol-core.ts:27-102 | a core in order has at most two requests outstanding, a bounded queue with a right byte counter, one turn, and unless it failed has drained a prefix of what it accepted |
| CodexProtocol.ProtocolClient.Request | packages/kogg-codex-adapter/src/node/codex-protocol-client.ts:39-44 | the call is one step of the machine, whatever calls came before: at most two requests are outstanding, each is pending or was settled once, a failed client waits for none and nobody for an abandoned one; it gives an id exactly when the core accepts |
| CodexProtocol.ProtocolClient.TakeFrame | packages/kogg-codex-adapter/src/node/codex-protocol-core.ts:59-81 | one turn of the loop of a push, up to its first wait, is one step of the machine, whatever calls came before: at most two requests are outstanding, each is pending or was settled once, a failed client waits for none and nobody for an abandoned one |
| CodexProtocol.ProtocolClient.RouteContent | packages/kogg-codex-adapter/src/node/codex-protocol-core.ts:82-86 | the end of a wait for content, and of the decoding, is one step of the machine, whatever calls came before: at most two requests are outstanding, each is pending or was settled once, a failed client waits for none and nobody for an abandoned one |
| CodexProtocol.ProtocolClient.AfterDenial | packages/kogg-codex-adapter/src/node/codex-protocol-client.ts:58-61 | the end of the write of a denial is one step of the machine, whatever calls came before: at most two requests are outstanding, each is pending or was settled once, a failed client waits for none and nobody for an abandoned one |
| CodexProtocol.ProtocolClient.Deliver | packages/kogg-codex-adapter/src/node/codex-protocol-client.ts:62-68 | the delivery is one step of the machine, whatever calls came before: at most two requests are outstanding, each is pending or was settled once, a failed client waits for none and nobody for an abandoned one; observations are numbered and told one by one, and an authority request or an exception of the observer ends it and fails the client |
| CodexProtocol.ProtocolClient.BeginCleanup | packages/kogg-codex-adapter/src/node/codex-protocol-client.ts:77 | the call is one step of the machine, whatever calls came before: at most two requests are outstanding, each is pending or was settled once, a failed client waits for none and nobody for an abandoned one; on a healthy client every pending request is settled |

## Left out

- SQLite, the filesystem, quota and directory system calls, processes, streams, Git and the network: what they answer is a parameter of the operation.
- SHA-256 and Ed25519: digests are free constructors. What is hashed is shown injective in `CanonicalJson`.
- Unicode normalisation: an arbitrary predicate on texts. Texts with surrogates are refused as such, also inside object keys.
- Which of the two refusal codes a canonical encoder raises: only acceptance and the text are stated.
- Field formats (identifiers, timestamps, symbolic names, sizes) except where a result uses them; the ascending order of a gate's requirements by digest is reduced to their being distinct.
- The gate's list of evidence digests is a multiset: its sorted order is not modelled.
- A journal file that is missing and one that is empty are the same empty journal. The external journal library is modelled as the chain that the adapter recomputes.
- Handshake, health, capabilities and execution qualification: environment inspection.
- Columns that travel together are one field each: names, nonces and sizes of an allocation, its helper digests, its filesystem identity.
- Migration of older schemas and legacy rows; every run begins with a fresh database.
- Publication of owner events to the read model.
- A stop and a new start within one process: only `ExecutionTheorems.PrepareKeepsLeasesIff` and `ExecutionWitness.PrepareCanBreakLeases` show what it could do.
- The UNIQUE constraint on intent columns of the result tables, which no transaction of the model can violate.
- Agents: admission lookup, provider policy, usage, deadlines and timers, owned resources, credentials and workspaces. An authority that refuses a start before it is inserted ends that start in the source; here it may still wait. Steps of one start between which the source does not wait may be interleaved here, so there are more runs. The task of an attempt is written with its row, where the source writes it right after.
- Agents: of the failures of a start only their transition is modelled.
- Agents: which owners prove what clean; the answers are parameters of the recovery.
- Codex: concurrent pushes. The drainer of the standard output awaits each push before the next.
- Codex: the bytes the client writes, back-pressure of the writer, diagnostics, and the texts of methods and parameters.
- HelperMetadata.MetadataMatches: the file is given as its bytes; opening it and its permission tests are not modelled.
- ExecutionTheorems.ImporterRunsOnce: retries inside the external importer are its own.
- ExecutionRegistry.ImportController.Import: shows one import that no other request disturbs; interleavings are the subject of `ExecutionTheorems.ImporterRunsOnce`.
- CodexProtocol.ProtocolCore.DecodeLine: as a method it has no waits; what may happen during them is in `CodexClient` and `CodexTheorems`.
