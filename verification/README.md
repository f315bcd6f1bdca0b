# Verified model of the zero-trust agentic delivery toolkit

This project models, in Dafny, the parts of the toolkit whose correctness spans many functions and whole
runs, and proves what they keep:

- **the authoritative lifecycle ledger** (`lifecycle_store.py`, `bug_lifecycle.py`, `bug_protocol.py`,
  `evidence_bundle.py`): an append-only, multi-case hash chain with optimistic versions, subject epochs
  and signed transition authorizations, its verifier, the evaluator and committer in front of it, and the
  independent replay of an export;
- **the audit ledger** (`ledger.py`): a second hash chain, with idempotent appends and checkpoints;
- **the installer** (`installer.py`): plan, install and uninstall over a tree users edit, with conflict
  candidates and a marked block in `AGENTS.md`;
- **the mesh** (`mesh_plan.py`, `mesh_runtime.py`): the dependency graph of a plan, and the controls that
  bound replanning and advance phases under conflicts;
- **releases and distributions** (`generate_release_evidence.py`, `verify_release_evidence.py`,
  `distribution.py`): evidence against its verifier, manifests, and archives.

Run `dafny verify dfyconfig.toml` to check everything.

## How it is built

State that the toolkit keeps in a database, on disk or in an object is a class (`LifecycleStore`,
`AuditLedger`, `Repository`, `ContinuityTask`, `PlanBuilder`) whose methods are proved equal to functions of
the old state. Loops stay loops. The theorems are about those functions, and about runs of them.

| Files | Content |
|---|---|
| `Basics`, `States`, `Records`, `Events`, `HashChain`, `Runs` | vocabulary, lifecycle tables, records and subjects, events, generic hash chains, generic runs |
| `Guards`, `SubjectUpdates`, `LedgerSteps`, `ChainVerification`, `LifecycleStore` | the store: guards, the effect of each call, what its verifier accepts, and the class with its loops |
| `StoreRules`, `StoreCalls`, `VerifiedEvents`, `SubjectRules` | independent definitions of what the store accepts and writes, what its verifier accepts, and what a change of the subject does, each proved equivalent to the functions above |
| `StoreTheorems`, `StoreRuns`, `NoSkip`, `CommonStates`, `ClosedCases`, `ClosureClasses`, `GuardGaps`, `SubjectBindings`, `EvidenceTrail`, `VerifiedLedgers`, `Authorizations` | theorems about single transitions, whole runs, the order of states and the inputs that break it, how cases close, subject changes and their evidence, verified ledgers and signatures |
| `PolicySafety`, `EvidenceGates`, `BugLifecycle`, `BugController`, `CommitTheorems`, `CommitGaps`, `CommitRuns`, `ConcurrentCommits`, `EditedCommits`, `EpochReview` | the policy validators, the gate requirements, the evaluator, the committer and the binding commands, their interleavings, commits of edited records, and review per subject epoch |
| `PolicyRules`, `GateRules`, `EvaluationRules`, `ProposalRules`, `CommitAcceptance` | independent definitions of safe policies, gates, allowed targets and requests, and the evaluator against the store |
| `Replay`, `ReplayRules`, `ReplayTheorems`, `AuditLedger` | the replay of an export, and the audit ledger |
| `AgentsBlock`, `Candidates`, `Installer`, `RepositoryInstaller`, `InstallerSafety`, `InstallerIdempotence`, `InstallerUpgrades` | the installer |
| `MeshPlan`, `MeshGraph`, `MeshNodes`, `MeshTheorems`, `MeshFiles`, `MeshRuntime`, `PhaseRoles` | the mesh |
| `ReleaseEvidence`, `ReleaseRules`, `ReleaseIdentity`, `Distribution`, `ManifestRoundTrip`, `Archive`, `DistributionRules` | releases |

**Concurrency.** Each write of the store is one immediate SQLite transaction, so a run is a sequence of
whole calls in any order. Clients of the tool interleave finer: reading, committing and binding a subject are
separate actions of a system of one ledger and any number of client views (`CommitRuns`). A commit evaluates
whatever its client read, however long ago, or a record it made up; a binding rewrites what its client read.

**Hashes, MACs and signatures** are functions of an environment. Results that need an injective hash say so
(`IdealHash`, `Ideal`, `Injective`); all others hold for every function. Evidence and signature validity are
predicates of the record and the subject, not of the clock.

## What the proofs found

Where a natural property does not hold of the code, the model keeps the code and the theorem states exactly
when the property does hold.

- The guards of `transition` are weaker than `verify_event_chain`. A run verifies exactly when every accepted
  direct transition has PROCEED entering the requested state, and an authorization only with a protected
  state. One accepted transition that breaks either makes every later verified read fail, for all cases of
  the store (`StoreRuns.RunVerifiesIffDisciplined`, `StoreRuns.BadEventsStay`). The committer always meets
  the first obligation, and the second unless its caller passes an authorization to an unprotected proposal.
- Given matching PROCEEDs, the order of states has two gaps in the store. It does not check where
  ROLLBACK_REQUIRED is written from, and it compares the place a block resumes at by position in a list in which
  the package lane precedes the release lane. The first is the only way to skip a *common* state
  (`CommonStates.RunSkipsCommonIff`). The second lets a hosted case at STAGING_PASS be blocked with
  CONSUMER_VALIDATION_PASS to resume at and then close with neither lane complete (`GuardGaps.LateralClosePasses`).
  A run skips nothing if and only if it uses neither (`NoSkip.RunSoundIff`). The evaluator uses neither as long as
  the policy gives RESOLVED_NO_CODE no exit to ROLLBACK_REQUIRED, which `validate_policy_safety` does not check
  (`PolicySafety.NoCodeExitsUnseen`, `CommitGaps.NoCodeRollbackPasses`), and bindings use neither.
- A change of an artifact field between PATCH_IMPLEMENTED and INDEPENDENT_REVIEW_PASS sends a case *ahead*, to
  CI_PASS, and any change but one of production fields sends a case at RESOLVED_NO_CODE ahead, to CHANGE_PLANNED
  or CI_PASS (`SubjectBindings.InvalidateAheadIff`). The store refuses both, so an artifact cannot be bound there.
- A subject change leaves a BLOCKED case where it is. A candidate bound while a case is blocked at STAGING_PASS
  is never patched, tested or reviewed as such: a case renewed its review since its subject last changed exactly
  if it went back to CHANGE_PLANNED since (`EpochReview.CommitsReviewIff`, `EpochReview.BlockedBindingSkipsReview`).
- The staleness check of a commit looks at one number and one field of the record. A copy edited elsewhere passes
  it; what the store still ties to the row, and what not, is `EditedCommits.EditedCommitGenuineIff`. A commit that
  changes `problem_case_fingerprint`, which is not among the lifecycle fields of the store, is refused.
- `mutate_subject` can never record a change after production: it would need an authorization it does not take.
- CLOSED is final through the committer and not through the store, which lets direct BLOCKED and ROLLBACK_REQUIRED
  writes out of it, and nothing else (`ClosedCases.ClosedThroughoutIff`). A recorded risk can be cleared, and its
  history dropped, through the store and not through the committer. The evaluator alone lowers a level exactly when
  the problem case states a lower one; the store refuses that.
- A hybrid case that is blocked at POST_DEPLOY_VERIFIED is allowed to close by the evaluator and refused by the
  store, which looks at the raw state. That, the lanes and the exits of ROLLBACK_REQUIRED and RESOLVED_NO_CODE are
  all that an allowed evaluation of a case as it stands can be refused for, once its risk, subject and signature
  are in order (`CommitAcceptance.AllowedPassesIff`).
- Evidence references are never lost through commits and bindings; a direct block may leave out the current ones,
  and the store lets it (`EvidenceTrail.EvidenceMayBeDropped`).
- A retry of an accepted transition always raises a stale version, so the idempotent branch of the store is
  not reached by it.
- One refused request for a protected state makes a case impossible to replay ever after
  (`evidence_bundle.py:291-296` looks at the requested state, the store at the entered one). Completeness
  counts requested states, and asks a rollback closure for POST_DEPLOY_VERIFIED, which the store does not.
  An export of one case from a shared store replays only as a prefix of the ledger.
- `ledger.py` returns the first payload when a key is reused with another one. A truncated ledger verifies
  until the next append, whose AUTOINCREMENT number leaves a gap.
- A BEGIN marker without an END marker in `AGENTS.md` makes every later plan a conflict; the proposal beside it
  is written once, and installations settle from then on. A file the user
  already had in the shipped form is removed on uninstall. Uninstalling with a malformed `AGENTS.md` raises
  after the managed files are gone and before the manifest is rewritten.
- Scope roots are only compared for equality, so the shards the plan calls non-overlapping do overlap exactly when
  two patterns have nested roots, such as `src` and `src/api` (`MeshTheorems.WritersOverlapIff`). With `maximum_plan_candidates` below 1 the adjudicator waits for
  nothing. Artifacts of a plan that share a path lose content on the first write.
- Three version conflicts can exhaust the six turns of `_sync_continuity_phase`.
- A verified release may hold files its evidence does not list, and nothing hashes `protected_attestation`. The
  artifact identity string does not escape names: a file named `a@sha256:<digest>,b` gives the same identity as
  two files `a` and `b`. It identifies the artifacts where no name holds a digest and a comma, and not otherwise.
- A manifest cannot list a path with U+0085, U+2028 or U+2029, and fails for its own package if the package
  holds another spelling of `MANIFEST.sha256`, such as another case of it. The collision check of a copy does not
  look at directories whose own name is excluded, such as `x.pyc`, and the copy takes the files in them.

`bug_lifecycle.py:1251` reads a name `current` that is not bound there, so in the toolkit as it stands an allowed
close raises; the model takes the state of the record, which is what the branch is about.

## Model

Sources are relative to the repository root.

| member | source | states |
|---|---|---|
| `LifecycleStoreModule.LifecycleStore.constructor` | toolkit/ztad/lifecycle_store.py:160-189 | A new store is bound to its environment and holds no event and no case; only the lifecycle controller can open one. |
| `LifecycleStoreModule.LifecycleStore.InitializeTx` | toolkit/ztad/lifecycle_store.py:524-586 | One transaction: it raises, finds the same case already initialized, or commits exactly one event and one row; in the first two cases nothing changes. |
| `LifecycleStoreModule.LifecycleStore.Initialize` | toolkit/ztad/lifecycle_store.py:524-590 | The transaction, then the read back, which is a verified one only when something was written. |
| `LifecycleStoreModule.LifecycleStore.TransitionTx` | toolkit/ztad/lifecycle_store.py:615-915 | One transaction, guards in the order the store raises them; the whole new state is the old one or the old one with one appended event and one replaced row. |
| `LifecycleStoreModule.LifecycleStore.Transition` | toolkit/ztad/lifecycle_store.py:615-917 | The transaction, then a verified read of the whole ledger: a caller may see an error although its event was committed. |
| `LifecycleStoreModule.LifecycleStore.AppendEventTx` | toolkit/ztad/lifecycle_store.py:1101-1194 | Appends the next link or nothing: an authorization whose timestamps or commitment are not those of the event, a used key or a used hash leave the events as they were. |
| `LifecycleStoreModule.LifecycleStore.PrepareTransitionAuthorization` | toolkit/ztad/lifecycle_store.py:1005-1099 | What an approver is given to sign, computed from the store as it is, without writing to it. |
| `LifecycleStoreModule.LifecycleStore.MutateSubject` | toolkit/ztad/lifecycle_store.py:919-946 | Reads verified, rewrites the subject and hands the result to `transition` as an invalidation, with no authorization of its own. |
| `LifecycleStoreModule.LifecycleStore.VerifyEventChain` | toolkit/ztad/lifecycle_store.py:1207-1420 | The loop reports no error exactly when every event is numbered, linked, sealed and follows the earlier events of its case, and every row repeats the last one; it returns the number of events and the head. |
| `LifecycleStoreModule.LifecycleStore.CheckEvent` | toolkit/ztad/lifecycle_store.py:1288-1370 | The checks of one event against the history of its case find an error exactly when the event does not follow it. |
| `LifecycleStoreModule.LifecycleStore.CheckRows` | toolkit/ztad/lifecycle_store.py:1388-1410 | The loop over the rows accepts exactly the rows that repeat the last event of their case, with a version that counts the events of the case or is the sequence of the last one. |
| `LifecycleStoreModule.LifecycleStore.Get` | toolkit/ztad/lifecycle_store.py:592-604 | A verified read returns the row only from a ledger that verifies and knows the case; an unverified one asks for the row alone. |
| `StoreRules.GuardIff` | toolkit/ztad/lifecycle_store.py:625-860 | All guards of `transition` against one independent definition, decision by decision: a PROCEED completes a state and asks for one next to where the case stood, a binding stays, blocks or rolls back, a block resumes no later; with the lanes of the delivery, the end a record must name, the fields that may differ, and what a signed state takes. Both directions, for every row and request. |
| `StoreRules.RiskIff` | toolkit/ztad/lifecycle_store.py:485-522 | The risk rules, likewise: known and not lowered levels, the class of its level, R3 or R4 for a domain of its own, and no level below one the history records. |
| `StoreRules.EvidenceIff` | toolkit/ztad/lifecycle_store.py:219-268 | The evidence of a signed state: each record of this case under a name of its own, each accepted name with its record, and what is accepted valid for the subject and of a required type. |
| `StoreCalls.TransitionCommitsIff` | toolkit/ztad/lifecycle_store.py:615-915 | A transition commits an event exactly if it names the case as it stands, fits it, and fits the end of the ledger: an unused key and digest, and a signature of this very place and time. |
| `StoreCalls.TransitionWrites` | toolkit/ztad/lifecycle_store.py:864-915 | The event and the row it writes, field by field, in terms of the request and the row before. |
| `StoreCalls.TransitionReplayedIff` | toolkit/ztad/lifecycle_store.py:843-863 | A transition is answered with an event already there exactly if that has its key and tells the same in every field but its time, its risk and domain snapshots and its source. |
| `StoreCalls.Unaddressed` | toolkit/ztad/lifecycle_store.py:615-662 | Which error a caller gets who names another controller, another case, an unknown case or a stale version, in that order. |
| `StoreCalls.InitializeCommitsIff` | toolkit/ztad/lifecycle_store.py:524-590 | A case is opened exactly by a report of a valid subject at a fitting risk of a case that is not there yet; with the event and the row, field by field. |
| `StoreCalls.InitializeReplayedIff` | toolkit/ztad/lifecycle_store.py:545-565 | Opening a case again changes nothing exactly where its row is still the record it was opened with. |
| `StoreCalls.MutationIs` | toolkit/ztad/lifecycle_store.py:919-946 | A subject mutation is the transition of the changed record, and a stale or unknown case or an invalid subject never gets that far. |
| `HashChain.AppendLinked` | toolkit/ztad/lifecycle_store.py:1101-1194 | A chain stays linked under an append if and only if the row is the one the store itself would have written. |
| `HashChain.HeadDeterminesChain` | toolkit/ztad/lifecycle_store.py:1371-1385 | With an injective hash, two linked chains with one head hash are the same chain, row for row. |
| `HashChain.TamperingIsVisible` | toolkit/ztad/lifecycle_store.py:1371-1385 | Every edit, reorder, insertion or truncation of a linked chain breaks it or moves its head. |
| `ChainVerification.EventsOkAppend` | toolkit/ztad/lifecycle_store.py:1207-1387 | Verification is incremental: one more event verifies exactly when it is the next link and follows the history of its own case, whatever other cases did in between. |
| `VerifiedEvents.VerifiesIff` | toolkit/ztad/lifecycle_store.py:1207-1420 | verify_event_chain reports no error exactly for the ledgers that read so, field by field: numbers, links and seals; what every event says of itself; how it opens its case or goes on from the record before; evidence and a signature of this very event for each of the nine signed states and none for the others; and rows whose version counts the events of the case or is the number of the last one. |
| `Records.MaterialChanges` | toolkit/ztad/subject.py:244-251 | No material field differs exactly when the two materials are equal. |
| `SubjectUpdates.UpdatedPosition` | toolkit/ztad/subject.py:331-434 | A subject update keeps a case where it is when no material field changes, and otherwise sends it where the invalidation rule says. |
| `SubjectRules.UpdateChanges` | toolkit/ztad/subject.py:331-434 | An update succeeds exactly for a valid subject, and changes a record just so: each field and alias, the epoch, the log entry with what changed and which evidence became obsolete, the archive, and the place each state is sent back to. |
| `SubjectRules.SubjectNames` | toolkit/ztad/subject.py:134-170 | The subject of a record names each field itself or by its legacy alias, and the head by its alias only where no merged revision is named either. |
| `EvidenceTrail.BindingArchivesIff` | toolkit/ztad/subject.py:387-434 | An accepted mutation or binding that changes the subject leaves, for every evidence type, exactly the old archive together with the evidence that was current, and nothing current; one that does not leaves both alone. |
| `EvidenceTrail.EvidenceNeverLost` | toolkit/ztad/bug_lifecycle.py:1266-1345 | From every reachable system on, through commits and bindings of any clients in any order: no evidence reference of a case, current or archived, is ever lost, and an archived one stays archived. |
| `EvidenceTrail.StoreEvidence` | toolkit/ztad/lifecycle_store.py:711-760 | What the store alone ensures: without a binding decision the archive stays, and a change of the subject clears what was current and archives every reference of it. |
| `EvidenceTrail.EvidenceMayBeDropped` | toolkit/ztad/lifecycle_store.py:751-760 | And no more: a direct block in place that leaves out all current references passes every guard, and loses them. |
| `SubjectBindings.InvalidateAheadIff` | toolkit/ztad/subject.py:252-434 | For every legal position: that place is ahead of where the case stands if and only if no production field changes and either an artifact field changes between PATCH_IMPLEMENTED and INDEPENDENT_REVIEW_PASS, or the case is at RESOLVED_NO_CODE. |
| `SubjectBindings.AcceptedBindingNotAhead` | toolkit/ztad/lifecycle_store.py:762-794 | The store never records a step ahead: an accepted subject change without authorization leaves the case where it stands or further back. |
| `SubjectBindings.AheadRefused` | toolkit/ztad/lifecycle_store.py:784-794 | No subject change that would send a case ahead, in either situation, is ever recorded. |
| `SubjectBindings.EarlyArtifactRefused` | toolkit/ztad/lifecycle_store.py:784-794 | So between those states every binding that changes an artifact or production field is refused. |
| `StoreTheorems.TrackedRowsVerify` | toolkit/ztad/lifecycle_store.py:1388-1410 | On every ledger the store can reach, verification is a statement about its events alone. |
| `StoreTheorems.KeptEvidenceVerifies` | toolkit/ztad/lifecycle_store.py:816-842 | The evidence records a protected transition keeps are accepted again by the same validation later. |
| `StoreTheorems.TransitionVerifiesIffDisciplined` | toolkit/ztad/lifecycle_store.py:615-917 | An accepted transition leaves a verified ledger verified if and only if a PROCEED enters the state it requested and an authorization comes only with a protected state: the two obligations `transition` leaves to its caller. |
| `StoreRuns.RunTracks` | toolkit/ztad/lifecycle_store.py:160-1194 | After any sequence of initialize, transition and mutate_subject calls on any cases, the events are linked, every row repeats the last event of its case and counts its events, and every event has a row. |
| `StoreRuns.RunVerifiesIffDisciplined` | toolkit/ztad/lifecycle_store.py:1207-1420 | After any sequence of calls over any number of interleaved cases, verify_event_chain reports no error if and only if every accepted direct transition met the two caller obligations. Initializations and subject mutations never break it. |
| `StoreRuns.BadEventsStay` | toolkit/ztad/lifecycle_store.py:1207-1420 | No later call repairs a ledger that once failed to verify: one undisciplined transition ends all verified reads for good. |
| `StoreRuns.PostProductionMutationRefused` | toolkit/ztad/lifecycle_store.py:919-946 | Once a case is released, verified, closed or rolled back, no subject change can be recorded: `mutate_subject` would have to enter a protected state and passes no authorization. |
| `StoreRuns.UnauthorizedIsUnprotected` | toolkit/ztad/lifecycle_store.py:816-842 | Without an authorization no accepted transition enters a protected state. |
| `NoSkip.RunSkipsNothing` | toolkit/ztad/lifecycle_store.py:75-95 | In every matching and lawful run, every case entered each COMMON_LIFECYCLE state below the place it stands at, in order and along allowed edges, through blocks, rewinds, rollbacks and subject changes. |
| `NoSkip.ClosedCaseIsComplete` | toolkit/ztad/bug_protocol.py:20-59 | A case that entered CLOSED in such a run has entered all common states, and the whole runtime release lane or the whole package lane. |
| `NoSkip.GuardedStepIff` | toolkit/ztad/lifecycle_store.py:762-794 | A case that skipped nothing so far still has after a matching step the order guard lets through if and only if the step is lawful: a rollback after PRODUCTION_RELEASED, a block that resumes at a common state or at one already entered. |
| `NoSkip.RunSoundIff` | toolkit/ztad/lifecycle_store.py:762-794 | The exact condition over whole runs of any cases: a matching run skips nothing, at any moment and in any case, if and only if every accepted rollback and block in it was lawful. |
| `CommonStates.CommonStep` | toolkit/ztad/lifecycle_store.py:762-794 | For common states alone blocks do not matter: a matching step the order guard lets through skips one if and only if it writes ROLLBACK_REQUIRED before CI_PASS was entered. |
| `CommonStates.RunSkipsCommonIff` | toolkit/ztad/lifecycle_store.py:776-778 | Over whole runs: in a matching run some case skipped a common state if and only if some accepted transition rolled back a case that had not entered CI_PASS. |
| `GuardGaps.MovePassesGuards` | toolkit/ztad/lifecycle_store.py:664-842 | A request that changes only position and risk of a case passes all guards of the store as soon as those on positions, risk and protection pass. |
| `GuardGaps.MismatchedProceedPasses` | toolkit/ztad/lifecycle_store.py:762-794 | The failing input for a mismatched PROCEED: in any case just initialized (delivery model not package-only), one that requests SOURCE_OF_TRUTH_RESOLVED and writes STAGING_PASS passes every guard. |
| `GuardGaps.StrayAuthorizationPasses` | toolkit/ztad/lifecycle_store.py:816-842 | The failing input for the second caller obligation: blocking a case in place under an authorization that names the commitment and time of the event is appended, although BLOCKED takes none. |
| `GuardGaps.EarlyRollbackPasses` | toolkit/ztad/lifecycle_store.py:776-778 | The failing input for rollbacks: one written right after initialization passes every guard, protection included where its authorization is valid, and presupposes fourteen states of which one was entered. |
| `GuardGaps.LateralBlockPasses` | toolkit/ztad/lifecycle_store.py:784-794 | The failing input for blocks: a hosted case at STAGING_PASS may be blocked with CONSUMER_VALIDATION_PASS to resume at, a state of the other lane it never entered. |
| `GuardGaps.LateralClosePasses` | toolkit/ztad/lifecycle_store.py:803-813 | From that block a PROCEED to CLOSED as a code fix passes every guard, protection included where its authorization is valid: closing compares the raw state BLOCKED. |
| `GuardGaps.LateralCloseSkips` | toolkit/ztad/lifecycle_store.py:75-95 | And so a case that skipped nothing up to the block closes with neither lane complete, and no state it entered leads to CLOSED. |
| `GuardGaps.ClosedMayBeBlocked` | toolkit/ztad/lifecycle_store.py:784-815 | The failing input for finality of CLOSED: a direct BLOCKED write out of it that drops the closure class passes every guard, and verifies. |
| `ClosedCases.ClosedLeaves` | toolkit/ztad/lifecycle_store.py:762-815 | An accepted transition of a closed case writes BLOCKED or ROLLBACK_REQUIRED, or keeps it closed under a binding decision; nothing else leaves CLOSED. |
| `ClosedCases.ClosedThroughoutIff` | toolkit/ztad/lifecycle_store.py:615-946 | From any ledger, over any calls on any cases: a closed case stays closed throughout if and only if no direct transition of it that writes BLOCKED or ROLLBACK_REQUIRED is accepted. |
| `ClosureClasses.AcceptedEnd` | toolkit/ztad/lifecycle_store.py:795-815 | Every accepted transition names the end of its case: CODE_FIX out of POST_DEPLOY_VERIFIED, PACKAGE_RELEASE out of CONSUMER_VALIDATION_PASS, ROLLBACK_CLOSURE out of ROLLBACK_REQUIRED, no other way for a hybrid case, class and evidence for a resolution without code, and none for a case that goes on. |
| `ClosureClasses.RunNamesEnds` | toolkit/ztad/lifecycle_store.py:615-946 | So does every event but the first of every case, after any run of calls. |
| `ClosureClasses.ClosedAsDelivered` | toolkit/ztad/bug_lifecycle.py:1140-1263 | Through commits and bindings of any clients: a case closed as a code fix entered POST_DEPLOY_VERIFIED and is no package, one closed as a package release is a package and entered CONSUMER_VALIDATION_PASS, and any other was rolled back. |
| `GuardGaps.RiskMayBeCleared` | toolkit/ztad/lifecycle_store.py:485-523 | Nor is a recorded risk: in any ordered case a direct BLOCKED write with level, class and risk history wiped passes every guard, and verifies. |
| `GuardGaps.RiskHistoryMayBeDropped` | toolkit/ztad/lifecycle_store.py:485-523 | Or the level is kept and the risk history alone is dropped. |
| `VerifiedLedgers.HistoriesVerify` | toolkit/ztad/lifecycle_store.py:1216-1387 | In a verified ledger the history of each case verifies by itself, however cases interleave. |
| `VerifiedLedgers.EpochCountsMutations` | toolkit/ztad/lifecycle_store.py:688-750 | The epoch of any event is the first epoch of its case plus the number of material subject changes since. |
| `VerifiedLedgers.EpochDeterminesSubject` | toolkit/ztad/lifecycle_store.py:688-750 | Within a case epochs never fall, and two events with one epoch carry the same material subject, however far apart. |
| `VerifiedLedgers.AuthorizationUsedOnce` | toolkit/ztad/lifecycle_store.py:383-482 | In a verified ledger no authorization appears in two events. |
| `VerifiedLedgers.VerifiedHeadDeterminesLedger` | toolkit/ztad/lifecycle_store.py:1207-1420 | With an injective hash, two verified ledgers with one head hash hold the same events, and the same state for each case both know. |
| `Authorizations.PreparedInRun` | toolkit/ztad/lifecycle_store.py:948-1099 | In any run: a request prepared earlier and still at its version is offered the commitment that was signed if and only if no event of any case was committed since, and exactly the evidence records the store keeps were supplied when preparing. |
| `Authorizations.SameVersionSameState` | toolkit/ztad/lifecycle_store.py:648-662 | A case whose version is unchanged has an unchanged row, however many events other cases committed. |
| `Authorizations.CommitmentInjective` | toolkit/ztad/lifecycle_store.py:139-157 | With an injective hash, one commitment is one number, one predecessor and one event body up to the authorization itself. |
| `Authorizations.PreparedNames` | toolkit/ztad/lifecycle_store.py:1005-1099 | A preparation is made exactly for the case as it stands and the store's own controller, and names the place, the time and the record of the event to sign. |
| `Authorizations.PreparedIsWritten` | toolkit/ztad/lifecycle_store.py:948-1003 | The body prepared for signing is the body later written exactly when the supplied records are those the store keeps; for an unprotected state it keeps none. |
| `Authorizations.RunBindsAuthorizations` | toolkit/ztad/lifecycle_store.py:1140-1161 | Every authorization any run stores names the commitment and the timestamp of the event it is stored with. |
| `Authorizations.AuthorizationPinsHistory` | toolkit/ztad/lifecycle_store.py:139-157 | One signature pins the whole past: two ledgers, even of two stores, that hold the same authorization agree on every event up to and including the one it authorizes. |
| `PolicySafety.ValidateOrder` | toolkit/ztad/bug_protocol.py:134-163 | The loop reports no error exactly for the policies whose exits are the fixed lifecycle. |
| `PolicySafety.ValidateSafety` | toolkit/ztad/bug_protocol.py:174-270 | The accumulating loops report no error exactly for the safe policies. |
| `PolicySafety.SafePolicyRefinesStore` | toolkit/ztad/bug_protocol.py:174-243 | No safe policy lets an ordered state go anywhere the store does not allow, except into BLOCKED: the policy file and the table in the store cannot disagree. |
| `PolicyRules.SafeIff` | toolkit/ztad/bug_protocol.py:134-270 | The safe policies against an independent definition, exit by exit: what each state must and may lead to, the three ways of delivery written out, and what a package forbids. |
| `PolicyRules.LeastIsSafe` | toolkit/ztad/bug_protocol.py:134-270 | And there is a safe policy: the one with only the exits there must be. |
| `EvidenceGates.ComputeRequirements` | toolkit/ztad/bug_lifecycle.py:491-556 | The accumulating loops compute the minimum trust and the required evidence of a gate. |
| `EvidenceGates.MoreIsNeverLess` | toolkit/ztad/bug_lifecycle.py:526-556 | Adding domains, progressive exposure or a merge to a record never lowers the trust a gate asks for nor drops an evidence type. |
| `EvidenceGates.ModelLightensOnlyPackages` | toolkit/ztad/bug_lifecycle.py:491-507 | No delivery model is held to less than the gate itself, except that a package-only case may get a lighter gate in the package states and at closing. |
| `GateRules.EvaluationAsksFor` | toolkit/ztad/bug_lifecycle.py:491-556 | For each evidence type: it is required exactly if some part of the gate, for the model, level, class, domains, profiles, merge or exposure of the record, asks for it; and the trust is the highest any part names. |
| `BugController.EvaluateBugTransition` | toolkit/ztad/bug_lifecycle.py:953-1187 | The evaluation as loops over reasons: decision, reasons, and the evidence a gate asks for, found, missing and rejected. |
| `BugController.CommitTransition` | toolkit/ztad/bug_lifecycle.py:1266-1345 | Verified read, staleness check, evaluation and store transition, with the store afterwards stated in full. |
| `BugController.BindSubject` | scripts/ztad_bug_lifecycle.py:149-191 | Verified read, subject update and a transition under a binding decision at the version read, with the store afterwards stated in full. |
| `BugLifecycle.BindCandidateIsUpdate` | toolkit/ztad/bug_lifecycle.py:245-290 | Binding a candidate is one subject update and nothing else: the three aliases it sets once more are in place. |
| `EvaluationRules.AllowedIff` | toolkit/ztad/bug_lifecycle.py:953-1187 | An evaluation allows a target exactly under these conditions on the policy, the risk and its history, the evidence, the candidate and the artifact, the problem, and the place a case closes at: each written out by itself, with the lists of targets. |
| `EvaluationRules.ClosesWhereDeliveryEnds` | toolkit/ztad/bug_lifecycle.py:1158-1167 | A case that was not rolled back is allowed to close only at CONSUMER_VALIDATION_PASS for a package and at POST_DEPLOY_VERIFIED for every other delivery, also out of a block. |
| `EvaluationRules.RefusedDecision` | toolkit/ztad/bug_lifecycle.py:1169-1170 | What is refused is answered with a rollback exactly for a readable case at PRODUCTION_RELEASED, POST_DEPLOY_VERIFIED or ROLLBACK_REQUIRED. |
| `ProposalRules.VerdictReports` | toolkit/ztad/bug_lifecycle.py:1056-1187 | What an evaluation says of the evidence, allowed or not: what its gate asks for, and what was found valid and invalid where the subject is complete. |
| `ProposalRules.AdvanceSteps` | toolkit/ztad/bug_lifecycle.py:1190-1263 | The record an evaluation leads to, field by field: the state entered with the class of its end, the risk of the problem case where its class is not lower, and the evidence found added by type; or a halt where the case stood. |
| `ProposalRules.CommitAsks` | toolkit/ztad/bug_lifecycle.py:1190-1345 | What a commit asks of the store, field by field: the record it stepped to, its decision, every reference found valid and the records of just those. |
| `ProposalRules.BindingAsks` | scripts/ztad_bug_lifecycle.py:149-191 | What a binding asks: the version of its view, the decision of a subject or an artifact, and no evidence, key or authorization. |
| `ProposalRules.MutationAsks` | toolkit/ztad/lifecycle_store.py:919-946 | What `mutate_subject` asks: an invalidation, likewise. |
| `ProposalRules.CandidateBinds` | toolkit/ztad/bug_lifecycle.py:245-290 | What a bound candidate makes of each field of the subject: its own are set, and whatever was merged, built, released or deployed of an earlier one is cleared. |
| `CommitAcceptance.AllowedPassesIff` | toolkit/ztad/bug_lifecycle.py:1266-1345 | Evaluator against store: of a case as it stands, with risk, subject and protection in order, the store takes an allowed target exactly when it is on a lane of the delivery and an exit of the store, a hybrid case is not closed out of a block, and a resolution without code has its proof among the required evidence. |
| `CommitAcceptance.AllowedClosePassesIff` | toolkit/ztad/lifecycle_store.py:803-813 | So every allowed close passes the guards, except of a hybrid case out of a block, which the evaluator allows and the store refuses. |
| `CommitAcceptance.RefusedPassesIff` | toolkit/ztad/bug_lifecycle.py:1190-1345 | A refused target is recorded, as a block or a rollback, exactly when the target is one the store knows on a lane of the delivery, the case names no end, and a block has a place to resume at. |
| `CommitTheorems.AllowedHasEvidence` | toolkit/ztad/bug_lifecycle.py:1056-1163 | The evaluation allows nothing without valid evidence of each type the gate requirements of that record and target ask for, and no closing after a rollback without signed evidence of each type the rollback closure asks for. |
| `CommitTheorems.CommitCarriesEvidence` | toolkit/ztad/bug_lifecycle.py:1304-1345 | A PROCEED that is committed hands the store, for each such type, the identifier of an accepted record of that type. |
| `CommitTheorems.WideningAsksNoLess` | toolkit/ztad/bug_lifecycle.py:491-556 | The evaluator never asks less of a record once it has more domains or a merge. |
| `CommitTheorems.LogicalAgrees` | toolkit/ztad/bug_lifecycle.py:436-439 | On every position the store writes, evaluator and store mean the same logical state, although they read different fields. |
| `CommitTheorems.ProposedPosition` | toolkit/ztad/bug_lifecycle.py:1190-1263 | The evaluator either enters the target or blocks the case where it stands, and rolls back instead only after production. |
| `CommitTheorems.CommitDisciplinedIff` | toolkit/ztad/bug_lifecycle.py:1304-1345 | A commit always meets the first caller obligation of the store; it meets the second exactly when an authorization comes only with a proposal in a protected state. |
| `CommitTheorems.SafePolicyRollback` | toolkit/ztad/bug_protocol.py:174-243 | A safe policy rolls back only exposed cases if and only if RESOLVED_NO_CODE has no exit to ROLLBACK_REQUIRED. |
| `PolicySafety.NoCodeExitsUnseen` | toolkit/ztad/bug_protocol.py:134-270 | The validators never look at that exit: whatever exits RESOLVED_NO_CODE is given, a policy is as safe as before. |
| `CommitGaps.NoCodeRollbackPasses` | toolkit/ztad/bug_lifecycle.py:1266-1345 | The failing commit under such a policy: an allowed rollback of a case resolved without code passes every guard, protection included where its authorization is valid, and is unlawful, as no production release was entered. |
| `CommitTheorems.CommitOrderly` | toolkit/ztad/bug_lifecycle.py:1169-1170 | Under such a policy every commit is orderly: it rolls back only after production, and blocks where the case stands. The restriction the store does not make, the evaluator does. |
| `CommitTheorems.BindingOrderly` | toolkit/ztad/subject.py:331-434 | Subject changes are orderly by themselves, under any binding decision: `mutate_subject`, candidates and artifacts alike. |
| `CommitTheorems.AcceptedOrderlyIsLawful` | toolkit/ztad/lifecycle_store.py:762-794 | An accepted orderly transition of a case that skipped nothing is lawful. |
| `CommitTheorems.CommitRisk` | toolkit/ztad/lifecycle_store.py:485-523 | The risk a committed transition records is not lower than, and not cleared from, what the case had, and dominates its own history. |
| `CommitTheorems.AdvanceLowersLevelIff` | toolkit/ztad/bug_lifecycle.py:1228-1242 | An allowed evaluation proposes a lower level than the recorded one if and only if the problem case states a lower one: only classes are compared, and the class is the higher of the derived and the declared. |
| `CommitTheorems.LowerLevelRefused` | toolkit/ztad/lifecycle_store.py:485-523 | The store then refuses the commit. |
| `CommitTheorems.StoreRiskGuardExact` | toolkit/ztad/lifecycle_store.py:485-523 | What passes the risk guard keeps a recorded level from falling exactly when it still has a level, and the whole profile exactly when its history is still there too. |
| `CommitTheorems.TerminalIsAbsorbing` | toolkit/ztad/bug_lifecycle.py:1266-1345 | From a closed or resolved case every commit is refused, whatever policy gates, evidence and authorization say, given no rollback exit of RESOLVED_NO_CODE. |
| `CommitRuns.CurrentViewIsGenuine` | toolkit/ztad/bug_lifecycle.py:1284-1290 | With an injective hash, a client view that passes the staleness check is the authoritative record, though the check compares one number and one field. |
| `EditedCommits.EditedCommitPins` | toolkit/ztad/bug_lifecycle.py:1284-1345 | A record edited after it was read passes the staleness check if its version and hash fields are left alone. If the store then accepts, identity, domains, subject, archived evidence, and the remaining fields as evaluated are those of the row all the same. |
| `EditedCommits.EditedCommitGenuineIff` | toolkit/ztad/bug_lifecycle.py:1284-1345 | So an accepted commit was evaluated against the state it replaced if and only if position, risk, current evidence, scheduling, remaining fields and fingerprint were not edited. |
| `EditedCommits.EditedCommitOrdered` | toolkit/ztad/lifecycle_store.py:762-794 | Whatever was edited, an accepted commit enters a state only along an edge out of where the case really stands, and blocks it no further ahead. |
| `EditedCommits.EditedCommitRisk` | toolkit/ztad/lifecycle_store.py:485-523 | Whatever was edited, an accepted commit that records a risk level records none below the one of the row. |
| `EditedCommits.EditedStateBlocksElsewhere` | toolkit/ztad/bug_lifecycle.py:1284-1345 | The failing input: a copy of a case at STAGING_PASS that claims CONSUMER_VALIDATION_PASS passes the check, and its refused request blocks the case on the lane it never took. |
| `CommitRuns.PlayKeepsInvariant` | toolkit/ztad/bug_lifecycle.py:1266-1345 | Over any interleaving of reads, commits, bindings and store calls of any clients: the ledger stays tracked, no case skips a state, positions stay legal, and every view was once authoritative. |
| `CommitRuns.PlayKeepsConsistent` | toolkit/ztad/bug_lifecycle.py:1266-1345 | Tracking and the origin of views survive any actions at all, direct transitions and edited records included. |
| `CommitRuns.BoundViewIsCurrent` | scripts/ztad_bug_lifecycle.py:149-191 | A binding is accepted only if the record it was computed from is the row it replaces. |
| `ConcurrentCommits.PlayVerifiesIffDisciplined` | toolkit/ztad/lifecycle_store.py:1207-1420 | Over every interleaving of clients that read, edit, commit and bind, under any policy, the ledger verifies if and only if no accepted commit brought an authorization to an unprotected state. |
| `ConcurrentCommits.CommitsSkipNothing` | toolkit/ztad/bug_lifecycle.py:986-1019 | Under safe policies without a rollback exit of RESOLVED_NO_CODE, no interleaving of commits and bindings lets a case skip a state: it entered every common state at or below its logical state. |
| `EpochReview.RunFollowsIff` | toolkit/ztad/lifecycle_store.py:615-946 | In a matching run the events of every case follow each other by the rules of the store, and each rollback after CI_PASS was reached, if and only if no accepted rollback write came earlier. |
| `EpochReview.ReviewedIff` | toolkit/ztad/subject.py:331-434 | Such a case at CI_PASS or past it entered PATCH_IMPLEMENTED to CI_PASS again since its subject last changed if and only if it stood at or before CHANGE_PLANNED at some time since. |
| `EpochReview.CommitsReviewIff` | toolkit/ztad/bug_lifecycle.py:1266-1345 | The same for every case of every system that commits and bindings of any clients lead to. |
| `EpochReview.BlockedBindingSkipsReview` | toolkit/ztad/subject.py:410-434 | The failing input: a subject bound while a case is blocked at CI_PASS or past it. The case keeps its place in the new epoch and has entered no state for the new subject. |
| `ConcurrentCommits.CommitsAreSerial` | toolkit/ztad/bug_lifecycle.py:1284-1340 | In every system any actions lead to, each accepted commit of a view as it was read was evaluated against exactly the row it replaced, however long ago it was read. |
| `ConcurrentCommits.BindingsAreSerial` | scripts/ztad_bug_lifecycle.py:149-191 | So was each accepted binding, whatever the hash function. |
| `ConcurrentCommits.CommitAdvancesVersion` | toolkit/ztad/lifecycle_store.py:896-911 | An accepted commit or binding found the version it was computed from and leaves the next one. |
| `ConcurrentCommits.OneWriterPerVersion` | toolkit/ztad/lifecycle_store.py:648-662 | At most one commit or binding per version of a case: after any actions of anyone, a later accepted one has a later base version. |
| `ConcurrentCommits.RetryIsStale` | toolkit/ztad/lifecycle_store.py:843-875 | Retrying an accepted transition raises: its version is stale before its idempotency key is looked at. |
| `ConcurrentCommits.RiskNeverFalls` | toolkit/ztad/lifecycle_store.py:485-523 | From every reachable system, over every interleaving of commits and bindings: a recorded risk is never lowered or cleared, its history only grows, and no entry of it exceeds the current level. |
| `ConcurrentCommits.ClosedForever` | toolkit/ztad/bug_lifecycle.py:1266-1345 | Through commits and bindings CLOSED and RESOLVED_NO_CODE are final: whatever anyone does, the row of such a case never changes again. |
| `Replay.ReplayEvents` | toolkit/ztad/evidence_bundle.py:152-365 | The loop with its running values is clean exactly when each event, taken with the ones before it, passes every check; after an error the running values say nothing and nothing is claimed of them. |
| `Replay.ValidateReplay` | toolkit/ztad/evidence_bundle.py:141-433 | No error exactly when the events replay, the requested states are complete for the closure, and the last event ends properly for the final subject. |
| `ReplayRules.ReplaysExactly` | toolkit/ztad/evidence_bundle.py:141-364 | The event loop against an independent definition, field by field, with a signature wherever a signed state is entered or only asked for, and no epoch below an earlier one. |
| `ReplayRules.EndsIff` | toolkit/ztad/evidence_bundle.py:366-433 | The end of an export: subject, class, the state before it, and no runtime state for a package. |
| `ReplayRules.CompleteIff` | toolkit/ztad/evidence_bundle.py:366-433 | Completeness by the states written out for each end: up to the classification without code, up to production for a rollback, along the package lane, along both lanes for a hybrid fix, and along the release lane. |
| `ReplayTheorems.StoreChecksStructure` | toolkit/ztad/lifecycle_store.py:1207-1387 | On a ledger of one case the verifier of the store is the structural fragment and a separate check per event. |
| `ReplayTheorems.ReplayChecksStructure` | toolkit/ztad/evidence_bundle.py:152-365 | The replay is the same structural fragment and its own check per event: numbering, links, genesis, chaining, decisions and order are judged alike by both; the running maximum of epochs adds only that the first is not negative. |
| `ReplayTheorems.RunReplaysIff` | toolkit/ztad/evidence_bundle.py:256-365 | The one-case ledger of any disciplined run, exported with its evidence records and without a blank identity, replays if and only if its first epoch is not negative and each event has its evidence bundled, matching hashes, and no protected request that ended unprotected. |
| `ReplayTheorems.RefusedReleaseEndsReplay` | toolkit/ztad/evidence_bundle.py:291-296 | One refused request for a protected state, and no continuation of the run ever replays, although the store verifies all of them. |
| `ReplayTheorems.ExportNeedsPrefix` | toolkit/ztad/evidence_bundle.py:172-183 | The events of one case out of a shared store stay linked if and only if they are a prefix of the ledger: no other case committed before its last event. |
| `ReplayTheorems.MaxEpochIsLast` | toolkit/ztad/evidence_bundle.py:226-231 | The running maximum of the replay is the epoch of the last event. |
| `ReplayTheorems.ClosureCompleteIff` | toolkit/ztad/evidence_bundle.py:366-433 | For a closed case that skipped nothing the completeness rule holds except exactly for a rollback closure that never requested POST_DEPLOY_VERIFIED and a hybrid code fix without the package states. |
| `ReplayTheorems.ClosedRunCompleteIff` | toolkit/ztad/evidence_bundle.py:366-433 | The same for the closed case of every disciplined and lawful run of the store. |
| `ReplayTheorems.EnteredWasRequested` | toolkit/ztad/lifecycle_store.py:1315-1340 | In a verified history every ordered state that was entered had been requested. |
| `AuditLedgers.AuditLedger.AppendRecord` | toolkit/ztad/ledger.py:69-125 | One transaction: the row stored under the key is returned and nothing changes, or the next link is inserted under the next AUTOINCREMENT number. |
| `AuditLedgers.AuditLedger.CreateCheckpoint` | toolkit/ztad/ledger.py:140-172 | A checkpoint is the count and head of the rows as they are; nothing is written. |
| `AuditLedgers.AuditLedger.VerifyLedger` | toolkit/ztad/ledger.py:175-226 | The loop reports no error exactly when the rows are linked and match the checkpoint, if one is given; it returns count and head. |
| `AuditLedgers.AppendExactly` | toolkit/ztad/ledger.py:69-126 | An append is answered with the row that has its key, explicit or the hash of its payload; refused where its digest is taken; and otherwise stored under that key, at the end, with the next number. |
| `AuditLedgers.RunVerifies` | toolkit/ztad/ledger.py:69-226 | Whatever writers append in whatever order, the ledger verifies and no key is stored twice. |
| `AuditLedgers.RetryReturnsFirst` | toolkit/ztad/ledger.py:69-125 | A stored append is idempotent for good: after any other appends a retry under its key returns the first row and changes nothing, even if it carries another payload. |
| `AuditLedgers.DefaultKeysAreExact` | toolkit/ztad/ledger.py:76-93 | With keys left to the payload hash, a retry that finds a row finds its own payload. |
| `AuditLedgers.CheckpointPinsLedger` | toolkit/ztad/ledger.py:140-226 | Rows verify against a checkpoint if and only if they are the rows it was taken of. |
| `AuditLedgers.TruncationShowsOnAppend` | toolkit/ztad/ledger.py:69-226 | Without a checkpoint a truncated ledger verifies, and stops verifying exactly when the next row is stored: its number leaves a gap. |
| `AgentsBlock.MarkersUsable` | toolkit/ztad/installer.py:16-17 | Each marker is one line whose first character does not recur in it and whose last is no white space, and the two differ at some position: all that the block theorems ask of them. |
| `AgentsBlock.ExtractAfterReplace` | toolkit/ztad/installer.py:131-147 | For any text that parses and any rules without markers: what extracts after a merge or update is the block, if and only if the text does not have a BEGIN marker without an END marker. |
| `AgentsBlock.ReplaceFixedPoint` | toolkit/ztad/installer.py:140-147 | One replacement is a fixed point exactly when the text was not blank; two always are. |
| `AgentsBlock.RemoveAfterMerge` | toolkit/ztad/installer.py:140-156 | Removing the block just merged gives the text right-trimmed with one newline, or nothing for blank text. |
| `AgentsBlock.TextAroundSurvives` | toolkit/ztad/installer.py:140-147 | Replacing a well-formed block keeps the text after it exactly and the text before it up to trailing white space. |
| `AgentsBlock.RemoveKeepsVisible` | toolkit/ztad/installer.py:150-156 | Removing a well-formed block removes nothing else but white space. |
| `Installer.ZtadKitIsSound` | toolkit/ztad/installer.py:16-17 | The real markers and candidate names meet what the installer theorems ask of them: the markers are usable, candidates never repeat, and none is AGENTS.md. |
| `Candidates.CandidateInjective` | toolkit/ztad/installer.py:159-177 | Candidate names of different paths differ, and so do the names of one path: `a` and `a.ztad.new` never share one. |
| `Candidates.CandidateIs` | toolkit/ztad/installer.py:159-177 | Those names: the path with `.ztad.new`, and from the second on with a dot and the number in decimal. |
| `Candidates.SearchStops` | toolkit/ztad/installer.py:159-177 | The unbounded search stops in every finite tree, because each turn that goes on uses up one path. |
| `Candidates.CandidateRelative` | toolkit/ztad/installer.py:159-177 | The loop returns the first free or identical candidate and says which of the two it is. |
| `RepositoryInstaller.Repository.Plan` | toolkit/ztad/installer.py:219-282 | One action per desired file and one for AGENTS.md, and whether any of them blocks, without touching the repository. |
| `RepositoryInstaller.Repository.WriteFiles` | toolkit/ztad/installer.py:297-317 | The loop writes exactly the planned creations, updates and candidates and rebuilds the record of managed files. |
| `RepositoryInstaller.Repository.RemoveStale` | toolkit/ztad/installer.py:319-327 | The loop removes exactly the files no longer shipped that still are as recorded, and keeps recording those the user changed. |
| `RepositoryInstaller.Repository.ApplyInstall` | toolkit/ztad/installer.py:285-374 | The repository afterwards, tree and manifest, in every case: blocked, stopped by a malformed AGENTS.md, or applied. |
| `RepositoryInstaller.Repository.UninstallAll` | toolkit/ztad/installer.py:377-440 | The repository afterwards in every case, including the malformed AGENTS.md that raises after files were already deleted. |
| `InstallerSafety.ManifestIsHonest` | toolkit/ztad/installer.py:285-367 | In every run of edits, installs, updates and uninstalls with changing releases, the manifest records only hashes of bytes that were shipped for that very path. |
| `InstallerSafety.UserBytesSurvive` | toolkit/ztad/installer.py:219-425 | Over every such run and outside AGENTS.md: whatever an install, update or uninstall overwrites or deletes, some release had shipped with those bytes for that path. |
| `InstallerSafety.UserRulesSurvive` | toolkit/ztad/installer.py:194-216 | In AGENTS.md an installation changes only a block some release shipped; the text around it stays up to white space at the seams. |
| `InstallerSafety.UserRulesSurviveUninstall` | toolkit/ztad/installer.py:396-412 | And an uninstall takes only such a block out of it, in every run: every other character that is not white space stays, in order. |
| `InstallerSafety.BlockedChangesNothing` | toolkit/ztad/installer.py:285-289 | An installation applies exactly when no file is blocked and AGENTS.md parses; otherwise the whole repository, manifest included, is as before. |
| `InstallerSafety.InstallAnswers` | toolkit/ztad/installer.py:194-289 | It raises exactly on a malformed AGENTS.md, and fails closed exactly where something else than a file stands at AGENTS.md or at a wanted path. |
| `InstallerUpgrades.UnwantedGoneIff` | toolkit/ztad/installer.py:319-327 | An installation that applied removes every recorded file the release does not want and nobody changed, and its record; a changed one stays, and stays recorded. |
| `InstallerUpgrades.MissingForgottenIff` | toolkit/ztad/installer.py:319-374 | The record of such a file that is missing goes too, unless the installation has nothing else to do. |
| `InstallerUpgrades.WantedSettles` | toolkit/ztad/installer.py:219-374 | Of the files a release wants: each is in place and recorded where the path was free, already as wanted or still as recorded; any other is left alone with the record it had, and the proposal lies beside it under the first usable candidate name. |
| `InstallerUpgrades.NothingToSettle` | toolkit/ztad/installer.py:219-374 | And an installation that had nothing to do found each so. |
| `InstallerUpgrades.LastReleaseStands` | toolkit/ztad/installer.py:285-374 | The upgrade law: whatever releases were installed one after the other beside a user's files, what stands is the last one: its files and no others, each recorded with its hash, its block in AGENTS.md, and the user's files as they were. |
| `InstallerUpgrades.OnlyLastMatters` | toolkit/ztad/installer.py:285-374 | With an injective digest, any two sequences of releases with the same last one leave the same files outside AGENTS.md and the same manifest. |
| `InstallerUpgrades.UninstallRestores` | toolkit/ztad/installer.py:377-440 | After any number of upgrades, uninstalling leaves exactly the user's files, their own AGENTS.md right-trimmed, or none where it was blank, and no manifest. |
| `InstallerSafety.UninstallChanges` | toolkit/ztad/installer.py:377-425 | Outside AGENTS.md, uninstalling changes an existing file if and only if it still is as recorded. |
| `InstallerSafety.UninstallRecords` | toolkit/ztad/installer.py:377-440 | What it leaves of the manifest: exactly the records of files that changed, with the recorded block hash, while there is one or somebody else's block is in AGENTS.md; everything where AGENTS.md is malformed and it raises; and otherwise nothing. |
| `InstallerIdempotence.InstallTwice` | toolkit/ztad/installer.py:285-374 | After any installation that applied, a second one of the same release does nothing and says so: files, candidates, stale files, AGENTS.md and the manifest are identical. |
| `InstallerIdempotence.StrayBeginConflicts` | toolkit/ztad/installer.py:131-137 | With a BEGIN marker and no END marker in AGENTS.md the block, once merged, is never recognised again: the next plan is a conflict. |
| `InstallerIdempotence.StrayBeginSettlesIff` | toolkit/ztad/installer.py:219-374 | In that case the second installation is a no-op if and only if its proposal already lay beside AGENTS.md before the first, and the third always is. |
| `InstallerIdempotence.RoundTripExact` | toolkit/ztad/installer.py:285-440 | Install then uninstall in a fresh repository: a path comes back as it was if and only if it was neither a file identical to the shipped one (which is removed with the rest) nor a new conflict candidate (which stays). |
| `InstallerIdempotence.RulesRoundTrip` | toolkit/ztad/installer.py:285-440 | The same for AGENTS.md: the text right-trimmed, or no file if there was no text; and the manifest is gone. |
| `MeshRuntime.SubmissionDecreasesIff` | toolkit/ztad/mesh_runtime.py:238-323 | A submitted replan never gains levels or repair cycles, and is strictly smaller exactly when it pays a repair cycle or raises the risk. |
| `MeshRuntime.TriggersPayOrRaise` | toolkit/ztad/mesh_runtime.py:325-406 | No trigger asks for a lower risk, and each replan a trigger asks for pays or raises. |
| `MeshRuntime.QuarantinedIff` | toolkit/ztad/mesh_runtime.py:325-406 | A task is quarantined exactly for an unrefuted P0 or P1 finding or one of the listed requests and results, in whatever combination. |
| `MeshRuntime.ReplanAims` | toolkit/ztad/mesh_runtime.py:325-406 | What each replan aims at, by its reason: two stay at the risk and pay a cycle, the others raise it by one level, to what the model proposes above it, or to R3. |
| `MeshRuntime.ReplannedIff` | toolkit/ztad/mesh_runtime.py:325-406 | And when an output leads to one. |
| `MeshRuntime.DiffRaises` | toolkit/ztad/mesh_runtime.py:238-323 | A checked diff of a higher risk than its task spawns a task of just that risk with all its repair cycles, and no other diff spawns one. |
| `MeshRuntime.ChildIsSmaller` | toolkit/ztad/mesh_runtime.py:238-406 | Whatever spawned it, a child has fewer risk levels left, or as many and fewer repair cycles. |
| `MeshRuntime.ChainBounded` | toolkit/ztad/mesh_runtime.py:238-406 | A chain of replans from risk r with B repair cycles has at most (4 - r) + B links, whatever the models answer. |
| `MeshRuntime.ChainTight` | toolkit/ztad/mesh_runtime.py:238-406 | That bound is reached from every task, so it cannot be improved. |
| `MeshRuntime.ContinuityTask.SyncContinuityPhase` | toolkit/ztad/mesh_runtime.py:154-186 | The loop of versioned writes, with what the other actors do between read and write made explicit. |
| `MeshRuntime.SyncNeverBackwards` | toolkit/ztad/mesh_runtime.py:154-186 | However other actors interleave, as long as they only move forward, the phase never moves back. |
| `MeshRuntime.SyncReachesTarget` | toolkit/ztad/mesh_runtime.py:143-186 | With at most two conflicts the six turns suffice from every phase and for every role, and the phase ends at or past its target. |
| `PhaseRoles.RoleReachesPhase` | toolkit/ztad/mesh_runtime.py:143-186 | Each role brings its task at least to its phase, the roles and phases written out, however others move it forward and disturb at most two turns. |
| `PhaseRoles.RoleEndsAtPhase` | toolkit/ztad/mesh_runtime.py:143-186 | With nobody else writing it ends at exactly the later of where it was and that phase, by one write for each phase on the way, where only READY passes PLANNING by. |
| `PhaseRoles.RoleLeavesTask` | toolkit/ztad/mesh_runtime.py:154-162 | A role without a phase, and a task in no known phase, is left as it is. |
| `MeshRuntime.SyncExact` | toolkit/ztad/mesh_runtime.py:154-186 | Against actors that only touch the task, the loop succeeds if and only if the distance to the target plus the conflicts fit its turns. |
| `MeshRuntime.ThreeConflictsExhaust` | toolkit/ztad/mesh_runtime.py:154-186 | Three conflicts can exhaust it: READY towards SUPERVISOR_REVIEW. |
| `MeshRuntime.DependencyResultContext` | toolkit/ztad/mesh_runtime.py:571-630 | Kept and omitted results together are all results; both limits hold; and each omitted one still would not fit at the end. |
| `MeshPlan.GroupScopes` | toolkit/ztad/mesh_plan.py:95-110 | Buckets of roots within the cap, refused exactly when some component has no pattern. |
| `MeshPlan.GroupsCover` | toolkit/ztad/mesh_plan.py:95-110 | Every pattern is in some group and nothing else is. |
| `MeshPlan.NoRootSplit` | toolkit/ztad/mesh_plan.py:95-110 | Two patterns with one scope root are never in two groups. |
| `MeshPlan.DifferentRootsSplit` | toolkit/ztad/mesh_plan.py:86-110 | Within the cap two different roots never share a group, whatever else they have in common. |
| `MeshPlan.DealtInTurn` | toolkit/ztad/mesh_plan.py:95-110 | Beyond the cap the roots are dealt out in turn: two as many places apart as there are groups share one, and two that are closer do not. |
| `MeshGraph.PlanBuilder.AddFullMesh` | toolkit/ztad/mesh_plan.py:368-443 | The nested `add` calls append exactly the stages of the R3 and R4 plan. |
| `MeshGraph.BuildMeshPlan` | toolkit/ztad/mesh_plan.py:172-452 | Refused exactly for missing components, runs or patterns; otherwise the nodes for the risk over one group (up to R2) or the capped groups of the scope roots. |
| `MeshGraph.MergedIsAll` | toolkit/ztad/mesh_plan.py:194-202 | The scopes of the indexer, integrator and checks are all patterns, however they were grouped. |
| `MeshTheorems.PlanIsLayered` | toolkit/ztad/mesh_plan.py:224-452 | For every risk, contract and cap: ids are distinct and each dependency names an earlier node, so the graph has no cycle. |
| `MeshTheorems.PlanHasCore` | toolkit/ztad/mesh_plan.py:224-452 | There is exactly one writer per group. |
| `MeshTheorems.WritersCount` | toolkit/ztad/mesh_plan.py:95-202 | How many writers there are: one up to R2, and above it one for each scope root up to the number the contract allows, which is never below one. |
| `MeshNodes.NodesPlaced` | toolkit/ztad/mesh_plan.py:113-452 | Every node of a plan works on its own group or on all of them, and waits for just the nodes its key names. |
| `MeshNodes.PlanHasExactly` | toolkit/ztad/mesh_plan.py:113-452 | A plan has a node for a key exactly if its risk and its contract call for one: which scouts, plans, writers, guards and reviews each risk gets. |
| `MeshTheorems.WritersPartitionScopes` | toolkit/ztad/mesh_plan.py:95-452 | In every plan that is built, the scopes of the writers are together all patterns of the contract and nothing else, and no scope root is shared by two writers. |
| `MeshTheorems.WritersOverlapIff` | toolkit/ztad/mesh_plan.py:86-110 | Where the cap leaves a writer for each root, the scopes of two writers overlap, a root of one holding a root of the other, if and only if two patterns of the contract have such roots and the risk is above R2: roots are compared for equality only. |
| `MeshTheorems.NestedSourcesOverlap` | toolkit/ztad/mesh_plan.py:86-110 | The failing input: two components, one below the other, such as `src` and `src/api`. |
| `MeshTheorems.JudgesSeeEverything` | toolkit/ztad/mesh_plan.py:290-452 | Every review and release node depends, over any number of edges, on the checks, the integrator and each single writer. |
| `MeshTheorems.IndexUnderEverythingIff` | toolkit/ztad/mesh_plan.py:172-452 | Every node depends on the indexer if and only if an R3 or R4 plan is allowed at least one plan candidate. |
| `MeshTheorems.NoCandidatesUngrounded` | toolkit/ztad/mesh_plan.py:378-393 | With no plan candidate the adjudicator waits for nothing. |
| `MeshFiles.WriteMeshPlan` | toolkit/ztad/mesh_plan.py:468-524 | All destinations are checked before the first write: it raises and writes nothing, or writes each path that is not there exactly once; the two counts are the new paths and all other artifacts. |
| `MeshFiles.NewPathsAre` | toolkit/ztad/mesh_plan.py:468-524 | What is written is exactly what some artifact claims and was not there. |
| `MeshFiles.WriteAgainIff` | toolkit/ztad/mesh_plan.py:468-524 | Writing the same plan again succeeds and changes nothing if and only if no two artifacts claim one path with different contents; otherwise the first write already lost one. |
| `MeshFiles.WrittenHolds` | toolkit/ztad/mesh_plan.py:468-524 | Nothing that was there changes, every artifact has a file, and each new file holds one of the artifacts of its path. |
| `ReleaseEvidence.GenerateEvidence` | scripts/generate_release_evidence.py:47-123 | The producer lists the publishable files once each and writes the three documents about that list. |
| `ReleaseEvidence.Verify` | scripts/verify_release_evidence.py:45-159 | The accumulating loops report no error exactly for consistent evidence. |
| `ReleaseRules.VerifiedIff` | scripts/verify_release_evidence.py:45-159 | Evidence verifies exactly if its documents agree with the release asked for, with the files on disk and with each other, against an independent definition, document by document. |
| `ReleaseRules.BuildWrites` | scripts/generate_release_evidence.py:47-123 | The producer refuses exactly an unusual commit or version and a directory with nothing to publish, and otherwise writes the three documents, field by field. |
| `ReleaseEvidence.BuildVerifiesIff` | scripts/generate_release_evidence.py:47-123 | What was just built verifies if and only if the attestation it was given is the one in the directory, and both attestations are there where protection is required. |
| `ReleaseEvidence.VerifiedIsOneList` | scripts/verify_release_evidence.py:45-159 | The records of verified evidence are what the disk says of their names, digests and sizes, each name once; provenance and identity repeat them in order, the SBOM with their multiplicity. |
| `ReleaseEvidence.FingerprintPinsRelease` | scripts/verify_release_evidence.py:120-159 | With an injective hash one fingerprint is one release: the same documents, up to the `protected_attestation` flag, and the same bytes in each listed file. |
| `ReleaseIdentity.ParseJoin` | scripts/verify_release_evidence.py:97-99 | Reading an identity string from the left yields the listed entries, each cut wherever its name holds a digest and a comma. |
| `ReleaseIdentity.SameIdentityIff` | scripts/verify_release_evidence.py:97-99 | Two lists have one identity string if and only if they are the same once every name is cut at the entries it hides. |
| `ReleaseIdentity.PinnedIff` | scripts/verify_release_evidence.py:97-99 | A list is the only one with its string, among those with no fewer entries, if and only if no name in it hides an entry. |
| `ReleaseIdentity.IdentityPinsRelease` | scripts/verify_release_evidence.py:70-99 | Where no listed name hides an entry, two verified directories with one identity list the same files with the same bytes. |
| `ReleaseIdentity.TwoReleasesOneIdentity` | scripts/generate_release_evidence.py:62-108 | The failing input: two files, or one file named like the entry of the first, a comma and the second name. Both directories verify, with one identity. |
| `ReleaseEvidence.UnlistedFilesPass` | scripts/verify_release_evidence.py:45-159 | Adding or replacing a file of a verified release goes unseen exactly when the evidence lists no other digest or size for that name. |
| `Distribution.ReadManifest` | toolkit/ztad/distribution.py:153-176 | The loop over the lines accepts exactly the texts whose lines all parse, to portable paths without duplicates or collisions. |
| `Distribution.VerifyInternalManifest` | toolkit/ztad/distribution.py:147-210 | No error exactly when the text is readable, all packaged paths, directories included, are portable and do not collide, and the listed digests are the digests of the files. |
| `DistributionRules.EntryLine` | toolkit/ztad/distribution.py:153-160 | A manifest line is 64 hexadecimal digits, two spaces and a path without a line feed, and nothing else is. |
| `DistributionRules.ValidIff` | toolkit/ztad/distribution.py:147-210 | A package verifies exactly if every path, directories included, is portable and apart from the others on all platforms, every line lists a path, no two the same or a colliding one, and what is listed are its files but the manifest with the digests of their bytes. |
| `ManifestRoundTrip.CopyCleanTree` | toolkit/ztad/distribution.py:84-121 | A copy is made exactly of a tree whose examined files and directories are portable and collision-free, and holds exactly the kept files. |
| `DistributionRules.CopyIff` | toolkit/ztad/distribution.py:84-121 | What a copy demands and holds: of each path whose own name is not excluded, that it is portable as it stands and no other is the same on some platform; and the files not excluded. |
| `ManifestRoundTrip.CopyIsClean` | toolkit/ztad/distribution.py:84-121 | The copy is then collision-free itself, given that no kept file lies below a directory whose own name is excluded: such a directory is not examined, and its files are copied. |
| `ManifestRoundTrip.ParsePrinted` | toolkit/ztad/distribution.py:124-144 | A printed manifest line reads back as the entry it was printed for. |
| `ManifestRoundTrip.SplitIsBreakFree` | toolkit/ztad/distribution.py:153-153 | No line the verifier reads holds a line separator of any kind. |
| `ManifestRoundTrip.ManifestValidIff` | toolkit/ztad/distribution.py:124-210 | A clean tree verifies against the manifest just written for it if and only if no path holds a line separator and no file or directory is another spelling of the manifest name. |
| `ManifestRoundTrip.ListedIsBreakFree` | toolkit/ztad/distribution.py:153-176 | No manifest whatever can list a path with a line separator. |
| `ManifestRoundTrip.ManifestPinsPackage` | toolkit/ztad/distribution.py:147-210 | With an injective digest, two packages that verify with one manifest text are the same package. |
| `Archive.SafeExtract` | toolkit/ztad/distribution.py:251-307 | The loop extracts exactly the archives within all limits, the size of the archive among them, whose members, directories or files, are safe, distinct and non-colliding under one top directory, with no file where another member needs a directory; otherwise it raises and yields nothing. |
| `DistributionRules.ExtractableIff` | toolkit/ztad/distribution.py:251-307 | The limits and member rules with their numbers: one to ten thousand members, 512 MiB packed and unpacked, a ratio of a thousand, one top-level directory, and no two members in each other's way. |
| `DistributionRules.UnpackedFiles` | toolkit/ztad/distribution.py:284-307 | What an extracted archive leaves: each file member under its path with its bytes, and nothing else. |
| `Archive.ArchiveRoundTrip` | toolkit/ztad/distribution.py:218-307 | A packed tree extracts, and to itself, if and only if it keeps the limits on archive size, members, unpacked size and ratio. |
| `Archive.TwinRefused` | toolkit/ztad/distribution.py:251-307 | Another spelling of the manifest name beside the manifest is packed, and then stops the extraction. |
| `Archive.PackageRoundTrip` | toolkit/ztad/distribution.py:84-307 | Copied clean, manifested, packed and extracted: identical exactly when limits hold and no file is a twin of the manifest; what comes back verifies exactly when no directory is one either and no path holds a Unicode line separator. |

## Left out

Simplifications of modelled code:

- SQLite: transactions are atomic calls; WAL, triggers, permissions and recovery are not modelled. The columns
  that repeat fields of the event JSON are the event itself, so column mismatches cannot arise. The
  `subject_epoch` column of `lifecycle_cases`, which the verifier never reads, is carried along.
- Cryptography and JSON: hashing, MAC, signature validity, canonical JSON and key derivation are functions; a
  parsed document is the document. Malformed JSON and wrongly typed fields do not occur.
- Records: the fields the ledger looks at are explicit, all others are one opaque map; subject validity, JSON
  schemas and the metadata, profile and evidence gates of the evaluator are predicates of record and target.
- BugLifecycle.BindCandidateIsUpdate: the format checks of the arguments of `bind_candidate` and `bind_artifact`
  are not modelled. The merge, release and production bindings are covered as subject updates with any fields.
- Evidence records kept with an event are a multiset: their order inside the event is not modelled.
- Domain names are upper-cased in ASCII only.
- Time: `now` is an argument. Expiry of evidence and authorizations is not modelled.
- Replay.ValidateReplay: the branch without evidence records by identifier is not modelled, and subjects are
  compared as written, without the second normalisation. It asks that no hash renders as the empty text.
- `sorted`: where the source sorts names or roots, the model takes any order without repetition, and proves
  its results for all of them.
- Installer: a tree is a map of paths to files or other things. Symbolic links, file modes, directories,
  timestamps of the manifest, newline translation of text files and YAML of the distribution are not modelled.
- Mesh plan: node identifiers are keys; titles, prompts, priorities, metadata and the text of slugs are not
  modelled, so two different keys never share an identifier. How a component becomes a pattern and a pattern a
  root is a pair of functions.
- Mesh runtime: a replan is the task it submits; the contents of the child plan, artifacts, containment of the
  parent and model calls are not modelled. What other actors do to a task is an arbitrary function.
- Release evidence: SPDX identifiers, licences and document text, timestamps, size and type errors of JSON.
- Distributions: a tree is its files, and its directories are the ones above them; empty directories are not
  modelled.
- Archives: links, modes and the deflate stream are not modelled; a file in place of the top-level directory is
  refused at once and not at the end. The size of the archive and the compressed size of each member are arbitrary.

Not modelled at all:

- `mesh_store.py`, `orchestrator.py`, the model router, the scheduler and `controller_context.py` beyond the
  identity it hands to the store.
- Git, worktrees, subprocess checks, providers, HTTP, the GitHub command line, hooks and the command line.
- Metadata validators of `bug_protocol.py` from line 353 on, regular-expression risk markers, budgets, diff
  limits, findings, capabilities and host acceptance: flat checks that would only add easy members.
- Delivery model proofs: directory markers carry no digest, so derivation and validation do not agree in
  general.
