/** Replans, phase synchronisation and bounded context of the mesh runtime (mesh_runtime.py). */
module MeshRuntime {
  import opened Basics

  /** R0 to R4. */
  type Rank = r: nat | r <= 4

  // ---- Structured control ----

  datatype RequestedAction = VerifyFindings | RepairConfirmedFindings | RequestContextExpansion | EscalateRisk
    | AutoReplan | QuarantineTask | RequestStrongSupervisor | OtherAction

  datatype ResultType = InsufficientContext | RiskEscalationRequested | AutoReplanResult | QuarantineAndContinue
    | InsufficientEvidence | WaitingExternalDependency | OtherResult

  datatype Finding = Finding(severity: string, verification: string)

  /** `proposed` is the proposed risk, if it names one. */
  datatype Output = Output(action: RequestedAction, result: ResultType, findings: seq<Finding>, proposed: Option<Rank>)

  datatype Reason = BlockingFinalGuardFindings | ContextExpansion | ModelEscalation | BoundedReplan | StrongSupervisor | ActualDiffEscalation

  datatype Replan = Replan(target: Rank, reason: Reason, consume: bool)

  datatype Control = Control(quarantine: bool, replan: Option<Replan>, blocking: nat)

  function NextRisk(r: Rank): Rank { if r == 4 then 4 else r + 1 }

  predicate BlockingFinding(f: Finding) {
    (f.severity == "P0" || f.severity == "P1") && f.verification != "FALSIFIED"
  }

  function BlockingCount(findings: seq<Finding>): nat {
    if findings == [] then 0
    else BlockingCount(findings[..|findings| - 1]) + (if BlockingFinding(findings[|findings| - 1]) then 1 else 0)
  }

  function EscalationTarget(risk: Rank, proposed: Option<Rank>): Rank {
    if proposed.Some? && proposed.value > risk then proposed.value else NextRisk(risk)
  }

  /** _structured_control; `guarded` is the node's mandatory_final_guard. */
  function StructuredControl(risk: Rank, guarded: bool, o: Output): Control {
    var blocking := BlockingCount(o.findings);
    if blocking > 0 || o.action == VerifyFindings || o.action == RepairConfirmedFindings then
      Control(true, if risk <= 1 && guarded then Some(Replan(risk, BlockingFinalGuardFindings, true)) else None, blocking)
    else if o.action == RequestContextExpansion || o.result == InsufficientContext then
      Control(true, if risk <= 2 && NextRisk(risk) != risk then Some(Replan(NextRisk(risk), ContextExpansion, false)) else None, blocking)
    else if o.action == EscalateRisk || o.result == RiskEscalationRequested then
      var target := EscalationTarget(risk, o.proposed);
      Control(true, if target != risk then Some(Replan(target, ModelEscalation, false)) else None, blocking)
    else if o.action == AutoReplan || o.result == AutoReplanResult then
      Control(true, Some(Replan(risk, BoundedReplan, true)), blocking)
    else if o.action == QuarantineTask || o.action == RequestStrongSupervisor || o.result == QuarantineAndContinue then
      Control(true, if o.action == RequestStrongSupervisor && risk < 3 then Some(Replan(3, StrongSupervisor, false)) else None, blocking)
    else
      Control(o.result == InsufficientEvidence || o.result == WaitingExternalDependency, None, blocking)
  }

  /** A finding nobody has refuted blocks, and so does a model that asks for its findings to be verified or repaired. */
  predicate Urgent(o: Output) {
    || o.action in {VerifyFindings, RepairConfirmedFindings}
    || exists i :: 0 <= i < |o.findings| && o.findings[i].severity in {"P0", "P1"} && o.findings[i].verification != "FALSIFIED"
  }

  lemma {:induction false} BlockingFound(findings: seq<Finding>)
    ensures BlockingCount(findings) > 0 <==>
      exists i :: 0 <= i < |findings| && findings[i].severity in {"P0", "P1"} && findings[i].verification != "FALSIFIED"
  {
    if findings != [] {
      BlockingFound(findings[..|findings| - 1]);
    }
  }

  /** A task is quarantined exactly for an urgent output or one of these requests and results, in whatever combination. */
  lemma QuarantinedIff(risk: Rank, guarded: bool, o: Output)
    ensures StructuredControl(risk, guarded, o).quarantine <==>
      || Urgent(o)
      || o.action in {RequestContextExpansion, EscalateRisk, AutoReplan, QuarantineTask, RequestStrongSupervisor}
      || o.result in {InsufficientContext, RiskEscalationRequested, AutoReplanResult, QuarantineAndContinue, InsufficientEvidence,
                      WaitingExternalDependency}
  {
    BlockingFound(o.findings);
  }

  /** What a replan aims at, by its reason: only a repair under the final guard and a bounded replan stay at the risk and pay a
      cycle for it; the others raise it, by one level, to what the model proposes above it, or to R3. */
  lemma ReplanAims(risk: Rank, guarded: bool, o: Output)
    requires StructuredControl(risk, guarded, o).replan.Some?
    ensures var r := StructuredControl(risk, guarded, o).replan.value;
      match r.reason
      case BlockingFinalGuardFindings => Urgent(o) && guarded && risk <= 1 && r.target == risk && r.consume
      case ContextExpansion =>
        !Urgent(o) && (o.action == RequestContextExpansion || o.result == InsufficientContext) && risk <= 2 && r.target == risk + 1 && !r.consume
      case ModelEscalation =>
        && !Urgent(o) && (o.action == EscalateRisk || o.result == RiskEscalationRequested) && risk <= 3 && !r.consume
        && r.target == (if o.proposed.Some? && o.proposed.value > risk then o.proposed.value else risk + 1)
      case BoundedReplan => !Urgent(o) && (o.action == AutoReplan || o.result == AutoReplanResult) && r.target == risk && r.consume
      case StrongSupervisor => !Urgent(o) && o.action == RequestStrongSupervisor && risk <= 2 && r.target == 3 && !r.consume
      case ActualDiffEscalation => false
  {
    BlockingFound(o.findings);
  }

  /** And an output leads to a replan exactly if it is urgent at R0 or R1 under the final guard, or the first of the other
      requests it makes can be met at the risk. */
  lemma ReplannedIff(risk: Rank, guarded: bool, o: Output)
    ensures StructuredControl(risk, guarded, o).replan.Some? <==>
      if Urgent(o) then risk <= 1 && guarded
      else if o.action == RequestContextExpansion || o.result == InsufficientContext then risk <= 2
      else if o.action == EscalateRisk || o.result == RiskEscalationRequested then risk <= 3
      else o.action == AutoReplan || o.result == AutoReplanResult || (o.action == RequestStrongSupervisor && risk <= 2)
  {
    BlockingFound(o.findings);
  }

  // ---- Submitting a replan ----

  /** A task as far as replanning goes: its risk and the repair cycles left in its contract. */
  datatype Task = Task(risk: Rank, repairs: int)

  datatype Submission = Downgrade | BudgetExhausted | Child(task: Task)

  /** _submit_replan */
  function SubmitReplan(task: Task, r: Replan): Submission {
    if r.target < task.risk then Downgrade
    else if r.consume && task.repairs <= 0 then BudgetExhausted
    else Child(Task(r.target, if r.consume then task.repairs - 1 else task.repairs))
  }

  /** What makes a node of a task ask for a replan: a model's output, or the risk of the actual diff. */
  datatype Trigger = ModelOutput(guarded: bool, output: Output) | CheckedDiff(actual: Rank)

  function ReplanFor(task: Task, t: Trigger): Option<Replan> {
    match t
    case ModelOutput(guarded, output) => StructuredControl(task.risk, guarded, output).replan
    case CheckedDiff(actual) => if actual > task.risk then Some(Replan(actual, ActualDiffEscalation, false)) else None
  }

  /** The child task a trigger creates, if any. */
  function Spawned(task: Task, t: Trigger): Option<Task> {
    var r := ReplanFor(task, t);
    if r.Some? && SubmitReplan(task, r.value).Child? then Some(SubmitReplan(task, r.value).task) else None
  }

  function Positive(n: int): nat { if n < 0 then 0 else n }

  function LevelsLeft(task: Task): nat { 4 - task.risk }

  function Measure(task: Task): nat { LevelsLeft(task) + Positive(task.repairs) }

  /** A submitted replan gets closer to the end exactly when it pays a repair cycle or raises the risk. */
  lemma SubmissionDecreasesIff(task: Task, r: Replan)
    requires SubmitReplan(task, r).Child?
    ensures var child := SubmitReplan(task, r).task;
      && LevelsLeft(child) <= LevelsLeft(task) && Positive(child.repairs) <= Positive(task.repairs)
      && (Measure(child) < Measure(task) <==> r.consume || r.target != task.risk)
  {
  }

  /** No trigger asks for a downgrade, and every replan a trigger asks for pays or raises. */
  lemma TriggersPayOrRaise(task: Task, t: Trigger)
    requires ReplanFor(task, t).Some?
    ensures ReplanFor(task, t).value.target >= task.risk
    ensures ReplanFor(task, t).value.consume || ReplanFor(task, t).value.target > task.risk
  {
  }

  /** A checked diff of a higher risk than its task spawns a task of just that risk, with all its repair cycles; any other diff
      spawns none. */
  lemma DiffRaises(task: Task, actual: Rank)
    ensures Spawned(task, CheckedDiff(actual)).Some? <==> actual > task.risk
    ensures actual > task.risk ==> Spawned(task, CheckedDiff(actual)) == Some(Task(actual, task.repairs))
  {
  }

  /** Each child is strictly smaller: fewer risk levels left, or as many and fewer repair cycles. */
  lemma ChildIsSmaller(task: Task, t: Trigger)
    requires Spawned(task, t).Some?
    ensures var child := Spawned(task, t).value;
      && LevelsLeft(child) <= LevelsLeft(task) && Positive(child.repairs) <= Positive(task.repairs)
      && (LevelsLeft(child) < LevelsLeft(task) || Positive(child.repairs) < Positive(task.repairs))
      && Measure(child) < Measure(task)
  {
    TriggersPayOrRaise(task, t);
    SubmissionDecreasesIff(task, ReplanFor(task, t).value);
  }

  // ---- Chains of replans ----

  predicate SpawnsAt(tasks: seq<Task>, triggers: seq<Trigger>, i: nat)
    requires i < |triggers| && |tasks| == |triggers| + 1
  {
    Spawned(tasks[i], triggers[i]) == Some(tasks[i + 1])
  }

  /** Child of child of child, one trigger each. */
  predicate Chain(tasks: seq<Task>, triggers: seq<Trigger>) {
    |tasks| == |triggers| + 1 && forall i :: 0 <= i < |triggers| ==> SpawnsAt(tasks, triggers, i)
  }

  lemma {:induction false} ChainShrinks(tasks: seq<Task>, triggers: seq<Trigger>, n: nat)
    requires Chain(tasks, triggers) && n <= |triggers|
    ensures Measure(tasks[n]) + n <= Measure(tasks[0])
  {
    if n > 0 {
      assert SpawnsAt(tasks, triggers, n - 1);
      ChildIsSmaller(tasks[n - 1], triggers[n - 1]);
      ChainShrinks(tasks, triggers, n - 1);
    }
  }

  /** From risk r with a budget of B repair cycles no chain of replans is longer than (4 - r) + B. */
  lemma ChainBounded(tasks: seq<Task>, triggers: seq<Trigger>)
    requires Chain(tasks, triggers)
    ensures |triggers| <= LevelsLeft(tasks[0]) + Positive(tasks[0].repairs)
  {
    ChainShrinks(tasks, triggers, |triggers|);
  }

  lemma ChainPrepend(task: Task, t: Trigger, tasks: seq<Task>, triggers: seq<Trigger>)
    requires Chain(tasks, triggers) && Spawned(task, t) == Some(tasks[0])
    ensures Chain([task] + tasks, [t] + triggers)
  {
    forall i | 0 <= i < |triggers| + 1 ensures SpawnsAt([task] + tasks, [t] + triggers, i) {
      if i > 0 {
        assert SpawnsAt(tasks, triggers, i - 1);
      }
    }
  }

  /** And that length is reached: first every repair cycle, then every level. */
  lemma {:induction false} ChainTight(task: Task) returns (tasks: seq<Task>, triggers: seq<Trigger>)
    ensures Chain(tasks, triggers) && tasks[0] == task && |triggers| == Measure(task)
    decreases Measure(task)
  {
    if Measure(task) == 0 {
      tasks, triggers := [task], [];
    } else {
      var t := ModelOutput(false, Output(if task.repairs > 0 then AutoReplan else EscalateRisk, OtherResult, [], None));
      ChildIsSmaller(task, t);
      tasks, triggers := ChainTight(Spawned(task, t).value);
      ChainPrepend(task, t, tasks, triggers);
      tasks, triggers := [task] + tasks, [t] + triggers;
    }
  }

  // ---- Phases ----

  datatype Phase = Ready | Planning | WorkerImplementing | MachineChecks | SupervisorReview | OtherPhase(name: string)

  /** Position in the order of phases, or -1. */
  function PhaseIndex(p: Phase): int {
    match p
    case Ready => 0 case Planning => 1 case WorkerImplementing => 2 case MachineChecks => 3 case SupervisorReview => 4
    case OtherPhase(_) => -1
  }

  datatype PhaseTask = PhaseTask(state: Phase, version: nat)

  function TargetForRole(role: string): Option<Phase> {
    if role in ["repository_indexer", "context_scout", "architecture_advisor", "plan_adjudicator", "test_designer"] then Some(Planning)
    else if role in ["worker", "repairer", "supervisor_takeover", "patch_integrator"] then Some(WorkerImplementing)
    else if role == "check_runner" then Some(MachineChecks)
    else if role in ["supervisor", "focused_reviewer", "security_reviewer", "data_reviewer", "closure", "release_advisor"]
      then Some(SupervisorReview)
    else None
  }

  /** There is nothing to do: the phase is at or past its target, or outside the order. */
  predicate Arrived(state: Phase, target: Phase) {
    PhaseIndex(state) < 0 || PhaseIndex(state) >= PhaseIndex(target)
  }

  function NextPhase(state: Phase, target: Phase): Phase {
    match state
    case Ready => if target == Planning then Planning else WorkerImplementing
    case Planning => WorkerImplementing
    case WorkerImplementing => MachineChecks
    case _ => SupervisorReview
  }

  /** What other actors do in between: each entry writes a state and counts the version up. */
  function Interfere(t: PhaseTask, writes: seq<Phase>): PhaseTask
    decreases |writes|
  {
    if writes == [] then t else Interfere(PhaseTask(writes[0], t.version + 1), writes[1..])
  }

  /** Other actors during turn i, depending on the state they find: before its read, and between read and write. */
  datatype Others = Others(before: (nat, Phase) -> seq<Phase>, during: (nat, Phase) -> seq<Phase>)

  const TURNS := 6

  datatype Synced = Synced(task: PhaseTask, ok: bool)

  function ReadAt(t: PhaseTask, o: Others, i: nat): PhaseTask { Interfere(t, o.before(i, t.state)) }

  /** The write of turn `i`; it raises, and changes nothing, when the version has moved. */
  function AfterTurn(read: PhaseTask, target: Phase, o: Others, i: nat): PhaseTask {
    var now := Interfere(read, o.during(i, read.state));
    if now.version == read.version then PhaseTask(NextPhase(read.state, target), now.version + 1) else now
  }

  /** The loop from turn `i` on. */
  function Sync(t: PhaseTask, target: Phase, o: Others, i: nat): Synced
    requires i <= TURNS
    decreases TURNS - i
  {
    if i == TURNS then Synced(t, false)
    else
      var read := ReadAt(t, o, i);
      if Arrived(read.state, target) then Synced(read, true) else Sync(AfterTurn(read, target, o, i), target, o, i + 1)
  }

  /** _sync_continuity_phase for a role. */
  function SyncForRole(t: PhaseTask, role: string, o: Others): Synced {
    var target := TargetForRole(role);
    if target.None? || Arrived(t.state, target.value) then Synced(t, true) else Sync(t, target.value, o, 0)
  }

  /** The stored phase of a task, shared with other actors. */
  class ContinuityTask {
    var task: PhaseTask

    constructor (task: PhaseTask)
      ensures this.task == task
    {
      this.task := task;
    }

    /** Time passes: `writes` is what the other actors do meanwhile. */
    method Elapse(writes: seq<Phase>)
      modifies this`task
      ensures task == Interfere(old(task), writes)
    {
      var i := 0;
      while i < |writes|
        invariant 0 <= i <= |writes|
        invariant Interfere(task, writes[i..]) == Interfere(old(task), writes)
      {
        assert writes[i..][1..] == writes[i + 1..];
        task, i := PhaseTask(writes[i], task.version + 1), i + 1;
      }
    }

    /** The store's versioned write; no value is its RuntimeError. */
    method Transition(expected: nat, next: Phase) returns (ok: bool)
      modifies this`task
      ensures ok <==> old(task).version == expected
      ensures task == if ok then PhaseTask(next, old(task).version + 1) else old(task)
    {
      ok := task.version == expected;
      if ok {
        task := PhaseTask(next, task.version + 1);
      }
    }

    /** _sync_continuity_phase, with what the other actors do made explicit. */
    method SyncContinuityPhase(role: string, o: Others) returns (ok: bool, state: Phase)
      modifies this`task
      ensures Synced(task, ok) == SyncForRole(old(task), role, o)
      ensures ok ==> state == task.state
    {
      state := task.state;
      var wanted := TargetForRole(role);
      if wanted.None? || Arrived(state, wanted.value) {
        return true, state;
      }
      var target := wanted.value;
      for i := 0 to TURNS
        invariant Sync(task, target, o, i) == Sync(old(task), target, o, 0)
      {
        Elapse(o.before(i, task.state));
        var read := task;
        if Arrived(read.state, target) {
          return true, read.state;
        }
        Elapse(o.during(i, task.state));
        var written := Transition(read.version, NextPhase(read.state, target));
      }
      return false, state;
    }
  }

  // ---- What the synchronisation guarantees ----

  /** Forward in the order of phases, or out of it for good. */
  predicate Forward(from: Phase, to: Phase) {
    PhaseIndex(to) < 0 || (PhaseIndex(from) >= 0 && PhaseIndex(from) <= PhaseIndex(to))
  }

  predicate ForwardWrites(from: Phase, writes: seq<Phase>)
    decreases |writes|
  {
    writes == [] || (Forward(from, writes[0]) && ForwardWrites(writes[0], writes[1..]))
  }

  /** The other actors only move the phase forward, whatever they find. */
  ghost predicate Forwarding(o: Others) {
    forall i, s :: ForwardWrites(s, o.before(i, s)) && ForwardWrites(s, o.during(i, s))
  }

  lemma {:induction false} InterferenceForward(t: PhaseTask, writes: seq<Phase>)
    requires ForwardWrites(t.state, writes)
    ensures Forward(t.state, Interfere(t, writes).state) && Interfere(t, writes).version == t.version + |writes|
    decreases |writes|
  {
    if writes != [] {
      InterferenceForward(PhaseTask(writes[0], t.version + 1), writes[1..]);
    }
  }

  /** How many of our own writes are still needed. */
  function Distance(state: Phase, target: Phase): nat {
    if Arrived(state, target) then 0
    else if state == Ready && target != Planning then PhaseIndex(target) - 1
    else PhaseIndex(target) - PhaseIndex(state)
  }

  lemma ForwardIsCloser(from: Phase, to: Phase, target: Phase)
    requires Forward(from, to)
    ensures Distance(to, target) <= Distance(from, target)
  {
  }

  lemma NextIsCloser(state: Phase, target: Phase)
    requires !Arrived(state, target) && !target.Ready?
    ensures Forward(state, NextPhase(state, target)) && Distance(NextPhase(state, target), target) + 1 == Distance(state, target)
  {
  }

  lemma TurnForward(t: PhaseTask, target: Phase, o: Others, i: nat)
    requires Forwarding(o) && !target.Ready?
    ensures var read := ReadAt(t, o, i);
      && Forward(t.state, read.state)
      && (!Arrived(read.state, target) ==>
            Forward(t.state, AfterTurn(read, target, o, i).state)
            && Distance(AfterTurn(read, target, o, i).state, target)
               <= Distance(t.state, target) - (if o.during(i, read.state) == [] then 1 else 0))
  {
    InterferenceForward(t, o.before(i, t.state));
    var read := ReadAt(t, o, i);
    InterferenceForward(read, o.during(i, read.state));
    ForwardIsCloser(t.state, read.state, target);
    if !Arrived(read.state, target) {
      NextIsCloser(read.state, target);
      ForwardIsCloser(read.state, Interfere(read, o.during(i, read.state)).state, target);
    }
  }

  /** The turns from `i` on in which the version moves between read and write. */
  function Conflicts(t: PhaseTask, target: Phase, o: Others, i: nat): nat
    requires i <= TURNS
    decreases TURNS - i
  {
    if i == TURNS then 0
    else
      var read := ReadAt(t, o, i);
      if Arrived(read.state, target) then 0
      else (if o.during(i, read.state) == [] then 0 else 1) + Conflicts(AfterTurn(read, target, o, i), target, o, i + 1)
  }

  /** The phase never moves backwards, however the other actors interleave. */
  lemma {:induction false} SyncNeverBackwards(t: PhaseTask, target: Phase, o: Others, i: nat)
    requires Forwarding(o) && !target.Ready? && i <= TURNS
    ensures Forward(t.state, Sync(t, target, o, i).task.state)
    decreases TURNS - i
  {
    if i < TURNS {
      var read := ReadAt(t, o, i);
      TurnForward(t, target, o, i);
      if !Arrived(read.state, target) {
        SyncNeverBackwards(AfterTurn(read, target, o, i), target, o, i + 1);
      }
    }
  }

  lemma {:induction false} SyncSucceeds(t: PhaseTask, target: Phase, o: Others, i: nat)
    requires Forwarding(o) && !target.Ready? && i <= TURNS
    requires Distance(t.state, target) + Conflicts(t, target, o, i) + i < TURNS
    ensures Sync(t, target, o, i).ok && Arrived(Sync(t, target, o, i).task.state, target)
    decreases TURNS - i
  {
    var read := ReadAt(t, o, i);
    TurnForward(t, target, o, i);
    if !Arrived(read.state, target) {
      SyncSucceeds(AfterTurn(read, target, o, i), target, o, i + 1);
    }
  }

  lemma RoleTargets(role: string)
    ensures TargetForRole(role).Some? ==> PhaseIndex(TargetForRole(role).value) > 0
  {
  }

  /** With at most two conflicts the six turns always suffice, and the phase ends at or past its target. */
  lemma {:induction false} SyncReachesTarget(t: PhaseTask, role: string, o: Others)
    requires Forwarding(o) && TargetForRole(role).Some?
    requires Conflicts(t, TargetForRole(role).value, o, 0) <= 2
    ensures var synced := SyncForRole(t, role, o);
      synced.ok && Arrived(synced.task.state, TargetForRole(role).value) && Forward(t.state, synced.task.state)
  {
    RoleTargets(role);
    var target := TargetForRole(role).value;
    if !Arrived(t.state, target) {
      SyncSucceeds(t, target, o, 0);
      SyncNeverBackwards(t, target, o, 0);
    }
  }

  /** Others that only count the version up. */
  ghost predicate Touching(o: Others) {
    forall i, s :: o.before(i, s) == [] && (o.during(i, s) == [] || o.during(i, s) == [s])
  }

  /** Against others that only touch the task, the loop succeeds exactly when distance and conflicts fit its turns. */
  lemma {:induction false} SyncExact(t: PhaseTask, target: Phase, o: Others, i: nat)
    requires Touching(o) && !target.Ready? && i <= TURNS
    ensures Sync(t, target, o, i).ok <==> Distance(t.state, target) + Conflicts(t, target, o, i) + i < TURNS
    decreases TURNS - i
  {
    if i < TURNS {
      TouchedTurn(t, target, o, i);
      if !Arrived(t.state, target) {
        SyncExact(AfterTurn(t, target, o, i), target, o, i + 1);
      }
    }
  }

  lemma TouchedTurn(t: PhaseTask, target: Phase, o: Others, i: nat)
    requires Touching(o) && !target.Ready?
    ensures ReadAt(t, o, i) == t
    ensures !Arrived(t.state, target) ==>
      Distance(AfterTurn(t, target, o, i).state, target) == Distance(t.state, target) - (if o.during(i, t.state) == [] then 1 else 0)
  {
    assert o.before(i, t.state) == [];
    if !Arrived(t.state, target) {
      NextIsCloser(t.state, target);
      if o.during(i, t.state) != [] {
        assert [t.state][1..] == [];
        assert Interfere(t, [t.state]) == Interfere(PhaseTask(t.state, t.version + 1), []) == PhaseTask(t.state, t.version + 1);
      }
    }
  }

  /** Two conflicts are the most it always survives: three are too many on the way from READY to SUPERVISOR_REVIEW. */
  lemma ThreeConflictsExhaust()
    ensures exists o :: Forwarding(o) && Conflicts(PhaseTask(Ready, 0), SupervisorReview, o, 0) == 3
                     && !Sync(PhaseTask(Ready, 0), SupervisorReview, o, 0).ok
  {
    var o := Others((i, s) => [], (i, s) => if i < 3 then [s] else []);
    var t := PhaseTask(Ready, 0);
    forall i: nat, s ensures ForwardWrites(s, o.before(i, s)) && ForwardWrites(s, o.during(i, s)) {
      assert [s][1..] == [];
    }
    SyncExact(t, SupervisorReview, o, 0);
    assert Interfere(t, [Ready]) == Interfere(PhaseTask(Ready, 1), [Ready][1..]) == PhaseTask(Ready, 1);
    assert AfterTurn(t, SupervisorReview, o, 0) == PhaseTask(Ready, 1);
  }

  // ---- Bounded context ----

  datatype Artifact = Artifact(id: string, node: string, digest: Digest, size: nat)

  function TotalSize(items: seq<Artifact>): nat {
    if items == [] then 0 else TotalSize(items[..|items| - 1]) + items[|items| - 1].size
  }

  /** _dependency_result_context: nothing is lost silently, and what is left out would still not fit at the end. */
  method DependencyResultContext(artifacts: seq<Artifact>, maximumItems: nat, maximumBytes: nat)
    returns (items: seq<Artifact>, omitted: seq<Artifact>, bytes: nat)
    ensures multiset(items) + multiset(omitted) == multiset(artifacts)
    ensures |items| <= maximumItems && bytes == TotalSize(items) <= maximumBytes
    ensures forall a :: a in omitted ==> |items| == maximumItems || bytes + a.size > maximumBytes
  {
    items, omitted, bytes := [], [], 0;
    for i := 0 to |artifacts|
      invariant multiset(items) + multiset(omitted) == multiset(artifacts[..i])
      invariant |items| <= maximumItems && bytes == TotalSize(items) <= maximumBytes
      invariant forall a :: a in omitted ==> |items| == maximumItems || bytes + a.size > maximumBytes
    {
      var a := artifacts[i];
      assert artifacts[..i + 1] == artifacts[..i] + [a];
      if |items| >= maximumItems || bytes + a.size > maximumBytes {
        omitted := omitted + [a];
      } else {
        assert (items + [a])[..|items|] == items;
        items, bytes := items + [a], bytes + a.size;
      }
    }
    assert artifacts[..|artifacts|] == artifacts;
  }
}
