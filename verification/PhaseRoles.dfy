/** Which phase each role of the mesh brings a task to, and by which writes (mesh_runtime.py). */
module PhaseRoles {
  import opened Basics
  import opened MeshRuntime

  const PHASES: seq<Phase> := [Ready, Planning, WorkerImplementing, MachineChecks, SupervisorReview]

  predicate PlanningRole(role: string) {
    role == "repository_indexer" || role == "context_scout" || role == "architecture_advisor" || role == "plan_adjudicator"
    || role == "test_designer"
  }

  predicate ImplementingRole(role: string) {
    role == "worker" || role == "repairer" || role == "supervisor_takeover" || role == "patch_integrator"
  }

  predicate ReviewingRole(role: string) {
    role == "supervisor" || role == "focused_reviewer" || role == "security_reviewer" || role == "data_reviewer"
    || role == "closure" || role == "release_advisor"
  }

  /** The role brings a task to the n-th phase; 0 for a role that moves no task. */
  predicate Brings(role: string, n: nat) {
    && n < |PHASES|
    && (PlanningRole(role) <==> n == 1) && (ImplementingRole(role) <==> n == 2)
    && (role == "check_runner" <==> n == 3) && (ReviewingRole(role) <==> n == 4)
  }

  lemma GoalOfRole(role: string, n: nat)
    requires Brings(role, n)
    ensures TargetForRole(role) == if n == 0 then None else Some(PHASES[n])
  {
  }

  /** The phase is the n-th or a later one, or one the runtime does not know. */
  predicate AtOrPast(p: Phase, n: nat)
    requires n < |PHASES|
  {
    p in PHASES[n..] || p !in PHASES
  }

  lemma PhasePlaces(p: Phase, n: nat)
    requires n < |PHASES|
    ensures PhaseIndex(PHASES[n]) == n && (Arrived(p, PHASES[n]) <==> AtOrPast(p, n))
    ensures p in PHASES ==> 0 <= PhaseIndex(p) < |PHASES| && PHASES[PhaseIndex(p)] == p
    ensures p !in PHASES ==> p.OtherPhase?
  {
    if p.OtherPhase? {
      assert p !in PHASES;
    } else {
      assert PHASES[PhaseIndex(p)] == p;
      if PhaseIndex(p) >= n {
        assert PHASES[n..][PhaseIndex(p) - n] == p;
      } else {
        assert forall i :: n <= i < |PHASES| ==> PHASES[i] != p;
      }
    }
  }

  /** Each role brings its task at least to its phase, however other actors move it forward meanwhile, as long as they
      disturb at most two of its turns. */
  lemma RoleReachesPhase(t: PhaseTask, role: string, n: nat, o: Others)
    requires Brings(role, n) && n > 0 && Forwarding(o) && Conflicts(t, PHASES[n], o, 0) <= 2
    ensures SyncForRole(t, role, o).ok && AtOrPast(SyncForRole(t, role, o).task.state, n)
  {
    GoalOfRole(role, n);
    PhasePlaces(t.state, n);
    SyncReachesTarget(t, role, o);
    PhasePlaces(SyncForRole(t, role, o).task.state, n);
  }

  // ---- Alone ----

  /** Nobody else writes. */
  ghost predicate Alone(o: Others) { forall i, p :: o.before(i, p) == [] && o.during(i, p) == [] }

  /** The writes from the m-th phase to the n-th: one for each phase on the way, and only READY passes PLANNING by. */
  function Writes(m: nat, n: nat): nat { if m >= n then 0 else if m == 0 && n > 1 then n - 1 else n - m }

  lemma {:induction false} AloneSyncs(t: PhaseTask, m: nat, n: nat, o: Others, i: nat)
    requires Alone(o) && 0 < n < |PHASES| && m < |PHASES| && t.state == PHASES[m] && i + Writes(m, n) < TURNS
    ensures Sync(t, PHASES[n], o, i) == Synced(PhaseTask(PHASES[if m < n then n else m], t.version + Writes(m, n)), true)
    decreases TURNS - i
  {
    assert o.before(i, t.state) == [] && o.during(i, t.state) == [];
    PhasePlaces(t.state, n);
    if m < n {
      var next := if m == 0 && n > 1 then 2 else m + 1;
      assert AfterTurn(t, PHASES[n], o, i) == PhaseTask(PHASES[next], t.version + 1);
      AloneSyncs(PhaseTask(PHASES[next], t.version + 1), next, n, o, i + 1);
    }
  }

  /** With nobody else writing, a role leaves its task at exactly the later of where it was and the phase of the role, by
      no more writes than there are phases on the way. */
  lemma RoleEndsAtPhase(t: PhaseTask, role: string, m: nat, n: nat, o: Others)
    requires Brings(role, n) && Alone(o) && m < |PHASES| && t.state == PHASES[m]
    ensures SyncForRole(t, role, o) == Synced(PhaseTask(PHASES[if m < n then n else m], t.version + Writes(m, n)), true)
  {
    GoalOfRole(role, n);
    PhasePlaces(t.state, n);
    PhasePlaces(t.state, m);
    if m < n {
      AloneSyncs(t, m, n, o, 0);
    }
  }

  /** A role without a phase leaves every task as it is, whoever else writes, and so does every role a task that is in
      none of the phases. */
  lemma RoleLeavesTask(t: PhaseTask, role: string, n: nat, o: Others)
    requires Brings(role, n) && (n == 0 || t.state !in PHASES)
    ensures SyncForRole(t, role, o) == Synced(t, true)
  {
    GoalOfRole(role, n);
    PhasePlaces(t.state, n);
  }

  lemma EveryRoleBrings(role: string) returns (n: nat)
    ensures Brings(role, n)
  {
    n := if PlanningRole(role) then 1 else if ImplementingRole(role) then 2 else if role == "check_runner" then 3
         else if ReviewingRole(role) then 4 else 0;
  }
}
