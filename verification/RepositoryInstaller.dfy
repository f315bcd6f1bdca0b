/** The installer's loops over a repository on disk (installer.py). */
module RepositoryInstaller {
  import opened Basics
  import opened Candidates
  import opened Installer
  import A = AgentsBlock

  // ---- What the loop over the old records has done after some of them ----

  function StaleRemoved(k: Kit, r: Repo, d: Distribution, t: Tree, seen: set<string>): Tree {
    map q | q in t && !(q in seen && Stale(k, r, d, t, q)) :: t[q]
  }

  function ChangedKept(k: Kit, r: Repo, d: Distribution, t: Tree, seen: set<string>): map<string, Digest> {
    map q | q in seen && q in r.Managed() && !d.Wants(q) && q in t && !Stale(k, r, d, t, q) :: r.Managed()[q]
  }

  lemma StaleTurn(k: Kit, r: Repo, d: Distribution, t: Tree, seen: set<string>, q: string)
    requires q in r.Managed() && q !in seen
    ensures var before, after := StaleRemoved(k, r, d, t, seen), StaleRemoved(k, r, d, t, seen + {q});
      after == if Stale(k, r, d, t, q) then before - {q} else before
    ensures var before, after := ChangedKept(k, r, d, t, seen), ChangedKept(k, r, d, t, seen + {q});
      after == if !d.Wants(q) && q in t && !Stale(k, r, d, t, q) then before[q := r.Managed()[q]] else before
    ensures q in t <==> q in StaleRemoved(k, r, d, t, seen)
    ensures q in t ==> StaleRemoved(k, r, d, t, seen)[q] == t[q]
  {
  }

  lemma CleanedIs(k: Kit, r: Repo, d: Distribution, p: Progress)
    ensures Cleaned(k, r, d, p).tree == StaleRemoved(k, r, d, p.tree, r.Managed().Keys)
    ensures Cleaned(k, r, d, p).managed == p.managed + ChangedKept(k, r, d, p.tree, r.Managed().Keys)
    ensures Cleaned(k, r, d, p).acted <==> p.acted || exists q :: q in p.tree && Stale(k, r, d, p.tree, q)
  {
    assert (map q | q in r.Managed() && !d.Wants(q) && q in p.tree && !Stale(k, r, d, p.tree, q) :: r.Managed()[q])
        == ChangedKept(k, r, d, p.tree, r.Managed().Keys);
  }

  class Repository {
    var tree: Tree
    var manifest: Option<Manifest>

    function Contents(): Repo
      reads this
    {
      Repo(tree, manifest)
    }

    constructor (tree: Tree, manifest: Option<Manifest>)
      ensures Contents() == Repo(tree, manifest)
    {
      this.tree := tree;
      this.manifest := manifest;
    }

    method PlanItem(k: Kit, item: Item) returns (action: Action)
      requires k.Named()
      ensures action == ItemAction(k, Contents(), item)
    {
      var managed := Contents().Managed();
      if item.path !in tree {
        return Create;
      }
      if tree[item.path].Directory? {
        return Blocked;
      }
      var current := k.hash(tree[item.path].data);
      if current == k.hash(item.data) {
        return Noop;
      }
      if item.path in managed && managed[item.path] == current {
        return Update;
      }
      var candidate, same := CandidateRelative(k.hash, k.name, tree, item.path, item.data);
      return if same then ConflictNoop(candidate) else Conflict(candidate);
    }

    method PlanAgents(k: Kit, d: Distribution) returns (action: AgentsAction)
      requires k.Named()
      ensures action == AgentsActionOf(k, Contents(), d)
    {
      if k.agents in tree && tree[k.agents].Directory? {
        return AgentsBlocked;
      }
      var current := A.Extract(k.markers, AgentsText(k, tree));
      if current.Crash? {
        return AgentsCrash;
      }
      if current.NoBlock? {
        return Merge;
      }
      if k.hash(current.text) == k.hash(d.Block(k)) {
        return Current;
      }
      if Contents().BlockHash() == Some(k.hash(current.text)) {
        return UpdateBlock;
      }
      var candidate, same := CandidateRelative(k.hash, k.name, tree, k.agents, d.Block(k) + "\n");
      return if same then AgentsConflictNoop(candidate) else AgentsConflict(candidate);
    }

    /** plan */
    method Plan(k: Kit, d: Distribution) returns (actions: seq<Action>, agents: AgentsAction, blocked: bool)
      requires k.Named()
      ensures |actions| == |d.files| && forall i :: 0 <= i < |d.files| ==> actions[i] == ItemAction(k, Contents(), d.files[i])
      ensures agents == AgentsActionOf(k, Contents(), d)
      ensures blocked <==> AnyBlocked(k, Contents(), d)
    {
      actions, blocked := [], false;
      for i := 0 to |d.files|
        invariant |actions| == i && forall j :: 0 <= j < i ==> actions[j] == ItemAction(k, Contents(), d.files[j])
        invariant blocked <==> exists j :: 0 <= j < i && actions[j].Blocked?
      {
        var action := PlanItem(k, d.files[i]);
        actions := actions + [action];
        blocked := blocked || action.Blocked?;
      }
      agents := PlanAgents(k, d);
      blocked := blocked || agents.AgentsBlocked?;
    }

    /** The loop over the desired files. */
    method WriteFiles(k: Kit, d: Distribution, actions: seq<Action>) returns (managed: map<string, Digest>, acted: bool)
      requires |actions| == |d.files|
      requires forall i :: 0 <= i < |d.files| ==> actions[i] == ItemAction(k, Contents(), d.files[i])
      modifies this`tree
      ensures Progress(tree, managed, acted) == Written(k, old(Contents()), d, |d.files|)
    {
      ghost var before := Contents();
      var recorded := Contents().Managed();
      managed, acted := map[], false;
      for i := 0 to |d.files|
        invariant manifest == before.manifest
        invariant Progress(tree, managed, acted) == Written(k, before, d, i)
      {
        var item := d.files[i];
        match actions[i] {
          case Create =>
            tree, acted := tree[item.path := File(item.data)], true;
            managed := managed[item.path := k.hash(item.data)];
          case Update =>
            tree, acted := tree[item.path := File(item.data)], true;
            managed := managed[item.path := k.hash(item.data)];
          case Noop =>
            managed := managed[item.path := k.hash(item.data)];
          case Conflict(candidate) =>
            tree, acted := tree[candidate := File(item.data)], true;
            if item.path in recorded { managed := managed[item.path := recorded[item.path]]; }
          case ConflictNoop(_) =>
            if item.path in recorded { managed := managed[item.path := recorded[item.path]]; }
          case Blocked =>
        }
      }
    }

    /** The loop over the previously managed files. */
    method RemoveStale(k: Kit, ghost r: Repo, d: Distribution, recorded: map<string, Digest>) returns (kept: map<string, Digest>, removed: bool)
      requires recorded == r.Managed()
      modifies this`tree
      ensures tree == StaleRemoved(k, r, d, old(tree), recorded.Keys) && kept == ChangedKept(k, r, d, old(tree), recorded.Keys)
      ensures removed <==> exists q :: q in old(tree) && Stale(k, r, d, old(tree), q)
    {
      ghost var before := tree;
      kept, removed := map[], false;
      var remaining := recorded.Keys;
      ghost var seen: set<string> := {};
      while remaining != {}
        invariant seen + remaining == recorded.Keys && seen !! remaining
        invariant tree == StaleRemoved(k, r, d, before, seen) && kept == ChangedKept(k, r, d, before, seen)
        invariant removed <==> exists q :: q in before && q in seen && Stale(k, r, d, before, q)
        decreases remaining
      {
        var q :| q in remaining;
        StaleTurn(k, r, d, before, seen, q);
        remaining, seen := remaining - {q}, seen + {q};
        if !d.Wants(q) && q in tree {
          if tree[q].File? && k.hash(tree[q].data) == recorded[q] {
            tree, removed := tree - {q}, true;
          } else {
            kept := kept[q := recorded[q]];
          }
        }
      }
      assert seen == recorded.Keys;
    }

    method WriteAgents(k: Kit, d: Distribution, agents: AgentsAction) returns (acted: bool)
      requires A.Parses(k.markers, AgentsText(k, tree))
      modifies this`tree
      ensures forall managed, before :: ApplyAgents(k, Progress(old(tree), managed, before), d, agents) == Progress(tree, managed, before || acted)
    {
      if agents.Merge? || agents.UpdateBlock? {
        tree := tree[k.agents := File(A.Replace(k.markers, AgentsText(k, tree), d.Block(k)))];
        return true;
      }
      if agents.AgentsConflict? {
        tree := tree[agents.candidate := File(d.Block(k) + "\n")];
        return true;
      }
      return false;
    }

    /** Everything apply_install does once its plan is neither blocked nor raised. */
    method ApplyPlan(k: Kit, d: Distribution, actions: seq<Action>, agents: AgentsAction)
      returns (managed: map<string, Digest>, acted: bool)
      requires Plannable(k, Contents(), d) && agents == AgentsActionOf(k, Contents(), d) && !agents.AgentsCrash?
      requires |actions| == |d.files|
      requires forall i :: 0 <= i < |d.files| ==> actions[i] == ItemAction(k, Contents(), d.files[i])
      modifies this`tree
      ensures A.Parses(k.markers, AgentsText(k, FilesApplied(k, old(Contents()), d).tree))
      ensures Progress(tree, managed, acted) == ApplyAgents(k, FilesApplied(k, old(Contents()), d), d, agents)
    {
      ghost var r := Contents();
      var recorded := Contents().Managed();
      AgentsUntouched(k, r, d, |d.files|);
      var written, wrote := WriteFiles(k, d, actions);
      ghost var p := Progress(tree, written, wrote);
      var kept, removed := RemoveStale(k, r, d, recorded);
      managed := written + kept;
      CleanedIs(k, r, d, p);
      assert Progress(tree, managed, wrote || removed) == FilesApplied(k, r, d);
      var merged := WriteAgents(k, d, agents);
      acted := wrote || removed || merged;
    }

    /** apply_install */
    method ApplyInstall(k: Kit, d: Distribution) returns (result: InstallResult)
      requires Plannable(k, Contents(), d)
      modifies this
      ensures (Contents(), result) == Install(k, old(Contents()), d)
    {
      var actions, agents, blocked := Plan(k, d);
      if agents.AgentsCrash? {
        return Raised;
      }
      if blocked {
        return FailClosed;
      }
      var managed, acted := ApplyPlan(k, d, actions, agents);
      if !acted && manifest.Some? {
        return Applied(true);
      }
      manifest := Some(Manifest(managed, Some(k.hash(d.Block(k)))));
      return Applied(false);
    }

    /** The loop over the recorded files: those still as recorded are deleted, the others stay recorded. */
    method RemoveFiles(k: Kit) returns (kept: map<string, Digest>)
      modifies `tree
      ensures tree == FilesRemoved(k, old(Contents())) && kept == Remaining(k, old(Contents()))
    {
      ghost var r := Contents();
      var recorded := Contents().Managed();
      kept := map[];
      var remaining := recorded.Keys;
      while remaining != {}
        invariant remaining <= recorded.Keys
        invariant tree == map q | q in r.tree && (q in remaining || !Removable(k, r, q)) :: r.tree[q]
        invariant kept == map q | q in recorded && q !in remaining && q in r.tree && !Removable(k, r, q) :: recorded[q]
        decreases remaining
      {
        var q :| q in remaining;
        remaining := remaining - {q};
        if q in tree {
          if tree[q].File? && k.hash(tree[q].data) == recorded[q] {
            tree := tree - {q};
          } else {
            kept := kept[q := recorded[q]];
          }
        }
      }
    }

    /** The step on AGENTS.md, once the files are gone. */
    method RemoveBlock(k: Kit, block: Option<Digest>) returns (foreign: bool)
      requires !FoundBlock(k, tree).Crash? && block == Contents().BlockHash()
      modifies `tree
      ensures tree == AgentsRemoved(k, old(Contents()), old(tree)) && foreign == ForeignBlock(k, old(Contents()), old(tree))
    {
      foreign := false;
      var found := FoundBlock(k, tree);
      if found.Block? {
        if block == Some(k.hash(found.text)) {
          tree := WithAgents(k, tree, A.Remove(k.markers, tree[k.agents].data));
        } else {
          foreign := true;
        }
      }
    }

    /** uninstall */
    method UninstallAll(k: Kit) returns (result: InstallResult)
      modifies this
      ensures (Contents(), result) == Uninstall(k, old(Contents()))
    {
      var block := Contents().BlockHash();
      var kept := RemoveFiles(k);
      if FoundBlock(k, tree).Crash? {
        return Raised;
      }
      var foreign := RemoveBlock(k, block);
      if kept != map[] || foreign {
        manifest := Some(Manifest(kept, block));
        return Applied(false);
      }
      manifest := None;
      return Applied(true);
    }
  }
}
