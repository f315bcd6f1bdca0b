/** What installing, updating and uninstalling never do to a user's files, over any run with edits in between. */
module InstallerSafety {
  import opened Basics
  import opened Candidates
  import opened Installer
  import opened Runs
  import A = AgentsBlock

  /** The repository, and everything any release has ever wanted to put there. */
  datatype World = World(repo: Repo, shipped: set<Item>, rules: set<string>)

  /** Users write and delete what they like; only the manifest they leave alone or delete as a whole. */
  datatype Step = Edit(path: string, node: Option<Node>) | ForgetManifest | InstallStep(d: Distribution) | UninstallStep

  ghost function Act(k: Kit, w: World, step: Step): World {
    match step
    case Edit(p, Some(node)) => w.(repo := w.repo.(tree := w.repo.tree[p := node]))
    case Edit(p, None) => w.(repo := w.repo.(tree := w.repo.tree - {p}))
    case ForgetManifest => w.(repo := w.repo.(manifest := None))
    case InstallStep(d) =>
      World(if Plannable(k, w.repo, d) then Install(k, w.repo, d).0 else w.repo, w.shipped + SetOf(d.files), w.rules + {d.rules})
    case UninstallStep => w.(repo := Uninstall(k, w.repo).0)
  }

  // ---- The manifest only records what was shipped ----

  predicate RecordedItem(k: Kit, w: World, path: string) {
    path in w.repo.Managed() && exists item :: item in w.shipped && item.path == path && k.hash(item.data) == w.repo.Managed()[path]
  }

  predicate RecordedBlock(k: Kit, w: World) {
    w.repo.BlockHash().Some? ==> exists rules :: rules in w.rules && Some(k.hash(A.BlockOf(k.markers, rules))) == w.repo.BlockHash()
  }

  ghost predicate Honest(k: Kit, w: World) {
    && k.agents !in w.repo.Managed()
    && (forall p :: p in w.repo.Managed() ==> RecordedItem(k, w, p))
    && RecordedBlock(k, w)
  }

  lemma ItemRecords(k: Kit, r: Repo, p: Progress, item: Item, action: Action, path: string)
    requires path in ApplyItem(k, r, p, item, action).managed
    ensures var digest := ApplyItem(k, r, p, item, action).managed[path];
      || (path in p.managed && digest == p.managed[path])
      || (path == item.path && (digest == k.hash(item.data) || (path in r.Managed() && digest == r.Managed()[path])))
  {
  }

  /** What is recorded after the file loop was distributed now, or recorded before. */
  lemma {:induction false} WrittenRecords(k: Kit, r: Repo, d: Distribution, n: nat, path: string)
    requires n <= |d.files| && path in Written(k, r, d, n).managed
    ensures d.Wants(path)
    ensures (path in r.Managed() && Written(k, r, d, n).managed[path] == r.Managed()[path])
         || exists i :: 0 <= i < n && d.files[i].path == path && k.hash(d.files[i].data) == Written(k, r, d, n).managed[path]
  {
    var before := Written(k, r, d, n - 1);
    ItemRecords(k, r, before, d.files[n - 1], ItemAction(k, r, d.files[n - 1]), path);
    if path in before.managed && Written(k, r, d, n).managed[path] == before.managed[path] {
      WrittenRecords(k, r, d, n - 1, path);
    }
  }

  lemma AppliedRecords(k: Kit, r: Repo, d: Distribution, path: string)
    requires path in FilesApplied(k, r, d).managed
    ensures var digest := FilesApplied(k, r, d).managed[path];
      (path in r.Managed() && digest == r.Managed()[path]) || exists item :: item in d.files && item.path == path && k.hash(item.data) == digest
  {
    var p := Written(k, r, d, |d.files|);
    if path in p.managed && FilesApplied(k, r, d).managed[path] == p.managed[path] {
      WrittenRecords(k, r, d, |d.files|, path);
    }
  }

  lemma AgentsKeepRecords(k: Kit, p: Progress, d: Distribution, action: AgentsAction)
    requires A.Parses(k.markers, AgentsText(k, p.tree))
    ensures ApplyAgents(k, p, d, action).managed == p.managed
  {
  }

  lemma InstallHonest(k: Kit, w: World, d: Distribution)
    requires Honest(k, w) && d.Proper(k)
    ensures Honest(k, Act(k, w, InstallStep(d)))
  {
    var after := Act(k, w, InstallStep(d));
    if after.repo.manifest != w.repo.manifest {
      AgentsUntouched(k, w.repo, d, |d.files|);
      AgentsKeepRecords(k, FilesApplied(k, w.repo, d), d, AgentsActionOf(k, w.repo, d));
      assert after.repo.Managed() == FilesApplied(k, w.repo, d).managed;
      forall p | p in after.repo.Managed() ensures RecordedItem(k, after, p) && p != k.agents {
        AppliedRecords(k, w.repo, d, p);
        if p in w.repo.Managed() && after.repo.Managed()[p] == w.repo.Managed()[p] {
          assert RecordedItem(k, w, p);
        }
      }
      assert d.rules in after.rules;
    } else {
      forall p | p in after.repo.Managed() ensures RecordedItem(k, after, p) {
        assert RecordedItem(k, w, p);
      }
    }
  }

  ghost predicate ProperStep(k: Kit, step: Step) { step.InstallStep? ==> step.d.Proper(k) }

  lemma ActHonest(k: Kit, w: World, step: Step)
    requires Honest(k, w) && ProperStep(k, step)
    ensures Honest(k, Act(k, w, step))
  {
    if step.InstallStep? {
      InstallHonest(k, w, step.d);
    } else {
      var after := Act(k, w, step);
      forall p | p in after.repo.Managed() ensures RecordedItem(k, after, p) {
        assert RecordedItem(k, w, p);
      }
    }
  }

  ghost function Acting(k: Kit): (World, Step) -> World { (w, step) => Act(k, w, step) }

  const FRESH := World(Repo(map[], None), {}, {})

  /** The worlds any run of edits, installs and uninstalls of any releases leads to. */
  ghost predicate Reached(k: Kit, w: World) {
    exists steps :: All(s => ProperStep(k, s), steps) && w == RunOf(Acting(k), FRESH, steps)
  }

  /** In every run the manifest records only hashes of bytes that were shipped for that very path. */
  lemma ManifestIsHonest(k: Kit, w: World)
    requires Reached(k, w)
    ensures Honest(k, w)
  {
    var steps :| All(s => ProperStep(k, s), steps) && w == RunOf(Acting(k), FRESH, steps);
    forall w: World, s: Step | Honest(k, w) && ProperStep(k, s) ensures Honest(k, Act(k, w, s)) {
      ActHonest(k, w, s);
    }
    InvariantAlong(Acting(k), s => ProperStep(k, s), w => Honest(k, w), FRESH, steps);
  }

  // ---- Only shipped bytes are overwritten or deleted ----

  lemma TargetsExisting(k: Kit, r: Repo, item: Item, path: string)
    requires Targets(k, r, item, path) && path in r.tree
    ensures item.path == path && ItemAction(k, r, item).Update?
  {
  }

  /** Before AGENTS.md is looked at, an existing file has changed only where it is updated or stale. */
  lemma FilesChange(k: Kit, r: Repo, d: Distribution, path: string)
    requires path in r.tree
    ensures SameAt(r.tree, FilesApplied(k, r, d).tree, path) || Removable(k, r, path)
  {
    if i :| 0 <= i < |d.files| && Targets(k, r, d.files[i], path) {
      TargetsExisting(k, r, d.files[i], path);
    } else {
      UntargetedUnchanged(k, r, d, |d.files|, path);
      CleaningChanges(k, r, d, Written(k, r, d, |d.files|), path);
    }
  }

  lemma CleaningChanges(k: Kit, r: Repo, d: Distribution, p: Progress, path: string)
    requires path in r.tree && SameAt(r.tree, p.tree, path)
    ensures SameAt(r.tree, Cleaned(k, r, d, p).tree, path) || Removable(k, r, path)
  {
  }

  lemma FinishedTree(k: Kit, r: Repo, d: Distribution)
    requires Applies(k, r, d)
    ensures A.Parses(k.markers, AgentsText(k, FilesApplied(k, r, d).tree))
    ensures Finished(k, r, d).tree == ApplyAgents(k, FilesApplied(k, r, d), d, AgentsActionOf(k, r, d)).tree
  {
    AgentsUntouched(k, r, d, |d.files|);
  }

  lemma InstalledTree(k: Kit, r: Repo, d: Distribution)
    requires Plannable(k, r, d)
    ensures Install(k, r, d).1.Applied? <==> Applies(k, r, d)
    ensures Install(k, r, d).0.tree == if Applies(k, r, d) then Finished(k, r, d).tree else r.tree
  {
  }

  lemma FinishedChanges(k: Kit, r: Repo, d: Distribution, path: string)
    requires Applies(k, r, d) && path in r.tree && path != k.agents
    ensures SameAt(r.tree, Finished(k, r, d).tree, path) || Removable(k, r, path)
  {
    FinishedTree(k, r, d);
    FilesChange(k, r, d, path);
    AgentsChange(k, r, d, FilesApplied(k, r, d), path);
  }

  /** An existing file changes only where it still is as recorded. */
  lemma InstallChanges(k: Kit, r: Repo, d: Distribution, path: string)
    requires Plannable(k, r, d) && path in r.tree && path != k.agents
    ensures SameAt(r.tree, Install(k, r, d).0.tree, path) || Removable(k, r, path)
  {
    InstalledTree(k, r, d);
    if Applies(k, r, d) {
      FinishedChanges(k, r, d, path);
    }
  }

  lemma ConflictIsFree(k: Kit, r: Repo, d: Distribution)
    ensures AgentsActionOf(k, r, d).AgentsConflict? ==> AgentsActionOf(k, r, d).candidate !in r.tree
  {
  }

  lemma AppliedElsewhere(k: Kit, p: Progress, d: Distribution, action: AgentsAction, path: string)
    requires A.Parses(k.markers, AgentsText(k, p.tree)) && path != k.agents
    requires action.AgentsConflict? ==> action.candidate != path
    ensures SameAt(p.tree, ApplyAgents(k, p, d, action).tree, path)
  {
  }

  /** The last step writes AGENTS.md, or a path that was free when the installation was planned. */
  lemma AgentsChange(k: Kit, r: Repo, d: Distribution, p: Progress, path: string)
    requires A.Parses(k.markers, AgentsText(k, p.tree)) && path in r.tree && path != k.agents
    ensures SameAt(p.tree, ApplyAgents(k, p, d, AgentsActionOf(k, r, d)).tree, path)
  {
    ConflictIsFree(k, r, d);
    AppliedElsewhere(k, p, d, AgentsActionOf(k, r, d), path);
  }

  lemma WithAgentsElsewhere(k: Kit, tree: Tree, text: string, path: string)
    requires path != k.agents
    ensures SameAt(tree, WithAgents(k, tree, text), path)
  {
  }

  lemma AgentsRemovedElsewhere(k: Kit, r: Repo, tree: Tree, path: string)
    requires path != k.agents && !FoundBlock(k, tree).Crash?
    ensures SameAt(tree, AgentsRemoved(k, r, tree), path)
  {
    if AgentsRemoved(k, r, tree) != tree {
      WithAgentsElsewhere(k, tree, A.Remove(k.markers, tree[k.agents].data), path);
    }
  }

  /** Uninstalling changes exactly the files that still are as recorded. */
  lemma UninstallChanges(k: Kit, r: Repo, path: string)
    requires path in r.tree && path != k.agents
    ensures SameAt(r.tree, Uninstall(k, r).0.tree, path) <==> !Removable(k, r, path)
  {
    var tree := FilesRemoved(k, r);
    assert SameAt(r.tree, tree, path) <==> !Removable(k, r, path);
    if !FoundBlock(k, tree).Crash? {
      AgentsRemovedElsewhere(k, r, tree, path);
    }
  }

  /** The bytes at a path are bytes some release shipped for it. */
  predicate ShippedAt(w: World, path: string) {
    path in w.repo.tree && w.repo.tree[path].File? && Item(path, w.repo.tree[path].data) in w.shipped
  }

  lemma RemovableIsShipped(k: Kit, w: World, path: string)
    requires Injective(k.hash) && Honest(k, w) && Removable(k, w.repo, path)
    ensures ShippedAt(w, path)
  {
  }

  /** However users and releases interleave: whatever an install, update or uninstall overwrites or deletes
      outside AGENTS.md, a release had shipped for that path before. */
  lemma UserBytesSurvive(k: Kit, w: World, step: Step, path: string)
    requires Injective(k.hash) && Reached(k, w) && ProperStep(k, step) && !step.Edit?
    requires path in w.repo.tree && path != k.agents
    ensures SameAt(w.repo.tree, Act(k, w, step).repo.tree, path) || ShippedAt(w, path)
  {
    ManifestIsHonest(k, w);
    if Removable(k, w.repo, path) {
      RemovableIsShipped(k, w, path);
    } else if step.InstallStep? {
      InstallChanges(k, w.repo, step.d, path);
    } else {
      UninstallChanges(k, w.repo, path);
    }
  }

  /** A plan that is blocked, or that a malformed AGENTS.md stops, changes nothing at all. */
  lemma BlockedChangesNothing(k: Kit, r: Repo, d: Distribution)
    requires Plannable(k, r, d)
    ensures Install(k, r, d).1.Applied? <==> !AnyBlocked(k, r, d) && !AgentsActionOf(k, r, d).AgentsCrash?
    ensures !Install(k, r, d).1.Applied? ==> Install(k, r, d).0 == r
  {
  }

  /** The markers of AGENTS.md are the wrong way round. */
  predicate Malformed(k: Kit, text: string) {
    A.Contains(text, k.markers.begin) && A.Contains(text, k.markers.end) && !A.Contains(A.Tail(text, k.markers.begin), k.markers.end)
  }

  predicate InTheWay(r: Repo, path: string) { path in r.tree && r.tree[path].Directory? }

  /** What an installation answers: it raises on a malformed AGENTS.md, fails closed where something else than a file stands at
      AGENTS.md or at a wanted path, and otherwise applies. */
  lemma InstallAnswers(k: Kit, r: Repo, d: Distribution)
    requires Plannable(k, r, d)
    ensures Install(k, r, d).1 == Raised <==> Malformed(k, AgentsText(k, r.tree))
    ensures Install(k, r, d).1 == FailClosed <==>
      !Malformed(k, AgentsText(k, r.tree)) && (InTheWay(r, k.agents) || exists i :: 0 <= i < |d.files| && InTheWay(r, d.files[i].path))
  {
    InstalledTree(k, r, d);
    BlockedIff(k, r, d);
    CrashIff(k, r, d);
  }

  lemma BlockedIff(k: Kit, r: Repo, d: Distribution)
    ensures AnyBlocked(k, r, d) <==> InTheWay(r, k.agents) || exists i :: 0 <= i < |d.files| && InTheWay(r, d.files[i].path)
  {
    forall i | 0 <= i < |d.files| ensures ItemAction(k, r, d.files[i]).Blocked? <==> InTheWay(r, d.files[i].path) {}
  }

  lemma CrashIff(k: Kit, r: Repo, d: Distribution)
    ensures AgentsActionOf(k, r, d).AgentsCrash? <==> Malformed(k, AgentsText(k, r.tree))
  {
  }

  /** The recorded files that are there and changed. */
  predicate ChangedSince(k: Kit, r: Repo, path: string) {
    path in r.Managed() && path in r.tree && (r.tree[path].Directory? || k.hash(r.tree[path].data) != r.Managed()[path])
  }

  /** AGENTS.md holds a block that is not the recorded one. */
  predicate OthersBlock(k: Kit, r: Repo, text: string) {
    A.Extract(k.markers, text).Block? && r.BlockHash() != Some(k.hash(A.Extract(k.markers, text).text))
  }

  /** What an uninstall leaves of the records: a changed file stays recorded, and while one does or somebody else's block is
      in AGENTS.md, so does the block hash; a malformed AGENTS.md raises and leaves all records; and otherwise nothing is left. */
  lemma UninstallRecords(k: Kit, r: Repo)
    requires k.markers.Usable() && k.agents !in r.Managed()
    ensures var (after, result) := Uninstall(k, r); var text := AgentsText(k, r.tree);
      if Malformed(k, text) then result == Raised && after.manifest == r.manifest
      else if OthersBlock(k, r, text) || exists q :: ChangedSince(k, r, q) then
        && result == Applied(false) && after.manifest.Some? && after.BlockHash() == r.BlockHash()
        && (forall q :: q in after.Managed() <==> ChangedSince(k, r, q))
        && (forall q :: q in after.Managed() ==> after.Managed()[q] == r.Managed()[q])
      else result == Applied(true) && after.manifest == None
  {
    RemainingAre(k, r);
    FoundIs(k, r);
  }

  lemma RemainingAre(k: Kit, r: Repo)
    ensures forall q :: q in Remaining(k, r) <==> ChangedSince(k, r, q)
    ensures forall q :: q in Remaining(k, r) ==> Remaining(k, r)[q] == r.Managed()[q]
    ensures Remaining(k, r) != map[] <==> exists q :: ChangedSince(k, r, q)
  {
    forall q ensures q in Remaining(k, r) <==> ChangedSince(k, r, q) {}
    if Remaining(k, r) != map[] {
      var q :| q in Remaining(k, r);
    }
  }

  lemma FoundIs(k: Kit, r: Repo)
    requires k.markers.Usable() && k.agents !in r.Managed()
    ensures FoundBlock(k, FilesRemoved(k, r)).Crash? <==> Malformed(k, AgentsText(k, r.tree))
    ensures ForeignBlock(k, r, FilesRemoved(k, r)) <==> OthersBlock(k, r, AgentsText(k, r.tree))
  {
    AgentsRemain(k, r);
    assert !A.Contains("", k.markers.begin);
  }

  // ---- AGENTS.md ----

  /** The text around the block is kept up to white space at the seams, and an old block was a shipped one. */
  predicate AroundKept(k: Kit, w: World, old_: string, new_: string) {
    if !A.HasMarkers(k.markers, old_) then A.RStrip(old_) <= new_
    else
      && A.WellFormed(k.markers, old_) && A.WellFormed(k.markers, new_)
      && A.RStrip(A.Head(new_, k.markers.begin)) == A.RStrip(A.Head(old_, k.markers.begin))
      && A.AfterBlock(k.markers, new_) == A.AfterBlock(k.markers, old_)
      && exists rules :: rules in w.rules && A.Extract(k.markers, old_) == A.Block(A.BlockOf(k.markers, rules))
  }

  lemma RecordedBlockIsShipped(k: Kit, w: World, text: string)
    requires Injective(k.hash) && Honest(k, w) && w.repo.BlockHash() == Some(k.hash(text))
    ensures exists rules :: rules in w.rules && text == A.BlockOf(k.markers, rules)
  {
  }

  /** The installation rewrites AGENTS.md. */
  ghost predicate Rewrites(k: Kit, r: Repo, d: Distribution) {
    AgentsActionOf(k, r, d).Merge? || AgentsActionOf(k, r, d).UpdateBlock?
  }

  lemma ConflictElsewhere(k: Kit, r: Repo, d: Distribution)
    requires k.Named() && AgentsActionOf(k, r, d).AgentsConflict?
    ensures AgentsActionOf(k, r, d).candidate != k.agents
  {
  }

  lemma AppliedAgentsText(k: Kit, d: Distribution, p: Progress, action: AgentsAction)
    requires A.Parses(k.markers, AgentsText(k, p.tree)) && (action.AgentsConflict? ==> action.candidate != k.agents)
    ensures AgentsText(k, ApplyAgents(k, p, d, action).tree)
         == if action.Merge? || action.UpdateBlock? then A.Replace(k.markers, AgentsText(k, p.tree), d.Block(k)) else AgentsText(k, p.tree)
  {
  }

  lemma FinishedText(k: Kit, r: Repo, d: Distribution)
    requires Applies(k, r, d)
    ensures A.Parses(k.markers, AgentsText(k, r.tree))
    ensures AgentsText(k, Finished(k, r, d).tree)
         == if Rewrites(k, r, d) then A.Replace(k.markers, AgentsText(k, r.tree), d.Block(k)) else AgentsText(k, r.tree)
  {
    FinishedTree(k, r, d);
    AgentsUntouched(k, r, d, |d.files|);
    if AgentsActionOf(k, r, d).AgentsConflict? {
      ConflictElsewhere(k, r, d);
    }
    AppliedAgentsText(k, d, FilesApplied(k, r, d), AgentsActionOf(k, r, d));
  }

  lemma AgentsTextAfter(k: Kit, r: Repo, d: Distribution)
    requires Plannable(k, r, d)
    ensures Install(k, r, d).1.Applied? ==> A.Parses(k.markers, AgentsText(k, r.tree))
    ensures AgentsText(k, Install(k, r, d).0.tree)
         == if Install(k, r, d).1.Applied? && Rewrites(k, r, d)
            then A.Replace(k.markers, AgentsText(k, r.tree), d.Block(k)) else AgentsText(k, r.tree)
  {
    InstalledTree(k, r, d);
    if Applies(k, r, d) {
      FinishedText(k, r, d);
    }
  }

  lemma {:induction false} MergeKeepsText(k: Kit, s: string, block: string)
    requires !A.HasMarkers(k.markers, s)
    ensures A.RStrip(s) <= A.Replace(k.markers, s, block)
  {
  }

  lemma UpdateKeepsText(k: Kit, w: World, d: Distribution, old_: string, text: string)
    requires k.markers.Usable() && A.CleanRules(k.markers, d.rules)
    requires A.Extract(k.markers, old_) == A.Block(text)
    requires exists rules :: rules in w.rules && text == A.BlockOf(k.markers, rules)
    ensures A.Parses(k.markers, old_) && AroundKept(k, w, old_, A.Replace(k.markers, old_, d.Block(k)))
  {
    A.TextAroundSurvives(k.markers, old_, d.rules);
  }

  lemma RewrittenAround(k: Kit, w: World, d: Distribution)
    requires k.markers.Usable() && Injective(k.hash) && Honest(k, w) && A.CleanRules(k.markers, d.rules)
    requires Rewrites(k, w.repo, d) && A.Parses(k.markers, AgentsText(k, w.repo.tree))
    ensures var old_ := AgentsText(k, w.repo.tree); AroundKept(k, w, old_, A.Replace(k.markers, old_, d.Block(k)))
  {
    var old_ := AgentsText(k, w.repo.tree);
    if AgentsActionOf(k, w.repo, d).Merge? {
      MergedHasNoBlock(k, w.repo, d);
      MergeKeepsText(k, old_, d.Block(k));
    } else {
      UpdatedIsRecorded(k, w.repo, d);
      RecordedBlockIsShipped(k, w, A.Extract(k.markers, old_).text);
      UpdateKeepsText(k, w, d, old_, A.Extract(k.markers, old_).text);
    }
  }

  lemma MergedHasNoBlock(k: Kit, r: Repo, d: Distribution)
    requires AgentsActionOf(k, r, d).Merge?
    ensures !A.HasMarkers(k.markers, AgentsText(k, r.tree))
  {
  }

  lemma InstallRules(k: Kit, w: World, d: Distribution)
    requires k.markers.Usable() && Injective(k.hash) && Honest(k, w) && Plannable(k, w.repo, d) && A.CleanRules(k.markers, d.rules)
    ensures var old_ := AgentsText(k, w.repo.tree); var new_ := AgentsText(k, Install(k, w.repo, d).0.tree);
      new_ == old_ || AroundKept(k, w, old_, new_)
  {
    AgentsTextAfter(k, w.repo, d);
    if Install(k, w.repo, d).1.Applied? && Rewrites(k, w.repo, d) {
      RewrittenAround(k, w, d);
    }
  }

  lemma UpdatedIsRecorded(k: Kit, r: Repo, d: Distribution)
    requires AgentsActionOf(k, r, d).UpdateBlock?
    ensures A.Extract(k.markers, AgentsText(k, r.tree)).Block?
    ensures r.BlockHash() == Some(k.hash(A.Extract(k.markers, AgentsText(k, r.tree)).text))
  {
  }

  /** Rules, like files, are replaced only where the block is one that was shipped; everything around stays. */
  lemma UserRulesSurvive(k: Kit, w: World, d: Distribution)
    requires k.markers.Usable() && Injective(k.hash) && Reached(k, w) && d.Proper(k) && A.CleanRules(k.markers, d.rules)
    ensures var old_ := AgentsText(k, w.repo.tree); var new_ := AgentsText(k, Act(k, w, InstallStep(d)).repo.tree);
      new_ == old_ || AroundKept(k, w, old_, new_)
  {
    ManifestIsHonest(k, w);
    InstallRules(k, w, d);
  }

  // ---- AGENTS.md when uninstalling ----

  lemma AgentsRemain(k: Kit, r: Repo)
    requires k.agents !in r.Managed()
    ensures SameAt(r.tree, FilesRemoved(k, r), k.agents)
  {
  }

  lemma FoundInText(k: Kit, tree: Tree)
    requires k.markers.Usable()
    ensures FoundBlock(k, tree) == A.Extract(k.markers, AgentsText(k, tree))
  {
  }

  lemma RemovedText(k: Kit, r: Repo, tree: Tree)
    requires !FoundBlock(k, tree).Crash?
    ensures AgentsText(k, AgentsRemoved(k, r, tree))
         == if FoundBlock(k, tree).Block? && r.BlockHash() == Some(k.hash(FoundBlock(k, tree).text))
            then A.Remove(k.markers, tree[k.agents].data) else AgentsText(k, tree)
  {
  }

  lemma UninstalledText(k: Kit, r: Repo)
    requires k.markers.Usable() && k.agents !in r.Managed()
    ensures var s := AgentsText(k, r.tree); var t := AgentsText(k, Uninstall(k, r).0.tree);
      t == if A.Extract(k.markers, s).Block? && r.BlockHash() == Some(k.hash(A.Extract(k.markers, s).text)) then A.Remove(k.markers, s) else s
  {
    var tree := FilesRemoved(k, r);
    AgentsRemain(k, r);
    FoundInText(k, tree);
    if !FoundBlock(k, tree).Crash? {
      RemovedText(k, r, tree);
    }
  }

  /** An uninstall changes AGENTS.md only where it holds a block some release shipped, and then takes out the block
      and white space, and nothing else. */
  lemma UserRulesSurviveUninstall(k: Kit, w: World)
    requires k.markers.Usable() && Injective(k.hash) && Reached(k, w)
    ensures var old_ := AgentsText(k, w.repo.tree); var new_ := AgentsText(k, Act(k, w, UninstallStep).repo.tree);
      new_ == old_ ||
      (&& A.WellFormed(k.markers, old_)
       && (exists rules :: rules in w.rules && A.Extract(k.markers, old_) == A.Block(A.BlockOf(k.markers, rules)))
       && A.Visible(new_) == A.Visible(A.Head(old_, k.markers.begin)) + A.Visible(A.AfterBlock(k.markers, old_)))
  {
    ManifestIsHonest(k, w);
    UninstalledText(k, w.repo);
    var s := AgentsText(k, w.repo.tree);
    var e := A.Extract(k.markers, s);
    if e.Block? && w.repo.BlockHash() == Some(k.hash(e.text)) {
      RecordedBlockIsShipped(k, w, e.text);
      A.RemoveKeepsVisible(k.markers, s);
    }
  }
}
