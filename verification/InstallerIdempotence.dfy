/** Installing twice, and uninstalling what was installed. */
module InstallerIdempotence {
  import opened Basics
  import opened Candidates
  import opened Installer
  import opened InstallerSafety
  import A = AgentsBlock

  // ---- Conditions a caller can check beforehand ----

  predicate Reserved(r: Repo, d: Distribution, path: string) { d.Wants(path) || path in r.Managed() }

  predicate NameFree(k: Kit, r: Repo, d: Distribution, base: string, j: nat) {
    d.Wants(base) || base == k.agents ==> !Reserved(r, d, k.name(base, j))
  }

  /** No managed path is a candidate name of a managed path. */
  ghost predicate Namespaced(k: Kit, r: Repo, d: Distribution) { forall base, j :: NameFree(k, r, d, base, j) }

  ghost predicate Ready(k: Kit, r: Repo, d: Distribution) { Plannable(k, r, d) && Namespaced(k, r, d) }

  // ---- Each path has at most one writer ----

  lemma WantsItem(d: Distribution, i: nat)
    requires i < |d.files|
    ensures d.Wants(d.files[i].path)
  {
  }

  /** The candidate of a conflict is nobody's own path. */
  lemma ConflictFree(k: Kit, r: Repo, d: Distribution, i: nat, c: string)
    requires Ready(k, r, d) && i < |d.files| && ItemAction(k, r, d.files[i]) == Conflict(c)
    ensures !Reserved(r, d, c) && c == k.name(d.files[i].path, Search(k.hash, k.name, r.tree, d.files[i].path, d.files[i].data))
  {
    WantsItem(d, i);
    assert NameFree(k, r, d, d.files[i].path, Search(k.hash, k.name, r.tree, d.files[i].path, d.files[i].data));
  }

  /** A wanted path is written by its own item only. */
  lemma OwnWriter(k: Kit, r: Repo, d: Distribution, i: nat, j: nat)
    requires Ready(k, r, d) && i < |d.files| && j < |d.files| && Targets(k, r, d.files[j], d.files[i].path)
    ensures i == j && !ItemAction(k, r, d.files[i]).Conflict?
  {
    WantsItem(d, i);
    if ItemAction(k, r, d.files[j]) == Conflict(d.files[i].path) {
      ConflictFree(k, r, d, j, d.files[i].path);
    }
  }

  lemma OneWriter(k: Kit, r: Repo, d: Distribution, i: nat, j: nat, path: string)
    requires Ready(k, r, d) && i < |d.files| && j < |d.files|
    requires Targets(k, r, d.files[i], path) && Targets(k, r, d.files[j], path)
    ensures i == j
  {
    var a, b := d.files[i], d.files[j];
    if a.path == path {
      OwnWriter(k, r, d, i, j);
    } else if b.path == path {
      OwnWriter(k, r, d, j, i);
    } else {
      ConflictFree(k, r, d, i, path);
      ConflictFree(k, r, d, j, path);
      assert SameName(k.name, a.path, Search(k.hash, k.name, r.tree, a.path, a.data),
                      b.path, Search(k.hash, k.name, r.tree, b.path, b.data));
    }
  }

  lemma ItemWrites(k: Kit, r: Repo, p: Progress, item: Item, path: string)
    requires Targets(k, r, item, path)
    ensures var q := ApplyItem(k, r, p, item, ItemAction(k, r, item)); path in q.tree && q.tree[path] == File(item.data) && q.acted
  {
  }

  lemma ItemSkips(k: Kit, r: Repo, p: Progress, item: Item, path: string)
    requires !Targets(k, r, item, path)
    ensures SameAt(p.tree, ApplyItem(k, r, p, item, ItemAction(k, r, item)).tree, path)
  {
  }

  lemma {:induction false} TargetWritten(k: Kit, r: Repo, d: Distribution, n: nat, i: nat, path: string)
    requires Ready(k, r, d) && i < n <= |d.files| && Targets(k, r, d.files[i], path)
    ensures path in Written(k, r, d, n).tree && Written(k, r, d, n).tree[path] == File(d.files[i].data)
  {
    var p := Written(k, r, d, n - 1);
    if i == n - 1 {
      ItemWrites(k, r, p, d.files[i], path);
    } else {
      TargetWritten(k, r, d, n - 1, i, path);
      if Targets(k, r, d.files[n - 1], path) {
        OneWriter(k, r, d, i, n - 1, path);
      }
      ItemSkips(k, r, p, d.files[n - 1], path);
    }
  }

  /** A path that is managed but no longer wanted is written by nobody. */
  lemma OldUntargeted(k: Kit, r: Repo, d: Distribution, i: nat, path: string)
    requires Ready(k, r, d) && i < |d.files| && path in r.Managed() && !d.Wants(path)
    ensures !Targets(k, r, d.files[i], path)
  {
    WantsItem(d, i);
    if ItemAction(k, r, d.files[i]) == Conflict(path) {
      ConflictFree(k, r, d, i, path);
    }
  }

  // ---- The tree after an installation ----

  /** The agents step writes this path as its candidate. */
  ghost predicate AgentsTargets(k: Kit, r: Repo, d: Distribution, path: string) {
    AgentsActionOf(k, r, d) == AgentsConflict(path)
  }

  ghost predicate IsWritten(k: Kit, r: Repo, d: Distribution, path: string) {
    AgentsTargets(k, r, d, path) || exists i :: 0 <= i < |d.files| && Targets(k, r, d.files[i], path)
  }

  /** The candidate of AGENTS.md is nobody's own path either. */
  lemma AgentsPathFree(k: Kit, r: Repo, d: Distribution, path: string)
    requires Ready(k, r, d) && AgentsTargets(k, r, d, path)
    ensures path == k.name(k.agents, Search(k.hash, k.name, r.tree, k.agents, d.Block(k) + "\n"))
    ensures !Reserved(r, d, path) && path != k.agents
  {
    assert NameFree(k, r, d, k.agents, Search(k.hash, k.name, r.tree, k.agents, d.Block(k) + "\n"));
  }

  lemma AgentsCandidateFree(k: Kit, r: Repo, d: Distribution, path: string, i: nat)
    requires Ready(k, r, d) && AgentsTargets(k, r, d, path) && i < |d.files|
    ensures !Targets(k, r, d.files[i], path) && !Reserved(r, d, path) && path != k.agents
  {
    AgentsPathFree(k, r, d, path);
    WantsItem(d, i);
    AgentsNameUntargeted(k, r, d, i, Search(k.hash, k.name, r.tree, k.agents, d.Block(k) + "\n"));
  }

  /** No item writes a candidate name of AGENTS.md. */
  lemma AgentsNameUntargeted(k: Kit, r: Repo, d: Distribution, i: nat, j: nat)
    requires Ready(k, r, d) && i < |d.files|
    ensures !Targets(k, r, d.files[i], k.name(k.agents, j)) && !Reserved(r, d, k.name(k.agents, j))
  {
    var item, c := d.files[i], k.name(k.agents, j);
    assert NameFree(k, r, d, k.agents, j);
    WantsItem(d, i);
    if ItemAction(k, r, item) == Conflict(c) {
      ConflictFree(k, r, d, i, c);
      assert SameName(k.name, k.agents, j, item.path, Search(k.hash, k.name, r.tree, item.path, item.data));
    }
  }

  lemma AgentsElsewhere(k: Kit, r: Repo, d: Distribution, p: Progress, path: string)
    requires A.Parses(k.markers, AgentsText(k, p.tree)) && path != k.agents && !AgentsTargets(k, r, d, path)
    ensures SameAt(p.tree, ApplyAgents(k, p, d, AgentsActionOf(k, r, d)).tree, path)
  {
  }

  /** A written path holds what its only writer wrote. */
  lemma AfterTargeted(k: Kit, r: Repo, d: Distribution, i: nat, path: string)
    requires Ready(k, r, d) && Applies(k, r, d) && i < |d.files| && Targets(k, r, d.files[i], path)
    ensures path in Finished(k, r, d).tree && Finished(k, r, d).tree[path] == File(d.files[i].data)
  {
    FinishedTree(k, r, d);
    TargetWritten(k, r, d, |d.files|, i, path);
    assert d.files[i] in d.files;
    WantsItem(d, i);
    if path in r.Managed() && !d.Wants(path) {
      OldUntargeted(k, r, d, i, path);
    }
    AgentsUntargeted(k, r, d.files[i]);
    if AgentsTargets(k, r, d, path) {
      AgentsCandidateFree(k, r, d, path, i);
    }
    AgentsElsewhere(k, r, d, FilesApplied(k, r, d), path);
  }

  /** Any other path is as before, or was stale and is gone. */
  lemma AfterUntargeted(k: Kit, r: Repo, d: Distribution, path: string)
    requires Ready(k, r, d) && Applies(k, r, d) && path != k.agents && !IsWritten(k, r, d, path)
    ensures if Stale(k, r, d, r.tree, path) then path !in Finished(k, r, d).tree
            else SameAt(r.tree, Finished(k, r, d).tree, path)
  {
    FinishedTree(k, r, d);
    UntargetedUnchanged(k, r, d, |d.files|, path);
    AgentsElsewhere(k, r, d, FilesApplied(k, r, d), path);
  }

  // ---- The records after an installation ----

  /** What an item is recorded with: the shipped hash once its file is in place, its old record in a conflict. */
  predicate RecordedAs(k: Kit, r: Repo, item: Item, action: Action, records: map<string, Digest>) {
    if action.Create? || action.Update? || action.Noop?
    then item.path in records && records[item.path] == k.hash(item.data)
    else if action.Blocked? then item.path !in records
    else (item.path in records <==> item.path in r.Managed()) && (item.path in records ==> records[item.path] == r.Managed()[item.path])
  }

  lemma ItemRecord(k: Kit, r: Repo, p: Progress, item: Item, action: Action)
    requires item.path !in p.managed
    ensures RecordedAs(k, r, item, action, ApplyItem(k, r, p, item, action).managed)
  {
  }

  lemma OtherRecord(k: Kit, r: Repo, p: Progress, item: Item, action: Action, path: string)
    requires path != item.path
    ensures path in ApplyItem(k, r, p, item, action).managed <==> path in p.managed
    ensures path in p.managed ==> ApplyItem(k, r, p, item, action).managed[path] == p.managed[path]
  {
  }

  lemma {:induction false} WrittenRecord(k: Kit, r: Repo, d: Distribution, n: nat, i: nat)
    requires d.Proper(k) && i < n <= |d.files|
    ensures RecordedAs(k, r, d.files[i], ItemAction(k, r, d.files[i]), Written(k, r, d, n).managed)
  {
    var p, item := Written(k, r, d, n - 1), d.files[n - 1];
    if i < n - 1 {
      WrittenRecord(k, r, d, n - 1, i);
      OtherRecord(k, r, p, item, ItemAction(k, r, item), d.files[i].path);
    } else {
      FreshRecord(k, r, d, n - 1, i);
      ItemRecord(k, r, p, item, ItemAction(k, r, item));
    }
  }

  /** Nothing is recorded for a path before its own turn. */
  lemma {:induction false} FreshRecord(k: Kit, r: Repo, d: Distribution, n: nat, i: nat)
    requires d.Proper(k) && n <= i < |d.files|
    ensures d.files[i].path !in Written(k, r, d, n).managed
  {
    if n > 0 {
      FreshRecord(k, r, d, n - 1, i);
      var item := d.files[n - 1];
      OtherRecord(k, r, Written(k, r, d, n - 1), item, ItemAction(k, r, item), d.files[i].path);
    }
  }

  lemma {:induction false} AppliedRecord(k: Kit, r: Repo, d: Distribution, i: nat)
    requires d.Proper(k) && i < |d.files|
    ensures d.files[i].path in FilesApplied(k, r, d).managed <==> d.files[i].path in Written(k, r, d, |d.files|).managed
    ensures d.files[i].path in FilesApplied(k, r, d).managed ==>
      FilesApplied(k, r, d).managed[d.files[i].path] == Written(k, r, d, |d.files|).managed[d.files[i].path]
  {
  }

  lemma {:induction false} OldRecord(k: Kit, r: Repo, d: Distribution, path: string)
    requires path in FilesApplied(k, r, d).managed && !d.Wants(path)
    ensures path in r.Managed() && FilesApplied(k, r, d).managed[path] == r.Managed()[path]
    ensures path in Written(k, r, d, |d.files|).tree && !Stale(k, r, d, Written(k, r, d, |d.files|).tree, path)
  {
    if path in Written(k, r, d, |d.files|).managed {
      WrittenRecords(k, r, d, |d.files|, path);
    }
  }

  // ---- The second plan ----

  /** The repository after an installation that wrote its manifest. */
  ghost predicate Installed(k: Kit, r: Repo, d: Distribution, after: Repo) {
    && Ready(k, r, d) && Applies(k, r, d) && after.tree == Finished(k, r, d).tree
    && after.manifest == Some(Manifest(FilesApplied(k, r, d).managed, Some(k.hash(d.Block(k)))))
  }

  /** A path that exists, and that nobody manages or wants, is left alone. */
  lemma UnreservedKept(k: Kit, r: Repo, d: Distribution, path: string)
    requires Ready(k, r, d) && Applies(k, r, d) && path in r.tree && !Reserved(r, d, path) && path != k.agents
    ensures SameAt(r.tree, Finished(k, r, d).tree, path)
  {
    FinishedChanges(k, r, d, path);
  }

  /** A candidate name of a wanted path or of AGENTS.md that was taken still is, with the same content. */
  lemma CandidateKept(k: Kit, r: Repo, d: Distribution, after: Repo, base: string, j: nat)
    requires Installed(k, r, d, after) && (d.Wants(base) || base == k.agents) && k.name(base, j) in r.tree
    ensures SameAt(r.tree, after.tree, k.name(base, j))
  {
    assert NameFree(k, r, d, base, j);
    UnreservedKept(k, r, d, k.name(base, j));
  }

  /** The first names of the search that were taken are as they were. */
  ghost predicate NamesKept(k: Kit, before: Tree, after: Tree, base: string, n: nat) {
    forall j :: 0 <= j < n && k.name(base, j) in before ==> SameAt(before, after, k.name(base, j))
  }

  lemma SearchSame(k: Kit, before: Tree, after: Tree, base: string, data: string, n: nat)
    requires k.Named() && n == Search(k.hash, k.name, before, base, data) && NamesKept(k, before, after, base, n)
    requires HoldsSame(k.hash, after, k.name(base, n), data)
    ensures Search(k.hash, k.name, after, base, data) == n
  {
    SearchFound(k.hash, k.name, before, base, data);
    forall j | 0 <= j < n ensures Taken(k.hash, after, k.name(base, j), data) {
      assert Taken(k.hash, before, k.name(base, j), data);
    }
    FoundIsSearch(k.hash, k.name, after, base, data, n);
  }

  lemma NamesKeptAfter(k: Kit, r: Repo, d: Distribution, after: Repo, base: string, n: nat)
    requires Installed(k, r, d, after) && (d.Wants(base) || base == k.agents)
    ensures NamesKept(k, r.tree, after.tree, base, n)
  {
    forall j | 0 <= j < n && k.name(base, j) in r.tree ensures SameAt(r.tree, after.tree, k.name(base, j)) {
      CandidateKept(k, r, d, after, base, j);
    }
  }

  /** The second search finds the candidate of the first. */
  lemma SearchAgain(k: Kit, r: Repo, d: Distribution, after: Repo, base: string, data: string)
    requires Installed(k, r, d, after) && (d.Wants(base) || base == k.agents)
    requires HoldsSame(k.hash, after.tree, k.name(base, Search(k.hash, k.name, r.tree, base, data)), data)
    ensures Search(k.hash, k.name, after.tree, base, data) == Search(k.hash, k.name, r.tree, base, data)
  {
    var n := Search(k.hash, k.name, r.tree, base, data);
    NamesKeptAfter(k, r, d, after, base, n);
    SearchSame(k, r.tree, after.tree, base, data, n);
  }

  ghost predicate Settled(action: Action) { action.Noop? || action.ConflictNoop? }

  lemma OwnPathUntargeted(k: Kit, r: Repo, d: Distribution, i: nat)
    requires Ready(k, r, d) && i < |d.files|
    requires var action := ItemAction(k, r, d.files[i]); !action.Create? && !action.Update?
    ensures !IsWritten(k, r, d, d.files[i].path)
  {
    var path := d.files[i].path;
    WantsItem(d, i);
    forall j | 0 <= j < |d.files| ensures !Targets(k, r, d.files[j], path) {
      if Targets(k, r, d.files[j], path) {
        OwnWriter(k, r, d, i, j);
      }
    }
    if AgentsTargets(k, r, d, path) {
      AgentsCandidateFree(k, r, d, path, i);
    }
  }

  lemma UnchangedItem(k: Kit, r: Repo, d: Distribution, after: Repo, i: nat)
    requires Installed(k, r, d, after) && i < |d.files|
    requires var action := ItemAction(k, r, d.files[i]); !action.Create? && !action.Update?
    ensures SameAt(r.tree, after.tree, d.files[i].path)
  {
    OwnPathUntargeted(k, r, d, i);
    WantsItem(d, i);
    AfterUntargeted(k, r, d, d.files[i].path);
  }

  lemma ConflictSettles(k: Kit, r: Repo, d: Distribution, after: Repo, i: nat)
    requires Installed(k, r, d, after) && i < |d.files|
    requires var action := ItemAction(k, r, d.files[i]); action.Conflict? || action.ConflictNoop?
    ensures Settled(ItemAction(k, after, d.files[i]))
  {
    var item := d.files[i];
    var n := Search(k.hash, k.name, r.tree, item.path, item.data);
    var c := k.name(item.path, n);
    WantsItem(d, i);
    UnchangedItem(k, r, d, after, i);
    WrittenRecord(k, r, d, |d.files|, i);
    AppliedRecord(k, r, d, i);
    if ItemAction(k, r, item).Conflict? {
      AfterTargeted(k, r, d, i, c);
    } else {
      SearchFound(k.hash, k.name, r.tree, item.path, item.data);
      CandidateKept(k, r, d, after, item.path, n);
    }
    SearchAgain(k, r, d, after, item.path, item.data);
  }

  lemma ItemSettles(k: Kit, r: Repo, d: Distribution, after: Repo, i: nat)
    requires Installed(k, r, d, after) && i < |d.files|
    ensures Settled(ItemAction(k, after, d.files[i]))
  {
    var item := d.files[i];
    var action := ItemAction(k, r, item);
    assert !action.Blocked? by { NotBlocked(k, r, d, i); }
    if action.Conflict? || action.ConflictNoop? {
      ConflictSettles(k, r, d, after, i);
    } else {
      if action.Noop? {
        UnchangedItem(k, r, d, after, i);
        NoopHolds(k, r, item);
      } else {
        AfterTargeted(k, r, d, i, item.path);
      }
      SettledByContent(k, after, item);
    }
  }

  lemma NotBlocked(k: Kit, r: Repo, d: Distribution, i: nat)
    requires Applies(k, r, d) && i < |d.files|
    ensures !ItemAction(k, r, d.files[i]).Blocked?
  {
  }

  lemma NoopHolds(k: Kit, r: Repo, item: Item)
    requires ItemAction(k, r, item).Noop?
    ensures HoldsSame(k.hash, r.tree, item.path, item.data)
  {
  }

  lemma SettledByContent(k: Kit, r: Repo, item: Item)
    requires HoldsSame(k.hash, r.tree, item.path, item.data)
    ensures Settled(ItemAction(k, r, item))
  {
  }

  /** With the recorded block hash that of this release, a plan depends on the extracted block alone. */
  lemma PlanByText(k: Kit, r: Repo, d: Distribution, text: string)
    requires A.Extract(k.markers, AgentsText(k, r.tree)) == A.Block(text) && r.BlockHash() == Some(k.hash(d.Block(k)))
    requires k.agents in r.tree ==> r.tree[k.agents].File?
    ensures var action := AgentsActionOf(k, r, d);
      if k.hash(text) == k.hash(d.Block(k)) then action.Current?
      else if k.name(k.agents, Search(k.hash, k.name, r.tree, k.agents, d.Block(k) + "\n")) in r.tree then action.AgentsConflictNoop?
      else action.AgentsConflict?
  {
  }

  lemma ConflictMeans(k: Kit, r: Repo, d: Distribution)
    requires var action := AgentsActionOf(k, r, d); action.Current? || action.AgentsConflict? || action.AgentsConflictNoop?
    ensures var action := AgentsActionOf(k, r, d); var e := A.Extract(k.markers, AgentsText(k, r.tree));
      && e.Block? && (action.Current? <==> k.hash(e.text) == k.hash(d.Block(k)))
      && var c := k.name(k.agents, Search(k.hash, k.name, r.tree, k.agents, d.Block(k) + "\n"));
         (action.AgentsConflict? ==> action == AgentsConflict(c)) && (action.AgentsConflictNoop? ==> c in r.tree)
  {
  }

  /** The candidate of an AGENTS.md conflict is there afterwards, and is found again. */
  lemma AgentsCandidateFound(k: Kit, r: Repo, d: Distribution, after: Repo)
    requires Installed(k, r, d, after)
    requires var action := AgentsActionOf(k, r, d); action.AgentsConflict? || action.AgentsConflictNoop?
    ensures k.name(k.agents, Search(k.hash, k.name, after.tree, k.agents, d.Block(k) + "\n")) in after.tree
  {
    var data := d.Block(k) + "\n";
    var n := Search(k.hash, k.name, r.tree, k.agents, data);
    ConflictMeans(k, r, d);
    if AgentsActionOf(k, r, d).AgentsConflict? {
      AgentsCandidateWritten(k, r, d, k.name(k.agents, n));
    } else {
      SearchFound(k.hash, k.name, r.tree, k.agents, data);
      CandidateKept(k, r, d, after, k.agents, n);
    }
    SearchAgain(k, r, d, after, k.agents, data);
  }

  lemma AgentsSettle(k: Kit, r: Repo, d: Distribution, after: Repo)
    requires Installed(k, r, d, after) && k.markers.Usable()
    requires A.CleanRules(k.markers, d.rules) && !A.StrayBegin(k.markers, AgentsText(k, r.tree))
    ensures var action := AgentsActionOf(k, after, d); action.Current? || action.AgentsConflictNoop?
  {
    FinishedText(k, r, d);
    AgentsStaysFile(k, r, d);
    if Rewrites(k, r, d) {
      A.ReplacedBlock(k.markers, AgentsText(k, r.tree), d.rules);
      PlanByText(k, after, d, d.Block(k));
    } else {
      NotStopped(k, r, d);
      ConflictMeans(k, r, d);
      if !AgentsActionOf(k, r, d).Current? {
        AgentsCandidateFound(k, r, d, after);
      }
      PlanByText(k, after, d, A.Extract(k.markers, AgentsText(k, r.tree)).text);
    }
  }

  lemma NotStopped(k: Kit, r: Repo, d: Distribution)
    requires Applies(k, r, d)
    ensures !AgentsActionOf(k, r, d).AgentsBlocked? && !AgentsActionOf(k, r, d).AgentsCrash?
  {
  }

  lemma AgentsStaysFile(k: Kit, r: Repo, d: Distribution)
    requires Applies(k, r, d)
    ensures k.agents in Finished(k, r, d).tree ==> Finished(k, r, d).tree[k.agents].File?
  {
    FinishedTree(k, r, d);
    AgentsUntouched(k, r, d, |d.files|);
  }

  lemma AgentsCandidateWritten(k: Kit, r: Repo, d: Distribution, c: string)
    requires Applies(k, r, d) && AgentsActionOf(k, r, d) == AgentsConflict(c)
    ensures c in Finished(k, r, d).tree && Finished(k, r, d).tree[c] == File(d.Block(k) + "\n")
  {
  }

  // ---- A settled plan does nothing ----

  lemma {:induction false} SettledWritesNothing(k: Kit, r: Repo, d: Distribution, n: nat)
    requires n <= |d.files| && forall i :: 0 <= i < n ==> Settled(ItemAction(k, r, d.files[i]))
    ensures Written(k, r, d, n).tree == r.tree && !Written(k, r, d, n).acted
  {
    if n > 0 {
      SettledWritesNothing(k, r, d, n - 1);
      assert Settled(ItemAction(k, r, d.files[n - 1]));
    }
  }

  lemma NothingStale(k: Kit, r: Repo, d: Distribution, after: Repo, path: string)
    requires Installed(k, r, d, after)
    ensures !Stale(k, after, d, after.tree, path)
  {
    if path in after.Managed() && !d.Wants(path) {
      OldRecord(k, r, d, path);
      forall i | 0 <= i < |d.files| ensures !Targets(k, r, d.files[i], path) {
        OldUntargeted(k, r, d, i, path);
      }
      UntargetedUnchanged(k, r, d, |d.files|, path);
      if AgentsTargets(k, r, d, path) {
        AgentsPathFree(k, r, d, path);
      }
      AfterUntargeted(k, r, d, path);
    }
  }

  lemma NoStaleNoChange(k: Kit, r: Repo, d: Distribution, p: Progress)
    requires forall q :: !Stale(k, r, d, p.tree, q)
    ensures Cleaned(k, r, d, p).tree == p.tree && Cleaned(k, r, d, p).acted == p.acted
  {
  }

  lemma SettledInstall(k: Kit, r: Repo, d: Distribution)
    requires Plannable(k, r, d) && r.manifest.Some?
    requires forall i :: 0 <= i < |d.files| ==> Settled(ItemAction(k, r, d.files[i]))
    requires forall q :: !Stale(k, r, d, r.tree, q)
    requires var action := AgentsActionOf(k, r, d); action.Current? || action.AgentsConflictNoop?
    ensures Install(k, r, d) == (r, Applied(true))
  {
    SettledWritesNothing(k, r, d, |d.files|);
    NoStaleNoChange(k, r, d, Written(k, r, d, |d.files|));
    AgentsUntouched(k, r, d, |d.files|);
  }

  // ---- Nothing done is nothing changed ----

  lemma {:induction false} InactiveWritesNothing(k: Kit, r: Repo, d: Distribution, n: nat)
    requires n <= |d.files| && !Written(k, r, d, n).acted
    ensures Written(k, r, d, n).tree == r.tree
  {
    if n > 0 {
      InactiveWritesNothing(k, r, d, n - 1);
    }
  }

  lemma NoopInstallIsIdentity(k: Kit, r: Repo, d: Distribution)
    requires Plannable(k, r, d) && Install(k, r, d).1 == Applied(true)
    ensures Install(k, r, d).0 == r
  {
    AgentsUntouched(k, r, d, |d.files|);
    var w := Written(k, r, d, |d.files|);
    InactiveWritesNothing(k, r, d, |d.files|);
    forall q | q in w.tree ensures !Stale(k, r, d, w.tree, q) {}
    assert Cleaned(k, r, d, w).tree == w.tree;
  }

  lemma InstalledManaged(k: Kit, r: Repo, d: Distribution)
    requires Ready(k, r, d) && Applies(k, r, d) && Install(k, r, d).1 == Applied(false)
    ensures Installed(k, r, d, Install(k, r, d).0)
    ensures Plannable(k, Install(k, r, d).0, d)
  {
    AgentsUntouched(k, r, d, |d.files|);
    AgentsKeepRecords(k, FilesApplied(k, r, d), d, AgentsActionOf(k, r, d));
    if k.agents in FilesApplied(k, r, d).managed {
      OldRecord(k, r, d, k.agents);
    }
  }

  /** A second installation of the same release does nothing: no file, candidate, stale file or rule block
      changes, and the manifest is not rewritten. */
  lemma InstallTwice(k: Kit, r: Repo, d: Distribution)
    requires k.markers.Usable() && Ready(k, r, d) && Applies(k, r, d)
    requires A.CleanRules(k.markers, d.rules) && !A.StrayBegin(k.markers, AgentsText(k, r.tree))
    ensures Plannable(k, Install(k, r, d).0, d)
    ensures Install(k, Install(k, r, d).0, d) == (Install(k, r, d).0, Applied(true))
  {
    var after := Install(k, r, d).0;
    if Install(k, r, d).1 == Applied(true) {
      NoopInstallIsIdentity(k, r, d);
    } else {
      InstalledManaged(k, r, d);
      ItemsSettled(k, r, d, after);
      AgentsSettle(k, r, d, after);
      SettledInstall(k, after, d);
    }
  }

  /** With a stray BEGIN marker the installed block is never recognised again: every later plan is a conflict. */
  lemma StrayBeginConflicts(k: Kit, r: Repo, d: Distribution)
    requires k.markers.Usable() && Injective(k.hash) && Ready(k, r, d) && Applies(k, r, d) && Install(k, r, d).1 == Applied(false)
    requires A.CleanRules(k.markers, d.rules) && A.StrayBegin(k.markers, AgentsText(k, r.tree))
    ensures var action := AgentsActionOf(k, Install(k, r, d).0, d); action.AgentsConflict? || action.AgentsConflictNoop?
  {
    var s, after := AgentsText(k, r.tree), Install(k, r, d).0;
    AgentsTextAfter(k, r, d);
    AgentsStaysFile(k, r, d);
    InstalledManaged(k, r, d);
    StrayBeginMerges(k, r, d);
    A.StrayBeginCaptures(k.markers, s, d.rules);
    PlanByText(k, after, d, A.Extract(k.markers, A.Replace(k.markers, s, d.Block(k))).text);
  }

  lemma AgentsNameUnwritten(k: Kit, r: Repo, d: Distribution, j: nat)
    requires Ready(k, r, d) && Rewrites(k, r, d)
    ensures var c := k.name(k.agents, j); !IsWritten(k, r, d, c) && !Reserved(r, d, c) && c != k.agents
  {
    forall i | 0 <= i < |d.files| ensures !Targets(k, r, d.files[i], k.name(k.agents, j)) {
      AgentsNameUntargeted(k, r, d, i, j);
    }
    assert NameFree(k, r, d, k.agents, j);
  }

  lemma UnwrittenKept(k: Kit, r: Repo, d: Distribution, path: string)
    requires Ready(k, r, d) && Applies(k, r, d) && path != k.agents && !IsWritten(k, r, d, path) && !Reserved(r, d, path)
    ensures SameAt(r.tree, Finished(k, r, d).tree, path)
  {
    AfterUntargeted(k, r, d, path);
  }

  /** The names the search for an AGENTS.md candidate goes through are untouched by an installation that merges. */
  lemma AgentsNameKept(k: Kit, r: Repo, d: Distribution, after: Repo, j: nat)
    requires Installed(k, r, d, after) && Rewrites(k, r, d)
    ensures SameAt(r.tree, after.tree, k.name(k.agents, j))
  {
    AgentsNameUnwritten(k, r, d, j);
    UnwrittenKept(k, r, d, k.name(k.agents, j));
  }

  lemma AgentsSearchKept(k: Kit, r: Repo, d: Distribution, after: Repo)
    requires Installed(k, r, d, after) && Rewrites(k, r, d)
    ensures var data := d.Block(k) + "\n";
      Search(k.hash, k.name, after.tree, k.agents, data) == Search(k.hash, k.name, r.tree, k.agents, data)
  {
    var data := d.Block(k) + "\n";
    var n := Search(k.hash, k.name, r.tree, k.agents, data);
    SearchFound(k.hash, k.name, r.tree, k.agents, data);
    forall j: nat ensures Taken(k.hash, after.tree, k.name(k.agents, j), data) <==> Taken(k.hash, r.tree, k.name(k.agents, j), data) {
      AgentsNameKept(k, r, d, after, j);
    }
    FoundIsSearch(k.hash, k.name, after.tree, k.agents, data, n);
  }

  lemma ReadyAgain(k: Kit, r: Repo, d: Distribution, after: Repo)
    requires Installed(k, r, d, after) && Plannable(k, after, d)
    ensures Ready(k, after, d)
  {
    forall base, j ensures NameFree(k, after, d, base, j) {
      assert NameFree(k, r, d, base, j);
      if Reserved(after, d, k.name(base, j)) && !d.Wants(k.name(base, j)) {
        OldRecord(k, r, d, k.name(base, j));
      }
    }
  }

  lemma ItemsSettled(k: Kit, r: Repo, d: Distribution, after: Repo)
    requires Installed(k, r, d, after)
    ensures forall i :: 0 <= i < |d.files| ==> Settled(ItemAction(k, after, d.files[i]))
    ensures forall q :: !Stale(k, after, d, after.tree, q)
  {
    forall i | 0 <= i < |d.files| ensures Settled(ItemAction(k, after, d.files[i])) {
      ItemSettles(k, r, d, after, i);
    }
    forall q ensures !Stale(k, after, d, after.tree, q) {
      NothingStale(k, r, d, after, q);
    }
  }

  /** With a stray BEGIN marker the second installation is a no-op if and only if the proposal already lay beside
      AGENTS.md before the first; and from the second on nothing changes any more. */
  lemma StrayBeginSettlesIff(k: Kit, r: Repo, d: Distribution)
    requires k.markers.Usable() && Injective(k.hash) && Ready(k, r, d) && Applies(k, r, d) && Install(k, r, d).1 == Applied(false)
    requires A.CleanRules(k.markers, d.rules) && A.StrayBegin(k.markers, AgentsText(k, r.tree))
    ensures var once := Install(k, r, d).0; Plannable(k, once, d) && Install(k, once, d).1.Applied?
    ensures var c := k.name(k.agents, Search(k.hash, k.name, r.tree, k.agents, d.Block(k) + "\n"));
      Install(k, Install(k, r, d).0, d).1 == Applied(true) <==> c in r.tree
    ensures var twice := Install(k, Install(k, r, d).0, d).0;
      Plannable(k, twice, d) && Install(k, twice, d) == (twice, Applied(true))
  {
    var once := Install(k, r, d).0;
    InstalledManaged(k, r, d);
    StrayBeginMerges(k, r, d);
    StrayPlan(k, r, d);
    ItemsSettled(k, r, d, once);
    StrayApplies(k, once, d);
    if AgentsActionOf(k, once, d).AgentsConflictNoop? {
      SettledInstall(k, once, d);
    }
    ReadyAgain(k, r, d, once);
    StrayGone(k, r, d);
    InstallTwice(k, once, d);
  }

  lemma StrayPlan(k: Kit, r: Repo, d: Distribution)
    requires k.markers.Usable() && Injective(k.hash) && Ready(k, r, d) && Applies(k, r, d) && Install(k, r, d).1 == Applied(false)
    requires A.CleanRules(k.markers, d.rules) && A.StrayBegin(k.markers, AgentsText(k, r.tree))
    ensures var c := k.name(k.agents, Search(k.hash, k.name, r.tree, k.agents, d.Block(k) + "\n"));
      var action := AgentsActionOf(k, Install(k, r, d).0, d);
      (action.AgentsConflict? || action.AgentsConflictNoop?) && (action.AgentsConflictNoop? <==> c in r.tree)
  {
    var once := Install(k, r, d).0;
    InstalledManaged(k, r, d);
    StrayBeginMerges(k, r, d);
    StrayBeginConflicts(k, r, d);
    ConflictFound(k, once, d);
    AgentsSearchKept(k, r, d, once);
    AgentsNameKept(k, r, d, once, Search(k.hash, k.name, r.tree, k.agents, d.Block(k) + "\n"));
  }

  lemma ConflictFound(k: Kit, r: Repo, d: Distribution)
    requires var action := AgentsActionOf(k, r, d); action.AgentsConflict? || action.AgentsConflictNoop?
    ensures AgentsActionOf(k, r, d).AgentsConflictNoop?
       <==> k.name(k.agents, Search(k.hash, k.name, r.tree, k.agents, d.Block(k) + "\n")) in r.tree
  {
  }

  /** A conflicting AGENTS.md does not stop an installation, and a proposal that is written counts as an action. */
  lemma StrayApplies(k: Kit, r: Repo, d: Distribution)
    requires Plannable(k, r, d) && forall i :: 0 <= i < |d.files| ==> Settled(ItemAction(k, r, d.files[i]))
    requires var action := AgentsActionOf(k, r, d); action.AgentsConflict? || action.AgentsConflictNoop?
    ensures Install(k, r, d).1.Applied?
    ensures AgentsActionOf(k, r, d).AgentsConflict? ==> Install(k, r, d).1 == Applied(false)
  {
    AgentsUntouched(k, r, d, |d.files|);
  }

  lemma StrayGone(k: Kit, r: Repo, d: Distribution)
    requires k.markers.Usable() && Applies(k, r, d) && A.CleanRules(k.markers, d.rules)
    requires A.StrayBegin(k.markers, AgentsText(k, r.tree))
    ensures !A.StrayBegin(k.markers, AgentsText(k, Install(k, r, d).0.tree))
  {
    StrayBeginMerges(k, r, d);
    AgentsTextAfter(k, r, d);
    A.StrayBeginCaptures(k.markers, AgentsText(k, r.tree), d.rules);
  }

  lemma StrayBeginMerges(k: Kit, r: Repo, d: Distribution)
    requires Applies(k, r, d) && A.StrayBegin(k.markers, AgentsText(k, r.tree))
    ensures Rewrites(k, r, d)
  {
  }

  // ---- Uninstalling what was installed ----

  /** A file of the user that was already identical to the shipped one. */
  ghost predicate Adopted(k: Kit, r: Repo, d: Distribution, path: string) {
    exists i :: 0 <= i < |d.files| && d.files[i].path == path && ItemAction(k, r, d.files[i]).Noop?
  }

  /** A candidate the installation wrote beside a conflicting file or AGENTS.md. */
  ghost predicate NewCandidate(k: Kit, r: Repo, d: Distribution, path: string) {
    AgentsTargets(k, r, d, path) || exists i :: 0 <= i < |d.files| && ItemAction(k, r, d.files[i]) == Conflict(path)
  }

  lemma UnmanagedStays(k: Kit, r: Repo, d: Distribution, path: string)
    requires r.manifest.None? && !d.Wants(path)
    ensures path !in FilesApplied(k, r, d).managed
  {
    if path in FilesApplied(k, r, d).managed {
      OldRecord(k, r, d, path);
    }
  }

  lemma UninstalledAt(k: Kit, r: Repo, path: string)
    requires path != k.agents
    ensures if Removable(k, r, path) then path !in Uninstall(k, r).0.tree else SameAt(r.tree, Uninstall(k, r).0.tree, path)
  {
    var tree := FilesRemoved(k, r);
    if !FoundBlock(k, tree).Crash? {
      AgentsRemovedElsewhere(k, r, tree, path);
    }
  }

  lemma InstalledRecord(k: Kit, r: Repo, d: Distribution, after: Repo, i: nat)
    requires Installed(k, r, d, after) && i < |d.files|
    ensures RecordedAs(k, r, d.files[i], ItemAction(k, r, d.files[i]), after.Managed())
  {
    WrittenRecord(k, r, d, |d.files|, i);
    AppliedRecord(k, r, d, i);
  }

  lemma FirstActions(k: Kit, r: Repo, d: Distribution, i: nat)
    requires Applies(k, r, d) && r.manifest.None? && i < |d.files|
    ensures var action := ItemAction(k, r, d.files[i]); action.Create? || action.Noop? || action.Conflict? || action.ConflictNoop?
  {
    NotBlocked(k, r, d, i);
  }

  lemma CreatedRemovable(k: Kit, r: Repo, d: Distribution, after: Repo, i: nat)
    requires Installed(k, r, d, after) && i < |d.files| && ItemAction(k, r, d.files[i]).Create?
    ensures Removable(k, after, d.files[i].path)
  {
    InstalledRecord(k, r, d, after, i);
    AfterTargeted(k, r, d, i, d.files[i].path);
  }

  lemma HeldRemovable(k: Kit, r: Repo, d: Distribution, after: Repo, i: nat)
    requires Installed(k, r, d, after) && r.manifest.None? && i < |d.files| && !ItemAction(k, r, d.files[i]).Create?
    ensures SameAt(r.tree, after.tree, d.files[i].path)
    ensures Removable(k, after, d.files[i].path) <==> ItemAction(k, r, d.files[i]).Noop?
  {
    FirstActions(k, r, d, i);
    InstalledRecord(k, r, d, after, i);
    UnchangedItem(k, r, d, after, i);
  }

  /** After the first installation a wanted file is removable exactly when its content is the shipped one. */
  lemma WantedRemovable(k: Kit, r: Repo, d: Distribution, after: Repo, i: nat)
    requires Installed(k, r, d, after) && r.manifest.None? && i < |d.files|
    ensures var action := ItemAction(k, r, d.files[i]);
      Removable(k, after, d.files[i].path) <==> action.Create? || action.Noop?
    ensures ItemAction(k, r, d.files[i]).Create? || SameAt(r.tree, after.tree, d.files[i].path)
  {
    if ItemAction(k, r, d.files[i]).Create? {
      CreatedRemovable(k, r, d, after, i);
    } else {
      HeldRemovable(k, r, d, after, i);
    }
  }

  lemma WantedRoundTrip(k: Kit, r: Repo, d: Distribution, after: Repo, i: nat)
    requires Installed(k, r, d, after) && r.manifest.None? && i < |d.files|
    ensures SameAt(r.tree, Uninstall(k, after).0.tree, d.files[i].path) <==> !ItemAction(k, r, d.files[i]).Noop?
  {
    var item := d.files[i];
    WantsItem(d, i);
    WantedRemovable(k, r, d, after, i);
    UninstalledAt(k, after, item.path);
  }

  lemma NewIsWritten(k: Kit, r: Repo, d: Distribution, path: string)
    requires !d.Wants(path)
    ensures NewCandidate(k, r, d, path) <==> IsWritten(k, r, d, path)
  {
    forall i | 0 <= i < |d.files| ensures Targets(k, r, d.files[i], path) <==> ItemAction(k, r, d.files[i]) == Conflict(path) {
      WantsItem(d, i);
    }
  }

  lemma CandidateIsNew(k: Kit, r: Repo, item: Item, path: string)
    requires Targets(k, r, item, path) && path != item.path
    ensures path !in r.tree
  {
  }

  lemma AgentsCandidateIsNew(k: Kit, r: Repo, d: Distribution, path: string)
    requires Applies(k, r, d) && AgentsTargets(k, r, d, path)
    ensures path !in r.tree && path in Finished(k, r, d).tree
  {
    ConflictIsFree(k, r, d);
    AgentsCandidateWritten(k, r, d, path);
  }

  /** What is written beside the wanted files was not there before. */
  lemma WrittenIsNew(k: Kit, r: Repo, d: Distribution, path: string)
    requires Ready(k, r, d) && Applies(k, r, d) && !d.Wants(path) && IsWritten(k, r, d, path)
    ensures path !in r.tree && path in Finished(k, r, d).tree
  {
    if AgentsTargets(k, r, d, path) {
      AgentsCandidateIsNew(k, r, d, path);
    } else {
      var i :| 0 <= i < |d.files| && Targets(k, r, d.files[i], path);
      WantsItem(d, i);
      CandidateIsNew(k, r, d.files[i], path);
      AfterTargeted(k, r, d, i, path);
    }
  }

  lemma OtherRoundTrip(k: Kit, r: Repo, d: Distribution, after: Repo, path: string)
    requires Installed(k, r, d, after) && r.manifest.None? && path != k.agents && !d.Wants(path)
    ensures SameAt(r.tree, Uninstall(k, after).0.tree, path) <==> !NewCandidate(k, r, d, path)
  {
    UnmanagedStays(k, r, d, path);
    UninstalledAt(k, after, path);
    NewIsWritten(k, r, d, path);
    if !IsWritten(k, r, d, path) {
      UnwrittenKept(k, r, d, path);
    } else {
      WrittenIsNew(k, r, d, path);
    }
  }

  lemma WantedAdopted(k: Kit, r: Repo, d: Distribution, i: nat)
    requires d.Proper(k) && i < |d.files|
    ensures Adopted(k, r, d, d.files[i].path) <==> ItemAction(k, r, d.files[i]).Noop?
  {
    forall j | 0 <= j < |d.files| && d.files[j].path == d.files[i].path ensures j == i {}
  }

  lemma OtherNotAdopted(k: Kit, r: Repo, d: Distribution, path: string)
    requires !d.Wants(path)
    ensures !Adopted(k, r, d, path)
  {
  }

  lemma WantedIsNoCandidate(k: Kit, r: Repo, d: Distribution, path: string)
    requires Ready(k, r, d) && d.Wants(path)
    ensures !NewCandidate(k, r, d, path)
  {
    forall i | 0 <= i < |d.files| ensures ItemAction(k, r, d.files[i]) != Conflict(path) {
      if ItemAction(k, r, d.files[i]) == Conflict(path) {
        ConflictFree(k, r, d, i, path);
      }
    }
    if AgentsTargets(k, r, d, path) {
      AgentsPathFree(k, r, d, path);
    }
  }

  /** Install then uninstall, in a repository the toolkit had never touched: a path comes back as it was unless
      the user already had the identical file, which goes with the rest, or it is a conflict candidate, which stays. */
  lemma RoundTripExact(k: Kit, r: Repo, d: Distribution, path: string)
    requires Ready(k, r, d) && Applies(k, r, d) && r.manifest.None? && path != k.agents
    ensures SameAt(r.tree, Uninstall(k, Install(k, r, d).0).0.tree, path)
       <==> !Adopted(k, r, d, path) && !NewCandidate(k, r, d, path)
  {
    var after := Install(k, r, d).0;
    InstalledManaged(k, r, d);
    if d.Wants(path) {
      var i :| 0 <= i < |d.files| && d.files[i].path == path;
      WantedRoundTrip(k, r, d, after, i);
      WantedIsNoCandidate(k, r, d, path);
      WantedAdopted(k, r, d, i);
    } else {
      OtherRoundTrip(k, r, d, after, path);
      OtherNotAdopted(k, r, d, path);
    }
  }

  lemma RecordedWanted(k: Kit, r: Repo, d: Distribution, after: Repo, i: nat)
    requires Installed(k, r, d, after) && r.manifest.None? && i < |d.files| && d.files[i].path in after.Managed()
    ensures Removable(k, after, d.files[i].path)
  {
    WantedRemovable(k, r, d, after, i);
    InstalledRecord(k, r, d, after, i);
    FirstActions(k, r, d, i);
  }

  lemma RecordedRemovable(k: Kit, r: Repo, d: Distribution, after: Repo, q: string)
    requires Installed(k, r, d, after) && r.manifest.None? && q in after.Managed()
    ensures Removable(k, after, q)
  {
    if d.Wants(q) {
      var i :| 0 <= i < |d.files| && d.files[i].path == q;
      RecordedWanted(k, r, d, after, i);
    } else {
      UnmanagedStays(k, r, d, q);
    }
  }

  lemma RemovableLeavesNothing(k: Kit, r: Repo)
    requires forall q :: q in r.Managed() ==> Removable(k, r, q)
    ensures Remaining(k, r) == map[]
  {
  }

  /** Nothing stays recorded: every managed file is still as it was installed. */
  lemma NothingRemains(k: Kit, r: Repo, d: Distribution, after: Repo)
    requires Installed(k, r, d, after) && r.manifest.None?
    ensures Remaining(k, after) == map[]
  {
    forall q | q in after.Managed() ensures Removable(k, after, q) {
      RecordedRemovable(k, r, d, after, q);
    }
    RemovableLeavesNothing(k, after);
  }

  /** Where nothing else remains, uninstalling removes the recorded block and the manifest. */
  lemma BlockUninstalls(k: Kit, r: Repo, s: string, text: string)
    requires Remaining(k, r) == map[] && r.BlockHash() == Some(k.hash(text))
    requires k.agents in FilesRemoved(k, r) && FilesRemoved(k, r)[k.agents] == File(s) && A.Extract(k.markers, s) == A.Block(text)
    ensures A.Parses(k.markers, s)
    ensures Uninstall(k, r) == (Repo(WithAgents(k, FilesRemoved(k, r), A.Remove(k.markers, s)), None), Applied(true))
  {
  }

  /** The rule block goes too: the text is as before, right-trimmed, or AGENTS.md is gone if there was none. */
  lemma RulesRoundTrip(k: Kit, r: Repo, d: Distribution)
    requires k.markers.Usable() && A.CleanRules(k.markers, d.rules)
    requires Ready(k, r, d) && Applies(k, r, d) && r.manifest.None? && !A.Contains(AgentsText(k, r.tree), k.markers.begin)
    ensures var s := AgentsText(k, r.tree); var back := Uninstall(k, Install(k, r, d).0);
      back.1 == Applied(true) && back.0.manifest.None?
      && (if A.BlankText(s) then k.agents !in back.0.tree
          else k.agents in back.0.tree && back.0.tree[k.agents] == File(A.RStrip(s) + "\n"))
  {
    var s, after := AgentsText(k, r.tree), Install(k, r, d).0;
    MarkerlessInstalls(k, r, d);
    NothingRemains(k, r, d, after);
    AgentsTextAfter(k, r, d);
    A.ReplacedBlock(k.markers, s, d.rules);
    A.RemoveAfterMerge(k.markers, s, d.rules);
    AgentsFileAfter(k, r, d, after);
    BlockUninstalls(k, after, A.Replace(k.markers, s, d.Block(k)), d.Block(k));
  }

  /** Text without the BEGIN marker is merged, so the installation is never a no-op. */
  lemma MarkerlessInstalls(k: Kit, r: Repo, d: Distribution)
    requires Ready(k, r, d) && Applies(k, r, d) && r.manifest.None? && !A.Contains(AgentsText(k, r.tree), k.markers.begin)
    ensures AgentsActionOf(k, r, d).Merge? && Installed(k, r, d, Install(k, r, d).0) && Plannable(k, Install(k, r, d).0, d)
  {
    NotStopped(k, r, d);
    InstalledManaged(k, r, d);
  }

  lemma MergeWritesFile(k: Kit, r: Repo, d: Distribution)
    requires Applies(k, r, d) && AgentsActionOf(k, r, d).Merge?
    ensures k.agents in Finished(k, r, d).tree && Finished(k, r, d).tree[k.agents] == File(AgentsText(k, Finished(k, r, d).tree))
  {
    FinishedTree(k, r, d);
  }

  lemma UnmanagedNotRemoved(k: Kit, r: Repo, path: string)
    requires path in r.tree && path !in r.Managed()
    ensures path in FilesRemoved(k, r) && FilesRemoved(k, r)[path] == r.tree[path]
  {
  }

  lemma AgentsFileAfter(k: Kit, r: Repo, d: Distribution, after: Repo)
    requires Installed(k, r, d, after) && Plannable(k, after, d) && AgentsActionOf(k, r, d).Merge?
    ensures k.agents in FilesRemoved(k, after) && FilesRemoved(k, after)[k.agents] == File(AgentsText(k, after.tree))
  {
    MergeWritesFile(k, r, d);
    UnmanagedNotRemoved(k, after, k.agents);
  }
}
