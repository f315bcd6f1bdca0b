/** Upgrades: what becomes of files a release no longer ships, and what any sequence of releases leads to. */
module InstallerUpgrades {
  import opened Basics
  import opened Candidates
  import opened Installer
  import opened InstallerSafety
  import opened InstallerIdempotence
  import A = AgentsBlock

  // ---- One installation: files that are recorded and no longer wanted ----

  /** What an installation that applied leaves in the manifest; one that did nothing leaves it alone. */
  lemma InstalledRecords(k: Kit, r: Repo, d: Distribution)
    requires Applies(k, r, d)
    ensures var (after, result) := Install(k, r, d);
      && result == Applied(!Finished(k, r, d).acted && r.manifest.Some?) && after.tree == Finished(k, r, d).tree
      && after.manifest == if result.noop then r.manifest else Some(Manifest(FilesApplied(k, r, d).managed, Some(k.hash(d.Block(k)))))
  {
    FinishedTree(k, r, d);
    AgentsKeepRecords(k, FilesApplied(k, r, d), d, AgentsActionOf(k, r, d));
  }

  lemma UnwantedUntargeted(k: Kit, r: Repo, d: Distribution, path: string)
    requires path in r.tree && !d.Wants(path)
    ensures SameAt(r.tree, Written(k, r, d, |d.files|).tree, path) && path !in Written(k, r, d, |d.files|).managed
  {
    forall i | 0 <= i < |d.files| ensures !Targets(k, r, d.files[i], path) {
      WantsItem(d, i);
      if Targets(k, r, d.files[i], path) {
        TargetsExisting(k, r, d.files[i], path);
      }
    }
    UntargetedUnchanged(k, r, d, |d.files|, path);
    if path in Written(k, r, d, |d.files|).managed {
      WrittenRecords(k, r, d, |d.files|, path);
    }
  }

  /** Gone, from the tree and from the records. */
  predicate Gone(tree: Tree, records: map<string, Digest>, path: string) { path !in tree && path !in records }

  /** As it was, in the tree and in the records. */
  predicate Kept(r: Repo, tree: Tree, records: map<string, Digest>, path: string) {
    SameAt(r.tree, tree, path) && path in r.Managed() && path in records && records[path] == r.Managed()[path]
  }

  lemma UnwantedFiles(k: Kit, r: Repo, d: Distribution, path: string)
    requires path in r.Managed() && !d.Wants(path) && path in r.tree
    ensures var p := FilesApplied(k, r, d);
      if Removable(k, r, path) then Gone(p.tree, p.managed, path) && p.acted else Kept(r, p.tree, p.managed, path)
  {
    UnwantedUntargeted(k, r, d, path);
    var p := Written(k, r, d, |d.files|);
    assert Stale(k, r, d, p.tree, path) <==> Removable(k, r, path);
  }

  lemma AgentsKeepUnwanted(k: Kit, r: Repo, d: Distribution, path: string)
    requires Applies(k, r, d) && path in r.tree && path != k.agents
    ensures SameAt(FilesApplied(k, r, d).tree, Finished(k, r, d).tree, path)
    ensures FilesApplied(k, r, d).acted ==> Finished(k, r, d).acted
  {
    FinishedTree(k, r, d);
    AgentsChange(k, r, d, FilesApplied(k, r, d), path);
  }

  /** An installation that applied removes every recorded file the release does not want and nobody changed, and its
      record; one that somebody changed stays, and stays recorded. */
  lemma UnwantedGoneIff(k: Kit, r: Repo, d: Distribution, path: string)
    requires Plannable(k, r, d) && Install(k, r, d).1.Applied?
    requires path in r.Managed() && path in r.tree && !d.Wants(path)
    ensures var after := Install(k, r, d).0;
      if r.tree[path].File? && k.hash(r.tree[path].data) == r.Managed()[path] then path !in after.tree && path !in after.Managed()
      else path in after.tree && after.tree[path] == r.tree[path] && path in after.Managed() && after.Managed()[path] == r.Managed()[path]
  {
    InstalledTree(k, r, d);
    InstalledRecords(k, r, d);
    UnwantedFiles(k, r, d, path);
    AgentsKeepUnwanted(k, r, d, path);
  }

  lemma MissingFiles(k: Kit, r: Repo, d: Distribution, path: string)
    requires Ready(k, r, d) && Applies(k, r, d) && path in r.Managed() && path !in r.tree && !d.Wants(path)
    ensures path !in FilesApplied(k, r, d).managed && path !in Finished(k, r, d).tree
  {
    forall i | 0 <= i < |d.files| ensures !Targets(k, r, d.files[i], path) {
      OldUntargeted(k, r, d, i, path);
    }
    UntargetedUnchanged(k, r, d, |d.files|, path);
    if AgentsTargets(k, r, d, path) {
      AgentsPathFree(k, r, d, path);
    }
    AfterUntargeted(k, r, d, path);
    if path in FilesApplied(k, r, d).managed {
      OldRecord(k, r, d, path);
    }
  }

  /** The record of such a file that is missing goes too, unless the installation has nothing else to do. */
  lemma MissingForgottenIff(k: Kit, r: Repo, d: Distribution, path: string)
    requires Ready(k, r, d) && Install(k, r, d).1.Applied?
    requires path in r.Managed() && path !in r.tree && !d.Wants(path)
    ensures var (after, result) := Install(k, r, d); path !in after.tree && (path in after.Managed() <==> result == Applied(true))
  {
    InstalledTree(k, r, d);
    InstalledRecords(k, r, d);
    MissingFiles(k, r, d, path);
  }

  // ---- One installation: files the release wants ----

  /** The path is the installer's to write: free, already as wanted, or still as it was recorded. */
  predicate Ours(k: Kit, r: Repo, item: Item) {
    item.path !in r.tree || HoldsSame(k.hash, r.tree, item.path, item.data) || Removable(k, r, item.path)
  }

  /** The proposal lies beside the file, under the first of its candidate names that was free or held the same already. */
  ghost predicate ProposedAt(k: Kit, r: Repo, after: Tree, item: Item, j: nat) {
    && HoldsSame(k.hash, after, k.name(item.path, j), item.data)
    && forall l :: 0 <= l < j ==> Taken(k.hash, r.tree, k.name(item.path, l), item.data)
  }

  /** In place and recorded; or left alone, with the record it had, and proposed beside it. */
  ghost predicate Settles(k: Kit, r: Repo, item: Item, tree: Tree, records: map<string, Digest>) {
    if Ours(k, r, item) then
      HoldsSame(k.hash, tree, item.path, item.data) && item.path in records && records[item.path] == k.hash(item.data)
    else
      && SameAt(r.tree, tree, item.path)
      && (item.path in records <==> item.path in r.Managed()) && (item.path in records ==> records[item.path] == r.Managed()[item.path])
      && exists j :: ProposedAt(k, r, tree, item, j)
  }

  lemma OursIff(k: Kit, r: Repo, item: Item)
    requires !ItemAction(k, r, item).Blocked?
    ensures var action := ItemAction(k, r, item); Ours(k, r, item) <==> action.Create? || action.Noop? || action.Update?
  {
  }

  lemma OursSettle(k: Kit, r: Repo, d: Distribution, i: nat)
    requires Ready(k, r, d) && Applies(k, r, d) && i < |d.files| && Ours(k, r, d.files[i])
    ensures HoldsSame(k.hash, Finished(k, r, d).tree, d.files[i].path, d.files[i].data)
  {
    NotBlocked(k, r, d, i);
    OursIff(k, r, d.files[i]);
    if ItemAction(k, r, d.files[i]).Noop? {
      NoopHolds(k, r, d.files[i]);
      OwnPathUntargeted(k, r, d, i);
      WantsItem(d, i);
      AfterUntargeted(k, r, d, d.files[i].path);
    } else {
      AfterTargeted(k, r, d, i, d.files[i].path);
    }
  }

  lemma TheirsProposed(k: Kit, r: Repo, d: Distribution, i: nat) returns (j: nat)
    requires Ready(k, r, d) && Applies(k, r, d) && i < |d.files| && !Ours(k, r, d.files[i])
    ensures SameAt(r.tree, Finished(k, r, d).tree, d.files[i].path) && ProposedAt(k, r, Finished(k, r, d).tree, d.files[i], j)
  {
    var item := d.files[i];
    NotBlocked(k, r, d, i);
    OursIff(k, r, item);
    OwnPathUntargeted(k, r, d, i);
    WantsItem(d, i);
    AfterUntargeted(k, r, d, item.path);
    j := Search(k.hash, k.name, r.tree, item.path, item.data);
    SearchFound(k.hash, k.name, r.tree, item.path, item.data);
    var c := k.name(item.path, j);
    if ItemAction(k, r, item).Conflict? {
      AfterTargeted(k, r, d, i, c);
    } else {
      assert NameFree(k, r, d, item.path, j);
      UnreservedKept(k, r, d, c);
    }
  }

  /** An installation that wrote its manifest settles every wanted file. */
  lemma WantedSettles(k: Kit, r: Repo, d: Distribution, i: nat)
    requires Ready(k, r, d) && Install(k, r, d).1 == Applied(false) && i < |d.files|
    ensures Settles(k, r, d.files[i], Install(k, r, d).0.tree, Install(k, r, d).0.Managed())
  {
    InstalledTree(k, r, d);
    InstalledRecords(k, r, d);
    NotBlocked(k, r, d, i);
    OursIff(k, r, d.files[i]);
    WrittenRecord(k, r, d, |d.files|, i);
    AppliedRecord(k, r, d, i);
    if Ours(k, r, d.files[i]) {
      OursSettle(k, r, d, i);
    } else {
      var j := TheirsProposed(k, r, d, i);
    }
  }

  /** One that had nothing to do found every wanted file in place, or proposed already. */
  lemma NothingToSettle(k: Kit, r: Repo, d: Distribution, i: nat)
    requires Ready(k, r, d) && Install(k, r, d).1 == Applied(true) && i < |d.files|
    ensures Install(k, r, d).0 == r
    ensures if Ours(k, r, d.files[i]) then HoldsSame(k.hash, r.tree, d.files[i].path, d.files[i].data)
            else exists j :: ProposedAt(k, r, r.tree, d.files[i], j)
  {
    InstalledTree(k, r, d);
    NoopInstallIsIdentity(k, r, d);
    if Ours(k, r, d.files[i]) {
      OursSettle(k, r, d, i);
    } else {
      var j := TheirsProposed(k, r, d, i);
    }
  }

  // ---- Any sequence of releases, beside a user's files ----

  /** The release can be put beside these files: it wants none of their paths. */
  ghost predicate Apart(k: Kit, user: Tree, d: Distribution) {
    d.Proper(k) && A.CleanRules(k.markers, d.rules) && forall i :: 0 <= i < |d.files| ==> d.files[i].path !in user
  }

  /** The item is in place and recorded. */
  predicate InPlace(k: Kit, r: Repo, item: Item) {
    HoldsSame(k.hash, r.tree, item.path, item.data) && item.path in r.Managed() && r.Managed()[item.path] == k.hash(item.data)
  }

  ghost predicate OnlyPaths(k: Kit, user: Tree, tree: Tree, d: Distribution) {
    && (forall q :: q in tree <==> q in user || d.Wants(q) || q == k.agents)
    && (forall q :: q in user && q != k.agents ==> q in tree && tree[q] == user[q])
  }

  /** AGENTS.md holds the block of this release, after the user's own text and before nothing. */
  predicate RulesStand(k: Kit, before: string, text: string, d: Distribution) {
    && A.HasMarkers(k.markers, text) && A.WellFormed(k.markers, text)
    && A.Extract(k.markers, text).Block? && k.hash(A.Extract(k.markers, text).text) == k.hash(d.Block(k))
    && A.RStrip(A.Head(text, k.markers.begin)) == A.RStrip(before) && A.AfterBlock(k.markers, text) == "\n"
  }

  /** Each file of the release is in place, and nothing else is recorded. */
  ghost predicate FilesStand(k: Kit, r: Repo, d: Distribution) {
    && (forall i :: 0 <= i < |d.files| ==> InPlace(k, r, d.files[i]))
    && (forall q :: q in r.Managed() ==> d.Wants(q))
  }

  /** The repository holds the user's files, exactly this release, and its rules; and the manifest records just that. */
  ghost predicate Stands(k: Kit, user: Tree, r: Repo, d: Distribution) {
    && OnlyPaths(k, user, r.tree, d) && FilesStand(k, r, d)
    && r.manifest.Some? && r.BlockHash() == Some(k.hash(d.Block(k)))
    && k.agents in r.tree && r.tree[k.agents].File? && RulesStand(k, AgentsText(k, user), r.tree[k.agents].data, d)
  }

  /** The installation meets no conflict: each path is free, already as wanted, or as recorded. */
  ghost predicate Smooth(k: Kit, r: Repo, d: Distribution) {
    forall i :: 0 <= i < |d.files| ==> var action := ItemAction(k, r, d.files[i]); action.Create? || action.Noop? || action.Update?
  }

  lemma SmoothItem(k: Kit, r: Repo, d: Distribution, i: nat)
    requires Smooth(k, r, d) && i < |d.files|
    ensures var action := ItemAction(k, r, d.files[i]); action.Create? || action.Noop? || action.Update?
  {
  }

  lemma {:induction false} OwnWritten(k: Kit, r: Repo, d: Distribution, n: nat, i: nat)
    requires d.Proper(k) && Smooth(k, r, d) && i < n <= |d.files|
    ensures HoldsSame(k.hash, Written(k, r, d, n).tree, d.files[i].path, d.files[i].data)
  {
    var p, item := Written(k, r, d, n - 1), d.files[n - 1];
    SmoothItem(k, r, d, n - 1);
    if i < n - 1 {
      OwnWritten(k, r, d, n - 1, i);
    } else if ItemAction(k, r, item).Noop? {
      forall j | 0 <= j < n - 1 ensures !Targets(k, r, d.files[j], item.path) {
        SmoothItem(k, r, d, j);
      }
      UntargetedUnchanged(k, r, d, n - 1, item.path);
    }
  }

  lemma SmoothWrites(k: Kit, r: Repo, d: Distribution, q: string)
    requires Smooth(k, r, d) && !d.Wants(q)
    ensures SameAt(r.tree, Written(k, r, d, |d.files|).tree, q)
  {
    forall i | 0 <= i < |d.files| ensures !Targets(k, r, d.files[i], q) {
      SmoothItem(k, r, d, i);
      WantsItem(d, i);
    }
    UntargetedUnchanged(k, r, d, |d.files|, q);
  }

  /** Before AGENTS.md is looked at, a smooth installation has left of the paths it does not want those that were not
      recorded, and has put and recorded each that it wants. */
  lemma SmoothFiles(k: Kit, r: Repo, d: Distribution, q: string)
    requires Smooth(k, r, d) && !d.Wants(q) && (q in r.Managed() && q in r.tree ==> Removable(k, r, q))
    ensures var p := FilesApplied(k, r, d);
      && q !in p.managed && (if q in r.Managed() then q !in p.tree else SameAt(r.tree, p.tree, q))
  {
    SmoothWrites(k, r, d, q);
    if q in Written(k, r, d, |d.files|).managed {
      WrittenRecords(k, r, d, |d.files|, q);
    }
  }

  lemma SmoothItems(k: Kit, r: Repo, d: Distribution, i: nat)
    requires d.Proper(k) && Smooth(k, r, d) && i < |d.files|
    ensures var p, item := FilesApplied(k, r, d), d.files[i];
      HoldsSame(k.hash, p.tree, item.path, item.data) && item.path in p.managed && p.managed[item.path] == k.hash(item.data)
  {
    SmoothItem(k, r, d, i);
    OwnWritten(k, r, d, |d.files|, i);
    WrittenRecord(k, r, d, |d.files|, i);
    AppliedRecord(k, r, d, i);
    WantsItem(d, i);
  }

  // ---- One upgrade ----

  lemma WantedBy(d: Distribution, path: string) returns (i: nat)
    requires d.Wants(path)
    ensures i < |d.files| && d.files[i].path == path
  {
    i :| 0 <= i < |d.files| && d.files[i].path == path;
  }

  lemma StandingRemovable(k: Kit, user: Tree, r: Repo, d: Distribution, q: string)
    requires Stands(k, user, r, d) && q in r.Managed()
    ensures Removable(k, r, q)
  {
    var i := WantedBy(d, q);
    assert InPlace(k, r, d.files[i]);
  }

  lemma UpgradeItem(k: Kit, user: Tree, r: Repo, d: Distribution, item: Item)
    requires Stands(k, user, r, d) && item.path !in user && item.path != k.agents
    ensures var action := ItemAction(k, r, item); action.Create? || action.Noop? || action.Update?
  {
    if item.path in r.tree {
      var i := WantedBy(d, item.path);
      assert InPlace(k, r, d.files[i]);
    }
  }

  lemma UpgradeRules(k: Kit, user: Tree, r: Repo, d: Distribution, next: Distribution)
    requires Stands(k, user, r, d)
    ensures AgentsActionOf(k, r, next) == if k.hash(next.Block(k)) == k.hash(d.Block(k)) then Current else UpdateBlock
  {
  }

  lemma UpgradeSmooth(k: Kit, user: Tree, r: Repo, d: Distribution, next: Distribution)
    requires Stands(k, user, r, d) && Apart(k, user, d) && Apart(k, user, next)
    ensures Applies(k, r, next) && Smooth(k, r, next)
  {
    forall i | 0 <= i < |next.files|
      ensures var action := ItemAction(k, r, next.files[i]); action.Create? || action.Noop? || action.Update?
    {
      WantsItem(next, i);
      UpgradeItem(k, user, r, d, next.files[i]);
    }
    UpgradeRules(k, user, r, d, next);
  }

  lemma SmoothTree(k: Kit, r: Repo, d: Distribution, q: string)
    requires Applies(k, r, d) && !AgentsActionOf(k, r, d).AgentsConflict?
    ensures q != k.agents ==> SameAt(FilesApplied(k, r, d).tree, Finished(k, r, d).tree, q)
    ensures Finished(k, r, d).managed == FilesApplied(k, r, d).managed
  {
    FinishedTree(k, r, d);
    AgentsKeepRecords(k, FilesApplied(k, r, d), d, AgentsActionOf(k, r, d));
    if q != k.agents {
      AppliedElsewhere(k, FilesApplied(k, r, d), d, AgentsActionOf(k, r, d), q);
    }
  }

  lemma UpgradePaths(k: Kit, user: Tree, r: Repo, d: Distribution, next: Distribution, q: string)
    requires Stands(k, user, r, d) && Apart(k, user, d) && Apart(k, user, next) && Applies(k, r, next) && q != k.agents
    ensures q in Finished(k, r, next).tree <==> q in user || next.Wants(q)
    ensures q in user ==> SameAt(r.tree, Finished(k, r, next).tree, q)
    ensures q in FilesApplied(k, r, next).managed ==> next.Wants(q)
  {
    UpgradeSmooth(k, user, r, d, next);
    UpgradeRules(k, user, r, d, next);
    SmoothTree(k, r, next, q);
    if next.Wants(q) {
      var i := WantedBy(next, q);
      SmoothItems(k, r, next, i);
    } else {
      if q in r.Managed() {
        StandingRemovable(k, user, r, d, q);
        var i := WantedBy(d, q);
      }
      SmoothFiles(k, r, next, q);
      UnmanagedUnwanted(k, user, r, d, q);
    }
  }

  lemma UnmanagedUnwanted(k: Kit, user: Tree, r: Repo, d: Distribution, q: string)
    requires Stands(k, user, r, d)
    ensures d.Wants(q) <==> q in r.Managed()
  {
    if d.Wants(q) {
      var i := WantedBy(d, q);
      assert InPlace(k, r, d.files[i]);
    }
  }

  lemma UpgradedText(k: Kit, user: Tree, r: Repo, d: Distribution, next: Distribution)
    requires k.markers.Usable() && Stands(k, user, r, d) && Apart(k, user, next) && Applies(k, r, next)
    ensures k.agents in Finished(k, r, next).tree && Finished(k, r, next).tree[k.agents].File?
    ensures RulesStand(k, AgentsText(k, user), Finished(k, r, next).tree[k.agents].data, next)
  {
    var text := r.tree[k.agents].data;
    UpgradeRules(k, user, r, d, next);
    FinishedText(k, r, next);
    AgentsStays(k, r, next);
    if Rewrites(k, r, next) {
      A.TextAroundSurvives(k.markers, text, next.rules);
      A.ReplacedBlock(k.markers, text, next.rules);
    }
  }

  lemma AgentsStays(k: Kit, r: Repo, d: Distribution)
    requires Applies(k, r, d) && k.agents in r.tree && !AgentsActionOf(k, r, d).AgentsConflict?
    ensures k.agents in Finished(k, r, d).tree && Finished(k, r, d).tree[k.agents] == File(AgentsText(k, Finished(k, r, d).tree))
  {
    FinishedTree(k, r, d);
    AgentsUntouched(k, r, d, |d.files|);
    AgentsStaysFile(k, r, d);
  }

  lemma UpgradedItem(k: Kit, user: Tree, r: Repo, d: Distribution, next: Distribution, i: nat)
    requires Stands(k, user, r, d) && Apart(k, user, d) && Apart(k, user, next) && Applies(k, r, next) && i < |next.files|
    ensures var item := next.files[i]; var p := FilesApplied(k, r, next);
      && HoldsSame(k.hash, Finished(k, r, next).tree, item.path, item.data)
      && item.path in p.managed && p.managed[item.path] == k.hash(item.data)
  {
    UpgradeSmooth(k, user, r, d, next);
    UpgradeRules(k, user, r, d, next);
    WantsItem(next, i);
    SmoothTree(k, r, next, next.files[i].path);
    SmoothItems(k, r, next, i);
  }

  lemma UpgradedPaths(k: Kit, user: Tree, r: Repo, d: Distribution, next: Distribution)
    requires k.markers.Usable() && Stands(k, user, r, d) && Apart(k, user, d) && Apart(k, user, next) && Applies(k, r, next)
    ensures OnlyPaths(k, user, Finished(k, r, next).tree, next)
  {
    UpgradedText(k, user, r, d, next);
    forall q
      ensures q in Finished(k, r, next).tree <==> q in user || next.Wants(q) || q == k.agents
      ensures q in user && q != k.agents ==> q in Finished(k, r, next).tree && Finished(k, r, next).tree[q] == user[q]
    {
      if q != k.agents {
        UpgradePaths(k, user, r, d, next, q);
      }
    }
  }

  /** The repository with the manifest of an installation that wrote one. */
  ghost function Recorded(k: Kit, r: Repo, d: Distribution): Repo
    requires Applies(k, r, d)
  {
    Repo(Finished(k, r, d).tree, Some(Manifest(FilesApplied(k, r, d).managed, Some(k.hash(d.Block(k))))))
  }

  lemma UpgradeRecords(k: Kit, user: Tree, r: Repo, d: Distribution, next: Distribution, q: string)
    requires Stands(k, user, r, d) && Apart(k, user, d) && Apart(k, user, next) && Applies(k, r, next)
    ensures q in FilesApplied(k, r, next).managed ==> next.Wants(q)
  {
    if q == k.agents {
      AgentsUnmanaged(k, r, next);
    } else {
      UpgradePaths(k, user, r, d, next, q);
    }
  }

  lemma UpgradeFiles(k: Kit, user: Tree, r: Repo, d: Distribution, next: Distribution)
    requires Stands(k, user, r, d) && Apart(k, user, d) && Apart(k, user, next) && Applies(k, r, next)
    ensures FilesStand(k, Recorded(k, r, next), next)
  {
    forall i | 0 <= i < |next.files| ensures InPlace(k, Recorded(k, r, next), next.files[i]) {
      UpgradedItem(k, user, r, d, next, i);
    }
    forall q | q in FilesApplied(k, r, next).managed ensures next.Wants(q) {
      UpgradeRecords(k, user, r, d, next, q);
    }
  }

  /** An upgrade that wrote its manifest. */
  lemma UpgradeWritten(k: Kit, user: Tree, r: Repo, d: Distribution, next: Distribution)
    requires k.markers.Usable() && Stands(k, user, r, d) && Apart(k, user, d) && Apart(k, user, next) && Applies(k, r, next)
    ensures Stands(k, user, Recorded(k, r, next), next)
  {
    UpgradedPaths(k, user, r, d, next);
    UpgradedText(k, user, r, d, next);
    UpgradeFiles(k, user, r, d, next);
  }

  lemma AgentsUnmanaged(k: Kit, r: Repo, d: Distribution)
    requires Plannable(k, r, d)
    ensures k.agents !in FilesApplied(k, r, d).managed
  {
    if k.agents in FilesApplied(k, r, d).managed {
      OldRecord(k, r, d, k.agents);
    }
  }

  lemma RewritingActs(k: Kit, r: Repo, d: Distribution)
    requires Applies(k, r, d) && Rewrites(k, r, d)
    ensures Finished(k, r, d).acted
  {
    FinishedTree(k, r, d);
  }

  /** An upgrade that had nothing to do: the releases ship the same under the digest. */
  lemma UpgradeIdle(k: Kit, user: Tree, r: Repo, d: Distribution, next: Distribution)
    requires k.markers.Usable() && Stands(k, user, r, d) && Apart(k, user, d) && Apart(k, user, next) && Applies(k, r, next)
    requires Finished(k, r, next).tree == r.tree && !Finished(k, r, next).acted
    ensures Stands(k, user, r, next)
  {
    UpgradedPaths(k, user, r, d, next);
    UpgradedText(k, user, r, d, next);
    UpgradeRules(k, user, r, d, next);
    if Rewrites(k, r, next) {
      RewritingActs(k, r, next);
    }
    forall i | 0 <= i < |next.files| ensures InPlace(k, r, next.files[i]) {
      UpgradedItem(k, user, r, d, next, i);
      WantsItem(next, i);
      var j := WantedBy(d, next.files[i].path);
      assert InPlace(k, r, d.files[j]);
    }
    forall q | q in r.Managed() ensures next.Wants(q) {
      var i := WantedBy(d, q);
      assert InPlace(k, r, d.files[i]);
    }
  }

  /** Installing a release over another one replaces it: every file of the old one that the new one lacks is gone. */
  lemma UpgradeStands(k: Kit, user: Tree, r: Repo, d: Distribution, next: Distribution)
    requires k.markers.Usable() && Stands(k, user, r, d) && Apart(k, user, d) && Apart(k, user, next)
    ensures Plannable(k, r, next) && Install(k, r, next).1.Applied? && Stands(k, user, Install(k, r, next).0, next)
  {
    UpgradeSmooth(k, user, r, d, next);
    InstalledRecords(k, r, next);
    if Install(k, r, next).1 == Applied(true) {
      NoopInstallIsIdentity(k, r, next);
      UpgradeIdle(k, user, r, d, next);
    } else {
      assert Install(k, r, next).0 == Recorded(k, r, next);
      UpgradeWritten(k, user, r, d, next);
    }
  }

  // ---- The first installation, and any number of upgrades ----

  /** The user's own files, before the toolkit came: their AGENTS.md, if any, is a file without a BEGIN marker. */
  predicate Untouched(k: Kit, user: Tree) {
    (k.agents in user ==> user[k.agents].File?) && !A.Contains(AgentsText(k, user), k.markers.begin)
  }

  lemma FirstSmooth(k: Kit, user: Tree, d: Distribution)
    requires Untouched(k, user) && Apart(k, user, d)
    ensures var r := Repo(user, None); Applies(k, r, d) && Smooth(k, r, d) && AgentsActionOf(k, r, d).Merge?
  {
  }

  lemma FirstPaths(k: Kit, user: Tree, d: Distribution)
    requires Untouched(k, user) && Apart(k, user, d)
    ensures var r := Repo(user, None); Applies(k, r, d) && OnlyPaths(k, user, Finished(k, r, d).tree, d)
  {
    var r := Repo(user, None);
    FirstSmooth(k, user, d);
    MergeWritesFile(k, r, d);
    forall q
      ensures q in Finished(k, r, d).tree <==> q in user || d.Wants(q) || q == k.agents
      ensures q in user && q != k.agents ==> q in Finished(k, r, d).tree && Finished(k, r, d).tree[q] == user[q]
    {
      SmoothTree(k, r, d, q);
      if d.Wants(q) {
        var i := WantedBy(d, q);
        SmoothItems(k, r, d, i);
      } else {
        SmoothFiles(k, r, d, q);
      }
    }
  }

  lemma FirstRules(k: Kit, user: Tree, d: Distribution)
    requires k.markers.Usable() && Untouched(k, user) && Apart(k, user, d)
    ensures var r := Repo(user, None);
      && Applies(k, r, d) && k.agents in Finished(k, r, d).tree && Finished(k, r, d).tree[k.agents].File?
      && RulesStand(k, AgentsText(k, user), Finished(k, r, d).tree[k.agents].data, d)
  {
    var r := Repo(user, None);
    FirstSmooth(k, user, d);
    MergeWritesFile(k, r, d);
    FinishedText(k, r, d);
    A.ReplacedBlock(k.markers, AgentsText(k, user), d.rules);
    A.StripTwice(AgentsText(k, user));
  }

  lemma FirstFiles(k: Kit, user: Tree, d: Distribution)
    requires Untouched(k, user) && Apart(k, user, d)
    ensures var r := Repo(user, None); Applies(k, r, d) && FilesStand(k, Recorded(k, r, d), d)
  {
    var r := Repo(user, None);
    FirstSmooth(k, user, d);
    forall i | 0 <= i < |d.files| ensures InPlace(k, Recorded(k, r, d), d.files[i]) {
      SmoothItems(k, r, d, i);
      WantsItem(d, i);
      SmoothTree(k, r, d, d.files[i].path);
    }
    forall q | q in FilesApplied(k, r, d).managed ensures d.Wants(q) {
      if !d.Wants(q) { SmoothFiles(k, r, d, q); }
    }
  }

  lemma FirstStands(k: Kit, user: Tree, d: Distribution)
    requires k.markers.Usable() && Untouched(k, user) && Apart(k, user, d)
    ensures var r := Repo(user, None); Plannable(k, r, d) && Install(k, r, d).1.Applied? && Stands(k, user, Install(k, r, d).0, d)
  {
    FirstPaths(k, user, d);
    FirstRules(k, user, d);
    FirstFiles(k, user, d);
    InstalledRecords(k, Repo(user, None), d);
    assert Install(k, Repo(user, None), d).0 == Recorded(k, Repo(user, None), d);
  }

  /** Installing one release after the other. */
  ghost function InstallAll(k: Kit, r: Repo, releases: seq<Distribution>): Repo {
    if releases == [] then r
    else
      var before := InstallAll(k, r, releases[..|releases| - 1]);
      if Plannable(k, before, releases[|releases| - 1]) then Install(k, before, releases[|releases| - 1]).0 else before
  }

  /** Whatever releases were installed before it, the last one is what stands beside the user's files: its files and
      no others, recorded one by one, and its rules behind the user's own. */
  lemma {:induction false} LastReleaseStands(k: Kit, user: Tree, releases: seq<Distribution>)
    requires k.markers.Usable() && Untouched(k, user) && releases != [] && forall d :: d in releases ==> Apart(k, user, d)
    ensures Stands(k, user, InstallAll(k, Repo(user, None), releases), releases[|releases| - 1])
  {
    var n := |releases| - 1;
    assert releases[n] in releases;
    if n == 0 {
      assert InstallAll(k, Repo(user, None), releases[..n]) == Repo(user, None);
      FirstStands(k, user, releases[0]);
    } else {
      var before := InstallAll(k, Repo(user, None), releases[..n]);
      assert releases[n - 1] in releases;
      LastReleaseStands(k, user, releases[..n]);
      UpgradeStands(k, user, before, releases[n - 1], releases[n]);
    }
  }

  lemma SameFile(k: Kit, user: Tree, r: Repo, s: Repo, d: Distribution, q: string)
    requires Injective(k.hash) && Stands(k, user, r, d) && Stands(k, user, s, d) && q != k.agents
    ensures SameAt(r.tree, s.tree, q)
  {
    if d.Wants(q) {
      var i := WantedBy(d, q);
      assert InPlace(k, r, d.files[i]) && InPlace(k, s, d.files[i]);
    }
  }

  lemma SameRecord(k: Kit, user: Tree, r: Repo, s: Repo, d: Distribution, q: string)
    requires Stands(k, user, r, d) && Stands(k, user, s, d)
    ensures q in r.Managed() <==> q in s.Managed()
    ensures q in r.Managed() ==> r.Managed()[q] == s.Managed()[q]
  {
    UnmanagedUnwanted(k, user, r, d, q);
    UnmanagedUnwanted(k, user, s, d, q);
    if d.Wants(q) {
      var i := WantedBy(d, q);
      assert InPlace(k, r, d.files[i]) && InPlace(k, s, d.files[i]);
    }
  }

  lemma SameElsewhere(t: Tree, u: Tree, path: string)
    requires forall q :: q != path ==> SameAt(t, u, q)
    ensures t - {path} == u - {path}
  {
    var a, b := t - {path}, u - {path};
    forall q ensures (q in a <==> q in b) && (q in a ==> a[q] == b[q]) {
      assert q != path ==> SameAt(t, u, q);
    }
    assert a.Keys == b.Keys;
  }

  lemma StandsOnce(k: Kit, user: Tree, r: Repo, s: Repo, d: Distribution)
    requires Injective(k.hash) && Stands(k, user, r, d) && Stands(k, user, s, d)
    ensures r.tree - {k.agents} == s.tree - {k.agents} && r.manifest == s.manifest
  {
    forall q | q != k.agents ensures SameAt(r.tree, s.tree, q) {
      SameFile(k, user, r, s, d, q);
    }
    SameElsewhere(r.tree, s.tree, k.agents);
    SameRecords(k, user, r, s, d);
  }

  lemma SameRecords(k: Kit, user: Tree, r: Repo, s: Repo, d: Distribution)
    requires Stands(k, user, r, d) && Stands(k, user, s, d)
    ensures r.manifest == s.manifest
  {
    forall q ensures q in r.Managed() <==> q in s.Managed()
      ensures q in r.Managed() ==> r.Managed()[q] == s.Managed()[q]
    {
      SameRecord(k, user, r, s, d, q);
    }
    assert r.Managed() == s.Managed();
  }

  /** So the way there does not matter: with an injective digest, any two sequences that end with the same release leave
      the same files outside AGENTS.md, and the same records. */
  lemma OnlyLastMatters(k: Kit, user: Tree, releases: seq<Distribution>, others: seq<Distribution>)
    requires k.markers.Usable() && Injective(k.hash) && Untouched(k, user) && releases != [] && others != []
    requires (forall d :: d in releases ==> Apart(k, user, d)) && (forall d :: d in others ==> Apart(k, user, d))
    requires releases[|releases| - 1] == others[|others| - 1]
    ensures var r, s := InstallAll(k, Repo(user, None), releases), InstallAll(k, Repo(user, None), others);
      r.tree - {k.agents} == s.tree - {k.agents} && r.manifest == s.manifest
  {
    LastReleaseStands(k, user, releases);
    LastReleaseStands(k, user, others);
    StandsOnce(k, user, InstallAll(k, Repo(user, None), releases), InstallAll(k, Repo(user, None), others), releases[|releases| - 1]);
  }

  // ---- Uninstalling after any number of upgrades ----

  lemma {:induction false} RulesGo(k: Kit, before: string, text: string, d: Distribution)
    requires RulesStand(k, before, text, d)
    ensures A.Remove(k.markers, text) == if A.BlankText(before) then "" else A.RStrip(before) + "\n"
  {
    A.JoinedWithBreak(A.Head(text, k.markers.begin));
    A.StripIdempotent(before);
    A.StripIdempotent(A.RStrip(before));
  }

  lemma StandingFilesGo(k: Kit, user: Tree, r: Repo, d: Distribution, q: string)
    requires Stands(k, user, r, d) && Apart(k, user, d) && q != k.agents
    ensures SameAt(user, FilesRemoved(k, r), q)
  {
    UnmanagedUnwanted(k, user, r, d, q);
    if q in r.Managed() {
      StandingRemovable(k, user, r, d, q);
      var i := WantedBy(d, q);
    }
  }

  lemma StandingUninstalls(k: Kit, user: Tree, r: Repo, d: Distribution)
    requires Stands(k, user, r, d) && Apart(k, user, d)
    ensures var text := r.tree[k.agents].data;
      Uninstall(k, r) == (Repo(WithAgents(k, FilesRemoved(k, r), A.Remove(k.markers, text)), None), Applied(true))
  {
    var text := r.tree[k.agents].data;
    forall q | q in r.Managed() ensures Removable(k, r, q) {
      StandingRemovable(k, user, r, d, q);
    }
    RemovableLeavesNothing(k, r);
    UnmanagedUnwanted(k, user, r, d, k.agents);
    UnmanagedNotRemoved(k, r, k.agents);
    BlockUninstalls(k, r, text, A.Extract(k.markers, text).text);
  }

  lemma StandingRestored(k: Kit, user: Tree, r: Repo, d: Distribution)
    requires Stands(k, user, r, d) && Apart(k, user, d)
    ensures var (after, result) := Uninstall(k, r); var before := AgentsText(k, user);
      && result == Applied(true) && after.manifest.None? && after.tree - {k.agents} == user - {k.agents}
      && (if A.BlankText(before) then k.agents !in after.tree
          else k.agents in after.tree && after.tree[k.agents] == File(A.RStrip(before) + "\n"))
  {
    var text := r.tree[k.agents].data;
    StandingUninstalls(k, user, r, d);
    RulesGo(k, AgentsText(k, user), text, d);
    var after := WithAgents(k, FilesRemoved(k, r), A.Remove(k.markers, text));
    forall q | q != k.agents ensures SameAt(after, user, q) {
      StandingFilesGo(k, user, r, d, q);
      WithAgentsElsewhere(k, FilesRemoved(k, r), A.Remove(k.markers, text), q);
    }
    SameElsewhere(after, user, k.agents);
  }

  /** However many releases were installed, uninstalling leaves the user's files, their own AGENTS.md right-trimmed or
      none where it was blank, and no manifest. */
  lemma UninstallRestores(k: Kit, user: Tree, releases: seq<Distribution>)
    requires k.markers.Usable() && Untouched(k, user) && releases != [] && forall d :: d in releases ==> Apart(k, user, d)
    ensures var (after, result) := Uninstall(k, InstallAll(k, Repo(user, None), releases)); var before := AgentsText(k, user);
      && result == Applied(true) && after.manifest.None? && after.tree - {k.agents} == user - {k.agents}
      && (if A.BlankText(before) then k.agents !in after.tree
          else k.agents in after.tree && after.tree[k.agents] == File(A.RStrip(before) + "\n"))
  {
    LastReleaseStands(k, user, releases);
    StandingRestored(k, user, InstallAll(k, Repo(user, None), releases), releases[|releases| - 1]);
  }
}
