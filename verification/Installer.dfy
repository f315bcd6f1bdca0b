/** Planning, applying and undoing an installation into a user's repository (installer.py). */
module Installer {
  import opened Basics
  import opened Candidates
  import A = AgentsBlock

  /** The digest, the markers, the rules file and the candidate names the installer works with. */
  datatype Kit = Kit(hash: Hash, markers: A.Markers, agents: string, name: Names) {
    /** Candidate names never repeat, and none of them is the rules file. */
    ghost predicate Named() { NeverRepeats(name) && forall p, i :: name(p, i) != agents }
  }

  const AGENTS := "AGENTS.md"

  /** The installer's own kit, for any digest. */
  function ZtadKit(hash: Hash): Kit { Kit(hash, A.ZTAD, AGENTS, (p: string, i: nat) => Candidate(p, i)) }

  lemma ZtadKitIsSound(hash: Hash)
    ensures ZtadKit(hash).Named() && ZtadKit(hash).markers.Usable()
  {
    CandidateNeverRepeats();
    A.MarkersUsable();
    forall p, i ensures Candidate(p, i) != AGENTS {
      NotCandidate(p, i);
    }
  }

  lemma NotCandidate(path: string, i: nat)
    ensures Candidate(path, i) != AGENTS
  {
    if i == 0 {
      LastOf(path, SUFFIX);
    } else {
      LastOf(path + SUFFIX + ".", Decimal(i));
    }
  }

  datatype Item = Item(path: string, data: string)

  /** The files one release of the toolkit wants in place under given settings, and its agent rules. */
  datatype Distribution = Distribution(files: seq<Item>, rules: string) {
    predicate Wants(path: string) { exists i :: 0 <= i < |files| && files[i].path == path }

    /** Keys of a dictionary, which never include AGENTS.md; and a usable kit. */
    ghost predicate Proper(k: Kit) {
      k.Named() && !Wants(k.agents) && forall i, j :: 0 <= i < j < |files| ==> files[i].path != files[j].path
    }

    function Block(k: Kit): string { A.BlockOf(k.markers, rules) }
  }

  /** installation.json: the recorded hash of each managed file, and of the rule block. */
  datatype Manifest = Manifest(managed: map<string, Digest>, block: Option<Digest>)

  /** The user's files; the manifest has a place of its own. */
  datatype Repo = Repo(tree: Tree, manifest: Option<Manifest>) {
    function Managed(): map<string, Digest> { if manifest.Some? then manifest.value.managed else map[] }

    function BlockHash(): Option<Digest> { if manifest.Some? then manifest.value.block else None }
  }

  // ---- plan ----

  datatype Action = Create | Noop | Update | Conflict(candidate: string) | ConflictNoop(candidate: string) | Blocked

  datatype AgentsAction = AgentsBlocked | Merge | Current | UpdateBlock
    | AgentsConflict(candidate: string) | AgentsConflictNoop(candidate: string) | AgentsCrash

  ghost function ItemAction(k: Kit, r: Repo, item: Item): Action {
    if item.path !in r.tree then Create
    else if r.tree[item.path].Directory? then Blocked
    else if k.hash(r.tree[item.path].data) == k.hash(item.data) then Noop
    else if item.path in r.Managed() && r.Managed()[item.path] == k.hash(r.tree[item.path].data) then Update
    else
      var c := k.name(item.path, Search(k.hash, k.name, r.tree, item.path, item.data));
      if c in r.tree then ConflictNoop(c) else Conflict(c)
  }

  function AgentsText(k: Kit, tree: Tree): string {
    if k.agents in tree && tree[k.agents].File? then tree[k.agents].data else ""
  }

  ghost function AgentsActionOf(k: Kit, r: Repo, d: Distribution): AgentsAction {
    if k.agents in r.tree && r.tree[k.agents].Directory? then AgentsBlocked
    else
      match A.Extract(k.markers, AgentsText(k, r.tree))
      case Crash => AgentsCrash
      case NoBlock => Merge
      case Block(text) =>
        if k.hash(text) == k.hash(d.Block(k)) then Current
        else if r.BlockHash() == Some(k.hash(text)) then UpdateBlock
        else
          var c := k.name(k.agents, Search(k.hash, k.name, r.tree, k.agents, d.Block(k) + "\n"));
          if c in r.tree then AgentsConflictNoop(c) else AgentsConflict(c)
  }

  /** A previously managed file that is no longer distributed and still as recorded. */
  predicate Stale(k: Kit, r: Repo, d: Distribution, tree: Tree, path: string) {
    path in r.Managed() && !d.Wants(path) && path in tree && tree[path].File? && k.hash(tree[path].data) == r.Managed()[path]
  }

  ghost predicate AnyBlocked(k: Kit, r: Repo, d: Distribution) {
    AgentsActionOf(k, r, d).AgentsBlocked? || exists i :: 0 <= i < |d.files| && ItemAction(k, r, d.files[i]).Blocked?
  }

  // ---- apply_install ----

  /** What the loop has done so far: files written, files recorded, and whether anything was written or removed. */
  datatype Progress = Progress(tree: Tree, managed: map<string, Digest>, acted: bool)

  function Record(p: Progress, path: string, digest: Digest): Progress { p.(managed := p.managed[path := digest]) }

  function Write(p: Progress, path: string, data: string): Progress { p.(tree := p.tree[path := File(data)], acted := true) }

  /** A conflicting file keeps the record it had. */
  function KeepRecord(r: Repo, p: Progress, path: string): Progress {
    if path in r.Managed() then Record(p, path, r.Managed()[path]) else p
  }

  function ApplyItem(k: Kit, r: Repo, p: Progress, item: Item, action: Action): Progress {
    match action
    case Create => Record(Write(p, item.path, item.data), item.path, k.hash(item.data))
    case Update => Record(Write(p, item.path, item.data), item.path, k.hash(item.data))
    case Noop => Record(p, item.path, k.hash(item.data))
    case Conflict(c) => KeepRecord(r, Write(p, c, item.data), item.path)
    case ConflictNoop(_) => KeepRecord(r, p, item.path)
    case Blocked => p
  }

  ghost function Written(k: Kit, r: Repo, d: Distribution, n: nat): Progress
    requires n <= |d.files|
  {
    if n == 0 then Progress(r.tree, map[], false)
    else ApplyItem(k, r, Written(k, r, d, n - 1), d.files[n - 1], ItemAction(k, r, d.files[n - 1]))
  }

  /** After the loop over `old_managed`: stale files are gone, changed ones stay recorded. */
  function Cleaned(k: Kit, r: Repo, d: Distribution, p: Progress): Progress {
    var kept := map q | q in r.Managed() && !d.Wants(q) && q in p.tree && !Stale(k, r, d, p.tree, q) :: r.Managed()[q];
    Progress(map q | q in p.tree && !Stale(k, r, d, p.tree, q) :: p.tree[q], p.managed + kept,
             p.acted || exists q :: q in p.tree && Stale(k, r, d, p.tree, q))
  }

  function ApplyAgents(k: Kit, p: Progress, d: Distribution, action: AgentsAction): Progress
    requires A.Parses(k.markers, AgentsText(k, p.tree))
  {
    match action
    case Merge => Write(p, k.agents, A.Replace(k.markers, AgentsText(k, p.tree), d.Block(k)))
    case UpdateBlock => Write(p, k.agents, A.Replace(k.markers, AgentsText(k, p.tree), d.Block(k)))
    case AgentsConflict(c) => Write(p, c, d.Block(k) + "\n")
    case _ => p
  }

  /** `Raised` is the exception of a malformed AGENTS.md; the plan raises it before anything is written. */
  datatype InstallResult = FailClosed | Raised | Applied(noop: bool)

  ghost function FilesApplied(k: Kit, r: Repo, d: Distribution): Progress {
    Cleaned(k, r, d, Written(k, r, d, |d.files|))
  }

  /** AGENTS.md is none of the files the loops write or remove. */
  ghost predicate Plannable(k: Kit, r: Repo, d: Distribution) {
    d.Proper(k) && k.agents !in r.Managed()
  }

  /** Nothing blocks the plan and AGENTS.md is well-formed. */
  ghost predicate Applies(k: Kit, r: Repo, d: Distribution) {
    Plannable(k, r, d) && !AgentsActionOf(k, r, d).AgentsCrash? && !AnyBlocked(k, r, d)
  }

  /** Everything the installation does to the tree and the records. */
  ghost function Finished(k: Kit, r: Repo, d: Distribution): Progress
    requires Applies(k, r, d)
  {
    AgentsUntouched(k, r, d, |d.files|);
    ApplyAgents(k, FilesApplied(k, r, d), d, AgentsActionOf(k, r, d))
  }

  ghost function Install(k: Kit, r: Repo, d: Distribution): (Repo, InstallResult)
    requires Plannable(k, r, d)
  {
    if AgentsActionOf(k, r, d).AgentsCrash? then (r, Raised)
    else if AnyBlocked(k, r, d) then (r, FailClosed)
    else
      var p := Finished(k, r, d);
      if !p.acted && r.manifest.Some? then (Repo(p.tree, r.manifest), Applied(true))
      else (Repo(p.tree, Some(Manifest(p.managed, Some(k.hash(d.Block(k)))))), Applied(false))
  }

  // ---- uninstall ----

  predicate Removable(k: Kit, r: Repo, path: string) {
    path in r.Managed() && path in r.tree && r.tree[path].File? && k.hash(r.tree[path].data) == r.Managed()[path]
  }

  /** The files whose recorded bytes are still in place are deleted, all others stay. */
  function FilesRemoved(k: Kit, r: Repo): Tree {
    map q | q in r.tree && !Removable(k, r, q) :: r.tree[q]
  }

  function Remaining(k: Kit, r: Repo): map<string, Digest> {
    map q | q in r.Managed() && q in r.tree && !Removable(k, r, q) :: r.Managed()[q]
  }

  function WithAgents(k: Kit, tree: Tree, text: string): Tree {
    if text == "" then tree - {k.agents} else tree[k.agents := File(text)]
  }

  /** The block found in AGENTS.md once the files are gone. */
  function FoundBlock(k: Kit, tree: Tree): A.Extracted {
    if k.agents in tree && tree[k.agents].File? then A.Extract(k.markers, tree[k.agents].data) else A.NoBlock
  }

  /** The block is removed where it is as recorded. */
  function AgentsRemoved(k: Kit, r: Repo, tree: Tree): Tree
    requires !FoundBlock(k, tree).Crash?
  {
    if FoundBlock(k, tree).Block? && r.BlockHash() == Some(k.hash(FoundBlock(k, tree).text))
    then WithAgents(k, tree, A.Remove(k.markers, tree[k.agents].data)) else tree
  }

  predicate ForeignBlock(k: Kit, r: Repo, tree: Tree) {
    FoundBlock(k, tree).Block? && r.BlockHash() != Some(k.hash(FoundBlock(k, tree).text))
  }

  /** What uninstall leaves; a malformed AGENTS.md raises after the files are gone and before the manifest is. */
  function Uninstall(k: Kit, r: Repo): (Repo, InstallResult) {
    var tree := FilesRemoved(k, r);
    if FoundBlock(k, tree).Crash? then (Repo(tree, r.manifest), Raised)
    else if Remaining(k, r) != map[] || ForeignBlock(k, r, tree) then
      (Repo(AgentsRemoved(k, r, tree), Some(Manifest(Remaining(k, r), r.BlockHash()))), Applied(false))
    else (Repo(AgentsRemoved(k, r, tree), None), Applied(true))
  }

  // ---- Where the loops write ----

  /** The item writes this path. */
  ghost predicate Targets(k: Kit, r: Repo, item: Item, path: string) {
    var action := ItemAction(k, r, item);
    ((action.Create? || action.Update?) && item.path == path) || action == Conflict(path)
  }

  predicate SameAt(t: Tree, u: Tree, path: string) {
    if path in t then path in u && u[path] == t[path] else path !in u
  }

  lemma {:induction false} UntargetedUnchanged(k: Kit, r: Repo, d: Distribution, n: nat, path: string)
    requires n <= |d.files|
    requires forall i :: 0 <= i < n ==> !Targets(k, r, d.files[i], path)
    ensures SameAt(r.tree, Written(k, r, d, n).tree, path)
  {
    if n > 0 {
      UntargetedUnchanged(k, r, d, n - 1, path);
      assert !Targets(k, r, d.files[n - 1], path);
    }
  }

  lemma AgentsUntargeted(k: Kit, r: Repo, item: Item)
    requires k.Named() && item.path != k.agents
    ensures !Targets(k, r, item, k.agents)
  {
  }

  lemma {:induction false} AgentsUntouched(k: Kit, r: Repo, d: Distribution, n: nat)
    requires Plannable(k, r, d) && n <= |d.files|
    ensures SameAt(r.tree, Written(k, r, d, n).tree, k.agents)
    ensures SameAt(r.tree, Cleaned(k, r, d, Written(k, r, d, n)).tree, k.agents)
    ensures AgentsText(k, Cleaned(k, r, d, Written(k, r, d, n)).tree) == AgentsText(k, r.tree)
  {
    forall i | 0 <= i < n ensures !Targets(k, r, d.files[i], k.agents) {
      assert d.files[i].path != k.agents;
      AgentsUntargeted(k, r, d.files[i]);
    }
    UntargetedUnchanged(k, r, d, n, k.agents);
  }
}
