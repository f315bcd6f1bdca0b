/** Persisting a mesh plan next to the user's files (mesh_plan.py, write_mesh_plan). */
module MeshFiles {
  import opened Basics
  import opened Candidates

  /** A prompt or the plan itself. */
  datatype Artifact = Artifact(path: string, content: string)

  /** A file that is not there yet, or already holds this very content. */
  predicate Writable(tree: Tree, a: Artifact) {
    a.path in tree ==> tree[a.path] == File(a.content)
  }

  predicate AllWritable(tree: Tree, pending: seq<Artifact>) {
    forall i :: 0 <= i < |pending| ==> Writable(tree, pending[i])
  }

  /** The writing loop: a path that exists by then is reused, whatever it holds. */
  function WrittenTree(tree: Tree, pending: seq<Artifact>): Tree {
    if pending == [] then tree
    else
      var before, a := WrittenTree(tree, pending[..|pending| - 1]), pending[|pending| - 1];
      if a.path in before then before else before[a.path := File(a.content)]
  }

  /** The destinations that are not there yet, each once however many artifacts claim it. */
  function NewPaths(tree: Tree, pending: seq<Artifact>): set<string> {
    if pending == [] then {}
    else
      var n := |pending| - 1;
      NewPaths(tree, pending[..n]) + if pending[n].path in tree then {} else {pending[n].path}
  }

  lemma {:induction false} NewPathsAre(tree: Tree, pending: seq<Artifact>, p: string)
    ensures p in NewPaths(tree, pending) <==> p !in tree && exists i :: 0 <= i < |pending| && pending[i].path == p
  {
    if pending != [] {
      var n := |pending| - 1;
      NewPathsAre(tree, pending[..n], p);
      if i :| 0 <= i < |pending| && pending[i].path == p {
        assert i < n ==> pending[..n][i].path == p;
      }
    }
  }

  datatype Written = Written(tree: Tree, written: nat, reused: nat)

  method CheckWritable(tree: Tree, pending: seq<Artifact>) returns (ok: bool)
    ensures ok <==> AllWritable(tree, pending)
  {
    for i := 0 to |pending|
      invariant AllWritable(tree, pending[..i])
    {
      assert pending[..i + 1] == pending[..i] + [pending[i]];
      if !Writable(tree, pending[i]) {
        return false;
      }
    }
    return true;
  }

  lemma NewPathsNext(tree: Tree, before: seq<Artifact>, a: Artifact)
    ensures NewPaths(tree, before + [a]) == NewPaths(tree, before) + if a.path in tree then {} else {a.path}
  {
    assert (before + [a])[..|before|] == before;
  }

  lemma WrittenNext(tree: Tree, before: seq<Artifact>, a: Artifact)
    ensures var now := WrittenTree(tree, before);
      WrittenTree(tree, before + [a]) == if a.path in now then now else now[a.path := File(a.content)]
  {
    assert (before + [a])[..|before|] == before;
  }

  lemma {:induction false} WrittenPaths(tree: Tree, pending: seq<Artifact>)
    ensures WrittenTree(tree, pending).Keys == tree.Keys + NewPaths(tree, pending)
  {
    if pending != [] {
      WrittenPaths(tree, pending[..|pending| - 1]);
    }
  }

  /** The next artifact is written exactly when its path is a new one. */
  lemma CountNext(tree: Tree, before: seq<Artifact>, a: Artifact)
    ensures |NewPaths(tree, before + [a])| == |NewPaths(tree, before)| + if a.path in WrittenTree(tree, before) then 0 else 1
  {
    NewPathsNext(tree, before, a);
    WrittenPaths(tree, before);
    var paths := NewPaths(tree, before);
    if a.path in paths {
      assert paths + {a.path} == paths;
    }
  }

  /** The writing loop: each new path is written once, and everything else is reused. */
  method WriteArtifacts(tree: Tree, pending: seq<Artifact>) returns (w: Written)
    ensures w.tree == WrittenTree(tree, pending)
    ensures w.written == |NewPaths(tree, pending)| && w.written + w.reused == |pending|
  {
    var now, written, reused := tree, 0, 0;
    for i := 0 to |pending|
      invariant now == WrittenTree(tree, pending[..i])
      invariant written == |NewPaths(tree, pending[..i])| && written + reused == i
    {
      var a := pending[i];
      assert pending[..i + 1] == pending[..i] + [a];
      CountNext(tree, pending[..i], a);
      WrittenNext(tree, pending[..i], a);
      if a.path in now {
        reused := reused + 1;
      } else {
        now, written := now[a.path := File(a.content)], written + 1;
      }
    }
    assert pending[..|pending|] == pending;
    return Written(now, written, reused);
  }

  /** All destinations are checked before the first one is written; what is written are the new paths, once each. */
  method WriteMeshPlan(tree: Tree, pending: seq<Artifact>) returns (r: Result<Written>)
    ensures r.Ok? <==> AllWritable(tree, pending)
    ensures r.Err? ==> r.failure == ValueError
    ensures r.Ok? ==> r.value.tree == WrittenTree(tree, pending)
    ensures r.Ok? ==> r.value.written == |NewPaths(tree, pending)| && r.value.written + r.value.reused == |pending|
  {
    var ok := CheckWritable(tree, pending);
    if !ok {
      return Err(ValueError);
    }
    var w := WriteArtifacts(tree, pending);
    return Ok(w);
  }

  /** Nothing that was there changes, and every artifact's path is there with the content of its first artifact. */
  lemma {:induction false} WrittenHolds(tree: Tree, pending: seq<Artifact>)
    ensures forall p :: p in tree ==> p in WrittenTree(tree, pending) && WrittenTree(tree, pending)[p] == tree[p]
    ensures forall i :: 0 <= i < |pending| ==> pending[i].path in WrittenTree(tree, pending)
    ensures forall p :: p in WrittenTree(tree, pending) && p !in tree ==>
      exists i :: 0 <= i < |pending| && pending[i].path == p && WrittenTree(tree, pending)[p] == File(pending[i].content)
  {
    if pending != [] {
      WrittenHolds(tree, pending[..|pending| - 1]);
    }
  }

  /** No two artifacts claim one path with different contents. */
  predicate Consistent(pending: seq<Artifact>) {
    forall i, j :: 0 <= i < |pending| && 0 <= j < |pending| && pending[i].path == pending[j].path ==> pending[i].content == pending[j].content
  }

  /** Writing the same plan again succeeds, and then changes nothing, if and only if no two of its artifacts
      claim one path with different contents; otherwise the first write already lost one of them. */
  lemma WriteAgainIff(tree: Tree, pending: seq<Artifact>)
    requires AllWritable(tree, pending)
    ensures AllWritable(WrittenTree(tree, pending), pending) <==> Consistent(pending)
    ensures WrittenTree(WrittenTree(tree, pending), pending) == WrittenTree(tree, pending)
  {
    var after := WrittenTree(tree, pending);
    WrittenHolds(tree, pending);
    if Consistent(pending) {
      forall i | 0 <= i < |pending| ensures Writable(after, pending[i]) {
        if pending[i].path in tree {
          assert Writable(tree, pending[i]);
        }
      }
    }
    NothingLeft(after, pending);
  }

  lemma {:induction false} NothingLeft(tree: Tree, pending: seq<Artifact>)
    requires forall i :: 0 <= i < |pending| ==> pending[i].path in tree
    ensures WrittenTree(tree, pending) == tree
  {
    if pending != [] {
      NothingLeft(tree, pending[..|pending| - 1]);
    }
  }
}
