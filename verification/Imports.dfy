/**
 Collecting the programs a program imports, directly or through others: a work
 list that fetches every program once.
 */
module Imports {
  import opened Wrappers

  /** Program ids are numbers. */
  datatype Program = Program(imports: seq<nat>)

  /** The programs the query endpoint has, those the process has already, and the id of the credits program. */
  datatype World = World(programs: map<nat, Program>, loaded: set<nat>, credits: nat)

  predicate Wanted(w: World, id: nat) {
    id !in w.loaded && id != w.credits
  }

  /** A chain of imports from the root; only its last program may be one that cannot be fetched. */
  predicate Chain(w: World, root: Program, path: seq<nat>) {
    && path != [] && path[0] in root.imports
    && (forall k :: 0 <= k < |path| ==> Wanted(w, path[k]))
    && (forall k :: 0 <= k < |path| - 1 ==> path[k] in w.programs && path[k + 1] in w.programs[path[k]].imports)
  }

  ghost predicate Reachable(w: World, root: Program, id: nat) {
    exists path :: Chain(w, root, path) && path[|path| - 1] == id
  }

  /** The root, or a program that was imported. */
  function ProgramOf(w: World, root: Program, owner: Option<nat>): Program {
    if owner.Some? && owner.value in w.programs then w.programs[owner.value] else root
  }

  /** All imports of a program that are wanted have been imported, those before the i-th at least. */
  predicate Covered(w: World, p: Program, imported: map<nat, Program>, i: nat) {
    forall j :: 0 <= j < i && j < |p.imports| && Wanted(w, p.imports[j]) ==> p.imports[j] in imported
  }

  ghost predicate Fetched(w: World, root: Program, imported: map<nat, Program>) {
    forall id :: id in imported ==>
      id in w.programs && imported[id] == w.programs[id] && Wanted(w, id) && Reachable(w, root, id)
  }

  /** What is waiting in the queue is the root or was imported; all but that and the busy one are covered. */
  ghost predicate Waiting(w: World, root: Program, imported: map<nat, Program>, queue: seq<Program>,
                          owners: seq<Option<nat>>, busy: set<Option<nat>>) {
    && |owners| == |queue|
    && (forall k :: 0 <= k < |queue| ==> queue[k] == ProgramOf(w, root, owners[k]))
    && (forall k :: 0 <= k < |queue| && owners[k].Some? ==> owners[k].value in imported)
    && (forall owner: Option<nat> :: (owner.Some? ==> owner.value in imported) && owner !in owners && owner !in busy ==>
          var p := ProgramOf(w, root, owner);
          Covered(w, p, imported, |p.imports|))
  }

  lemma {:induction false} ReachableImport(w: World, root: Program, owner: Option<nat>, id: nat)
    requires owner.Some? ==> owner.value in w.programs && Reachable(w, root, owner.value)
    requires id in ProgramOf(w, root, owner).imports && Wanted(w, id)
    ensures Reachable(w, root, id)
  {
    match owner
    case None =>
      assert Chain(w, root, [id]) && [id][|[id]| - 1] == id;
    case Some(o) =>
      var path :| Chain(w, root, path) && path[|path| - 1] == o;
      var longer := path + [id];
      forall k | 0 <= k < |longer| - 1
        ensures longer[k] in w.programs && longer[k + 1] in w.programs[longer[k]].imports
      {
        if k == |path| - 1 {
          assert longer[k] == o && longer[k + 1] == id;
        }
      }
      assert Chain(w, root, longer) && longer[|longer| - 1] == id;
  }

  /** Once nothing is waiting, every chain has been followed. */
  lemma {:induction false} AllReached(w: World, root: Program, imported: map<nat, Program>, path: seq<nat>)
    requires Fetched(w, root, imported) && Waiting(w, root, imported, [], [], {})
    requires Chain(w, root, path)
    ensures path[|path| - 1] in imported
    decreases |path|
  {
    var last := path[|path| - 1];
    var owner := if |path| == 1 then None else Some(path[|path| - 2]);
    if |path| > 1 {
      var front := path[..|path| - 1];
      assert front[|front| - 1] == path[|path| - 2];
      AllReached(w, root, imported, front);
    }
    var p := ProgramOf(w, root, owner);
    assert owner !in [];
    assert Covered(w, p, imported, |p.imports|);
    var j :| 0 <= j < |p.imports| && p.imports[j] == last;
  }

  // ---------- The work list ----------

  predicate Distinct(ids: seq<nat>) {
    forall i, j :: 0 <= i < j < |ids| ==> ids[i] != ids[j]
  }

  lemma {:induction false} AddImport(w: World, root: Program, imported: map<nat, Program>, queue: seq<Program>,
                                     owners: seq<Option<nat>>, busy: set<Option<nat>>, id: nat)
    requires Fetched(w, root, imported) && Waiting(w, root, imported, queue, owners, busy)
    requires id in w.programs && Wanted(w, id) && Reachable(w, root, id)
    ensures Fetched(w, root, imported[id := w.programs[id]])
    ensures Waiting(w, root, imported[id := w.programs[id]], queue + [w.programs[id]], owners + [Some(id)], busy)
  {
    hide Chain, Reachable;
    var more, all := imported[id := w.programs[id]], owners + [Some(id)];
    assert all[|owners|] == Some(id);
    forall owner: Option<nat> | (owner.Some? ==> owner.value in more) && owner !in all && owner !in busy
      ensures Covered(w, ProgramOf(w, root, owner), more, |ProgramOf(w, root, owner).imports|)
    {
      assert forall o :: o in owners ==> o in all;
      assert Covered(w, ProgramOf(w, root, owner), imported, |ProgramOf(w, root, owner).imports|);
    }
  }

  /** The first program leaves the queue and is busy until its imports have been looked at. */
  lemma {:induction false} TakeFirst(w: World, root: Program, imported: map<nat, Program>, queue: seq<Program>, owners: seq<Option<nat>>)
    requires Waiting(w, root, imported, queue, owners, {}) && queue != []
    ensures owners != [] && Waiting(w, root, imported, queue[1..], owners[1..], {owners[0]})
  {
    assert forall o :: o in owners ==> o == owners[0] || o in owners[1..];
  }

  lemma {:induction false} BusyDone(w: World, root: Program, imported: map<nat, Program>, queue: seq<Program>,
                                    owners: seq<Option<nat>>, owner: Option<nat>)
    requires Waiting(w, root, imported, queue, owners, {owner})
    requires Covered(w, ProgramOf(w, root, owner), imported, |ProgramOf(w, root, owner).imports|)
    ensures Waiting(w, root, imported, queue, owners, {})
  {
  }

  lemma {:induction false} FewerLeft(all: set<nat>, before: set<nat>, after: set<nat>, id: nat)
    requires before <= after && id in all && id !in before && id in after
    ensures |all - after| < |all - before|
  {
    var left := all - before;
    assert all - after <= left - {id};
    SubsetSize(all - after, left - {id});
    SizeWithout(left, id);
  }

  lemma {:induction false} SubsetSize(a: set<nat>, b: set<nat>)
    requires a <= b
    ensures |a| <= |b|
  {
    assert b == a + (b - a);
  }

  /** How many programs are still to be imported. */
  ghost function Left(w: World, imported: map<nat, Program>): nat {
    |w.programs.Keys - imported.Keys|
  }

  /** The ids that were asked for are those imported. */
  ghost predicate Requested(requests: seq<nat>, imported: map<nat, Program>) {
    Distinct(requests) && forall id :: id in requests <==> id in imported
  }

  /** One more import of the program that is looked at. */
  lemma {:induction false} Import(w: World, root: Program, imported: map<nat, Program>, requests: seq<nat>,
                                  program: Program, i: nat)
    requires i < |program.imports| && Covered(w, program, imported, i) && Requested(requests, imported)
    requires program.imports[i] in w.programs && program.imports[i] !in imported
    ensures
      var id := program.imports[i];
      var more := imported[id := w.programs[id]];
      Covered(w, program, more, i + 1) && Requested(requests + [id], more) && Left(w, more) < Left(w, imported)
  {
    hide Covered, Requested;
    var id := program.imports[i];
    var more := imported[id := w.programs[id]];
    FewerLeft(w.programs.Keys, imported.Keys, more.Keys, id);
    MoreCovered(w, program, imported, id, i);
    MoreRequested(requests, imported, id, w.programs[id]);
  }

  lemma {:induction false} MoreCovered(w: World, program: Program, imported: map<nat, Program>, id: nat, i: nat)
    requires i < |program.imports| && Covered(w, program, imported, i) && program.imports[i] == id && id in w.programs
    ensures Covered(w, program, imported[id := w.programs[id]], i + 1)
  {
  }

  lemma {:induction false} MoreRequested(requests: seq<nat>, imported: map<nat, Program>, id: nat, p: Program)
    requires Requested(requests, imported) && id !in imported
    ensures Requested(requests + [id], imported[id := p])
  {
    var all := requests + [id];
    forall x ensures x in all <==> x in requests || x == id {
      assert all[|requests|] == id;
    }
    forall i, j | 0 <= i < j < |all| ensures all[i] != all[j] {
      if j == |requests| {
        assert all[i] in requests;
      }
    }
  }

  /** An import that is passed over. */
  lemma {:induction false} PassOver(w: World, imported: map<nat, Program>, program: Program, i: nat)
    requires i < |program.imports| && Covered(w, program, imported, i)
    requires Wanted(w, program.imports[i]) ==> program.imports[i] in imported
    ensures Covered(w, program, imported, i + 1)
  {
  }

  lemma {:induction false} ImportReachable(w: World, root: Program, imported: map<nat, Program>, program: Program,
                                           owner: Option<nat>, i: nat)
    requires Fetched(w, root, imported) && program == ProgramOf(w, root, owner) && i < |program.imports|
    requires (owner.Some? ==> owner.value in imported) && Wanted(w, program.imports[i])
    ensures Reachable(w, root, program.imports[i])
  {
    hide Chain, Reachable;
    ReachableImport(w, root, owner, program.imports[i]);
  }

  /** Fetch what one program imports and nobody imported before. */
  method FetchImports(w: World, root: Program, program: Program, ghost owner: Option<nat>,
                      imported0: map<nat, Program>, queue0: seq<Program>, ghost owners0: seq<Option<nat>>, requests0: seq<nat>)
    returns (failed: Option<nat>, imported: map<nat, Program>, queue: seq<Program>, ghost owners: seq<Option<nat>>, requests: seq<nat>)
    requires Fetched(w, root, imported0) && Waiting(w, root, imported0, queue0, owners0, {owner})
    requires program == ProgramOf(w, root, owner) && (owner.Some? ==> owner.value in imported0)
    requires Requested(requests0, imported0)
    ensures failed.Some? ==> Reachable(w, root, failed.value) && failed.value !in w.programs
    ensures Fetched(w, root, imported) && Waiting(w, root, imported, queue, owners, {owner})
    ensures failed.None? ==> Covered(w, program, imported, |program.imports|)
    ensures Requested(requests, imported)
    ensures (imported == imported0 && queue == queue0) || Left(w, imported) < Left(w, imported0)
  {
    hide Reachable, Waiting, Chain, Fetched, Covered, Requested, Left, ProgramOf;
    failed, imported, queue, owners, requests := None, imported0, queue0, owners0, requests0;
    NothingCovered(w, program, imported);
    for i := 0 to |program.imports|
      invariant Fetched(w, root, imported) && Waiting(w, root, imported, queue, owners, {owner})
      invariant owner.Some? ==> owner.value in imported
      invariant Covered(w, program, imported, i) && failed.None?
      invariant Requested(requests, imported)
      invariant (imported == imported0 && queue == queue0) || Left(w, imported) < Left(w, imported0)
    {
      var id := program.imports[i];
      if id in w.loaded || id in imported || id == w.credits {
        PassOver(w, imported, program, i);
        continue;
      }
      ImportReachable(w, root, imported, program, owner, i);
      if id !in w.programs {
        failed := Some(id);
        return;
      }
      AddImport(w, root, imported, queue, owners, {owner}, id);
      Import(w, root, imported, requests, program, i);
      imported := imported[id := w.programs[id]];
      queue := queue + [w.programs[id]];
      owners := owners + [Some(id)];
      requests := requests + [id];
    }
  }

  lemma {:induction false} NothingCovered(w: World, program: Program, imported: map<nat, Program>)
    ensures Covered(w, program, imported, 0)
  {
  }

  /**
   What is reachable through imports that are neither loaded nor the credits
   program, each fetched once; or one of these programs that cannot be fetched.
   */
  method GetImports(w: World, root: Program) returns (r: Result<map<nat, Program>, nat>, requests: seq<nat>)
    ensures r.Ok? ==> forall id :: id in r.value <==> Reachable(w, root, id)
    ensures r.Ok? ==> forall id :: id in r.value ==> id in w.programs && r.value[id] == w.programs[id]
    ensures r.Err? ==> Reachable(w, root, r.error) && r.error !in w.programs
    ensures Distinct(requests) && (r.Ok? ==> forall id :: id in requests <==> id in r.value)
  {
    hide Reachable, Waiting, Chain;
    var imported: map<nat, Program> := map[];
    var queue := [root];
    ghost var owners: seq<Option<nat>> := [None];
    requests := [];
    RootWaits(w, root);
    while queue != []
      invariant Fetched(w, root, imported) && Waiting(w, root, imported, queue, owners, {})
      invariant Requested(requests, imported)
      decreases Left(w, imported), |queue|
    {
      TakeFirst(w, root, imported, queue, owners);
      FirstIs(w, root, imported, queue, owners);
      ghost var owner := owners[0];
      var program := queue[0];
      queue, owners := queue[1..], owners[1..];
      var failed;
      failed, imported, queue, owners, requests := FetchImports(w, root, program, owner, imported, queue, owners, requests);
      if failed.Some? {
        return Err(failed.value), requests;
      }
      BusyDone(w, root, imported, queue, owners, owner);
    }
    r := Ok(imported);
    forall id | Reachable(w, root, id) ensures id in imported {
      ReachedIsImported(w, root, imported, owners, id);
    }
  }

  lemma {:induction false} RootWaits(w: World, root: Program)
    ensures Waiting(w, root, map[], [root], [None], {})
  {
    var owners: seq<Option<nat>> := [None];
    assert owners[0] == None;
  }

  lemma {:induction false} FirstIs(w: World, root: Program, imported: map<nat, Program>, queue: seq<Program>, owners: seq<Option<nat>>)
    requires Waiting(w, root, imported, queue, owners, {}) && queue != []
    ensures owners != [] && queue[0] == ProgramOf(w, root, owners[0]) && (owners[0].Some? ==> owners[0].value in imported)
  {
  }

  lemma {:induction false} ReachedIsImported(w: World, root: Program, imported: map<nat, Program>, owners: seq<Option<nat>>, id: nat)
    requires Fetched(w, root, imported) && Waiting(w, root, imported, [], owners, {}) && Reachable(w, root, id)
    ensures id in imported
  {
    assert owners == [];
    var path :| Chain(w, root, path) && path[|path| - 1] == id;
    AllReached(w, root, imported, path);
  }
}
