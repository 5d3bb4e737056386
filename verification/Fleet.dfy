/**
  Dependency layers of fleet groups (daemon/fleet.py): Kahn's algorithm over a map from group names to the
  names they depend on. Names may be referenced without being declared and may be repeated.
 */
module Fleet {
  import opened Sequences
  import opened Graphs

  type Name = nat    // only compared for equality
  type Groups = Graph<Name>

  function Deps(groups: Groups, n: Name): seq<Name> {
    if n in groups then groups[n] else []
  }

  /** Declared groups and names that are only referenced. */
  ghost function Nodes(groups: Groups): set<Name> {
    groups.Keys + set n, d | n in groups && d in groups[n] :: d
  }

  /** How many entries of a dependency list are not in done. */
  function Remaining(deps: seq<Name>, done: set<Name>): nat {
    if deps == [] then 0 else Remaining(deps[1..], done) + if deps[0] in done then 0 else 1
  }

  lemma {:induction false} RemainingZero(deps: seq<Name>, done: set<Name>)
    ensures Remaining(deps, done) == 0 <==> forall d :: d in deps ==> d in done
  {
    if deps != [] {
      RemainingZero(deps[1..], done);
      assert deps == [deps[0]] + deps[1..];
    }
  }

  lemma {:induction false} RemainingNone(deps: seq<Name>)
    ensures Remaining(deps, {}) == |deps|
  {
    if deps != [] {
      RemainingNone(deps[1..]);
    }
  }

  /** Finishing x clears every entry of x at once. */
  lemma {:induction false} RemainingDrops(deps: seq<Name>, done: set<Name>, x: Name)
    requires x !in done
    ensures Remaining(deps, done + {x}) + multiset(deps)[x] == Remaining(deps, done)
  {
    if deps != [] {
      RemainingDrops(deps[1..], done, x);
      assert deps == [deps[0]] + deps[1..];
    }
  }

  // ---- what the layers mean -------------------------------------------------------------------------------

  ghost function Union(layers: seq<set<Name>>): set<Name> {
    if layers == [] then {} else Union(layers[..|layers| - 1]) + layers[|layers| - 1]
  }

  /** Layer i holds exactly the nodes not placed before whose dependencies all are. */
  ghost predicate LayerAt(groups: Groups, layers: seq<set<Name>>, i: nat)
    requires i < |layers|
  {
    var done := Union(layers[..i]);
    forall n :: n in layers[i] <==> n in Nodes(groups) && n !in done && Remaining(Deps(groups, n), done) == 0
  }

  ghost predicate IsLayering(groups: Groups, layers: seq<set<Name>>) {
    && (forall i {:trigger LayerAt(groups, layers, i)} ::
          0 <= i < |layers| ==> LayerAt(groups, layers, i) && layers[i] != {})
    && forall n :: n in Nodes(groups) && n !in Union(layers) ==> Remaining(Deps(groups, n), Union(layers)) > 0
  }

  // ---- the algorithm --------------------------------------------------------------------------------------

  /** How often n is listed as a dependent of d. */
  function Listed(dependents: map<Name, seq<Name>>, d: Name, n: Name): nat {
    if d in dependents then multiset(dependents[d])[n] else 0
  }

  function AddDependent(dependents: map<Name, seq<Name>>, d: Name, n: Name): map<Name, seq<Name>> {
    dependents[d := (if d in dependents then dependents[d] else []) + [n]]
  }

  lemma AddDependentLists(dependents: map<Name, seq<Name>>, dep: Name, name: Name, d: Name, n: Name)
    ensures Listed(AddDependent(dependents, dep, name), d, n)
            == Listed(dependents, d, n) + if d == dep && n == name then 1 else 0
  {
  }

  /** The listings of a table, with those of the dependencies deps under one more name. */
  ghost predicate ListsMore(dependents0: map<Name, seq<Name>>, dependents: map<Name, seq<Name>>,
                            name: Name, deps: seq<Name>) {
    forall d, n :: Listed(dependents, d, n)
      == Listed(dependents0, d, n) + if n == name then multiset(deps)[d] else 0
  }

  lemma ListsOneMore(dependents0: map<Name, seq<Name>>, dependents: map<Name, seq<Name>>,
                     name: Name, deps: seq<Name>, dep: Name)
    requires ListsMore(dependents0, dependents, name, deps)
    ensures ListsMore(dependents0, AddDependent(dependents, dep, name), name, deps + [dep])
  {
    forall d, n
      ensures Listed(AddDependent(dependents, dep, name), d, n) ==
              Listed(dependents0, d, n) + if n == name then multiset(deps + [dep])[d] else 0
    {
      AddDependentLists(dependents, dep, name, d, n);
    }
  }

  /** The inner loop of the table building: one declared group with its dependency list. */
  method CountGroup(name: Name, deps: seq<Name>, inDegree0: map<Name, int>, dependents0: map<Name, seq<Name>>)
    returns (inDegree: map<Name, int>, dependents: map<Name, seq<Name>>)
    ensures forall n :: n in inDegree <==> n in inDegree0 || n == name || n in deps
    ensures forall n :: n in inDegree ==> inDegree[n] == Degree(inDegree0, n) + if n == name then |deps| else 0
    ensures ListsMore(dependents0, dependents, name, deps)
  {
    inDegree, dependents := inDegree0, dependents0;
    if name !in inDegree {
      inDegree := inDegree[name := 0];
    }
    for i := 0 to |deps|
      invariant forall n :: n in inDegree <==> n in inDegree0 || n == name || n in deps[..i]
      invariant forall n :: n in inDegree ==> inDegree[n] == Degree(inDegree0, n) + if n == name then i else 0
      invariant ListsMore(dependents0, dependents, name, deps[..i])
    {
      var dep := deps[i];
      assert deps[..i + 1] == deps[..i] + [dep];
      ListsOneMore(dependents0, dependents, name, deps[..i], dep);
      dependents := AddDependent(dependents, dep, name);
      inDegree := inDegree[name := Degree(inDegree, name) + 1];
      if dep !in inDegree {
        inDegree := inDegree[dep := 0];
      }
    }
    assert deps[..|deps|] == deps;
  }

  function Degree(inDegree: map<Name, int>, n: Name): int {
    if n in inDegree then inDegree[n] else 0
  }

  ghost function NodesOf(groups: Groups, names: set<Name>): set<Name> {
    names + set n, d | n in names && n in groups && d in groups[n] :: d
  }

  /** dependents lists n under d once for every time n names d. */
  ghost predicate ListsDependents(groups: Groups, dependents: map<Name, seq<Name>>) {
    forall d, n :: Listed(dependents, d, n) == multiset(Deps(groups, n))[d]
  }

  lemma OneNameMore(groups: Groups, names: set<Name>, more: set<Name>, name: Name)
    requires name in groups && more == names + {name}
    ensures forall n :: n in NodesOf(groups, more) <==> n in NodesOf(groups, names) || n == name || n in groups[name]
  {
  }

  method BuildTables(groups: Groups) returns (inDegree: map<Name, int>, dependents: map<Name, seq<Name>>)
    ensures forall n :: n in inDegree <==> n in Nodes(groups)
    ensures forall n :: n in inDegree ==> inDegree[n] == |Deps(groups, n)|
    ensures ListsDependents(groups, dependents)
  {
    inDegree, dependents := map[], map[];
    var todo := groups.Keys;
    while todo != {}
      invariant todo <= groups.Keys
      invariant forall n :: n in inDegree <==> n in NodesOf(groups, groups.Keys - todo)
      invariant forall n :: n in inDegree ==> inDegree[n] == if n in groups && n !in todo then |groups[n]| else 0
      invariant forall d, n :: Listed(dependents, d, n) ==
                  if n in groups && n !in todo then multiset(groups[n])[d] else 0
      decreases todo
    {
      var name := Pick(todo);
      OneNameMore(groups, groups.Keys - todo, groups.Keys - (todo - {name}), name);
      inDegree, dependents := CountGroup(name, groups[name], inDegree, dependents);
      todo := todo - {name};
    }
    assert groups.Keys - todo == groups.Keys;
    assert NodesOf(groups, groups.Keys) == Nodes(groups);
  }

  /** One finished group: its dependents lose one dependency per listing; those that reach zero are ready. */
  method Finish(list: seq<Name>, inDegree0: map<Name, int>, ready0: set<Name>)
    returns (inDegree: map<Name, int>, ready: set<Name>)
    requires forall n :: n in list ==> n in inDegree0 && multiset(list)[n] <= inDegree0[n]
    ensures inDegree.Keys == inDegree0.Keys
    ensures forall n :: n in inDegree ==> inDegree[n] == inDegree0[n] - multiset(list)[n]
    ensures forall n :: n in ready <==> n in ready0 || (n in list && inDegree[n] == 0)
  {
    inDegree, ready := inDegree0, ready0;
    for i := 0 to |list|
      invariant inDegree.Keys == inDegree0.Keys
      invariant forall n :: n in inDegree ==> inDegree[n] == inDegree0[n] - multiset(list[..i])[n]
      invariant forall n :: n in ready <==> n in ready0 || (n in list[..i] && n in inDegree && inDegree[n] == 0)
    {
      var n := list[i];
      assert list[..i + 1] == list[..i] + [n];
      assert list == list[..i + 1] + list[i + 1..];
      assert n in list && multiset(list[..i + 1]) <= multiset(list);
      inDegree := inDegree[n := inDegree[n] - 1];
      if inDegree[n] == 0 {
        ready := ready + {n};
      }
    }
    assert list[..|list|] == list;
  }

  /** The in-degrees count exactly the dependencies that are not finished. */
  ghost predicate Counts(groups: Groups, inDegree: map<Name, int>, done: set<Name>) {
    && (forall n :: n in inDegree <==> n in Nodes(groups))
    && (forall n :: n in inDegree ==> inDegree[n] == Remaining(Deps(groups, n), done))
  }

  lemma FinishCounts(groups: Groups, inDegree: map<Name, int>, inDegree': map<Name, int>, done: set<Name>,
                     name: Name, dependents: map<Name, seq<Name>>)
    requires Counts(groups, inDegree, done) && name !in done && ListsDependents(groups, dependents)
    requires inDegree'.Keys == inDegree.Keys
    requires forall n :: n in inDegree' ==> inDegree'[n] == inDegree[n] - Listed(dependents, name, n)
    ensures Counts(groups, inDegree', done + {name})
  {
    forall n | n in inDegree' ensures inDegree'[n] == Remaining(Deps(groups, n), done + {name}) {
      RemainingDrops(Deps(groups, n), done, name);
    }
  }

  lemma ListedAreNodes(groups: Groups, inDegree: map<Name, int>, done: set<Name>, name: Name,
                       dependents: map<Name, seq<Name>>, n: Name)
    requires Counts(groups, inDegree, done) && name !in done && ListsDependents(groups, dependents)
    ensures Listed(dependents, name, n) > 0 ==> n in inDegree && Listed(dependents, name, n) <= inDegree[n]
  {
    RemainingDrops(Deps(groups, n), done, name);
  }

  /** The next layer holds what has reached zero since the layer was begun with the in-degrees `first`. */
  ghost predicate Collects(first: map<Name, int>, inDegree: map<Name, int>, next: set<Name>) {
    && inDegree.Keys == first.Keys
    && (forall n :: n in first ==> 0 <= inDegree[n] <= first[n])
    && (forall n :: n in next <==> n in first && first[n] > 0 && inDegree[n] == 0)
  }

  lemma FinishCollects(first: map<Name, int>, inDegree: map<Name, int>, next: set<Name>,
                       list: seq<Name>, inDegree': map<Name, int>, next': set<Name>)
    requires Collects(first, inDegree, next) && inDegree'.Keys == inDegree.Keys
    requires forall n :: n in list ==> n in inDegree && multiset(list)[n] <= inDegree[n]
    requires forall n :: n in inDegree' ==> inDegree'[n] == inDegree[n] - multiset(list)[n]
    requires forall n :: n in next' <==> n in next || (n in list && inDegree'[n] == 0)
    ensures Collects(first, inDegree', next')
  {
    forall n | n in first
      ensures 0 <= inDegree'[n] <= first[n]
      ensures n in next' <==> first[n] > 0 && inDegree'[n] == 0
    {
      assert multiset(list)[n] > 0 <==> n in list;
    }
  }

  /** The body of the main loop: the layer is finished and the next one collected. */
  method FinishLayer(groups: Groups, layer: set<Name>, inDegree0: map<Name, int>,
                     dependents: map<Name, seq<Name>>, ghost done: set<Name>)
    returns (inDegree: map<Name, int>, next: set<Name>)
    requires Counts(groups, inDegree0, done) && ListsDependents(groups, dependents) && layer !! done
    ensures Counts(groups, inDegree, done + layer)
    ensures forall n :: n in inDegree0 ==> 0 <= inDegree[n] <= inDegree0[n]
    ensures forall n :: n in next <==> n in inDegree0 && inDegree0[n] > 0 && inDegree[n] == 0
  {
    inDegree, next := inDegree0, {};
    var todo := layer;
    ghost var finished := done;
    while todo != {}
      invariant todo <= layer && todo !! finished
      invariant finished + todo == done + layer
      invariant Counts(groups, inDegree, finished) && Collects(inDegree0, inDegree, next)
      decreases todo
    {
      var name := Pick(todo);
      var list := if name in dependents then dependents[name] else [];
      ghost var before, collected := inDegree, next;
      forall n | n in list ensures n in inDegree && multiset(list)[n] <= inDegree[n] {
        ListedAreNodes(groups, inDegree, finished, name, dependents, n);
      }
      inDegree, next := Finish(list, inDegree, next);
      FinishCounts(groups, before, inDegree, finished, name, dependents);
      FinishCollects(inDegree0, before, collected, list, inDegree, next);
      todo, finished := todo - {name}, finished + {name};
    }
    assert finished == done + layer;
  }

  /** topological_sort_groups. */
  method TopologicalSortGroups(groups: Groups) returns (layers: seq<set<Name>>)
    ensures groups == map[] ==> layers == [{}]
    ensures groups != map[] ==> IsLayering(groups, layers)
  {
    if groups == map[] {
      return [{}];
    }
    var inDegree, dependents := BuildTables(groups);
    forall n | n in inDegree ensures inDegree[n] == Remaining(Deps(groups, n), {}) {
      RemainingNone(Deps(groups, n));
    }
    layers := [];
    var queue := set n | n in inDegree && inDegree[n] == 0;
    ghost var done := {};
    while queue != {}
      invariant done == Union(layers) && done <= Nodes(groups)
      invariant Frontier(groups, inDegree, done, queue)
      invariant forall i :: 0 <= i < |layers| ==> LayerAt(groups, layers, i) && layers[i] != {}
      decreases Nodes(groups) - done
    {
      LayersGrow(groups, layers, queue);
      QueueIsNew(groups, inDegree, done, queue);
      ghost var before := inDegree;
      var next;
      inDegree, next := FinishLayer(groups, queue, inDegree, dependents, done);
      FrontierStep(groups, before, inDegree, done, queue, next);
      layers, done := layers + [queue], done + queue;
      queue := next;
    }
  }

  /** The queue holds the nodes that are not finished but whose dependencies all are. */
  ghost predicate Frontier(groups: Groups, inDegree: map<Name, int>, done: set<Name>, queue: set<Name>) {
    && Counts(groups, inDegree, done)
    && (forall n :: n in queue <==> n in inDegree && n !in done && inDegree[n] == 0)
    && (forall n :: n in done ==> n in inDegree && inDegree[n] == 0)
  }

  lemma FrontierStep(groups: Groups, inDegree: map<Name, int>, inDegree': map<Name, int>, done: set<Name>,
                     queue: set<Name>, next: set<Name>)
    requires Frontier(groups, inDegree, done, queue) && Counts(groups, inDegree', done + queue)
    requires forall n :: n in inDegree ==> n in inDegree' && 0 <= inDegree'[n] <= inDegree[n]
    requires forall n :: n in next <==> n in inDegree && inDegree[n] > 0 && inDegree'[n] == 0
    ensures Frontier(groups, inDegree', done + queue, next)
  {
  }

  lemma QueueIsNew(groups: Groups, inDegree: map<Name, int>, done: set<Name>, queue: set<Name>)
    requires Frontier(groups, inDegree, done, queue) && queue != {} && done <= Nodes(groups)
    ensures queue !! done && queue <= Nodes(groups)
    ensures Nodes(groups) - (done + queue) < Nodes(groups) - done
  {
    var n :| n in queue;
    assert n in Nodes(groups) - done && n !in Nodes(groups) - (done + queue);
  }

  lemma LayersGrow(groups: Groups, layers: seq<set<Name>>, layer: set<Name>)
    requires forall i :: 0 <= i < |layers| ==> LayerAt(groups, layers, i) && layers[i] != {}
    requires forall n :: n in layer <==>
               n in Nodes(groups) && n !in Union(layers) && Remaining(Deps(groups, n), Union(layers)) == 0
    requires layer != {}
    ensures Union(layers + [layer]) == Union(layers) + layer
    ensures forall i :: 0 <= i < |layers + [layer]| ==>
              LayerAt(groups, layers + [layer], i) && (layers + [layer])[i] != {}
  {
    var longer := layers + [layer];
    assert longer[..|layers|] == layers;
    forall i | 0 <= i < |longer| ensures LayerAt(groups, longer, i) && longer[i] != {} {
      if i < |layers| {
        assert LayerAt(groups, layers, i);
        assert longer[..i] == layers[..i] && longer[i] == layers[i];
      }
    }
  }

  // ---- properties of the layers ---------------------------------------------------------------------------

  lemma {:induction false} InUnion(layers: seq<set<Name>>, n: Name)
    ensures n in Union(layers) <==> exists i :: 0 <= i < |layers| && n in layers[i]
  {
    if layers != [] {
      var init := layers[..|layers| - 1];
      InUnion(init, n);
      if i :| 0 <= i < |layers| && n in layers[i] {
        if i < |init| { assert n in init[i]; }
      }
      if i :| 0 <= i < |init| && n in init[i] {
        assert n in layers[i];
      }
    }
  }

  lemma DependencyPlacedEarlier(groups: Groups, layers: seq<set<Name>>, i: nat, n: Name, d: Name)
    requires IsLayering(groups, layers) && i < |layers| && n in layers[i] && Edge(groups, n, d)
    ensures exists k :: 0 <= k < i && d in layers[k]
  {
    assert LayerAt(groups, layers, i);
    RemainingZero(Deps(groups, n), Union(layers[..i]));
    InUnion(layers[..i], d);
    var k :| 0 <= k < |layers[..i]| && d in layers[..i][k];
    assert d in layers[k];
  }

  lemma PlacedEarlier(groups: Groups, layers: seq<set<Name>>, i: nat, n: Name, d: Name) returns (k: nat)
    requires IsLayering(groups, layers) && i < |layers| && n in layers[i] && Edge(groups, n, d)
    ensures k < i && d in layers[k]
  {
    DependencyPlacedEarlier(groups, layers, i, n, d);
    k :| 0 <= k < i && d in layers[k];
  }

  lemma InOneLayer(groups: Groups, layers: seq<set<Name>>, i: nat, j: nat, n: Name)
    requires IsLayering(groups, layers) && i < j < |layers| && n in layers[i]
    ensures n !in layers[j]
  {
    assert LayerAt(groups, layers, j);
    assert layers[..j][i] == layers[i];
    InUnion(layers[..j], n);
  }

  /** No group is in two layers. */
  lemma LayersDisjoint(groups: Groups, layers: seq<set<Name>>, i: nat, j: nat)
    requires IsLayering(groups, layers) && i < j < |layers|
    ensures layers[i] !! layers[j]
  {
    forall n | n in layers[i] ensures n !in layers[j] {
      InOneLayer(groups, layers, i, j, n);
    }
  }

  /** A group stands one layer after the last of its dependencies, in the first layer if it has none. */
  lemma LayerIsOneAfterDependencies(groups: Groups, layers: seq<set<Name>>, i: nat, n: Name)
    requires IsLayering(groups, layers) && i < |layers|
    ensures n in layers[i] <==>
      && n in Nodes(groups)
      && (forall d :: Edge(groups, n, d) ==> exists k :: 0 <= k < i && d in layers[k])
      && (i == 0 || exists d :: Edge(groups, n, d) && d in layers[i - 1])
  {
    assert LayerAt(groups, layers, i);
    if n in layers[i] {
      forall d | Edge(groups, n, d) ensures exists k :: 0 <= k < i && d in layers[k] {
        DependencyPlacedEarlier(groups, layers, i, n, d);
      }
      if i > 0 {
        LastDependency(groups, layers, i, n);
      }
    } else if n in Nodes(groups) && forall d :: Edge(groups, n, d) ==> exists k :: 0 <= k < i && d in layers[k] {
      forall d | d in Deps(groups, n) ensures d in Union(layers[..i]) {
        assert Edge(groups, n, d);
        var k :| 0 <= k < i && d in layers[k];
        assert layers[..i][k] == layers[k];
        InUnion(layers[..i], d);
      }
      RemainingZero(Deps(groups, n), Union(layers[..i]));
      PlacedBefore(groups, layers, i, n);
    }
  }

  lemma LastDependency(groups: Groups, layers: seq<set<Name>>, i: nat, n: Name)
    requires IsLayering(groups, layers) && 0 < i < |layers| && n in layers[i]
    ensures exists d :: Edge(groups, n, d) && d in layers[i - 1]
  {
    assert LayerAt(groups, layers, i) && LayerAt(groups, layers, i - 1);
    var before, done := Union(layers[..i - 1]), Union(layers[..i]);
    assert layers[..i][..i - 1] == layers[..i - 1];
    assert done == before + layers[i - 1];
    RemainingZero(Deps(groups, n), before);
    RemainingZero(Deps(groups, n), done);
    var d :| d in Deps(groups, n) && d !in before;
    assert Edge(groups, n, d);
  }

  /** A node already placed before layer i has no dependency in the layer just before it. */
  lemma PlacedBefore(groups: Groups, layers: seq<set<Name>>, i: nat, n: Name)
    requires IsLayering(groups, layers) && i < |layers| && n in Union(layers[..i])
    ensures i > 0 && forall d :: Edge(groups, n, d) ==> d !in layers[i - 1]
  {
    InUnion(layers[..i], n);
    var k :| 0 <= k < |layers[..i]| && n in layers[..i][k];
    assert n in layers[k];
    forall d | Edge(groups, n, d) ensures d !in layers[i - 1] {
      NotJustBefore(groups, layers, k, i, n, d);
    }
  }

  lemma NotJustBefore(groups: Groups, layers: seq<set<Name>>, k: nat, i: nat, n: Name, d: Name)
    requires IsLayering(groups, layers) && k < i < |layers| && n in layers[k] && Edge(groups, n, d)
    ensures d !in layers[i - 1]
  {
    var m := PlacedEarlier(groups, layers, k, n, d);
    InOneLayer(groups, layers, m, i - 1, d);
  }

  /** Every group past the first layer is declared, so its configuration can be looked up. */
  lemma LaterGroupsAreDeclared(groups: Groups, layers: seq<set<Name>>, i: nat, n: Name)
    requires IsLayering(groups, layers) && 0 < i < |layers| && n in layers[i]
    ensures n in groups && groups[n] != []
  {
    LastDependency(groups, layers, i, n);
  }

  // ---- which groups are placed at all ---------------------------------------------------------------------

  lemma {:induction false} WalkDescends(groups: Groups, layers: seq<set<Name>>, w: seq<Name>, p: nat, i: nat)
    requires IsLayering(groups, layers) && IsWalk(groups, w) && p < |w|
    requires i < |layers| && w[p] in layers[i]
    ensures exists k :: 0 <= k <= i && w[|w| - 1] in layers[k] && (p < |w| - 1 ==> k < i)
    decreases |w| - p
  {
    if p < |w| - 1 {
      DependencyPlacedEarlier(groups, layers, i, w[p], w[p + 1]);
      var k :| 0 <= k < i && w[p + 1] in layers[k];
      WalkDescends(groups, layers, w, p + 1, k);
    }
  }

  lemma PlacedReachesLower(groups: Groups, layers: seq<set<Name>>, i: nat, n: Name, x: Name)
    requires IsLayering(groups, layers) && i < |layers| && n in layers[i] && Reaches(groups, n, x)
    ensures exists k :: 0 <= k < i && x in layers[k]
  {
    var w :| WalkFromTo(groups, w, n, x);
    WalkDescends(groups, layers, w, 0, i);
  }

  lemma PlacedIsOffCycles(groups: Groups, layers: seq<set<Name>>, i: nat, n: Name)
    requires IsLayering(groups, layers) && i < |layers| && n in layers[i]
    ensures !Reaches(groups, n, n)
  {
    if Reaches(groups, n, n) {
      PlacedReachesLower(groups, layers, i, n, n);
      var k :| 0 <= k < i && n in layers[k];
      LayersDisjoint(groups, layers, k, i);
      assert false;
    }
  }

  /** A node left over has a dependency left over: one can walk on for as long as one likes. */
  lemma {:induction false} StuckWalk(groups: Groups, layers: seq<set<Name>>, n: Name, steps: nat) returns (w: seq<Name>)
    requires IsLayering(groups, layers) && n in Nodes(groups) && n !in Union(layers)
    ensures IsWalk(groups, w) && |w| == steps + 1 && w[0] == n
    ensures forall i :: 0 <= i < |w| ==> w[i] in Nodes(groups) - Union(layers)
    decreases steps
  {
    w := [n];
    if steps > 0 {
      RemainingZero(Deps(groups, n), Union(layers));
      var d :| d in Deps(groups, n) && d !in Union(layers);
      var v := StuckWalk(groups, layers, d, steps - 1);
      w := [n] + v;
      forall i | 0 <= i < |w| - 1 ensures Edge(groups, w[i], w[i + 1]) {
        if i > 0 { assert w[i] == v[i - 1] && w[i + 1] == v[i]; }
      }
    }
  }

  /** n depends, directly or not, on a group that depends on itself, or does so itself. */
  ghost predicate LeadsIntoCycle(groups: Groups, n: Name) {
    exists x :: (x == n || Reaches(groups, n, x)) && Reaches(groups, x, x)
  }

  /** The layers hold exactly the groups, declared or only referenced, that lead into no cycle. */
  lemma PlacedIffNoCycle(groups: Groups, layers: seq<set<Name>>, n: Name)
    requires IsLayering(groups, layers)
    ensures n in Union(layers) <==> n in Nodes(groups) && !LeadsIntoCycle(groups, n)
  {
    InUnion(layers, n);
    if n in Union(layers) {
      var i :| 0 <= i < |layers| && n in layers[i];
      assert LayerAt(groups, layers, i);
      forall x | x == n || Reaches(groups, n, x) ensures !Reaches(groups, x, x) {
        if x != n {
          PlacedReachesLower(groups, layers, i, n, x);
          var k :| 0 <= k < i && x in layers[k];
          PlacedIsOffCycles(groups, layers, k, x);
        } else {
          PlacedIsOffCycles(groups, layers, i, n);
        }
      }
    } else if n in Nodes(groups) {
      var left := Nodes(groups) - Union(layers);
      var w := StuckWalk(groups, layers, n, |left|);
      Pigeonhole(w, left);
      var i, j :| 0 <= i < j < |w| && w[i] == w[j];
      WalkSlice(groups, w, i, j);
      if i > 0 {
        WalkSlice(groups, w, 0, i);
      }
      assert LeadsIntoCycle(groups, n);
    }
  }

  // ---- launching the later layers -------------------------------------------------------------------------

  datatype Status = Queued | Running | Completed | PausedAtChain | Failed | Cancelled | Paused

  type Score = nat

  predicate Succeeded(status: Option<Status>) {
    status == Some(Completed) || status == Some(PausedAtChain)
  }

  predicate Doomed(status: Option<Status>) {
    status == Some(Failed) || status == Some(Cancelled) || status == Some(Paused)
  }

  datatype Launch = Launch(group: Name, time: nat)

  /** n is among the launches from index k on. */
  ghost predicate LaunchedSince(launches: seq<Launch>, k: nat, n: Name) {
    exists i :: k <= i < |launches| && launches[i].group == n
  }

  lemma LaunchedLonger(launches: seq<Launch>, more: seq<Launch>, k: nat, l: nat, n: Name)
    requires LaunchedSince(launches, k, n) && launches <= more && l <= k
    ensures LaunchedSince(more, l, n)
  {
    var i :| k <= i < |launches| && launches[i].group == n;
    assert more[i].group == n;
  }

  /**
    The coordinator of the later layers. `status(t, score)` is what the poll of tick t finds. The loop of the source
    may wait for ever; here a run is cut off after `patience` polls of one group, and goes no further.
   */
  class Coordinator {
    const status: (nat, Score) -> Option<Status>
    const scores: map<Name, set<Score>>
    const groups: Groups
    var now: nat
    var launched: seq<Launch>

    constructor (status: (nat, Score) -> Option<Status>, scores: map<Name, set<Score>>, groups: Groups)
      ensures this.status == status && this.scores == scores && this.groups == groups && launched == [] && now == 0
    {
      this.status, this.scores, this.groups, now, launched := status, scores, groups, 0, [];
    }

    ghost predicate Awaited(n: Name, score: Score) {
      exists d :: Edge(groups, n, d) && d in scores && score in scores[d]
    }

    /** Every score of every direct dependency of n had succeeded at the poll of tick t. */
    ghost predicate ReadyAt(n: Name, t: nat) {
      forall score :: Awaited(n, score) ==>
        status(t, score) == Some(Completed) || status(t, score) == Some(PausedAtChain)
    }

    ghost predicate HasBeenReady(n: Name, until: nat) {
      exists t: nat :: t <= until && ReadyAt(n, t)
    }

    /** Some score of a direct dependency of n had ended otherwise at the poll of tick t, and not all had succeeded. */
    ghost predicate DoomedAt(n: Name, t: nat) {
      !ReadyAt(n, t) &&
      exists score ::
        && Awaited(n, score)
        && (status(t, score) == Some(Failed) || status(t, score) == Some(Cancelled) || status(t, score) == Some(Paused))
    }

    ghost predicate Undecided(n: Name, from: nat, until: nat) {
      forall t: nat :: from <= t < until ==> !ReadyAt(n, t) && !DoomedAt(n, t)
    }

    ghost predicate WasDoomed(n: Name, from: nat, until: nat) {
      exists t: nat :: from <= t <= until && DoomedAt(n, t)
    }

    /** Only groups whose dependencies had all succeeded at one earlier poll have been launched. */
    ghost predicate LaunchedSafely()
      reads this
    {
      forall i :: 0 <= i < |launched| ==> launched[i].time <= now && HasBeenReady(launched[i].group, launched[i].time)
    }

    method DependencyScores(n: Name) returns (awaited: set<Score>)
      requires n in groups
      ensures forall score :: score in awaited <==> Awaited(n, score)
    {
      awaited := {};
      for i := 0 to |groups[n]|
        invariant forall score :: score in awaited <==>
                    exists d :: d in groups[n][..i] && d in scores && score in scores[d]
      {
        assert groups[n][..i + 1] == groups[n][..i] + [groups[n][i]];
        if groups[n][i] in scores {
          awaited := awaited + scores[groups[n][i]];
        }
      }
      assert groups[n][..|groups[n]|] == groups[n];
    }

    /** _wait_for_dependency_groups: the first poll that decides does; None when the patience of the run is over. */
    method WaitForDependencies(n: Name, patience: nat) returns (verdict: Option<bool>)
      requires n in groups
      modifies this`now
      ensures now >= old(now) && Undecided(n, old(now), now)
      ensures verdict.Some? ==> if verdict.value then ReadyAt(n, now) else DoomedAt(n, now)
      ensures verdict.None? ==> now == old(now) + patience
    {
      var awaited := DependencyScores(n);
      if awaited == {} {
        assert ReadyAt(n, now);
        return Some(true);
      }
      var polls := 0;
      while polls < patience
        invariant now == old(now) + polls && polls <= patience && Undecided(n, old(now), now)
      {
        if forall score :: score in awaited ==> Succeeded(status(now, score)) {
          assert ReadyAt(n, now);
          return Some(true);
        }
        if score :| score in awaited && !Succeeded(status(now, score)) {
          assert Awaited(n, score) && !ReadyAt(n, now);
        }
        if exists score :: score in awaited && Doomed(status(now, score)) {
          return Some(false);
        }
        assert !DoomedAt(n, now);
        now := now + 1;
        polls := polls + 1;
      }
      return None;
    }

    lemma DoomedLonger(n: Name, from: nat, until: nat, earlier: nat, later: nat)
      requires WasDoomed(n, from, until) && earlier <= from && until <= later
      ensures WasDoomed(n, earlier, later)
    {
      var t: nat :| from <= t <= until && DoomedAt(n, t);
    }

    /** The groups of a layer whose dependencies succeed; not done if the wait for one of them is cut off. */
    method ReadyGroups(layer: set<Name>, patience: nat) returns (done: bool, ready: seq<Name>)
      requires forall n :: n in layer ==> n in groups
      modifies this`now
      ensures now >= old(now)
      ensures forall i :: 0 <= i < |ready| ==> ready[i] in layer && HasBeenReady(ready[i], now)
      ensures Distinct(ready)
      ensures done ==> forall n :: n in layer ==> n in ready || WasDoomed(n, old(now), now)
    {
      var todo := layer;
      done, ready := true, [];
      while todo != {}
        invariant todo <= layer && now >= old(now) && done
        invariant forall i :: 0 <= i < |ready| ==> ready[i] in layer && ready[i] !in todo && HasBeenReady(ready[i], now)
        invariant Distinct(ready)
        invariant forall n :: n in layer && n !in todo ==> n in ready || WasDoomed(n, old(now), now)
        decreases todo
      {
        var n := Pick(todo);
        ghost var before, found := now, ready;
        var verdict := WaitForDependencies(n, patience);
        if verdict.None? {
          return false, ready;
        }
        if verdict.value {
          ready := ready + [n];
          assert ready[|found|] == n;
        } else {
          assert DoomedAt(n, now);
          assert WasDoomed(n, old(now), now);
        }
        assert forall k :: k in found ==> k in ready;
        forall k | k in layer && k !in todo && k !in found ensures WasDoomed(k, old(now), now) {
          DoomedLonger(k, old(now), before, old(now), now);
        }
        todo := todo - {n};
      }
    }

    /** _submit_group_layer */
    method LaunchAll(ready: seq<Name>)
      requires LaunchedSafely() && forall i :: 0 <= i < |ready| ==> HasBeenReady(ready[i], now)
      modifies this`launched
      ensures LaunchedSafely() && |launched| == |old(launched)| + |ready| && old(launched) <= launched
      ensures forall k :: 0 <= k < |ready| ==> launched[|old(launched)| + k].group == ready[k]
    {
      for i := 0 to |ready|
        invariant LaunchedSafely() && |launched| == |old(launched)| + i && old(launched) <= launched
        invariant forall k :: 0 <= k < i ==> launched[|old(launched)| + k].group == ready[k]
      {
        launched := launched + [Launch(ready[i], now)];
      }
    }

    /** _submit_dependent_group_layers for one layer: nothing is launched before the wait for every group is over. */
    method SubmitLayer(layer: set<Name>, patience: nat) returns (done: bool)
      requires (forall n :: n in layer ==> n in groups) && LaunchedSafely()
      modifies this
      ensures LaunchedSafely() && old(launched) <= launched && now >= old(now)
      ensures forall i :: |old(launched)| <= i < |launched| ==> launched[i].group in layer
      ensures forall i, j :: |old(launched)| <= i < j < |launched| ==> launched[i].group != launched[j].group
      ensures done ==>
        forall n :: n in layer ==> LaunchedSince(launched, |old(launched)|, n) || WasDoomed(n, old(now), now)
      ensures !done ==> launched == old(launched)
    {
      var ready;
      done, ready := ReadyGroups(layer, patience);
      if !done {
        return;
      }
      LaunchAll(ready);
      ghost var k := |old(launched)|;
      forall i | k <= i < |launched| ensures launched[i].group == ready[i - k] {
        assert launched[k + (i - k)].group == ready[i - k];
      }
      forall n | n in ready ensures LaunchedSince(launched, k, n) {
        var i :| 0 <= i < |ready| && ready[i] == n;
        assert launched[k + i].group == n;
      }
    }

    /** Every group of the layers from 1 to `to` was launched after the first k launches, or found doomed since. */
    ghost predicate Settled(layers: seq<set<Name>>, to: nat, launches: seq<Launch>, k: nat, since: nat, until: nat) {
      forall i, n :: 1 <= i < to && i < |layers| && n in layers[i] ==>
        LaunchedSince(launches, k, n) || WasDoomed(n, since, until)
    }

    lemma SettledLonger(layers: seq<set<Name>>, to: nat, launches: seq<Launch>, more: seq<Launch>, k: nat,
                        since: nat, before: nat, until: nat)
      requires Settled(layers, to, launches, k, since, before)
      requires k <= |launches| && launches <= more && since <= before <= until && to < |layers|
      requires forall n :: n in layers[to] ==> LaunchedSince(more, |launches|, n) || WasDoomed(n, before, until)
      ensures Settled(layers, to + 1, more, k, since, until)
    {
      forall i, n | 1 <= i < to + 1 && n in layers[i]
        ensures LaunchedSince(more, k, n) || WasDoomed(n, since, until)
      {
        if i == to {
          if LaunchedSince(more, |launches|, n) {
            LaunchedLonger(more, more, |launches|, k, n);
          } else {
            DoomedLonger(n, before, until, since, until);
          }
        } else if LaunchedSince(launches, k, n) {
          LaunchedLonger(launches, more, k, k, n);
        } else {
          DoomedLonger(n, since, before, since, until);
        }
      }
    }

    /**
      The layers after the first are submitted in order, each group only once all its dependencies have
      succeeded, and every group unless a dependency of it has failed. The configuration lookup is safe because every
      such group is declared.
     */
    method SubmitDependentLayers(layers: seq<set<Name>>, patience: nat) returns (done: bool)
      requires IsLayering(groups, layers) && LaunchedSafely()
      modifies this
      ensures LaunchedSafely() && old(launched) <= launched
      ensures done ==> Settled(layers, |layers|, launched, |old(launched)|, old(now), now)
    {
      var i := 1;
      while i < |layers|
        invariant 1 <= i && LaunchedSafely() && old(launched) <= launched && now >= old(now)
        invariant Settled(layers, i, launched, |old(launched)|, old(now), now)
      {
        forall n | n in layers[i] ensures n in groups {
          LaterGroupsAreDeclared(groups, layers, i, n);
        }
        ghost var earlier, before := launched, now;
        done := SubmitLayer(layers[i], patience);
        if !done {
          return false;
        }
        SettledLonger(layers, i, earlier, launched, |old(launched)|, old(now), before, now);
        i := i + 1;
      }
      done := true;
    }
  }
}
