/**
  Which sheet writes which file (core/producers.py): dependency ancestors, the artifacts a sheet has no
  business writing, and the merge of the three sources that declare products.

  Spellings of paths are numbers, and `key` stands for the resolution of a spelling to a file identity.
 */
module Producers {
  import opened Sequences
  import opened Graphs
  import FanOut

  type Path = nat
  type Products = map<int, seq<Path>>

  // ---- ancestors ------------------------------------------------------------------------------------------

  /** Every node some node depends on. */
  ghost function Targets(deps: Graph<int>): set<int> {
    set n, d | n in deps && d in deps[n] :: d
  }

  function DepsOf(deps: Graph<int>, n: int): seq<int> {
    if n in deps then deps[n] else []
  }

  /** dag_ancestors: exactly the transitive dependencies, on any finite graph, cyclic or not. */
  method DagAncestors(sheet: int, deps: Graph<int>) returns (seen: set<int>)
    ensures forall x :: x in seen <==> Reaches(deps, sheet, x)
  {
    seen := {};
    var stack := DepsOf(deps, sheet);
    forall x | x in stack ensures Reaches(deps, sheet, x) {
      EdgeReaches(deps, sheet, x);
    }
    while stack != []
      invariant forall x :: x in seen || x in stack ==> Reaches(deps, sheet, x) && x in Targets(deps)
      invariant forall x :: Edge(deps, sheet, x) ==> x in seen || x in stack
      invariant forall x, y :: x in seen && Edge(deps, x, y) ==> y in seen || y in stack
      decreases Targets(deps) - seen, |stack|
    {
      var s := stack[|stack| - 1];
      assert stack == stack[..|stack| - 1] + [s];
      stack := stack[..|stack| - 1];
      if s in seen {
        continue;
      }
      forall y | Edge(deps, s, y) ensures Reaches(deps, sheet, y) {
        ReachesThenEdge(deps, sheet, s, y);
      }
      seen := seen + {s};
      stack := stack + DepsOf(deps, s);
    }
    assert forall x, y :: x in seen && Edge(deps, x, y) ==> y in seen;
    forall x | Reaches(deps, sheet, x) ensures x in seen {
      ClosedHoldsReachable(deps, sheet, seen, x);
    }
  }

  // ---- foreign artifacts ----------------------------------------------------------------------------------

  /** The sheet itself or one of its ancestors. */
  ghost predicate MayOwn(sheet: int, deps: Graph<int>, producer: int) {
    producer == sheet || Reaches(deps, sheet, producer)
  }

  ghost predicate Names(products: Products, producer: int, p: Path) {
    producer in products && p in products[producer]
  }

  ghost predicate Owned(sheet: int, products: Products, deps: Graph<int>, p: Path) {
    exists o :: MayOwn(sheet, deps, o) && Names(products, o, p)
  }

  /** Some sheet that is neither this one nor an ancestor owns p, and none that is does. */
  ghost predicate IsForeign(sheet: int, products: Products, deps: Graph<int>, p: Path) {
    (exists q :: !MayOwn(sheet, deps, q) && Names(products, q, p)) && !Owned(sheet, products, deps, p)
  }

  method Least(s: set<int>) returns (m: int)
    requires s != {}
    ensures m in s && forall x :: x in s ==> m <= x
  {
    m := Pick(s);
    var rest := s - {m};
    while rest != {}
      invariant m in s && rest <= s
      invariant forall x :: x in s && x !in rest ==> m <= x
      decreases rest
    {
      var x := Pick(rest);
      if x < m {
        m := x;
      }
      rest := rest - {x};
    }
  }

  method SortedKeys(products: Products) returns (keys: seq<int>)
    ensures Increasing(keys) && forall k :: k in keys <==> k in products
  {
    keys := [];
    var rest := products.Keys;
    while rest != {}
      invariant rest <= products.Keys && Increasing(keys)
      invariant forall k :: k in keys <==> k in products && k !in rest
      invariant forall k, r :: k in keys && r in rest ==> k < r
      decreases rest
    {
      var least := Least(rest);
      assert forall i :: 0 <= i < |keys| ==> keys[i] in keys;
      keys := keys + [least];
      rest := rest - {least};
    }
  }

  /** What the sheet or an ancestor declares; the comprehension over the merged map. */
  method OwnedPaths(sheet: int, products: Products, ancestors: set<int>) returns (owned: set<Path>)
    ensures forall p :: p in owned <==> exists o :: (o == sheet || o in ancestors) && Names(products, o, p)
  {
    owned := set o, p | o in products && (o == sheet || o in ancestors) && p in products[o] :: p;
    forall p ensures p in owned <==> exists o :: (o == sheet || o in ancestors) && Names(products, o, p) {
      if o :| (o == sheet || o in ancestors) && Names(products, o, p) {
        assert o in products && p in products[o];
      }
      if p in owned {
        var o :| o in products && (o == sheet || o in ancestors) && p in products[o];
        assert Names(products, o, p);
      }
    }
  }

  /** The paths of the producers in turn, without those of the sheet and its ancestors. */
  ghost function Walk(sheet: int, products: Products, deps: Graph<int>, producers: seq<int>): seq<Path> {
    if producers == [] then []
    else
      var front, last := producers[..|producers| - 1], producers[|producers| - 1];
      Walk(sheet, products, deps, front)
      + if MayOwn(sheet, deps, last) || last !in products then [] else products[last]
  }

  /** out lists paths in the order of their first occurrence in the walk; at[i] is that of the i-th. */
  ghost predicate ByFirst(walk: seq<Path>, out: seq<Path>, at: seq<int>) {
    && |at| == |out| && Increasing(at)
    && forall i :: 0 <= i < |out| ==> IsFirst(walk, out[i], at[i])
  }

  predicate IsFirst(walk: seq<Path>, p: Path, k: int) {
    0 <= k < |walk| && walk[k] == p && p !in walk[..k]
  }

  lemma LongerWalk(walk: seq<Path>, more: seq<Path>, out: seq<Path>, at: seq<int>)
    requires ByFirst(walk, out, at)
    ensures ByFirst(walk + more, out, at)
  {
    forall i | 0 <= i < |out| ensures IsFirst(walk + more, out[i], at[i]) {
      assert IsFirst(walk, out[i], at[i]);
      assert (walk + more)[..at[i]] == walk[..at[i]];
    }
  }

  lemma FirstsAreDistinct(walk: seq<Path>, out: seq<Path>, at: seq<int>)
    requires ByFirst(walk, out, at)
    ensures Distinct(out)
  {
    forall i, j | 0 <= i < j < |out| ensures out[i] != out[j] {
      assert IsFirst(walk, out[i], at[i]) && IsFirst(walk, out[j], at[j]);
      assert walk[..at[j]][at[i]] == out[i];
    }
  }

  lemma OneMoreFirst(walk: seq<Path>, out: seq<Path>, at: seq<int>, p: Path)
    requires ByFirst(walk, out, at) && p !in walk
    ensures ByFirst(walk + [p], out + [p], at + [|walk|])
  {
    LongerWalk(walk, [p], out, at);
    assert (walk + [p])[..|walk|] == walk;
    assert IsFirst(walk + [p], p, |walk|);
    forall i | 0 <= i < |out| ensures at[i] < |walk| {
      assert IsFirst(walk, out[i], at[i]);
    }
  }

  /** One producer of the loop: its paths that are not owned are appended once, in their order. */
  method Collect(paths: seq<Path>, owned: set<Path>, out0: seq<Path>, ghost walk: seq<Path>, ghost at0: seq<int>)
    returns (out: seq<Path>, ghost at: seq<int>)
    requires ByFirst(walk, out0, at0) && forall p :: p in out0 <==> p in walk && p !in owned
    ensures ByFirst(walk + paths, out, at)
    ensures forall p :: p in out <==> p in walk + paths && p !in owned
  {
    out, at := out0, at0;
    assert walk + paths[..0] == walk;
    for i := 0 to |paths|
      invariant ByFirst(walk + paths[..i], out, at)
      invariant forall p :: p in out <==> p in walk + paths[..i] && p !in owned
    {
      ghost var met := walk + paths[..i];
      assert walk + paths[..i + 1] == met + [paths[i]];
      if paths[i] !in owned && paths[i] !in out {
        OneMoreFirst(met, out, at, paths[i]);
        out, at := out + [paths[i]], at + [|met|];
      } else {
        LongerWalk(met, [paths[i]], out, at);
      }
    }
    assert paths[..|paths|] == paths;
  }

  lemma WalkSnoc(sheet: int, products: Products, deps: Graph<int>, producers: seq<int>, i: nat)
    requires i < |producers| && producers[i] in products
    ensures Walk(sheet, products, deps, producers[..i + 1]) ==
            Walk(sheet, products, deps, producers[..i])
            + if MayOwn(sheet, deps, producers[i]) then [] else products[producers[i]]
  {
    assert producers[..i + 1][..i] == producers[..i];
  }

  lemma {:induction false} InWalk(sheet: int, products: Products, deps: Graph<int>, producers: seq<int>, p: Path)
    ensures p in Walk(sheet, products, deps, producers) <==>
              exists k :: 0 <= k < |producers| && !MayOwn(sheet, deps, producers[k]) && Names(products, producers[k], p)
  {
    if producers != [] {
      var front, last := producers[..|producers| - 1], producers[|producers| - 1];
      InWalk(sheet, products, deps, front, p);
      assert forall k :: 0 <= k < |front| ==> front[k] == producers[k];
      assert Names(products, last, p) <==> last in products && p in products[last];
    }
  }

  /**
    foreign_artifacts over a merged product map: exactly the foreign paths, each once, in the order in which the
    producers name them, producers by their numbers.
   */
  method ForeignArtifacts(sheet: int, products: Products, deps: Graph<int>) returns (out: seq<Path>)
    ensures Distinct(out)
    ensures forall p :: p in out <==> IsForeign(sheet, products, deps, p)
    ensures exists producers, at ::
      && Increasing(producers) && (forall k :: k in producers <==> k in products)
      && ByFirst(Walk(sheet, products, deps, producers), out, at)
  {
    var ancestors := DagAncestors(sheet, deps);
    var owned := OwnedPaths(sheet, products, ancestors);
    var keys := SortedKeys(products);
    ghost var at: seq<int> := [];
    out := [];
    for i := 0 to |keys|
      invariant ByFirst(Walk(sheet, products, deps, keys[..i]), out, at)
      invariant forall p :: p in out <==> p in Walk(sheet, products, deps, keys[..i]) && p !in owned
    {
      ghost var walk := Walk(sheet, products, deps, keys[..i]);
      WalkSnoc(sheet, products, deps, keys, i);
      if keys[i] == sheet || keys[i] in ancestors {
        assert walk + [] == walk;
        continue;
      }
      out, at := Collect(products[keys[i]], owned, out, walk, at);
    }
    assert keys[..|keys|] == keys;
    FirstsAreDistinct(Walk(sheet, products, deps, keys), out, at);
    forall p ensures p in out <==> IsForeign(sheet, products, deps, p) {
      InWalk(sheet, products, deps, keys, p);
      if q :| !MayOwn(sheet, deps, q) && Names(products, q, p) {
        var k :| 0 <= k < |keys| && keys[k] == q;
      }
    }
  }

  lemma OwnedStays(sheet: int, products: Products, deps: Graph<int>, deps': Graph<int>, p: Path)
    requires Extends(deps', deps) && Owned(sheet, products, deps, p)
    ensures Owned(sheet, products, deps', p)
  {
    var o :| MayOwn(sheet, deps, o) && Names(products, o, p);
    if o != sheet {
      ReachesMore(deps, deps', sheet, o);
    }
    assert MayOwn(sheet, deps', o);
  }

  /** Adding dependencies never makes a path foreign that was not. */
  lemma MoreDependenciesFewerForeign(sheet: int, products: Products, deps: Graph<int>, deps': Graph<int>, p: Path)
    requires Extends(deps', deps) && IsForeign(sheet, products, deps', p)
    ensures IsForeign(sheet, products, deps, p)
  {
    var q :| !MayOwn(sheet, deps', q) && Names(products, q, p);
    if Reaches(deps, sheet, q) {
      ReachesMore(deps, deps', sheet, q);
      assert false;
    }
    assert !MayOwn(sheet, deps, q);
    if Owned(sheet, products, deps, p) {
      OwnedStays(sheet, products, deps, deps', p);
      assert false;
    }
  }

  /**
    Fan-out and ownership together: what a stage with a single sheet produces is foreign to no sheet of a
    stage that depends on it, directly or not.
   */
  lemma UpstreamProductsAreNotForeign(g: Graph<int>, fanOut: map<int, int>, stageDeps: Graph<int>,
                                      target: int, source: int, t: int, products: Products, p: Path)
    requires FanOut.Sane(fanOut, stageDeps) && FanOut.Expands(g, fanOut, stageDeps)
    requires Reaches(stageDeps, target, source) && FanOut.InStage(fanOut, target, t)
    requires FanOut.Count(fanOut, source) == 1
    requires Names(products, FanOut.Offset(fanOut, source) + 1, p)
    ensures !IsForeign(t, products, g, p)
  {
    FanOut.StageDependencyCoversSheets(g, fanOut, stageDeps, target, source);
    var s :| FanOut.InStage(fanOut, source, s) && Reaches(g, t, s);
    assert s == FanOut.Offset(fanOut, source) + 1;
    assert MayOwn(t, g, s);
  }

  // ---- the merge of the declaring sources -----------------------------------------------------------------

  type Key = nat

  /** One sheet's paths in a source; a source lists its sheets in the order of its dictionary. */
  datatype Entry = Entry(sheet: int, paths: seq<Path>)

  type Source = seq<Entry>

  /** The source declares that sheet writes the file k. */
  ghost predicate Declares(key: Path -> Key, source: Source, sheet: int, k: Key) {
    exists i, j :: DeclaresAt(key, source, sheet, k, i, j)
  }

  predicate DeclaresAt(key: Path -> Key, source: Source, sheet: int, k: Key, i: int, j: int) {
    0 <= i < |source| && source[i].sheet == sheet && 0 <= j < |source[i].paths| && key(source[i].paths[j]) == k
  }

  ghost predicate DeclaredBySome(key: Path -> Key, source: Source, k: Key) {
    exists s :: Declares(key, source, s, k)
  }

  /** Some source names the file k. */
  ghost predicate NamedBySome(key: Path -> Key, sources: seq<Source>, k: Key) {
    exists n :: 0 <= n < |sources| && DeclaredBySome(key, sources[n], k)
  }

  /** The sheet declares k in the first, that is strongest, source that names k at all. */
  ghost predicate StrongestDeclares(key: Path -> Key, sources: seq<Source>, sheet: int, k: Key) {
    exists n :: 0 <= n < |sources| && Declares(key, sources[n], sheet, k) && !NamedBySome(key, sources[..n], k)
  }

  lemma OneMoreSource(key: Path -> Key, sources: seq<Source>, n: int, s: int, k: Key)
    requires 0 <= n < |sources|
    ensures NamedBySome(key, sources[..n + 1], k) <==>
              NamedBySome(key, sources[..n], k) || DeclaredBySome(key, sources[n], k)
    ensures StrongestDeclares(key, sources[..n + 1], s, k) <==>
              StrongestDeclares(key, sources[..n], s, k) ||
              (!NamedBySome(key, sources[..n], k) && Declares(key, sources[n], s, k))
  {
    var shorter, longer := sources[..n], sources[..n + 1];
    assert forall i :: 0 <= i < n ==> longer[i] == shorter[i] && longer[..i] == shorter[..i];
    assert longer[n] == sources[n] && longer[..n] == shorter;
    if NamedBySome(key, shorter, k) {
      var i :| 0 <= i < n && DeclaredBySome(key, shorter[i], k);
      assert DeclaredBySome(key, longer[i], k);
    }
    if StrongestDeclares(key, shorter, s, k) {
      var i :| 0 <= i < n && Declares(key, shorter[i], s, k) && !NamedBySome(key, shorter[..i], k);
      assert Declares(key, longer[i], s, k) && !NamedBySome(key, longer[..i], k);
    }
  }

  /** The product map says that sheet owns the file k. */
  ghost predicate Owns(key: Path -> Key, products: Products, sheet: int, k: Key) {
    sheet in products && exists j :: 0 <= j < |products[sheet]| && key(products[sheet][j]) == k
  }

  function Append(products: Products, sheet: int, p: Path): Products {
    products[sheet := (if sheet in products then products[sheet] else []) + [p]]
  }

  lemma AppendOwns(key: Path -> Key, products: Products, sheet: int, p: Path, s: int, k: Key)
    ensures Owns(key, Append(products, sheet, p), s, k) <==> Owns(key, products, s, k) || (s == sheet && k == key(p))
  {
    var longer := Append(products, sheet, p);
    if s == sheet {
      var n := |longer[s]| - 1;
      assert longer[s][n] == p;
      if Owns(key, products, s, k) {
        var j :| 0 <= j < |products[s]| && key(products[s][j]) == k;
        assert longer[s][j] == products[s][j];
      }
      if Owns(key, longer, s, k) && k != key(p) {
        var j :| 0 <= j < |longer[s]| && key(longer[s][j]) == k;
        assert products[s][j] == longer[s][j];
      }
    }
  }

  /** All owners of a file list it under the one spelling recorded for it, and each of them once. */
  ghost predicate OneSpelling(key: Path -> Key, products: Products, names: map<Key, Path>) {
    && (forall k :: k in names ==> key(names[k]) == k)
    && (forall s, j :: s in products && 0 <= j < |products[s]| ==> Recorded(key, names, products[s][j]))
    && (forall s :: s in products ==> Distinct(products[s]))
  }

  predicate Recorded(key: Path -> Key, names: map<Key, Path>, p: Path) {
    key(p) in names && names[key(p)] == p
  }

  lemma AppendKeepsSpelling(key: Path -> Key, products: Products, names: map<Key, Path>, sheet: int, path: Path)
    requires OneSpelling(key, products, names) && !Owns(key, products, sheet, key(path))
    ensures
      var k := key(path);
      var names' := if k in names then names else names[k := path];
      key(names'[k]) == k && OneSpelling(key, Append(products, sheet, names'[k]), names')
  {
    var k := key(path);
    var names' := if k in names then names else names[k := path];
    var longer := Append(products, sheet, names'[k]);
    forall s, j | s in longer && 0 <= j < |longer[s]| ensures Recorded(key, names', longer[s][j]) {
      if s in products && j < |products[s]| {
        assert Recorded(key, names, products[s][j]) && longer[s][j] == products[s][j];
      }
    }
    if sheet in products {
      forall j | 0 <= j < |products[sheet]| ensures products[sheet][j] != names'[k] {
        assert key(products[sheet][j]) != k;
      }
    }
  }

  /** The tables while the sources are merged, strongest first. */
  class Merge {
    const key: Path -> Key
    var products: Products
    var claimed: set<Key>
    var names: map<Key, Path>
    var keys: set<Key>
    var seen: map<int, set<Key>>

    constructor (key: Path -> Key)
      ensures this.key == key && products == map[] && claimed == {} && names == map[] && keys == {} && seen == map[]
    {
      this.key := key;
      products, claimed, names, keys, seen := map[], {}, map[], {}, map[];
    }

    predicate Seen(s: int, k: Key)
      reads this
    {
      s in seen && k in seen[s]
    }

    /** What this source has added so far is what it has seen; files claimed by a stronger source stay as they are. */
    ghost predicate InStep(before: Products)
      reads this
    {
      && OneSpelling(key, products, names)
      && (forall s, k :: Owns(key, products, s, k) <==> Owns(key, before, s, k) || Seen(s, k))
      && (forall s, k :: Owns(key, before, s, k) ==> k in claimed)
    }

    /** A file that is neither claimed nor seen for this sheet gets its sheet as an owner. */
    method AddProduct(sheet: int, path: Path, ghost before: Products)
      requires InStep(before) && key(path) !in claimed && !Seen(sheet, key(path))
      modifies this`products, this`names, this`seen
      ensures InStep(before)
      ensures forall s, k :: Seen(s, k) <==> old(Seen(s, k)) || (s == sheet && k == key(path))
    {
      AppendSpelled(sheet, path);
      seen := seen[sheet := (if sheet in seen then seen[sheet] else {}) + {key(path)}];
    }

    /** The path is appended under the spelling its file has, or becomes the spelling of a new file. */
    method AppendSpelled(sheet: int, path: Path)
      requires OneSpelling(key, products, names) && !Owns(key, products, sheet, key(path))
      modifies this`products, this`names
      ensures OneSpelling(key, products, names)
      ensures forall s, k :: Owns(key, products, s, k) <==>
                Owns(key, old(products), s, k) || (s == sheet && k == key(path))
    {
      var k := key(path);
      AppendKeepsSpelling(key, products, names, sheet, path);
      if k !in names {
        names := names[k := path];
      }
      var spelled := names[k];
      forall s, l { AppendOwns(key, products, sheet, spelled, s, l); }
      products := Append(products, sheet, spelled);
    }

    /** The body of the inner loop. */
    method Declare(sheet: int, path: Path, ghost before: Products)
      requires InStep(before)
      modifies this`products, this`names, this`seen, this`keys
      ensures InStep(before)
      ensures keys == old(keys) + {key(path)}
      ensures forall s, k :: Seen(s, k) <==> old(Seen(s, k)) || (s == sheet && k == key(path) && k !in claimed)
    {
      keys := keys + {key(path)};
      if key(path) in claimed || Seen(sheet, key(path)) {
        return;
      }
      AddProduct(sheet, path, before);
    }

    /** What the loops over the source have met up to entry i, path j. */
    ghost predicate Met(source: Source, i: int, j: int, s: int, k: Key) {
      exists a, b :: DeclaresAt(key, source, s, k, a, b) && (a < i || (a == i && b < j))
    }

    lemma MeetOne(source: Source, i: int, j: int, s: int, k: Key)
      requires 0 <= i < |source| && 0 <= j < |source[i].paths|
      ensures Met(source, i, j + 1, s, k) <==>
                Met(source, i, j, s, k) || (s == source[i].sheet && k == key(source[i].paths[j]))
    {
      if s == source[i].sheet && k == key(source[i].paths[j]) {
        assert DeclaresAt(key, source, s, k, i, j);
      }
    }

    lemma MeetEntry(source: Source, i: int, s: int, k: Key)
      requires 0 <= i < |source|
      ensures Met(source, i, |source[i].paths|, s, k) <==> Met(source, i + 1, 0, s, k)
    {
    }

    /** Some sheet declares the file k in what the loops have met. */
    ghost predicate MetBySome(source: Source, i: int, j: int, k: Key) {
      exists s :: Met(source, i, j, s, k)
    }

    lemma MeetOneKey(source: Source, i: int, j: int, k: Key)
      requires 0 <= i < |source| && 0 <= j < |source[i].paths|
      ensures MetBySome(source, i, j + 1, k) <==> MetBySome(source, i, j, k) || k == key(source[i].paths[j])
    {
      MeetOne(source, i, j, source[i].sheet, k);
      if s :| Met(source, i, j, s, k) {
        MeetOne(source, i, j, s, k);
      }
      var next := j + 1;
      if s :| Met(source, i, next, s, k) {
        MeetOne(source, i, j, s, k);
      }
    }

    lemma MeetEntryKey(source: Source, i: int, k: Key)
      requires 0 <= i < |source|
      ensures MetBySome(source, i, |source[i].paths|, k) <==> MetBySome(source, i + 1, 0, k)
    {
      if s :| Met(source, i, |source[i].paths|, s, k) {
        MeetEntry(source, i, s, k);
      }
      var next := i + 1;
      if s :| Met(source, next, 0, s, k) {
        MeetEntry(source, i, s, k);
      }
    }

    ghost predicate SourceInStep(source: Source, i: int, j: int)
      reads this
    {
      && (forall s, k :: Seen(s, k) <==> k !in claimed && Met(source, i, j, s, k))
      && (forall k :: k in keys <==> MetBySome(source, i, j, k))
    }

    /** One turn of the inner loop. */
    method MergePath(source: Source, i: nat, j: nat, ghost before: Products)
      requires i < |source| && j < |source[i].paths| && InStep(before) && SourceInStep(source, i, j)
      modifies this`products, this`names, this`seen, this`keys
      ensures InStep(before) && SourceInStep(source, i, j + 1)
    {
      forall s, k { MeetOne(source, i, j, s, k); }
      forall k { MeetOneKey(source, i, j, k); }
      Declare(source[i].sheet, source[i].paths[j], before);
    }

    /** The inner loop. */
    method MergeEntry(source: Source, i: nat, ghost before: Products)
      requires i < |source| && InStep(before) && SourceInStep(source, i, 0)
      modifies this`products, this`names, this`seen, this`keys
      ensures InStep(before) && SourceInStep(source, i + 1, 0)
    {
      for j := 0 to |source[i].paths|
        invariant InStep(before) && SourceInStep(source, i, j)
      {
        MergePath(source, i, j, before);
      }
      forall s, k { MeetEntry(source, i, s, k); }
      forall k { MeetEntryKey(source, i, k); }
    }

    /** The loops over a source meet all it declares. */
    lemma MetAll(source: Source, s: int, k: Key)
      ensures Met(source, |source|, 0, s, k) <==> Declares(key, source, s, k)
    {
      if a, b :| DeclaresAt(key, source, s, k, a, b) {
        assert a < |source|;
      }
    }

    lemma MetAllKeys(source: Source, k: Key)
      ensures MetBySome(source, |source|, 0, k) <==> DeclaredBySome(key, source, k)
    {
      if s :| Met(source, |source|, 0, s, k) {
        MetAll(source, s, k);
      }
      if s :| Declares(key, source, s, k) {
        MetAll(source, s, k);
      }
    }

    /** One source: it adds owners only to files no stronger source has named. */
    method MergeSource(source: Source)
      requires OneSpelling(key, products, names)
      requires forall s, k :: Owns(key, products, s, k) ==> k in claimed
      modifies this
      ensures OneSpelling(key, products, names)
      ensures forall s, k :: Owns(key, products, s, k) <==>
                Owns(key, old(products), s, k) || (k !in old(claimed) && Declares(key, source, s, k))
      ensures forall k :: k in claimed <==> k in old(claimed) || DeclaredBySome(key, source, k)
    {
      ghost var before := products;
      keys, seen := {}, map[];
      for i := 0 to |source|
        invariant claimed == old(claimed)
        invariant InStep(before) && SourceInStep(source, i, 0)
      {
        MergeEntry(source, i, before);
      }
      forall s, k { MetAll(source, s, k); }
      forall k { MetAllKeys(source, k); }
      claimed := claimed + keys;
    }

    /** declared_products_from_config: the sources one after another, strongest first. */
    method MergeAll(sources: seq<Source>)
      requires products == map[] && claimed == {} && names == map[]
      modifies this
      ensures OneSpelling(key, products, names)
      ensures forall s, k :: Owns(key, products, s, k) <==> StrongestDeclares(key, sources, s, k)
    {
      for n := 0 to |sources|
        invariant OneSpelling(key, products, names)
        invariant forall s, k :: Owns(key, products, s, k) ==> k in claimed
        invariant forall s, k :: Owns(key, products, s, k) <==> StrongestDeclares(key, sources[..n], s, k)
        invariant forall k :: k in claimed <==> NamedBySome(key, sources[..n], k)
      {
        forall s, k { OneMoreSource(key, sources, n, s, k); }
        MergeSource(sources[n]);
      }
      assert sources[..|sources|] == sources;
    }
  }
}
