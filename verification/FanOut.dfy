/**
  Expansion of stages into concrete sheets (core/fan_out.py). Stages are numbered from 1; a stage with fan
  count c becomes c consecutive sheets, and dependencies between stages become dependencies between sheets.
 */
module FanOut {
  import opened Sequences
  import opened Graphs

  datatype Meta = Meta(stage: int, instance: int, fanCount: int)

  datatype Expansion = Expansion(
    totalSheets: int,
    totalStages: int,
    metadata: map<int, Meta>,
    dependencies: Graph<int>,
    stageSheets: map<int, seq<int>>)

  datatype Expanded = Ok(expansion: Expansion) | ValueError

  // ---- the input ------------------------------------------------------------------------------------------

  /** Stages that are not listed have one instance. */
  function Count(fanOut: map<int, int>, stage: int): int {
    if stage in fanOut then fanOut[stage] else 1
  }

  predicate ValidInput(stages: int, fanOut: map<int, int>, deps: Graph<int>) {
    && stages >= 1
    && (forall s :: s in fanOut ==> 1 <= s <= stages && fanOut[s] >= 1)
    && (forall t :: t in deps ==> 1 <= t <= stages)
    && (forall t, i :: t in deps && 0 <= i < |deps[t]| ==> 1 <= deps[t][i] <= stages)
  }

  method ValidateInputs(stages: int, fanOut: map<int, int>, deps: Graph<int>) returns (ok: bool)
    ensures ok <==> ValidInput(stages, fanOut, deps)
  {
    if stages < 1 {
      return false;
    }
    var todo := fanOut.Keys;
    while todo != {}
      invariant todo <= fanOut.Keys
      invariant forall s :: s in fanOut && s !in todo ==> 1 <= s <= stages && fanOut[s] >= 1
      decreases todo
    {
      var s := Pick(todo);
      if s < 1 || s > stages || fanOut[s] < 1 {
        return false;
      }
      todo := todo - {s};
    }
    todo := deps.Keys;
    while todo != {}
      invariant todo <= deps.Keys
      invariant forall t :: t in deps && t !in todo ==> 1 <= t <= stages
      invariant forall t, i :: t in deps && t !in todo && 0 <= i < |deps[t]| ==> 1 <= deps[t][i] <= stages
      decreases todo
    {
      var t := Pick(todo);
      if t < 1 || t > stages {
        return false;
      }
      for i := 0 to |deps[t]|
        invariant forall k :: 0 <= k < i ==> 1 <= deps[t][k] <= stages
      {
        if deps[t][i] < 1 || deps[t][i] > stages {
          return false;
        }
      }
      todo := todo - {t};
    }
    return true;
  }

  // ---- where the sheets of a stage are --------------------------------------------------------------------

  /** The number of sheets of the stages before this one. */
  function Offset(fanOut: map<int, int>, stage: int): int {
    if stage <= 1 then 0 else Offset(fanOut, stage - 1) + Count(fanOut, stage - 1)
  }

  /** sheet is instance `sheet - Offset` of the stage. */
  predicate InStage(fanOut: map<int, int>, stage: int, sheet: int) {
    Offset(fanOut, stage) < sheet <= Offset(fanOut, stage) + Count(fanOut, stage)
  }

  function Instance(fanOut: map<int, int>, stage: int, sheet: int): int {
    sheet - Offset(fanOut, stage)
  }

  /** count consecutive numbers from first on. */
  predicate IsBlock(r: seq<int>, first: int, count: int) {
    |r| == count && forall i :: 0 <= i < count ==> r[i] == first + i
  }

  ghost predicate Positive(fanOut: map<int, int>) {
    forall s :: s in fanOut ==> fanOut[s] >= 1
  }

  lemma {:induction false} OffsetsGrow(fanOut: map<int, int>, a: int, b: int)
    requires Positive(fanOut) && 1 <= a < b
    ensures Offset(fanOut, a) + Count(fanOut, a) <= Offset(fanOut, b)
    decreases b - a
  {
    if a + 1 < b {
      OffsetsGrow(fanOut, a, b - 1);
    }
  }

  /** A sheet belongs to at most one stage. */
  lemma StageUnique(fanOut: map<int, int>, a: int, b: int, sheet: int)
    requires Positive(fanOut) && 1 <= a && 1 <= b && InStage(fanOut, a, sheet) && InStage(fanOut, b, sheet)
    ensures a == b
  {
    if a < b {
      OffsetsGrow(fanOut, a, b);
    } else if b < a {
      OffsetsGrow(fanOut, b, a);
    }
  }

  /** Every sheet number up to the total belongs to a stage. */
  lemma {:induction false} StageOf(fanOut: map<int, int>, stages: int, sheet: int) returns (stage: int)
    requires Positive(fanOut) && stages >= 0 && 1 <= sheet <= Offset(fanOut, stages + 1)
    ensures 1 <= stage <= stages && InStage(fanOut, stage, sheet)
    decreases stages
  {
    if sheet > Offset(fanOut, stages) {
      return stages;
    }
    stage := StageOf(fanOut, stages - 1, sheet);
  }

  // ---- the dependency of one sheet on another -------------------------------------------------------------

  /** Two fanned-out stages of the same width are matched instance by instance; all others are joined fully. */
  predicate PairEdge(tFirst: int, tCount: int, sFirst: int, sCount: int, t: int, s: int) {
    && tFirst <= t < tFirst + tCount
    && sFirst <= s < sFirst + sCount
    && (sCount == tCount && sCount > 1 ==> t - tFirst == s - sFirst)
  }

  predicate StagePair(fanOut: map<int, int>, target: int, source: int, t: int, s: int) {
    PairEdge(Offset(fanOut, target) + 1, Count(fanOut, target), Offset(fanOut, source) + 1, Count(fanOut, source), t, s)
  }

  predicate NoDuplicates(g: Graph<int>) {
    forall t, i, j :: t in g && 0 <= i < j < |g[t]| ==> g[t][i] != g[t][j]
  }

  function Connect(g: Graph<int>, t: int, s: int): Graph<int> {
    var list := if t in g then g[t] else [];
    g[t := if s in list then list else list + [s]]
  }

  lemma ConnectEdges(g: Graph<int>, t: int, s: int)
    ensures forall a, b :: Edge(Connect(g, t, s), a, b) <==> Edge(g, a, b) || (a == t && b == s)
    ensures forall a :: a in Connect(g, t, s) <==> a in g || a == t
    ensures NoDuplicates(g) ==> NoDuplicates(Connect(g, t, s))
    ensures (forall a :: a in g ==> g[a] != []) ==> forall a :: a in Connect(g, t, s) ==> Connect(g, t, s)[a] != []
  {
  }

  /** The table of expanded dependencies, filled step by step. */
  class DependencyTable {
    var deps: Graph<int>

    ghost predicate Valid()
      reads this
    {
      NoDuplicates(deps) && forall t :: t in deps ==> deps[t] != []
    }

    constructor ()
      ensures Valid() && deps == map[]
    {
      deps := map[];
    }

    method AddDep(target: int, source: int)
      requires Valid()
      modifies this
      ensures Valid() && deps == Connect(old(deps), target, source)
      ensures forall a, b :: Edge(deps, a, b) <==> Edge(old(deps), a, b) || (a == target && b == source)
    {
      ConnectEdges(deps, target, source);
      if target !in deps {
        deps := deps[target := []];
      }
      if source !in deps[target] {
        deps := deps[target := deps[target] + [source]];
      }
    }

    /** _expand_dependency_pair. */
    method ExpandDependencyPair(targets: seq<int>, sources: seq<int>, tFirst: int, sFirst: int)
      requires Valid() && |targets| >= 1 && |sources| >= 1
      requires IsBlock(targets, tFirst, |targets|) && IsBlock(sources, sFirst, |sources|)
      modifies this
      ensures Valid()
      ensures forall t, s :: Edge(deps, t, s) <==>
                Edge(old(deps), t, s) || PairEdge(tFirst, |targets|, sFirst, |sources|, t, s)
    {
      if |sources| == 1 && |targets| == 1 {
        AddDep(targets[0], sources[0]);
      } else if |sources| == 1 {
        for i := 0 to |targets|
          invariant Valid()
          invariant forall t, s :: Edge(deps, t, s) <==>
                      Edge(old(deps), t, s) || (tFirst <= t < tFirst + i && s == sFirst)
        {
          AddDep(targets[i], sources[0]);
        }
      } else if |targets| == 1 {
        for i := 0 to |sources|
          invariant Valid()
          invariant forall t, s :: Edge(deps, t, s) <==>
                      Edge(old(deps), t, s) || (t == tFirst && sFirst <= s < sFirst + i)
        {
          AddDep(targets[0], sources[i]);
        }
      } else if |sources| == |targets| {
        for i := 0 to |targets|
          invariant Valid()
          invariant forall t, s :: Edge(deps, t, s) <==>
                      Edge(old(deps), t, s) || (tFirst <= t < tFirst + i && s - sFirst == t - tFirst)
        {
          AddDep(targets[i], sources[i]);
        }
      } else {
        for i := 0 to |targets|
          invariant Valid()
          invariant forall t, s :: Edge(deps, t, s) <==>
                      Edge(old(deps), t, s) || (tFirst <= t < tFirst + i && sFirst <= s < sFirst + |sources|)
        {
          for j := 0 to |sources|
            invariant Valid()
            invariant forall t, s :: Edge(deps, t, s) <==>
                        || Edge(old(deps), t, s)
                        || (tFirst <= t < tFirst + i && sFirst <= s < sFirst + |sources|)
                        || (t == tFirst + i && sFirst <= s < sFirst + j)
          {
            AddDep(targets[i], sources[j]);
          }
        }
      }
    }
  }

  // ---- the expansion --------------------------------------------------------------------------------------

  /** m places the sheet in its stage. */
  predicate Places(fanOut: map<int, int>, stages: int, sheet: int, m: Meta) {
    && 1 <= m.stage <= stages && InStage(fanOut, m.stage, sheet)
    && m.instance == Instance(fanOut, m.stage, sheet) && m.fanCount == Count(fanOut, m.stage)
  }

  /** Every sheet up to the last one of these stages has its metadata. */
  ghost predicate Described(fanOut: map<int, int>, stages: int, metadata: map<int, Meta>) {
    && (forall sheet :: sheet in metadata <==> 1 <= sheet <= Offset(fanOut, stages + 1))
    && (forall sheet :: sheet in metadata ==> Places(fanOut, stages, sheet, metadata[sheet]))
  }

  /** The sheets of each stage are the consecutive block behind those of the stages before it. */
  ghost predicate Blocks(fanOut: map<int, int>, stages: int, stageSheets: map<int, seq<int>>) {
    && (forall stage :: stage in stageSheets <==> 1 <= stage <= stages)
    && (forall stage {:trigger stageSheets[stage]} :: stage in stageSheets ==>
          IsBlock(stageSheets[stage], Offset(fanOut, stage) + 1, Count(fanOut, stage)))
  }

  method NumberStage(fanOut: map<int, int>, stage: int, metadata0: map<int, Meta>)
    returns (metadata: map<int, Meta>, sheets: seq<int>)
    requires Count(fanOut, stage) >= 1
    ensures IsBlock(sheets, Offset(fanOut, stage) + 1, Count(fanOut, stage))
    ensures forall n :: n in metadata <==> n in metadata0 || InStage(fanOut, stage, n)
    ensures forall n :: n in metadata && InStage(fanOut, stage, n) ==>
              metadata[n] == Meta(stage, Instance(fanOut, stage, n), Count(fanOut, stage))
    ensures forall n :: n in metadata && !InStage(fanOut, stage, n) ==> metadata[n] == metadata0[n]
  {
    metadata, sheets := metadata0, [];
    var count := Count(fanOut, stage);
    var current := Offset(fanOut, stage) + 1;
    for instance := 1 to count + 1
      invariant current == Offset(fanOut, stage) + instance
      invariant |sheets| == instance - 1 && forall i :: 0 <= i < |sheets| ==> sheets[i] == Offset(fanOut, stage) + 1 + i
      invariant forall n :: n in metadata <==> n in metadata0 || Offset(fanOut, stage) < n < current
      invariant forall n :: n in metadata && Offset(fanOut, stage) < n < current ==>
                  metadata[n] == Meta(stage, Instance(fanOut, stage, n), count)
      invariant forall n :: n in metadata && !(Offset(fanOut, stage) < n < current) ==> metadata[n] == metadata0[n]
    {
      metadata := metadata[current := Meta(stage, instance, count)];
      sheets := sheets + [current];
      current := current + 1;
    }
  }

  lemma DescribedGrows(fanOut: map<int, int>, stages: int, metadata: map<int, Meta>, metadata': map<int, Meta>)
    requires Positive(fanOut) && stages >= 0 && Described(fanOut, stages, metadata)
    requires forall n :: n in metadata' <==> n in metadata || InStage(fanOut, stages + 1, n)
    requires forall n :: n in metadata' && InStage(fanOut, stages + 1, n) ==>
               metadata'[n] == Meta(stages + 1, Instance(fanOut, stages + 1, n), Count(fanOut, stages + 1))
    requires forall n :: n in metadata' && !InStage(fanOut, stages + 1, n) ==> metadata'[n] == metadata[n]
    ensures Described(fanOut, stages + 1, metadata')
  {
    OffsetPositive(fanOut, stages + 1);
  }

  /** So the metadata of an instance is what its place says. */
  lemma MetadataOf(fanOut: map<int, int>, stages: int, metadata: map<int, Meta>, stage: int, sheet: int)
    requires Positive(fanOut) && Described(fanOut, stages, metadata)
    requires 1 <= stage <= stages && InStage(fanOut, stage, sheet)
    ensures sheet in metadata
    ensures metadata[sheet] == Meta(stage, Instance(fanOut, stage, sheet), Count(fanOut, stage))
  {
    OffsetPositive(fanOut, stage);
    OffsetsGrow(fanOut, stage, stages + 1);
    StageUnique(fanOut, stage, metadata[sheet].stage, sheet);
  }

  lemma {:induction false} OffsetPositive(fanOut: map<int, int>, stage: int)
    requires Positive(fanOut)
    ensures Offset(fanOut, stage) >= 0
    decreases stage
  {
    if stage > 1 {
      OffsetPositive(fanOut, stage - 1);
    }
  }

  lemma BlocksGrow(fanOut: map<int, int>, stages: int, stageSheets: map<int, seq<int>>, sheets: seq<int>)
    requires stages >= 0 && Blocks(fanOut, stages, stageSheets)
    requires IsBlock(sheets, Offset(fanOut, stages + 1) + 1, Count(fanOut, stages + 1))
    ensures Blocks(fanOut, stages + 1, stageSheets[stages + 1 := sheets])
  {
    var longer := stageSheets[stages + 1 := sheets];
    forall stage | stage in longer ensures IsBlock(longer[stage], Offset(fanOut, stage) + 1, Count(fanOut, stage)) {
      if stage != stages + 1 {
        assert stage in stageSheets && longer[stage] == stageSheets[stage];
      }
    }
    forall stage ensures stage in longer <==> 1 <= stage <= stages + 1 {
      assert stage in longer <==> stage in stageSheets || stage == stages + 1;
    }
  }

  lemma NothingNumbered(fanOut: map<int, int>)
    ensures Described(fanOut, 0, map[]) && Blocks(fanOut, 0, map[])
  {
  }

  /** One turn of the outer loop of phase 1. */
  method NumberNext(fanOut: map<int, int>, stages: int, total: int, metadata: map<int, Meta>,
                    stageSheets: map<int, seq<int>>)
    returns (total': int, metadata': map<int, Meta>, stageSheets': map<int, seq<int>>)
    requires stages >= 0 && Positive(fanOut) && total == Offset(fanOut, stages + 1)
    requires Described(fanOut, stages, metadata) && Blocks(fanOut, stages, stageSheets)
    ensures total' == Offset(fanOut, stages + 2)
    ensures Described(fanOut, stages + 1, metadata') && Blocks(fanOut, stages + 1, stageSheets')
  {
    var sheets;
    metadata', sheets := NumberStage(fanOut, stages + 1, metadata);
    DescribedGrows(fanOut, stages, metadata, metadata');
    BlocksGrow(fanOut, stages, stageSheets, sheets);
    stageSheets', total' := stageSheets[stages + 1 := sheets], total + |sheets|;
  }

  /** Phase 1. */
  method NumberSheets(stages: int, fanOut: map<int, int>)
    returns (total: int, metadata: map<int, Meta>, stageSheets: map<int, seq<int>>)
    requires stages >= 1 && Positive(fanOut)
    ensures total == Offset(fanOut, stages + 1)
    ensures Described(fanOut, stages, metadata) && Blocks(fanOut, stages, stageSheets)
  {
    total, metadata, stageSheets := 0, map[], map[];
    NothingNumbered(fanOut);
    var stage := 0;
    while stage < stages
      invariant 0 <= stage <= stages && total == Offset(fanOut, stage + 1)
      invariant Described(fanOut, stage, metadata) && Blocks(fanOut, stage, stageSheets)
    {
      total, metadata, stageSheets := NumberNext(fanOut, stage, total, metadata, stageSheets);
      stage := stage + 1;
    }
  }

  /** Sheet t depends on sheet s. */
  ghost predicate SheetEdge(fanOut: map<int, int>, deps: Graph<int>, t: int, s: int) {
    exists target, source :: Edge(deps, target, source) && StagePair(fanOut, target, source, t, s)
  }

  /** Phase 2, for one target stage. */
  method ExpandTarget(table: DependencyTable, fanOut: map<int, int>, target: int, sources: seq<int>,
                      stageSheets: map<int, seq<int>>)
    requires table.Valid() && Positive(fanOut)
    requires target in stageSheets && forall i :: 0 <= i < |sources| ==> sources[i] in stageSheets
    requires forall stage :: stage in stageSheets ==>
               IsBlock(stageSheets[stage], Offset(fanOut, stage) + 1, Count(fanOut, stage))
    modifies table
    ensures table.Valid()
    ensures forall t, s :: Edge(table.deps, t, s) <==>
              || Edge(old(table.deps), t, s)
              || exists i :: 0 <= i < |sources| && StagePair(fanOut, target, sources[i], t, s)
  {
    for i := 0 to |sources|
      invariant table.Valid()
      invariant forall t, s :: Edge(table.deps, t, s) <==>
                  Edge(old(table.deps), t, s) || exists k :: 0 <= k < i && StagePair(fanOut, target, sources[k], t, s)
    {
      ghost var before := table.deps;
      table.ExpandDependencyPair(stageSheets[target], stageSheets[sources[i]],
                                 Offset(fanOut, target) + 1, Offset(fanOut, sources[i]) + 1);
      forall t, s
        ensures Edge(table.deps, t, s) <==> Edge(before, t, s) || StagePair(fanOut, target, sources[i], t, s)
      {
      }
    }
  }

  ghost predicate EdgesFrom(fanOut: map<int, int>, deps: Graph<int>, targets: set<int>, t: int, s: int) {
    exists target, source :: target in targets && Edge(deps, target, source) && StagePair(fanOut, target, source, t, s)
  }

  lemma TargetExpanded(fanOut: map<int, int>, deps: Graph<int>, finished: set<int>, target: int,
                       before: Graph<int>, after: Graph<int>)
    requires target in deps
    requires forall t, s :: Edge(before, t, s) <==> EdgesFrom(fanOut, deps, finished, t, s)
    requires forall t, s :: Edge(after, t, s) <==>
               || Edge(before, t, s)
               || exists i :: 0 <= i < |deps[target]| && StagePair(fanOut, target, deps[target][i], t, s)
    ensures forall t, s :: Edge(after, t, s) <==> EdgesFrom(fanOut, deps, finished + {target}, t, s)
  {
    forall t, s ensures Edge(after, t, s) <==> EdgesFrom(fanOut, deps, finished + {target}, t, s) {
      if i :| 0 <= i < |deps[target]| && StagePair(fanOut, target, deps[target][i], t, s) {
        assert Edge(deps, target, deps[target][i]);
      }
      if EdgesFrom(fanOut, deps, finished + {target}, t, s) {
        var a, source :| a in finished + {target} && Edge(deps, a, source) && StagePair(fanOut, a, source, t, s);
        if a == target {
          var i :| 0 <= i < |deps[target]| && deps[target][i] == source;
        }
      }
    }
  }

  lemma AllExpanded(fanOut: map<int, int>, deps: Graph<int>, t: int, s: int)
    ensures EdgesFrom(fanOut, deps, deps.Keys, t, s) <==> SheetEdge(fanOut, deps, t, s)
  {
  }

  /** Phase 2. */
  method ExpandDependencies(stages: int, fanOut: map<int, int>, deps: Graph<int>, stageSheets: map<int, seq<int>>)
    returns (expanded: Graph<int>)
    requires ValidInput(stages, fanOut, deps) && Blocks(fanOut, stages, stageSheets)
    ensures NoDuplicates(expanded) && forall t :: t in expanded ==> expanded[t] != []
    ensures forall t, s :: Edge(expanded, t, s) <==> SheetEdge(fanOut, deps, t, s)
  {
    var table := new DependencyTable();
    var todo := deps.Keys;
    ghost var finished := {};
    while todo != {}
      invariant table.Valid() && fresh(table)
      invariant todo <= deps.Keys && finished + todo == deps.Keys
      invariant forall t, s :: Edge(table.deps, t, s) <==> EdgesFrom(fanOut, deps, finished, t, s)
      decreases todo
    {
      var target := Pick(todo);
      ghost var before := table.deps;
      ExpandTarget(table, fanOut, target, deps[target], stageSheets);
      TargetExpanded(fanOut, deps, finished, target, before, table.deps);
      todo, finished := todo - {target}, finished + {target};
    }
    assert finished == deps.Keys;
    expanded := table.deps;
    forall t, s { AllExpanded(fanOut, deps, t, s); }
  }

  /** expand_fan_out. */
  method ExpandFanOut(stages: int, fanOut: map<int, int>, deps: Graph<int>) returns (r: Expanded)
    ensures r.ValueError? <==> !ValidInput(stages, fanOut, deps)
    ensures r.Ok? ==>
              && r.expansion.totalStages == stages
              && r.expansion.totalSheets == Offset(fanOut, stages + 1)
              && Described(fanOut, stages, r.expansion.metadata)
              && Blocks(fanOut, stages, r.expansion.stageSheets)
              && NoDuplicates(r.expansion.dependencies)
              && (forall t :: t in r.expansion.dependencies ==> r.expansion.dependencies[t] != [])
              && (forall t, s :: Edge(r.expansion.dependencies, t, s) <==> SheetEdge(fanOut, deps, t, s))
  {
    var ok := ValidateInputs(stages, fanOut, deps);
    if !ok {
      return ValueError;
    }
    var total, metadata, stageSheets := NumberSheets(stages, fanOut);
    var expanded := ExpandDependencies(stages, fanOut, deps, stageSheets);
    return Ok(Expansion(total, stages, metadata, expanded, stageSheets));
  }

  // ---- the sheet graph and the stage graph ----------------------------------------------------------------

  /** What an expansion promises about its dependency graph. */
  ghost predicate Expands(g: Graph<int>, fanOut: map<int, int>, deps: Graph<int>) {
    forall t, s :: Edge(g, t, s) <==> SheetEdge(fanOut, deps, t, s)
  }

  /** Stages are positive and fan counts too. */
  ghost predicate Sane(fanOut: map<int, int>, deps: Graph<int>) {
    && Positive(fanOut)
    && (forall t, s :: Edge(deps, t, s) ==> t >= 1 && s >= 1)
  }

  lemma ValidIsSane(stages: int, fanOut: map<int, int>, deps: Graph<int>)
    requires ValidInput(stages, fanOut, deps)
    ensures Sane(fanOut, deps)
  {
  }

  /**
    t depends on s exactly when the stage of t lists the stage of s and, for equally wide fanned-out stages,
    the two are the same instance.
   */
  lemma EdgeInTermsOfStages(fanOut: map<int, int>, deps: Graph<int>, target: int, source: int, t: int, s: int)
    requires Sane(fanOut, deps) && target >= 1 && source >= 1
    requires InStage(fanOut, target, t) && InStage(fanOut, source, s)
    ensures SheetEdge(fanOut, deps, t, s) <==>
      && Edge(deps, target, source)
      && (Count(fanOut, target) == Count(fanOut, source) > 1 ==>
            Instance(fanOut, target, t) == Instance(fanOut, source, s))
  {
    if SheetEdge(fanOut, deps, t, s) {
      var a, b :| Edge(deps, a, b) && StagePair(fanOut, a, b, t, s);
      StageUnique(fanOut, target, a, t);
      StageUnique(fanOut, source, b, s);
    } else {
      assert !(Edge(deps, target, source) && StagePair(fanOut, target, source, t, s));
    }
  }

  /** Every walk between sheets is a walk between their stages. */
  lemma {:induction false} WalkProjects(g: Graph<int>, fanOut: map<int, int>, deps: Graph<int>, w: seq<int>,
                                        target: int, source: int)
    requires Sane(fanOut, deps) && Expands(g, fanOut, deps) && IsWalk(g, w) && |w| >= 2
    requires target >= 1 && source >= 1
    requires InStage(fanOut, target, w[0]) && InStage(fanOut, source, w[|w| - 1])
    ensures Reaches(deps, target, source)
    decreases |w|
  {
    assert Edge(g, w[0], w[1]);
    var a, b :| Edge(deps, a, b) && StagePair(fanOut, a, b, w[0], w[1]);
    StageUnique(fanOut, target, a, w[0]);
    if |w| == 2 {
      StageUnique(fanOut, source, b, w[1]);
      EdgeReaches(deps, target, source);
    } else {
      var v := w[1..];
      forall i | 0 <= i < |v| - 1 ensures Edge(g, v[i], v[i + 1]) {
        assert v[i] == w[i + 1] && v[i + 1] == w[i + 2];
      }
      WalkProjects(g, fanOut, deps, v, b, source);
      EdgeThenReaches(deps, target, b, source);
    }
  }

  /** The instance to go to when following a dependency from an instance: the same if there is one, else the first. */
  function Follow(fanOut: map<int, int>, target: int, source: int, t: int): int {
    if Count(fanOut, target) == Count(fanOut, source) then Offset(fanOut, source) + Instance(fanOut, target, t)
    else Offset(fanOut, source) + 1
  }

  lemma FollowIsEdge(g: Graph<int>, fanOut: map<int, int>, deps: Graph<int>, target: int, source: int, t: int)
    requires Sane(fanOut, deps) && Expands(g, fanOut, deps) && Edge(deps, target, source) && InStage(fanOut, target, t)
    ensures InStage(fanOut, source, Follow(fanOut, target, source, t)) && Edge(g, t, Follow(fanOut, target, source, t))
  {
    assert StagePair(fanOut, target, source, t, Follow(fanOut, target, source, t));
    assert SheetEdge(fanOut, deps, t, Follow(fanOut, target, source, t));
  }

  /** Along a stage walk, every sheet of its first stage depends on some sheet of its last. */
  lemma {:induction false} EverySheetHasAncestor(g: Graph<int>, fanOut: map<int, int>, deps: Graph<int>,
                                                 w: seq<int>, t: int)
    returns (s: int)
    requires Sane(fanOut, deps) && Expands(g, fanOut, deps) && IsWalk(deps, w) && |w| >= 2
    requires InStage(fanOut, w[0], t)
    ensures InStage(fanOut, w[|w| - 1], s) && Reaches(g, t, s)
    decreases |w|
  {
    assert Edge(deps, w[0], w[1]);
    var next := Follow(fanOut, w[0], w[1], t);
    FollowIsEdge(g, fanOut, deps, w[0], w[1], t);
    EdgeReaches(g, t, next);
    if |w| == 2 {
      return next;
    }
    var v := w[1..];
    forall i | 0 <= i < |v| - 1 ensures Edge(deps, v[i], v[i + 1]) {
      assert v[i] == w[i + 1] && v[i + 1] == w[i + 2];
    }
    s := EverySheetHasAncestor(g, fanOut, deps, v, next);
    EdgeThenReaches(g, t, next, s);
  }

  /** Along a stage walk, every sheet of its last stage is an ancestor of some sheet of its first. */
  lemma {:induction false} EverySheetIsAncestor(g: Graph<int>, fanOut: map<int, int>, deps: Graph<int>,
                                                w: seq<int>, s: int)
    returns (t: int)
    requires Sane(fanOut, deps) && Expands(g, fanOut, deps) && IsWalk(deps, w) && |w| >= 2
    requires InStage(fanOut, w[|w| - 1], s)
    ensures InStage(fanOut, w[0], t) && Reaches(g, t, s)
    decreases |w|
  {
    var n := |w|;
    var target, source := w[n - 2], w[n - 1];
    assert Edge(deps, w[n - 2], w[n - 2 + 1]);
    var before := Follow(fanOut, source, target, s);
    assert InStage(fanOut, target, before) && StagePair(fanOut, target, source, before, s);
    assert SheetEdge(fanOut, deps, before, s) && Edge(g, before, s);
    EdgeReaches(g, before, s);
    if n == 2 {
      return before;
    }
    var v := w[..n - 1];
    forall i | 0 <= i < |v| - 1 ensures Edge(deps, v[i], v[i + 1]) {
      assert v[i] == w[i] && v[i + 1] == w[i + 1];
    }
    t := EverySheetIsAncestor(g, fanOut, deps, v, before);
    ReachesThenEdge(g, t, before, s);
  }

  /**
    If stage T depends on stage S, directly or not, then every sheet of T has an ancestor in S and every sheet
    of S is an ancestor of some sheet of T.
   */
  lemma StageDependencyCoversSheets(g: Graph<int>, fanOut: map<int, int>, deps: Graph<int>, target: int, source: int)
    requires Sane(fanOut, deps) && Expands(g, fanOut, deps) && Reaches(deps, target, source)
    ensures forall t :: InStage(fanOut, target, t) ==> exists s :: InStage(fanOut, source, s) && Reaches(g, t, s)
    ensures forall s :: InStage(fanOut, source, s) ==> exists t :: InStage(fanOut, target, t) && Reaches(g, t, s)
  {
    var w :| WalkFromTo(deps, w, target, source);
    forall t | InStage(fanOut, target, t) ensures exists s :: InStage(fanOut, source, s) && Reaches(g, t, s) {
      var s := EverySheetHasAncestor(g, fanOut, deps, w, t);
    }
    forall s | InStage(fanOut, source, s) ensures exists t :: InStage(fanOut, target, t) && Reaches(g, t, s) {
      var t := EverySheetIsAncestor(g, fanOut, deps, w, s);
    }
  }

  /** Conversely a sheet depends only on sheets of stages its own stage depends on. */
  lemma SheetDependencyProjects(g: Graph<int>, fanOut: map<int, int>, deps: Graph<int>, target: int, source: int,
                                t: int, s: int)
    requires Sane(fanOut, deps) && Expands(g, fanOut, deps) && target >= 1 && source >= 1
    requires InStage(fanOut, target, t) && InStage(fanOut, source, s) && Reaches(g, t, s)
    ensures Reaches(deps, target, source)
  {
    var w :| WalkFromTo(g, w, t, s);
    WalkProjects(g, fanOut, deps, w, target, source);
  }

  lemma FirstInstances(fanOut: map<int, int>, deps: Graph<int>, target: int, source: int)
    requires Sane(fanOut, deps) && Edge(deps, target, source)
    ensures SheetEdge(fanOut, deps, Offset(fanOut, target) + 1, Offset(fanOut, source) + 1)
  {
    assert StagePair(fanOut, target, source, Offset(fanOut, target) + 1, Offset(fanOut, source) + 1);
  }

  /** The first instances of the stages depend on each other exactly as the stages do. */
  lemma {:induction false} StageWalkLifts(g: Graph<int>, fanOut: map<int, int>, deps: Graph<int>, w: seq<int>)
    requires Sane(fanOut, deps) && Expands(g, fanOut, deps) && IsWalk(deps, w) && |w| >= 2
    ensures Reaches(g, Offset(fanOut, w[0]) + 1, Offset(fanOut, w[|w| - 1]) + 1)
    decreases |w|
  {
    assert Edge(deps, w[0], w[1]);
    FirstInstances(fanOut, deps, w[0], w[1]);
    EdgeReaches(g, Offset(fanOut, w[0]) + 1, Offset(fanOut, w[1]) + 1);
    if |w| > 2 {
      var v := w[1..];
      forall i | 0 <= i < |v| - 1 ensures Edge(deps, v[i], v[i + 1]) {
        assert v[i] == w[i + 1] && v[i + 1] == w[i + 2];
      }
      StageWalkLifts(g, fanOut, deps, v);
      EdgeThenReaches(g, Offset(fanOut, w[0]) + 1, Offset(fanOut, w[1]) + 1, Offset(fanOut, w[|w| - 1]) + 1);
    }
  }

  lemma SheetCycleGivesStageCycle(g: Graph<int>, fanOut: map<int, int>, deps: Graph<int>, x: int)
    requires Sane(fanOut, deps) && Expands(g, fanOut, deps) && Reaches(g, x, x)
    ensures exists a :: Reaches(deps, a, a)
  {
    var w :| WalkFromTo(g, w, x, x);
    assert Edge(g, w[0], w[1]);
    var a, b :| Edge(deps, a, b) && StagePair(fanOut, a, b, w[0], w[1]);
    WalkProjects(g, fanOut, deps, w, a, a);
  }

  lemma StageCycleGivesSheetCycle(g: Graph<int>, fanOut: map<int, int>, deps: Graph<int>, a: int)
    requires Sane(fanOut, deps) && Expands(g, fanOut, deps) && Reaches(deps, a, a)
    ensures Reaches(g, Offset(fanOut, a) + 1, Offset(fanOut, a) + 1)
  {
    var w :| WalkFromTo(deps, w, a, a);
    StageWalkLifts(g, fanOut, deps, w);
  }

  /** Expansion neither creates nor hides cycles. */
  lemma AcyclicIffStagesAre(g: Graph<int>, fanOut: map<int, int>, deps: Graph<int>)
    requires Sane(fanOut, deps) && Expands(g, fanOut, deps)
    ensures Acyclic(g) <==> Acyclic(deps)
  {
    if !Acyclic(deps) {
      var a := CycleWitness(deps);
      StageCycleGivesSheetCycle(g, fanOut, deps, a);
    }
    if !Acyclic(g) {
      var x := CycleWitness(g);
      SheetCycleGivesStageCycle(g, fanOut, deps, x);
    }
  }
}
