/** The planner: sorting a plan into waves, and validating a plan, as the code does it. */
module Planner {
  import opened Common
  import opened PlanGraph

  method CheckDependencies(steps: seq<PlanStep>, known: set<string>) returns (bad: Option<PlanError>)
    requires known == Ids(steps)
    ensures bad.None? <==> KnownDeps(steps)
    ensures bad.Some? ==> exists i, d :: 0 <= i < |steps| && d in steps[i].dependsOn && d !in known
                                         && bad.value == UnknownDependency(steps[i].id, d)
  {
    for i := 0 to |steps|
      invariant forall k, d :: 0 <= k < i && d in steps[k].dependsOn ==> d in known
    {
      var deps := steps[i].dependsOn;
      for j := 0 to |deps|
        invariant forall k :: 0 <= k < j ==> deps[k] in known
      {
        if deps[j] !in known {
          return Some(UnknownDependency(steps[i].id, deps[j]));
        }
      }
    }
    return None;
  }

  /** One pass over the plan: the steps that may run next. */
  method CollectWave(steps: seq<PlanStep>, processed: set<string>) returns (wave: seq<PlanStep>)
    ensures wave == Ready(steps, processed)
  {
    wave := [];
    for i := 0 to |steps|
      invariant wave == Ready(steps[..i], processed)
    {
      var s := steps[i];
      assert steps[..i + 1][..i] == steps[..i];
      if s.id !in processed {
        var canRun := true;
        var j := 0;
        while j < |s.dependsOn|
          invariant 0 <= j <= |s.dependsOn| && canRun
          invariant forall k :: 0 <= k < j ==> s.dependsOn[k] in processed
        {
          if s.dependsOn[j] !in processed {
            canRun := false;
            break;
          }
          j := j + 1;
        }
        assert canRun <==> Runnable(s, processed);
        if canRun {
          wave := wave + [s];
        }
      }
    }
    assert steps[..|steps|] == steps;
  }

  method MarkProcessed(wave: seq<PlanStep>, processed: set<string>) returns (marked: set<string>)
    ensures marked == processed + Ids(wave)
  {
    marked := processed;
    for i := 0 to |wave|
      invariant marked == processed + Ids(wave[..i])
    {
      assert Ids(wave[..i + 1]) == Ids(wave[..i]) + {wave[i].id};
      marked := marked + {wave[i].id};
    }
    assert wave[..|wave|] == wave;
  }

  method IdsOf(steps: seq<PlanStep>) returns (ids: set<string>)
    ensures ids == Ids(steps)
  {
    ids := MarkProcessed(steps, {});
  }

  /** A wave is new: it grows the processed set and stays within the plan. */
  lemma WaveGrows(steps: seq<PlanStep>, processed: set<string>)
    requires processed <= Ids(steps) && Ready(steps, processed) != []
    ensures processed < processed + Ids(Ready(steps, processed)) <= Ids(steps)
  {
    var wave := Ready(steps, processed);
    ReadyMembers(steps, processed);
    assert wave[0] in steps && wave[0].id in Ids(wave) && wave[0].id !in processed;
    forall id | id in Ids(wave)
      ensures id in Ids(steps)
    {
      var i :| 0 <= i < |wave| && wave[i].id == id;
      assert wave[i] in steps;
    }
  }

  lemma ProperSubsetSmaller<T>(a: set<T>, b: set<T>)
    requires a < b
    ensures |a| < |b|
  {
    var x :| x in b && x !in a;
    SubsetSize(a, b - {x});
  }

  /** Where no step can run although some are left, the plan is cyclic or an ID occurs twice. */
  lemma StuckMeansBad(steps: seq<PlanStep>, processed: set<string>)
    requires KnownDeps(steps) && processed <= Ids(steps) && |processed| < |steps| && Ready(steps, processed) == []
    ensures !UniqueIds(steps) || Cyclic(steps)
  {
    FewIds(steps);
    if UniqueIds(steps) {
      assert processed != Ids(steps);
      var id :| id in Ids(steps) && id !in processed;
      StuckMeansLongChains(steps, processed, id, |steps|);
      LongChainMeansCycle(steps, id);
    }
  }

  lemma AllProcessed(steps: seq<PlanStep>, processed: set<string>)
    requires processed <= Ids(steps) && |processed| >= |steps|
    ensures processed == Ids(steps) && UniqueIds(steps)
  {
    FewIds(steps);
    if processed != Ids(steps) {
      ProperSubsetSmaller(processed, Ids(steps));
    }
  }

  /** Once everything is processed the levels cover the plan, and no cycle is possible. */
  lemma DoneMeansAcyclic(steps: seq<PlanStep>, k: nat)
    requires forall id :: id in Ids(steps) ==> !HasChain(steps, id, k)
    ensures !Cyclic(steps)
  {
    if Cyclic(steps) {
      var p :| Chain(steps, p) && |p| >= 2 && p[0] == p[|p| - 1];
      CycleMeansLongChains(steps, p, 0, k);
    }
  }

  lemma LevelsCover(steps: seq<PlanStep>, waves: seq<seq<PlanStep>>)
    requires forall w :: 0 <= w < |waves| ==> IsLevel(steps, waves[w], w)
    requires forall id :: id in Ids(steps) ==> !HasChain(steps, id, |waves|)
    ensures AreLevels(steps, waves)
  {
    forall i | 0 <= i < |steps|
      ensures LevelBelow(steps, steps[i].id, |waves|)
    {
      assert steps[i].id in Ids(steps);
      EveryStepIsAChain(steps, steps[i].id);
      var w := HighestChain(steps, steps[i].id, |waves|);
    }
  }

  lemma {:induction false} HighestChain(steps: seq<PlanStep>, id: string, k: nat) returns (w: nat)
    requires HasChain(steps, id, 0) && !HasChain(steps, id, k)
    ensures w < k && AtLevel(steps, id, w)
  {
    if HasChain(steps, id, k - 1) {
      w := k - 1;
    } else {
      w := HighestChain(steps, id, k - 1);
    }
  }

  /** The waves found so far are the first levels; with an ID used twice nothing is claimed of them. */
  ghost predicate SoFar(steps: seq<PlanStep>, processed: set<string>, waves: seq<seq<PlanStep>>) {
    && processed <= Ids(steps)
    && (UniqueIds(steps) ==>
          && ProcessedBelow(steps, processed, |waves|)
          && forall w :: 0 <= w < |waves| ==> IsLevel(steps, waves[w], w))
  }

  lemma NothingProcessed(steps: seq<PlanStep>)
    ensures SoFar(steps, {}, [])
  {
    forall id | id in Ids(steps)
      ensures HasChain(steps, id, 0)
    {
      EveryStepIsAChain(steps, id);
    }
  }

  lemma OneMoreLevel(steps: seq<PlanStep>, waves: seq<seq<PlanStep>>, wave: seq<PlanStep>)
    requires (forall w :: 0 <= w < |waves| ==> IsLevel(steps, waves[w], w)) && IsLevel(steps, wave, |waves|)
    ensures forall w :: 0 <= w < |waves + [wave]| ==> IsLevel(steps, (waves + [wave])[w], w)
  {
  }

  lemma OneMoreWave(steps: seq<PlanStep>, processed: set<string>, waves: seq<seq<PlanStep>>)
    requires KnownDeps(steps) && SoFar(steps, processed, waves) && Ready(steps, processed) != []
    ensures SoFar(steps, processed + Ids(Ready(steps, processed)), waves + [Ready(steps, processed)])
    ensures |processed| < |processed + Ids(Ready(steps, processed))|
  {
    var wave := Ready(steps, processed);
    WaveGrows(steps, processed);
    ProperSubsetSmaller(processed, processed + Ids(wave));
    if UniqueIds(steps) {
      ReadyIsLevel(steps, steps, processed, |waves|);
      NextLevel(steps, processed, |waves|);
      OneMoreLevel(steps, waves, wave);
    }
  }

  /** When the loop ends the plan is well-formed and the waves are its levels. */
  lemma AllWavesFound(steps: seq<PlanStep>, processed: set<string>, waves: seq<seq<PlanStep>>)
    requires SoFar(steps, processed, waves) && |processed| >= |steps|
    ensures UniqueIds(steps) && !Cyclic(steps) && AreLevels(steps, waves)
  {
    AllProcessed(steps, processed);
    DoneMeansAcyclic(steps, |waves|);
    LevelsCover(steps, waves);
  }

  /**
   * Sorts the steps into waves.  On any input: it reports an unknown dependency exactly when there is
   * one; otherwise it succeeds exactly when no ID occurs twice and the graph has no cycle, and then
   * the waves are the levels of the graph.
   */
  method TopoSort(steps: seq<PlanStep>) returns (r: Result<seq<seq<PlanStep>>, PlanError>)
    ensures (r.Err? && r.error.UnknownDependency?) <==> !KnownDeps(steps)
    ensures r.Ok? <==> KnownDeps(steps) && UniqueIds(steps) && !Cyclic(steps)
    ensures r.Ok? ==> AreLevels(steps, r.value)
    ensures r.Err? ==> r.error.UnknownDependency? || r.error.CycleDetected?
  {
    var known := IdsOf(steps);
    var bad := CheckDependencies(steps, known);
    if bad.Some? {
      return Err(bad.value);
    }
    var waves: seq<seq<PlanStep>> := [];
    var processed := {};
    NothingProcessed(steps);
    while |processed| < |steps|
      invariant SoFar(steps, processed, waves)
      decreases |steps| - |processed|
    {
      var wave := CollectWave(steps, processed);
      if |wave| == 0 {
        StuckMeansBad(steps, processed);
        return Err(CycleDetected);
      }
      OneMoreWave(steps, processed, waves);
      waves := waves + [wave];
      processed := MarkProcessed(wave, processed);
    }
    AllWavesFound(steps, processed, waves);
    return Ok(waves);
  }

  /** The error names something that is wrong with the plan. */
  ghost predicate Accuses(steps: seq<PlanStep>, error: PlanError) {
    match error
    case NoSteps => steps == []
    case EmptyId => exists i :: 0 <= i < |steps| && steps[i].id == ""
    case DuplicateId(id) => exists i, j :: 0 <= i < j < |steps| && steps[i].id == id == steps[j].id
    case UnknownDependency(step, dep) =>
      dep !in Ids(steps) && exists i :: 0 <= i < |steps| && steps[i].id == step && dep in steps[i].dependsOn
    case CycleDetected => Cyclic(steps)
  }

  /** Accepts exactly the non-empty plans with distinct non-empty IDs, known dependencies and no cycle. */
  method Validate(steps: seq<PlanStep>) returns (error: Option<PlanError>)
    ensures error.None? <==>
              steps != [] && "" !in Ids(steps) && UniqueIds(steps) && KnownDeps(steps) && !Cyclic(steps)
    ensures error == Some(NoSteps) <==> steps == []
    ensures error == Some(CycleDetected) ==> UniqueIds(steps) && KnownDeps(steps) && Cyclic(steps)
    ensures error.Some? ==> Accuses(steps, error.value)
  {
    if |steps| == 0 {
      return Some(NoSteps);
    }
    var seen: set<string> := {};
    for i := 0 to |steps|
      invariant seen == Ids(steps[..i]) && "" !in seen && UniqueIds(steps[..i])
    {
      assert Ids(steps[..i + 1]) == seen + {steps[i].id};
      if steps[i].id == "" {
        assert steps[i].id in Ids(steps);
        return Some(EmptyId);
      }
      if steps[i].id in seen {
        var j :| 0 <= j < i && steps[..i][j].id == steps[i].id;
        return Some(DuplicateId(steps[i].id));
      }
      seen := seen + {steps[i].id};
    }
    assert steps[..|steps|] == steps;
    var bad := CheckDependencies(steps, seen);
    if bad.Some? {
      return bad;
    }
    var order := TopoSort(steps);
    if order.Err? {
      return Some(order.error);
    }
    return None;
  }

  // ----- What the waves mean

  lemma {:induction false} LevelMembers(all: seq<PlanStep>, steps: seq<PlanStep>, w: nat)
    ensures forall s :: s in LevelSteps(all, steps, w) <==> s in steps && AtLevel(all, s.id, w)
  {
    if steps != [] {
      var front, last := steps[..|steps| - 1], steps[|steps| - 1];
      LevelMembers(all, front, w);
      assert steps == front + [last];
    }
  }

  lemma StepHasALevel(steps: seq<PlanStep>, waves: seq<seq<PlanStep>>, id: string) returns (s: PlanStep, w: nat)
    requires AreLevels(steps, waves) && id in Ids(steps)
    ensures w < |waves| && s.id == id && s in steps && s in waves[w] && AtLevel(steps, id, w)
  {
    var i :| 0 <= i < |steps| && steps[i].id == id;
    s := steps[i];
    assert LevelBelow(steps, id, |waves|);
    w :| 0 <= w < |waves| && AtLevel(steps, steps[i].id, w);
    LevelMembers(steps, steps, w);
  }

  lemma OneLevelOnly(steps: seq<PlanStep>, id: string, v: nat, w: nat)
    requires AtLevel(steps, id, v) && AtLevel(steps, id, w)
    ensures v == w
  {
    if v < w {
      PrefixChain(steps, id, v + 1, w);
    } else if w < v {
      PrefixChain(steps, id, w + 1, v);
    }
  }

  /** Every step is in exactly one wave, the one numbered by its longest chain of dependencies. */
  lemma ExactlyOneWave(steps: seq<PlanStep>, waves: seq<seq<PlanStep>>, s: PlanStep)
    requires UniqueIds(steps) && AreLevels(steps, waves) && s in steps
    ensures exists w :: 0 <= w < |waves| && s in waves[w] && AtLevel(steps, s.id, w)
    ensures forall v, w :: 0 <= v < |waves| && 0 <= w < |waves| && s in waves[v] && s in waves[w] ==> v == w
  {
    var i :| 0 <= i < |steps| && steps[i] == s;
    var s', level := StepHasALevel(steps, waves, s.id);
    assert s' == s;
    forall v, w | 0 <= v < |waves| && 0 <= w < |waves| && s in waves[v] && s in waves[w]
      ensures v == w
    {
      LevelMembers(steps, steps, v);
      LevelMembers(steps, steps, w);
      OneLevelOnly(steps, s.id, v, w);
    }
  }

  /** Each dependency of a step is in a strictly earlier wave. */
  lemma DependenciesComeEarlier(steps: seq<PlanStep>, waves: seq<seq<PlanStep>>, s: PlanStep, w: nat, d: string)
    requires KnownDeps(steps) && AreLevels(steps, waves)
    requires w < |waves| && s in waves[w] && d in s.dependsOn
    ensures EarlierWave(waves, d, w)
  {
    LevelMembers(steps, steps, w);
    var k :| 0 <= k < |steps| && steps[k] == s;
    assert Edge(steps, s.id, d);
    var u, v := StepHasALevel(steps, waves, d);
    if v >= w {
      PrefixChain(steps, d, w, v);
      LongerChain(steps, s.id, d, w);
    }
  }

  ghost predicate EarlierWave(waves: seq<seq<PlanStep>>, id: string, w: nat) {
    exists v, i :: 0 <= v < w && v < |waves| && 0 <= i < |waves[v]| && waves[v][i].id == id
  }

  /** Any numbering that puts each step after its dependencies. */
  ghost predicate Layering(steps: seq<PlanStep>, layer: map<string, nat>) {
    && Ids(steps) <= layer.Keys
    && forall a, b :: Edge(steps, a, b) && b in Ids(steps) ==> layer[b] < layer[a]
  }

  lemma {:induction false} LayerAtLeastChain(steps: seq<PlanStep>, layer: map<string, nat>, id: string, n: nat)
    requires KnownDeps(steps) && Layering(steps, layer) && HasChain(steps, id, n)
    ensures id in layer && layer[id] >= n
    decreases n
  {
    ChainsAreKnown(steps, id, n);
    if n > 0 {
      var d := ShorterChain(steps, id, n - 1);
      ChainsAreKnown(steps, d, n - 1);
      LayerAtLeastChain(steps, layer, d, n - 1);
    }
  }

  /** No valid layering puts any step earlier, so none has fewer waves. */
  lemma WavesAreMinimal(steps: seq<PlanStep>, waves: seq<seq<PlanStep>>, layer: map<string, nat>)
    requires KnownDeps(steps) && AreLevels(steps, waves) && Layering(steps, layer)
    ensures forall w, i :: 0 <= w < |waves| && 0 <= i < |waves[w]| ==>
              waves[w][i].id in layer && layer[waves[w][i].id] >= w
    ensures waves != [] ==> exists id :: id in layer && layer[id] >= |waves| - 1
  {
    forall w, i | 0 <= w < |waves| && 0 <= i < |waves[w]|
      ensures waves[w][i].id in layer && layer[waves[w][i].id] >= w
    {
      LevelMembers(steps, steps, w);
      assert waves[w][i] in waves[w];
      LayerAtLeastChain(steps, layer, waves[w][i].id, w);
    }
    if waves != [] {
      var last := waves[|waves| - 1];
      assert last[0].id in layer && layer[last[0].id] >= |waves| - 1;
    }
  }
}
