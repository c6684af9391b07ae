/** Plans as dependency graphs: validation, and the grouping of steps into waves. */
module PlanGraph {
  datatype PlanStep = PlanStep(id: string, agent: string, prompt: string, dependsOn: seq<string>)

  datatype PlanError =
    | NoSteps | EmptyId | DuplicateId(id: string) | UnknownDependency(step: string, dep: string) | CycleDetected

  // ----- The graph of a plan

  function Ids(steps: seq<PlanStep>): set<string> {
    set i | 0 <= i < |steps| :: steps[i].id
  }

  ghost predicate UniqueIds(steps: seq<PlanStep>) {
    forall i, j :: 0 <= i < j < |steps| ==> steps[i].id != steps[j].id
  }

  ghost predicate KnownDeps(steps: seq<PlanStep>) {
    forall i, d :: 0 <= i < |steps| && d in steps[i].dependsOn ==> d in Ids(steps)
  }

  /** Step `a` names `b` as a dependency. */
  ghost predicate Edge(steps: seq<PlanStep>, a: string, b: string) {
    exists i :: 0 <= i < |steps| && steps[i].id == a && b in steps[i].dependsOn
  }

  /** Consecutive elements of `p` are step and dependency. */
  ghost predicate Chain(steps: seq<PlanStep>, p: seq<string>) {
    && |p| >= 1
    && p[0] in Ids(steps)
    && forall i :: 0 <= i < |p| - 1 ==> Link(steps, p, i)
  }

  ghost predicate Link(steps: seq<PlanStep>, p: seq<string>, i: nat)
    requires i + 1 < |p|
  {
    Edge(steps, p[i], p[i + 1])
  }

  /** Some chain of at least one dependency leads from a step back to itself. */
  ghost predicate Cyclic(steps: seq<PlanStep>) {
    exists p :: Chain(steps, p) && |p| >= 2 && p[0] == p[|p| - 1]
  }

  /** There is a chain of `n` dependencies starting at `id`. */
  ghost predicate HasChain(steps: seq<PlanStep>, id: string, n: nat) {
    exists p :: Chain(steps, p) && |p| == n + 1 && p[0] == id
  }

  /** The longest chain starting at `id` has exactly `n` dependencies. */
  ghost predicate AtLevel(steps: seq<PlanStep>, id: string, n: nat) {
    HasChain(steps, id, n) && !HasChain(steps, id, n + 1)
  }

  /** The steps of level `n`, in plan order. */
  ghost function LevelSteps(all: seq<PlanStep>, steps: seq<PlanStep>, n: nat): seq<PlanStep> {
    if steps == [] then []
    else
      var s := steps[|steps| - 1];
      LevelSteps(all, steps[..|steps| - 1], n) + (if AtLevel(all, s.id, n) then [s] else [])
  }

  /** The waves are the levels of the graph, none is empty, and together they hold every step. */
  ghost predicate AreLevels(steps: seq<PlanStep>, waves: seq<seq<PlanStep>>) {
    && (forall w :: 0 <= w < |waves| ==> IsLevel(steps, waves[w], w))
    && (forall i :: 0 <= i < |steps| ==> LevelBelow(steps, steps[i].id, |waves|))
  }

  ghost predicate IsLevel(steps: seq<PlanStep>, wave: seq<PlanStep>, w: nat) {
    wave == LevelSteps(steps, steps, w) && wave != []
  }

  ghost predicate LevelBelow(steps: seq<PlanStep>, id: string, k: nat) {
    exists w :: 0 <= w < k && AtLevel(steps, id, w)
  }

  // ----- Chains

  lemma EveryStepIsAChain(steps: seq<PlanStep>, id: string)
    requires id in Ids(steps)
    ensures HasChain(steps, id, 0)
  {
    assert Chain(steps, [id]);
  }

  lemma ChainsAreKnown(steps: seq<PlanStep>, id: string, n: nat)
    requires HasChain(steps, id, n)
    ensures id in Ids(steps)
  {
  }

  lemma LongerChain(steps: seq<PlanStep>, a: string, b: string, n: nat)
    requires Edge(steps, a, b) && HasChain(steps, b, n)
    ensures HasChain(steps, a, n + 1)
  {
    var p :| Chain(steps, p) && |p| == n + 1 && p[0] == b;
    var q := [a] + p;
    forall i | 0 <= i < |q| - 1
      ensures Link(steps, q, i)
    {
      if i > 0 {
        assert Link(steps, p, i - 1);
      }
    }
    assert Chain(steps, q);
  }

  lemma ShorterChain(steps: seq<PlanStep>, a: string, n: nat) returns (b: string)
    requires HasChain(steps, a, n + 1) && KnownDeps(steps)
    ensures Edge(steps, a, b) && HasChain(steps, b, n)
  {
    var p :| Chain(steps, p) && |p| == n + 2 && p[0] == a;
    b := p[1];
    assert Link(steps, p, 0);
    var q := p[1..];
    forall i | 0 <= i < |q| - 1
      ensures Link(steps, q, i)
    {
      assert Link(steps, p, i + 1);
    }
    assert Chain(steps, q);
  }

  lemma {:induction false} PrefixChain(steps: seq<PlanStep>, id: string, m: nat, n: nat)
    requires HasChain(steps, id, n) && m <= n
    ensures HasChain(steps, id, m)
  {
    var p :| Chain(steps, p) && |p| == n + 1 && p[0] == id;
    var q := p[..m + 1];
    forall i | 0 <= i < |q| - 1
      ensures Link(steps, q, i)
    {
      assert Link(steps, p, i);
    }
    assert Chain(steps, q);
  }

  /** More elements than the set they come from: two of them are equal. */
  lemma {:induction false} Pigeonhole(p: seq<string>, ids: set<string>) returns (i: nat, j: nat)
    requires |p| > |ids| && forall k :: 0 <= k < |p| ==> p[k] in ids
    ensures i < j < |p| && p[i] == p[j]
  {
    var last, front := p[|p| - 1], p[..|p| - 1];
    if last in front {
      i :| 0 <= i < |front| && front[i] == last;
      j := |p| - 1;
    } else {
      forall k | 0 <= k < |front|
        ensures front[k] in ids - {last}
      {
        assert front[k] in front;
      }
      assert last in ids;
      i, j := Pigeonhole(front, ids - {last});
    }
  }

  lemma ChainStaysKnown(steps: seq<PlanStep>, p: seq<string>)
    requires KnownDeps(steps) && Chain(steps, p)
    ensures forall k :: 0 <= k < |p| ==> p[k] in Ids(steps)
  {
    forall k | 0 <= k < |p|
      ensures p[k] in Ids(steps)
    {
      if k > 0 {
        assert Link(steps, p, k - 1);
      }
    }
  }

  lemma {:induction false} FewIds(steps: seq<PlanStep>)
    ensures |Ids(steps)| <= |steps|
    ensures |Ids(steps)| == |steps| <==> UniqueIds(steps)
  {
    if steps != [] {
      var front, last := steps[..|steps| - 1], steps[|steps| - 1];
      FewIds(front);
      assert Ids(steps) == Ids(front) + {last.id};
      assert UniqueIds(steps) <==> UniqueIds(front) && last.id !in Ids(front);
    } else {
      assert Ids(steps) == {};
    }
  }

  /** A chain longer than the plan must come back to a step it has passed. */
  lemma LongChainMeansCycle(steps: seq<PlanStep>, id: string)
    requires KnownDeps(steps) && HasChain(steps, id, |steps|)
    ensures Cyclic(steps)
  {
    var p :| Chain(steps, p) && |p| == |steps| + 1 && p[0] == id;
    ChainStaysKnown(steps, p);
    FewIds(steps);
    var i, j := Pigeonhole(p, Ids(steps));
    var q := p[i..j + 1];
    forall k | 0 <= k < |q| - 1
      ensures Link(steps, q, k)
    {
      assert Link(steps, p, i + k);
    }
    assert Chain(steps, q);
  }

  /** Going round a cycle gives chains of every length. */
  lemma {:induction false} CycleMeansLongChains(steps: seq<PlanStep>, p: seq<string>, i: nat, n: nat)
    requires Chain(steps, p) && |p| >= 2 && p[0] == p[|p| - 1] && i < |p| - 1
    ensures HasChain(steps, p[i], n)
    decreases n
  {
    assert Link(steps, p, i);
    if n == 0 {
      EveryStepIsAChain(steps, p[i]);
    } else {
      var next := if i + 1 == |p| - 1 then 0 else i + 1;
      CycleMeansLongChains(steps, p, next, n - 1);
      LongerChain(steps, p[i], p[i + 1], n - 1);
    }
  }

  // ----- One wave

  predicate Runnable(s: PlanStep, processed: set<string>) {
    s.id !in processed && forall d :: d in s.dependsOn ==> d in processed
  }

  /** The unprocessed steps whose dependencies are all processed, in plan order. */
  function Ready(steps: seq<PlanStep>, processed: set<string>): seq<PlanStep> {
    if steps == [] then []
    else
      var s := steps[|steps| - 1];
      Ready(steps[..|steps| - 1], processed) + (if Runnable(s, processed) then [s] else [])
  }

  lemma {:induction false} ReadyMembers(steps: seq<PlanStep>, processed: set<string>)
    ensures forall i :: 0 <= i < |Ready(steps, processed)| ==>
              Ready(steps, processed)[i] in steps && Runnable(Ready(steps, processed)[i], processed)
    ensures forall s :: s in steps && Runnable(s, processed) ==> s in Ready(steps, processed)
  {
    if steps != [] {
      ReadyMembers(steps[..|steps| - 1], processed);
      assert steps == steps[..|steps| - 1] + [steps[|steps| - 1]];
    }
  }

  /** What has been processed after `k` waves: the steps whose longest chain is shorter than `k`. */
  ghost predicate ProcessedBelow(steps: seq<PlanStep>, processed: set<string>, k: nat) {
    forall id :: id in processed <==> id in Ids(steps) && !HasChain(steps, id, k)
  }

  lemma UniqueEdges(steps: seq<PlanStep>, s: PlanStep, d: string)
    requires UniqueIds(steps) && s in steps
    ensures Edge(steps, s.id, d) <==> d in s.dependsOn
  {
  }

  /** A step is runnable after `k` waves exactly when it is of level `k`. */
  lemma RunnableIsLevel(steps: seq<PlanStep>, processed: set<string>, k: nat, s: PlanStep)
    requires UniqueIds(steps) && KnownDeps(steps) && s in steps && ProcessedBelow(steps, processed, k)
    ensures Runnable(s, processed) <==> AtLevel(steps, s.id, k)
  {
    if Runnable(s, processed) && HasChain(steps, s.id, k + 1) {
      var d := ShorterChain(steps, s.id, k);
      UniqueEdges(steps, s, d);
      assert false;
    }
    if AtLevel(steps, s.id, k) {
      forall d | d in s.dependsOn
        ensures d in processed
      {
        UniqueEdges(steps, s, d);
        if HasChain(steps, d, k) {
          LongerChain(steps, s.id, d, k);
        }
      }
    }
  }

  lemma {:induction false} ReadyIsLevel(all: seq<PlanStep>, steps: seq<PlanStep>, processed: set<string>, k: nat)
    requires UniqueIds(all) && KnownDeps(all) && ProcessedBelow(all, processed, k)
    requires forall s :: s in steps ==> s in all
    ensures Ready(steps, processed) == LevelSteps(all, steps, k)
  {
    if steps != [] {
      ReadyIsLevel(all, steps[..|steps| - 1], processed, k);
      RunnableIsLevel(all, processed, k, steps[|steps| - 1]);
    }
  }

  /** Marking the wave as processed moves on to the next level. */
  lemma NextLevel(steps: seq<PlanStep>, processed: set<string>, k: nat)
    requires UniqueIds(steps) && KnownDeps(steps) && ProcessedBelow(steps, processed, k)
    ensures ProcessedBelow(steps, processed + Ids(Ready(steps, processed)), k + 1)
  {
    var wave := Ready(steps, processed);
    ReadyMembers(steps, processed);
    forall id
      ensures id in processed + Ids(wave) <==> id in Ids(steps) && !HasChain(steps, id, k + 1)
    {
      if id in Ids(steps) {
        var i :| 0 <= i < |steps| && steps[i].id == id;
        var s := steps[i];
        assert s in steps;
        RunnableIsLevel(steps, processed, k, s);
        if HasChain(steps, id, k + 1) {
          PrefixChain(steps, id, k, k + 1);
        } else if id !in processed {
          assert s in wave;
        }
      }
    }
  }

  /** If no step is runnable, every unprocessed step waits for another one, so chains go on forever. */
  lemma {:induction false} StuckMeansLongChains(steps: seq<PlanStep>, processed: set<string>, id: string, n: nat)
    requires UniqueIds(steps) && KnownDeps(steps) && Ready(steps, processed) == []
    requires id in Ids(steps) && id !in processed
    ensures HasChain(steps, id, n)
    decreases n
  {
    if n == 0 {
      EveryStepIsAChain(steps, id);
    } else {
      var i :| 0 <= i < |steps| && steps[i].id == id;
      ReadyMembers(steps, processed);
      assert steps[i] in steps && !Runnable(steps[i], processed);
      var d :| d in steps[i].dependsOn && d !in processed;
      StuckMeansLongChains(steps, processed, d, n - 1);
      LongerChain(steps, id, d, n - 1);
    }
  }
}
