/** How often crashes and resumptions can make the executor repeat itself. */
module PlanRepeats {
  import opened Common
  import opened PlanGraph
  import Planner
  import opened PlanRuns

  // ----- IDs in the waves

  ghost predicate InWaves(waves: seq<seq<PlanStep>>, n: nat, id: string) {
    exists v :: n <= v < |waves| && id in Ids(waves[v])
  }

  lemma {:induction false} LevelIdsDistinct(all: seq<PlanStep>, steps: seq<PlanStep>, n: nat)
    requires UniqueIds(steps)
    ensures UniqueIds(LevelSteps(all, steps, n))
  {
    if steps != [] {
      var front, last := steps[..|steps| - 1], steps[|steps| - 1];
      LevelIdsDistinct(all, front, n);
      Planner.LevelMembers(all, front, n);
      var level := LevelSteps(all, front, n);
      forall i | 0 <= i < |level|
        ensures level[i].id != last.id
      {
        assert level[i] in front;
        var k :| 0 <= k < |front| && front[k] == level[i];
        assert steps[k].id != last.id;
      }
    }
  }

  /** Wave `n` has distinct IDs, and none of them is in a later wave. */
  lemma WaveIdsDistinct(steps: seq<PlanStep>, waves: seq<seq<PlanStep>>, n: nat)
    requires Sorted(steps, waves) && n < |waves|
    ensures UniqueIds(waves[n])
    ensures forall id :: id in Ids(waves[n]) ==> !InWaves(waves, n + 1, id)
  {
    assert IsLevel(steps, waves[n], n);
    LevelIdsDistinct(steps, steps, n);
    forall id | id in Ids(waves[n])
      ensures !InWaves(waves, n + 1, id)
    {
      if InWaves(waves, n + 1, id) {
        var v :| n + 1 <= v < |waves| && id in Ids(waves[v]);
        assert IsLevel(steps, waves[v], v);
        Planner.LevelMembers(steps, steps, n);
        Planner.LevelMembers(steps, steps, v);
        Planner.OneLevelOnly(steps, id, n, v);
      }
    }
  }

  // ----- What the present process may still create

  function CountTasks(tasks: seq<PlanTask>, id: string): nat {
    if tasks == [] then 0
    else CountTasks(tasks[..|tasks| - 1], id) + if tasks[|tasks| - 1].step == id then 1 else 0
  }

  /** How many processes have worked on the plan before action `k`. */
  function Processes(actions: seq<Action>, k: nat): nat
    requires k <= |actions|
  {
    if k == 0 then 1 else Processes(actions, k - 1) + if actions[k - 1].Resume? then 1 else 0
  }

  ghost predicate InLeft(w: World, left: seq<nat>, id: string) {
    exists i :: 0 <= i < |left| && left[i] < |w.tasks| && w.tasks[left[i]].step == id
  }

  /** The process may still make a first task for this step. */
  ghost predicate MayStart(waves: seq<seq<PlanStep>>, w: World, id: string) {
    match w.process
    case Down => false
    case Ending(_) => false
    case AtWave(n, _) => InWaves(waves, n, id)
    case Creating(n, _, todo, _) => id in Ids(todo) || InWaves(waves, n + 1, id)
    case Settling(n, _, _, _) => InWaves(waves, n + 1, id)
    case Retrying(n, _, _, _, _) => InWaves(waves, n + 1, id)
    case WaveDone(n, _) => InWaves(waves, n + 1, id)
  }

  /** The process may still make a second task for this step. */
  ghost predicate MayRetry(waves: seq<seq<PlanStep>>, w: World, id: string) {
    match w.process
    case Down => false
    case Ending(_) => false
    case AtWave(n, _) => InWaves(waves, n, id)
    case Creating(n, _, _, _) => InWaves(waves, n, id)
    case Settling(n, _, left, _) => InLeft(w, left, id) || InWaves(waves, n + 1, id)
    case Retrying(n, _, left, _, _) => (left != [] && InLeft(w, left[1..], id)) || InWaves(waves, n + 1, id)
    case WaveDone(n, _) => InWaves(waves, n + 1, id)
  }

  ghost function Budget(waves: seq<seq<PlanStep>>, w: World, id: string): nat {
    (if MayStart(waves, w, id) then 1 else 0) + (if MayRetry(waves, w, id) then 1 else 0)
  }

  /** Tasks and results are those of different steps of the wave. */
  ghost predicate LeftOk(wave: seq<PlanStep>, w: World, left: seq<nat>) {
    && (forall i :: 0 <= i < |left| ==> left[i] < |w.tasks| && w.tasks[left[i]].step in Ids(wave))
    && (forall i, j :: 0 <= i < j < |left| ==> w.tasks[left[i]].step != w.tasks[left[j]].step)
  }

  ghost predicate MineOk(wave: seq<PlanStep>, w: World, todo: seq<PlanStep>, mine: seq<nat>) {
    && |mine| + |todo| == |wave| && todo == wave[|mine|..]
    && forall k :: 0 <= k < |mine| ==> mine[k] < |w.tasks| && w.tasks[mine[k]].step == wave[k].id
  }

  ghost predicate Shape(waves: seq<seq<PlanStep>>, w: World) {
    match w.process
    case Creating(n, _, todo, mine) => n < |waves| && MineOk(waves[n], w, todo, mine)
    case Settling(n, _, left, _) => n < |waves| && LeftOk(waves[n], w, left)
    case Retrying(n, _, left, _, _) => n < |waves| && LeftOk(waves[n], w, left)
    case _ => true
  }

  ghost predicate Good(waves: seq<seq<PlanStep>>, w: World) {
    Inv(waves, w) && Shape(waves, w)
  }

  /** The rest of the results is as good, and the first one's step is not among it. */
  lemma LeftTail(wave: seq<PlanStep>, w: World, left: seq<nat>)
    requires LeftOk(wave, w, left) && left != []
    ensures LeftOk(wave, w, left[1..]) && !InLeft(w, left[1..], w.tasks[left[0]].step)
    ensures forall id :: InLeft(w, left[1..], id) ==> InLeft(w, left, id)
  {
    assert forall i :: 0 <= i < |left[1..]| ==> left[1..][i] == left[i + 1];
  }

  lemma LeftKept(wave: seq<PlanStep>, w: World, w': World, left: seq<nat>)
    requires LeftOk(wave, w, left) && Grows(w, w')
    ensures LeftOk(wave, w', left) && forall id :: InLeft(w', left, id) <==> InLeft(w, left, id)
  {
    assert forall i :: 0 <= i < |left| ==> w'.tasks[left[i]].step == w.tasks[left[i]].step;
  }

  lemma CreateKeepsShape(waves: seq<seq<PlanStep>>, w: World)
    requires Shape(waves, w) && w.process.Creating? && w.process.todo != []
    ensures Shape(waves, After(waves, w, CreateTask))
  {
    assert w.process.todo[0] == waves[w.process.wave][|w.process.mine|];
  }

  lemma StepKeepsShape(steps: seq<PlanStep>, waves: seq<seq<PlanStep>>, w: World, a: Action)
    requires Sorted(steps, waves) && Good(waves, w) && Enabled(waves, w, a)
    ensures Shape(waves, After(waves, w, a))
  {
    var p, w' := w.process, After(waves, w, a);
    StepGrows(waves, w, a);
    match a {
      case EnterWave =>
        if p.wave < |waves| {
          NothingSkipped(waves[p.wave]);
        }
      case CreateTask => CreateKeepsShape(waves, w);
      case WaitReturns(_, results) =>
        WaitKeepsShape(steps, waves, w, results);
        LeftKept(waves[p.wave], w, w', results);
      case CreateRetry => LeftKept(waves[p.wave], w, w', p.left);
      case Record =>
        LeftTail(waves[p.wave], w, p.left);
        LeftKept(waves[p.wave], w, w', p.left[1..]);
      case RetryReturns =>
        LeftTail(waves[p.wave], w, p.left);
        LeftKept(waves[p.wave], w, w', p.left[1..]);
      case TaskEnds(_, _) =>
        if p.Settling? || p.Retrying? {
          LeftKept(waves[p.wave], w, w', p.left);
        }
      case _ =>
    }
  }

  lemma WaitKeepsShape(steps: seq<PlanStep>, waves: seq<seq<PlanStep>>, w: World, results: seq<nat>)
    requires Sorted(steps, waves) && w.process.Creating? && Shape(waves, w)
    requires forall i :: 0 <= i < |results| ==> results[i] in w.process.mine
    requires forall i, j :: 0 <= i < j < |results| ==> results[i] != results[j]
    ensures LeftOk(waves[w.process.wave], w, results)
  {
    var n, mine := w.process.wave, w.process.mine;
    WaveIdsDistinct(steps, waves, n);
    forall i | 0 <= i < |results|
      ensures results[i] < |w.tasks| && w.tasks[results[i]].step in Ids(waves[n])
    {
      var k :| 0 <= k < |mine| && mine[k] == results[i];
      assert waves[n][k].id in Ids(waves[n]);
    }
    forall i, j | 0 <= i < j < |results|
      ensures w.tasks[results[i]].step != w.tasks[results[j]].step
    {
      var k :| 0 <= k < |mine| && mine[k] == results[i];
      var l :| 0 <= l < |mine| && mine[l] == results[j];
      assert waves[n][k].id != waves[n][l].id;
    }
  }

  lemma CountSnoc(tasks: seq<PlanTask>, t: PlanTask, id: string)
    ensures CountTasks(tasks + [t], id) == CountTasks(tasks, id) + if t.step == id then 1 else 0
  {
    assert (tasks + [t])[..|tasks|] == tasks;
  }

  lemma {:induction false} CountSameSteps(tasks: seq<PlanTask>, tasks': seq<PlanTask>, id: string)
    requires |tasks'| == |tasks| && forall i :: 0 <= i < |tasks| ==> tasks'[i].step == tasks[i].step
    ensures CountTasks(tasks', id) == CountTasks(tasks, id)
  {
    if tasks != [] {
      CountSameSteps(tasks[..|tasks| - 1], tasks'[..|tasks| - 1], id);
    }
  }

  lemma EnterPays(waves: seq<seq<PlanStep>>, w: World, id: string)
    requires Inv(waves, w) && w.process.AtWave?
    ensures Budget(waves, After(waves, w, EnterWave), id) <= Budget(waves, w, id)
  {
    if w.process.wave < |waves| {
      NothingSkipped(waves[w.process.wave]);
    }
  }

  /** The next step to create is in the wave, in no later one, and not further down the list. */
  lemma NextStepIsLast(steps: seq<PlanStep>, waves: seq<seq<PlanStep>>, w: World)
    requires Sorted(steps, waves) && Shape(waves, w) && w.process.Creating? && w.process.todo != []
    ensures var n, todo := w.process.wave, w.process.todo;
            todo[0].id !in Ids(todo[1..]) && !InWaves(waves, n + 1, todo[0].id)
  {
    var n, todo, done := w.process.wave, w.process.todo, |w.process.mine|;
    WaveIdsDistinct(steps, waves, n);
    assert todo[0] == waves[n][done];
    assert todo[0].id in Ids(waves[n]);
    forall i | 1 <= i < |todo|
      ensures todo[i].id != todo[0].id
    {
      assert todo[i] == waves[n][done + i];
    }
  }

  lemma IdsSplit(todo: seq<PlanStep>)
    requires todo != []
    ensures Ids(todo) == {todo[0].id} + Ids(todo[1..])
  {
    assert todo == [todo[0]] + todo[1..];
    assert forall i :: 0 <= i < |todo[1..]| ==> todo[1..][i] == todo[i + 1];
  }

  lemma CreatePays(steps: seq<PlanStep>, waves: seq<seq<PlanStep>>, w: World, id: string)
    requires Sorted(steps, waves) && Shape(waves, w) && w.process.Creating? && w.process.todo != []
    ensures var w' := After(waves, w, CreateTask);
            CountTasks(w'.tasks, id) + Budget(waves, w', id) <= CountTasks(w.tasks, id) + Budget(waves, w, id)
  {
    CountSnoc(w.tasks, PlanTask(w.process.todo[0].id, None), id);
    NextStepIsLast(steps, waves, w);
    IdsSplit(w.process.todo);
  }

  lemma WaitPays(waves: seq<seq<PlanStep>>, w: World, ok: bool, results: seq<nat>, id: string)
    requires w.process.Creating? && Shape(waves, w) && Enabled(waves, w, WaitReturns(ok, results))
    requires LeftOk(waves[w.process.wave], w, results)
    ensures Budget(waves, After(waves, w, WaitReturns(ok, results)), id) <= Budget(waves, w, id)
  {
  }

  lemma RetryPays(steps: seq<PlanStep>, waves: seq<seq<PlanStep>>, w: World, id: string)
    requires Sorted(steps, waves) && Shape(waves, w) && Enabled(waves, w, CreateRetry)
    ensures var w' := After(waves, w, CreateRetry);
            CountTasks(w'.tasks, id) + Budget(waves, w', id) <= CountTasks(w.tasks, id) + Budget(waves, w, id)
  {
    var n, left := w.process.wave, w.process.left;
    var step := w.tasks[left[0]].step;
    CountSnoc(w.tasks, PlanTask(step, None), id);
    WaveIdsDistinct(steps, waves, n);
    LeftTail(waves[n], w, left);
    var w' := After(waves, w, CreateRetry);
    StepGrows(waves, w, CreateRetry);
    LeftKept(waves[n], w, w', left[1..]);
    assert InLeft(w, left, step) && step in Ids(waves[n]);
    assert MayRetry(waves, w', id) ==> MayRetry(waves, w, id) && id != step;
  }

  lemma SettlePays(waves: seq<seq<PlanStep>>, w: World, a: Action, id: string)
    requires Enabled(waves, w, a) && (a.Record? || a.RetryReturns?)
    ensures After(waves, w, a).tasks == w.tasks && Budget(waves, After(waves, w, a), id) <= Budget(waves, w, id)
  {
    var left := w.process.left;
    if InLeft(w, left[1..], id) {
      var i :| 0 <= i < |left[1..]| && left[1..][i] < |w.tasks| && w.tasks[left[1..][i]].step == id;
      assert left[i + 1] == left[1..][i];
    }
  }

  lemma EndPays(waves: seq<seq<PlanStep>>, w: World, task: nat, outcome: string, id: string)
    requires Enabled(waves, w, TaskEnds(task, outcome))
    ensures var w' := After(waves, w, TaskEnds(task, outcome));
            CountTasks(w'.tasks, id) == CountTasks(w.tasks, id) && Budget(waves, w', id) == Budget(waves, w, id)
  {
    var w' := After(waves, w, TaskEnds(task, outcome));
    CountSameSteps(w.tasks, w'.tasks, id);
    assert forall left :: InLeft(w', left, id) <==> InLeft(w, left, id);
  }

  /** Ending a wave or the process makes no task and allows none; a new process may make two. */
  lemma OthersPay(waves: seq<seq<PlanStep>>, w: World, a: Action, id: string)
    requires Enabled(waves, w, a)
    requires a.CreateFails? || a.EndWave? || a.StoreWave? || a.Complete? || a.Crash? || a.Resume?
    ensures After(waves, w, a).tasks == w.tasks
    ensures Budget(waves, After(waves, w, a), id) <= if a.Resume? then 2 else Budget(waves, w, id)
  {
  }

  /** Every task made is paid for: by what the process may still make, or by a new process. */
  lemma StepPays(steps: seq<PlanStep>, waves: seq<seq<PlanStep>>, w: World, a: Action, id: string)
    requires Sorted(steps, waves) && Good(waves, w) && Enabled(waves, w, a)
    ensures CountTasks(After(waves, w, a).tasks, id) + Budget(waves, After(waves, w, a), id) <=
            CountTasks(w.tasks, id) + if a.Resume? then 2 else Budget(waves, w, id)
  {
    match a {
      case EnterWave =>
        EnterPays(waves, w, id);
        assert After(waves, w, a).tasks == w.tasks;
      case CreateTask => CreatePays(steps, waves, w, id);
      case WaitReturns(ok, results) =>
        WaitKeepsShape(steps, waves, w, results);
        WaitPays(waves, w, ok, results, id);
      case CreateRetry => RetryPays(steps, waves, w, id);
      case TaskEnds(task, outcome) => EndPays(waves, w, task, outcome, id);
      case Record => SettlePays(waves, w, a, id);
      case RetryReturns => SettlePays(waves, w, a, id);
      case _ => OthersPay(waves, w, a, id);
    }
  }

  lemma StepKeepsGood(steps: seq<PlanStep>, waves: seq<seq<PlanStep>>, w: World, a: Action)
    requires Sorted(steps, waves) && Good(waves, w) && Enabled(waves, w, a)
    ensures Good(waves, After(waves, w, a))
  {
    StepKeepsInv(steps, waves, w, a);
    StepKeepsShape(steps, waves, w, a);
  }

  lemma {:induction false} EveryShapeOk(steps: seq<PlanStep>, waves: seq<seq<PlanStep>>,
                                        worlds: seq<World>, actions: seq<Action>, k: nat)
    requires Sorted(steps, waves) && Run(steps, waves, worlds, actions) && k < |worlds|
    ensures Good(waves, worlds[k])
  {
    if k == 0 {
      EveryWorldOk(steps, waves, worlds, actions, 0);
    } else {
      EveryShapeOk(steps, waves, worlds, actions, k - 1);
      assert StepAt(waves, worlds, actions, k - 1);
      StepKeepsGood(steps, waves, worlds[k - 1], actions[k - 1]);
    }
  }

  /** One process is at work from world `i` to world `k`: no action between them resumes the plan. */
  ghost predicate OneProcess(actions: seq<Action>, i: nat, k: nat) {
    i <= k <= |actions| && forall j :: i <= j < k ==> !actions[j].Resume?
  }

  lemma {:induction false} BudgetIsSpent(steps: seq<PlanStep>, waves: seq<seq<PlanStep>>,
                                         worlds: seq<World>, actions: seq<Action>, i: nat, k: nat, id: string)
    requires Sorted(steps, waves) && Run(steps, waves, worlds, actions) && OneProcess(actions, i, k)
    ensures CountTasks(worlds[k].tasks, id) + Budget(waves, worlds[k], id) <=
            CountTasks(worlds[i].tasks, id) + Budget(waves, worlds[i], id)
    decreases k
  {
    if i < k {
      BudgetIsSpent(steps, waves, worlds, actions, i, k - 1, id);
      EveryShapeOk(steps, waves, worlds, actions, k - 1);
      assert StepAt(waves, worlds, actions, k - 1);
      StepPays(steps, waves, worlds[k - 1], actions[k - 1], id);
    }
  }

  /** However it goes on, one process makes at most two tasks for a step: a first try and one retry. */
  lemma TwoTasksPerProcess(steps: seq<PlanStep>, waves: seq<seq<PlanStep>>,
                           worlds: seq<World>, actions: seq<Action>, i: nat, k: nat, id: string)
    requires Sorted(steps, waves) && Run(steps, waves, worlds, actions) && OneProcess(actions, i, k)
    ensures CountTasks(worlds[i].tasks, id) <= CountTasks(worlds[k].tasks, id) <= CountTasks(worlds[i].tasks, id) + 2
  {
    BudgetIsSpent(steps, waves, worlds, actions, i, k, id);
    TasksNeverVanish(steps, waves, worlds, actions, i, k, id);
  }

  lemma {:induction false} TasksNeverVanish(steps: seq<PlanStep>, waves: seq<seq<PlanStep>>,
                                            worlds: seq<World>, actions: seq<Action>, i: nat, k: nat, id: string)
    requires Run(steps, waves, worlds, actions) && i <= k <= |actions|
    ensures CountTasks(worlds[i].tasks, id) <= CountTasks(worlds[k].tasks, id)
    decreases k
  {
    if i < k {
      TasksNeverVanish(steps, waves, worlds, actions, i, k - 1, id);
      assert StepAt(waves, worlds, actions, k - 1);
      StepGrows(waves, worlds[k - 1], actions[k - 1]);
      CountGrows(worlds[k - 1].tasks, worlds[k].tasks, id);
    }
  }

  lemma {:induction false} CountGrows(tasks: seq<PlanTask>, tasks': seq<PlanTask>, id: string)
    requires |tasks| <= |tasks'| && forall i :: 0 <= i < |tasks| ==> tasks'[i].step == tasks[i].step
    ensures CountTasks(tasks, id) <= CountTasks(tasks', id)
  {
    if |tasks| < |tasks'| {
      CountGrows(tasks, tasks'[..|tasks'| - 1], id);
    } else {
      CountSameSteps(tasks, tasks', id);
    }
  }

  /** Where the process at work in world `k` began. */
  function Began(actions: seq<Action>, k: nat): (i: nat)
    requires k <= |actions|
    ensures OneProcess(actions, i, k)
    ensures i == 0 || actions[i - 1].Resume?
    ensures Processes(actions, k) == if i == 0 then 1 else Processes(actions, i - 1) + 1
  {
    if k == 0 || actions[k - 1].Resume? then k else Began(actions, k - 1)
  }

  /** So over all processes a step gets at most two tasks for each of them. */
  lemma {:induction false} RepetitionIsBounded(steps: seq<PlanStep>, waves: seq<seq<PlanStep>>,
                                               worlds: seq<World>, actions: seq<Action>, k: nat, id: string)
    requires Sorted(steps, waves) && Run(steps, waves, worlds, actions) && k < |worlds|
    ensures CountTasks(worlds[k].tasks, id) <= 2 * Processes(actions, k)
  {
    var i := Began(actions, k);
    TwoTasksPerProcess(steps, waves, worlds, actions, i, k, id);
    if i > 0 {
      RepetitionIsBounded(steps, waves, worlds, actions, i - 1, id);
      assert StepAt(waves, worlds, actions, i - 1);
    }
  }
}
