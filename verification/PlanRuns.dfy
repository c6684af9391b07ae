/**
 * Executing a plan wave by wave, crashing anywhere, and resuming from the stored wave number.
 *
 * One process at a time works on the execution; each action below is one thing the process does or
 * one thing its surroundings do to it.  Nothing but the database survives a crash.
 */
module PlanRuns {
  import opened Common
  import opened PlanGraph
  import Planner

  /** A task made for a step, and the final status it reached, if it has. */
  datatype PlanTask = PlanTask(step: string, outcome: Option<string>)

  datatype Process =
    | Down
    | AtWave(wave: nat, skip: set<string>)
    | Creating(wave: nat, skip: set<string>, todo: seq<PlanStep>, mine: seq<nat>)
    | Settling(wave: nat, skip: set<string>, left: seq<nat>, ok: bool)
    | Retrying(wave: nat, skip: set<string>, left: seq<nat>, ok: bool, retry: nat)
    | WaveDone(wave: nat, skip: set<string>)
    | Ending(ok: bool)

  datatype PlanStatus = PlanRunning | PlanSucceeded | PlanFailed

  datatype World = World(
    storedWave: nat,
    status: PlanStatus,
    stepStatus: map<string, string>,
    tasks: seq<PlanTask>,
    process: Process)

  datatype Action =
    | EnterWave                                  // take up the wave, if there is one
    | CreateTask                                 // create the task of the next step of the wave
    | CreateFails                                // the task could not be created
    | WaitReturns(ok: bool, results: seq<nat>)   // waiting for the wave's tasks ends, with these results
    | CreateRetry                                // a failed task is tried once more
    | Record                                     // store the outcome of the next result
    | RetryReturns                               // waiting for the retry ends, and its outcome is stored
    | EndWave                                    // all results are dealt with
    | StoreWave(stored: bool)                    // store the wave number; errors are ignored
    | Complete(stored: bool)                     // store the plan's final status; errors are ignored
    | TaskEnds(task: nat, outcome: string)       // a task reaches a final status
    | Crash
    | Resume

  /** The statuses a step row may have, and those that mark it as done. */
  const STEP_STATUSES: set<string> := {"pending", "running", "succeeded", "failed"}
  const DONE_STATUSES: set<string> := {"succeeded", "failed"}
  /** The final statuses of tasks are written differently. */
  const TASK_OUTCOMES: set<string> := {"SUCCEEDED", "FAILED", "CANCELED", "DEAD_LETTER"}

  function Pending(wave: seq<PlanStep>, skip: set<string>): seq<PlanStep> {
    if wave == [] then []
    else
      var s := wave[|wave| - 1];
      Pending(wave[..|wave| - 1], skip) + (if s.id in skip then [] else [s])
  }

  /** The update of a step row: a status the table does not allow fails the transaction, silently. */
  function RecordStep(w: World, step: string, status: string): map<string, string> {
    if status in STEP_STATUSES && step in w.stepStatus then w.stepStatus[step := status] else w.stepStatus
  }

  predicate Ended(w: World, i: nat) {
    i < |w.tasks| && w.tasks[i].outcome.Some?
  }

  predicate Enabled(waves: seq<seq<PlanStep>>, w: World, a: Action) {
    var p := w.process;
    match a
    case EnterWave => p.AtWave?
    case CreateTask => p.Creating? && p.todo != []
    case CreateFails => p.Creating? && p.todo != []
    case WaitReturns(ok, results) =>
      && p.Creating? && p.todo == []
      && (forall i :: 0 <= i < |results| ==> results[i] in p.mine && Ended(w, results[i]))
      && (forall i, j :: 0 <= i < j < |results| ==> results[i] != results[j])
      && (ok ==> forall i :: 0 <= i < |p.mine| ==> p.mine[i] in results)
    case CreateRetry =>
      p.Settling? && p.left != [] && Ended(w, p.left[0]) && w.tasks[p.left[0]].outcome == Some("FAILED")
    case Record => p.Settling? && p.left != [] && Ended(w, p.left[0])
    case RetryReturns => p.Retrying? && p.left != [] && Ended(w, p.left[0])
    case EndWave => p.Settling? && p.left == []
    case StoreWave(_) => p.WaveDone?
    case Complete(_) => p.Ending?
    case TaskEnds(i, outcome) => i < |w.tasks| && w.tasks[i].outcome.None? && outcome in TASK_OUTCOMES
    case Crash => !p.Down?
    case Resume => p.Down?
  }

  /** The step a new task is for, if `a` creates one. */
  function Creates(w: World, a: Action): Option<string> {
    var p := w.process;
    match a
    case CreateTask => if p.Creating? && p.todo != [] then Some(p.todo[0].id) else None
    case CreateRetry =>
      if p.Settling? && p.left != [] && p.left[0] < |w.tasks| then Some(w.tasks[p.left[0]].step) else None
    case _ => None
  }

  function After(waves: seq<seq<PlanStep>>, w: World, a: Action): World
    requires Enabled(waves, w, a)
  {
    var p := w.process;
    match a
    case EnterWave =>
      if p.wave >= |waves| then w.(process := Ending(true))
      else
        var todo := Pending(waves[p.wave], p.skip);
        if todo == [] then w.(process := AtWave(p.wave + 1, p.skip))
        else w.(process := Creating(p.wave, p.skip, todo, []))
    case CreateTask =>
      w.(tasks := w.tasks + [PlanTask(p.todo[0].id, None)],
         process := Creating(p.wave, p.skip, p.todo[1..], p.mine + [|w.tasks|]))
    case CreateFails => w.(process := Ending(false))
    case WaitReturns(ok, results) => w.(process := Settling(p.wave, p.skip, results, ok))
    case CreateRetry =>
      w.(tasks := w.tasks + [PlanTask(w.tasks[p.left[0]].step, None)],
         process := Retrying(p.wave, p.skip, p.left, p.ok, |w.tasks|))
    case Record =>
      var t := w.tasks[p.left[0]];
      w.(stepStatus := RecordStep(w, t.step, t.outcome.value), process := Settling(p.wave, p.skip, p.left[1..], p.ok))
    case RetryReturns =>
      var t := w.tasks[if Ended(w, p.retry) then p.retry else p.left[0]];
      w.(stepStatus := RecordStep(w, t.step, t.outcome.value), process := Settling(p.wave, p.skip, p.left[1..], p.ok))
    case EndWave =>
      if p.ok then w.(process := WaveDone(p.wave, p.skip)) else w.(process := Ending(false))
    case StoreWave(stored) =>
      w.(storedWave := if stored then p.wave + 1 else w.storedWave, process := AtWave(p.wave + 1, p.skip))
    case Complete(stored) =>
      w.(status := if !stored then w.status else if p.ok then PlanSucceeded else PlanFailed, process := Down)
    case TaskEnds(i, outcome) => w.(tasks := w.tasks[i := w.tasks[i].(outcome := Some(outcome))])
    case Crash => w.(process := Down)
    case Resume =>
      w.(process := AtWave(w.storedWave, set id | id in w.stepStatus && w.stepStatus[id] in DONE_STATUSES))
  }

  /** A plan that validation accepts, with the waves it is sorted into. */
  ghost predicate Sorted(steps: seq<PlanStep>, waves: seq<seq<PlanStep>>) {
    KnownDeps(steps) && UniqueIds(steps) && AreLevels(steps, waves)
  }

  /** A new execution; if its step rows cannot be written, it ends at once. */
  function Started(steps: seq<PlanStep>, initialised: bool): World {
    if initialised then World(0, PlanRunning, map id | id in Ids(steps) :: "pending", [], AtWave(0, {}))
    else World(0, PlanRunning, map[], [], Ending(false))
  }

  /** One execution: Execute begins it, then any mixture of progress, task ends, crashes and resumes. */
  ghost predicate Run(steps: seq<PlanStep>, waves: seq<seq<PlanStep>>, worlds: seq<World>, actions: seq<Action>) {
    Path(waves, worlds, actions) && (worlds[0] == Started(steps, true) || worlds[0] == Started(steps, false))
  }

  ghost predicate Path(waves: seq<seq<PlanStep>>, worlds: seq<World>, actions: seq<Action>) {
    |worlds| == |actions| + 1 && forall i :: 0 <= i < |actions| ==> StepAt(waves, worlds, actions, i)
  }

  ghost predicate StepAt(waves: seq<seq<PlanStep>>, worlds: seq<World>, actions: seq<Action>, i: nat)
    requires i < |actions| && |worlds| == |actions| + 1
  {
    Enabled(waves, worlds[i], actions[i]) && worlds[i + 1] == After(waves, worlds[i], actions[i])
  }

  lemma PathOn(waves: seq<seq<PlanStep>>, worlds: seq<World>, actions: seq<Action>, a: Action)
    requires Path(waves, worlds, actions) && Enabled(waves, worlds[|actions|], a)
    ensures Path(waves, worlds + [After(waves, worlds[|actions|], a)], actions + [a])
  {
    var worlds', actions' := worlds + [After(waves, worlds[|actions|], a)], actions + [a];
    forall i | 0 <= i < |actions'|
      ensures StepAt(waves, worlds', actions', i)
    {
      if i < |actions| {
        assert StepAt(waves, worlds, actions, i);
      }
    }
  }

  // ----- The invariant

  /** Some task of this step has reached a final status. */
  ghost predicate Settled(w: World, id: string) {
    exists i :: 0 <= i < |w.tasks| && w.tasks[i].step == id && w.tasks[i].outcome.Some?
  }

  ghost predicate WaveSettled(wave: seq<PlanStep>, w: World) {
    forall i :: 0 <= i < |wave| ==> Settled(w, wave[i].id)
  }

  /** Every step in the first `n` waves is settled. */
  ghost predicate SettledBelow(waves: seq<seq<PlanStep>>, w: World, n: nat) {
    n <= |waves| && forall v :: 0 <= v < n ==> WaveSettled(waves[v], w)
  }

  /** Task `i` belongs to a step of this wave. */
  ghost predicate InWave(wave: seq<PlanStep>, w: World, i: nat) {
    i < |w.tasks| && exists k :: 0 <= k < |wave| && wave[k].id == w.tasks[i].step
  }

  ghost predicate HasTask(w: World, mine: seq<nat>, id: string) {
    exists k :: 0 <= k < |mine| && mine[k] < |w.tasks| && w.tasks[mine[k]].step == id
  }

  ghost predicate ProcessOk(waves: seq<seq<PlanStep>>, w: World) {
    match w.process
    case Down => SettledBelow(waves, w, w.storedWave)
    case Ending(ok) => SettledBelow(waves, w, if ok then |waves| else w.storedWave)
    case AtWave(n, skip) => skip == {} && w.storedWave <= n && SettledBelow(waves, w, n)
    case Creating(n, skip, todo, mine) =>
      && skip == {} && n < |waves| && w.storedWave <= n && SettledBelow(waves, w, n)
      && (forall i :: 0 <= i < |todo| ==> todo[i] in waves[n])
      && (forall i :: 0 <= i < |mine| ==> InWave(waves[n], w, mine[i]))
      && (forall i :: 0 <= i < |waves[n]| ==> waves[n][i] in todo || HasTask(w, mine, waves[n][i].id))
    case Settling(n, skip, left, ok) =>
      && skip == {} && n < |waves| && w.storedWave <= n && SettledBelow(waves, w, n)
      && (forall i :: 0 <= i < |left| ==> InWave(waves[n], w, left[i]))
      && (ok ==> SettledBelow(waves, w, n + 1))
    case Retrying(n, skip, left, ok, _) =>
      && skip == {} && n < |waves| && w.storedWave <= n && SettledBelow(waves, w, n)
      && (forall i :: 0 <= i < |left| ==> InWave(waves[n], w, left[i]))
      && (ok ==> SettledBelow(waves, w, n + 1))
    case WaveDone(n, skip) => skip == {} && n < |waves| && w.storedWave <= n && SettledBelow(waves, w, n + 1)
  }

  ghost predicate Inv(waves: seq<seq<PlanStep>>, w: World) {
    && w.storedWave <= |waves|
    && (forall id :: id in w.stepStatus ==> w.stepStatus[id] == "pending")
    && (forall i :: 0 <= i < |w.tasks| && w.tasks[i].outcome.Some? ==> w.tasks[i].outcome.value in TASK_OUTCOMES)
    && ProcessOk(waves, w)
    && (w.status == PlanSucceeded ==> SettledBelow(waves, w, |waves|))
  }

  // ----- Tasks are only added, and outcomes are kept

  ghost predicate Grows(w: World, w': World) {
    && |w.tasks| <= |w'.tasks|
    && forall i :: 0 <= i < |w.tasks| ==>
         w'.tasks[i].step == w.tasks[i].step && (w.tasks[i].outcome.Some? ==> w'.tasks[i].outcome == w.tasks[i].outcome)
  }

  lemma StepGrows(waves: seq<seq<PlanStep>>, w: World, a: Action)
    requires Enabled(waves, w, a)
    ensures Grows(w, After(waves, w, a))
  {
  }

  lemma SettledKept(waves: seq<seq<PlanStep>>, w: World, w': World, n: nat)
    requires Grows(w, w') && SettledBelow(waves, w, n)
    ensures SettledBelow(waves, w', n)
  {
    forall v | 0 <= v < n
      ensures WaveSettled(waves[v], w')
    {
      assert WaveSettled(waves[v], w);
      forall i | 0 <= i < |waves[v]|
        ensures Settled(w', waves[v][i].id)
      {
        var k :| 0 <= k < |w.tasks| && w.tasks[k].step == waves[v][i].id && w.tasks[k].outcome.Some?;
        assert w'.tasks[k].step == waves[v][i].id;
      }
    }
  }

  lemma InWaveKept(wave: seq<PlanStep>, w: World, w': World, list: seq<nat>)
    requires Grows(w, w') && forall i :: 0 <= i < |list| ==> InWave(wave, w, list[i])
    ensures forall i :: 0 <= i < |list| ==> InWave(wave, w', list[i])
  {
    forall i | 0 <= i < |list|
      ensures InWave(wave, w', list[i])
    {
      assert InWave(wave, w, list[i]);
    }
  }

  lemma HasTaskKept(w: World, w': World, mine: seq<nat>, mine': seq<nat>, id: string)
    requires Grows(w, w') && mine <= mine' && HasTask(w, mine, id)
    ensures HasTask(w', mine', id)
  {
    var k :| 0 <= k < |mine| && mine[k] < |w.tasks| && w.tasks[mine[k]].step == id;
    assert mine'[k] == mine[k];
  }

  // ----- Each action keeps the invariant

  /** With nothing to skip, a wave is executed whole. */
  lemma {:induction false} NothingSkipped(wave: seq<PlanStep>)
    ensures Pending(wave, {}) == wave
  {
    if wave != [] {
      NothingSkipped(wave[..|wave| - 1]);
    }
  }

  /** Waiting for all tasks of the wave returned without error: each of its steps is settled. */
  lemma WaveIsSettled(wave: seq<PlanStep>, w: World, mine: seq<nat>, results: seq<nat>)
    requires forall i :: 0 <= i < |wave| ==> HasTask(w, mine, wave[i].id)
    requires forall i :: 0 <= i < |results| ==> Ended(w, results[i])
    requires forall i :: 0 <= i < |mine| ==> mine[i] in results
    ensures WaveSettled(wave, w)
  {
    forall i | 0 <= i < |wave|
      ensures Settled(w, wave[i].id)
    {
      assert HasTask(w, mine, wave[i].id);
      var k :| 0 <= k < |mine| && mine[k] < |w.tasks| && w.tasks[mine[k]].step == wave[i].id;
      var r :| 0 <= r < |results| && results[r] == mine[k];
      assert Ended(w, results[r]);
    }
  }

  lemma EnterKeepsInv(steps: seq<PlanStep>, waves: seq<seq<PlanStep>>, w: World)
    requires Sorted(steps, waves) && Inv(waves, w) && w.process.AtWave?
    ensures Inv(waves, After(waves, w, EnterWave))
  {
    var n := w.process.wave;
    if n < |waves| {
      NothingSkipped(waves[n]);
      assert IsLevel(steps, waves[n], n);
    }
    SettledKept(waves, w, After(waves, w, EnterWave), n);
  }

  lemma CreateKeepsInv(waves: seq<seq<PlanStep>>, w: World)
    requires Inv(waves, w) && w.process.Creating? && w.process.todo != []
    ensures Inv(waves, After(waves, w, CreateTask))
  {
    var p := w.process;
    var w' := After(waves, w, CreateTask);
    var p' := w'.process;
    var wave := waves[p.wave];
    StepGrows(waves, w, CreateTask);
    SettledKept(waves, w, w', p.wave);
    if w.status == PlanSucceeded {
      SettledKept(waves, w, w', |waves|);
    }
    InWaveKept(wave, w, w', p.mine);
    var first := p.todo[0];
    assert w'.tasks[|w.tasks|].step == first.id && first in wave;
    assert InWave(wave, w', |w.tasks|);
    forall i | 0 <= i < |wave|
      ensures wave[i] in p'.todo || HasTask(w', p'.mine, wave[i].id)
    {
      if wave[i] == first {
        assert p'.mine[|p.mine|] == |w.tasks|;
      } else if wave[i] in p.todo {
        assert p.todo == [first] + p'.todo;
      } else {
        HasTaskKept(w, w', p.mine, p'.mine, wave[i].id);
      }
    }
  }

  lemma WaitKeepsInv(waves: seq<seq<PlanStep>>, w: World, ok: bool, results: seq<nat>)
    requires Inv(waves, w) && Enabled(waves, w, WaitReturns(ok, results))
    ensures Inv(waves, After(waves, w, WaitReturns(ok, results)))
  {
    var p := w.process;
    var w' := After(waves, w, WaitReturns(ok, results));
    SettledKept(waves, w, w', p.wave);
    if w.status == PlanSucceeded {
      SettledKept(waves, w, w', |waves|);
    }
    forall i | 0 <= i < |results|
      ensures InWave(waves[p.wave], w', results[i])
    {
      var k :| 0 <= k < |p.mine| && p.mine[k] == results[i];
      assert InWave(waves[p.wave], w, p.mine[k]);
    }
    if ok {
      forall i | 0 <= i < |waves[p.wave]|
        ensures HasTask(w', p.mine, waves[p.wave][i].id)
      {
        assert waves[p.wave][i] in p.todo || HasTask(w, p.mine, waves[p.wave][i].id);
      }
      WaveIsSettled(waves[p.wave], w', p.mine, results);
    }
  }

  /** What the process knows of a wave that is being settled survives as long as tasks are only added. */
  lemma SettlingKept(waves: seq<seq<PlanStep>>, w: World, w': World, n: nat, left: seq<nat>, ok: bool)
    requires Grows(w, w') && n < |waves| && SettledBelow(waves, w, if ok then n + 1 else n)
    requires forall i :: 0 <= i < |left| ==> InWave(waves[n], w, left[i])
    ensures SettledBelow(waves, w', n) && (ok ==> SettledBelow(waves, w', n + 1))
    ensures forall i :: 0 <= i < |left| ==> InWave(waves[n], w', left[i])
  {
    SettledKept(waves, w, w', if ok then n + 1 else n);
    InWaveKept(waves[n], w, w', left);
  }

  lemma StatusKept(waves: seq<seq<PlanStep>>, w: World, w': World)
    requires Grows(w, w') && (w.status == PlanSucceeded ==> SettledBelow(waves, w, |waves|))
    ensures w.status == PlanSucceeded ==> SettledBelow(waves, w', |waves|)
  {
    if w.status == PlanSucceeded {
      SettledKept(waves, w, w', |waves|);
    }
  }

  /** Dealing with the results of a wave. */
  lemma ResultStepsKeepInv(waves: seq<seq<PlanStep>>, w: World, a: Action)
    requires Inv(waves, w) && Enabled(waves, w, a) && (a.CreateRetry? || a.Record? || a.RetryReturns? || a.EndWave?)
    ensures Inv(waves, After(waves, w, a))
  {
    var w' := After(waves, w, a);
    StepGrows(waves, w, a);
    StatusKept(waves, w, w');
    SettlingKept(waves, w, w', w.process.wave, w.process.left, w.process.ok);
    SettledKept(waves, w, w', w.storedWave);
  }

  /** Giving up, storing, ending, crashing and resuming: no task changes. */
  lemma OtherStepsKeepInv(waves: seq<seq<PlanStep>>, w: World, a: Action)
    requires Inv(waves, w) && Enabled(waves, w, a)
    requires a.CreateFails? || a.StoreWave? || a.Complete? || a.Crash? || a.Resume?
    ensures Inv(waves, After(waves, w, a))
  {
    var w' := After(waves, w, a);
    StatusKept(waves, w, w');
    match w.process {
      case WaveDone(n, _) => SettledKept(waves, w, w', n + 1);
      case Ending(ok) => SettledKept(waves, w, w', if ok then |waves| else w.storedWave);
      case _ => SettledKept(waves, w, w', w.storedWave);
    }
  }

  lemma TaskEndKeepsInv(waves: seq<seq<PlanStep>>, w: World, task: nat, outcome: string)
    requires Inv(waves, w) && Enabled(waves, w, TaskEnds(task, outcome))
    ensures Inv(waves, After(waves, w, TaskEnds(task, outcome)))
  {
    var w' := After(waves, w, TaskEnds(task, outcome));
    if w.status == PlanSucceeded {
      SettledKept(waves, w, w', |waves|);
    }
    match w.process {
      case Down => SettledKept(waves, w, w', w.storedWave);
      case Ending(ok) => SettledKept(waves, w, w', if ok then |waves| else w.storedWave);
      case WaveDone(n, _) => SettledKept(waves, w, w', n + 1);
      case AtWave(n, _) => SettledKept(waves, w, w', n);
      case Creating(n, _, todo, mine) =>
        SettledKept(waves, w, w', n);
        InWaveKept(waves[n], w, w', mine);
        forall i | 0 <= i < |waves[n]|
          ensures waves[n][i] in todo || HasTask(w', mine, waves[n][i].id)
        {
          if waves[n][i] !in todo {
            HasTaskKept(w, w', mine, mine, waves[n][i].id);
          }
        }
      case Settling(n, _, left, ok) =>
        SettledKept(waves, w, w', if ok then n + 1 else n);
        InWaveKept(waves[n], w, w', left);
      case Retrying(n, _, left, ok, _) =>
        SettledKept(waves, w, w', if ok then n + 1 else n);
        InWaveKept(waves[n], w, w', left);
    }
  }

  lemma StepKeepsInv(steps: seq<PlanStep>, waves: seq<seq<PlanStep>>, w: World, a: Action)
    requires Sorted(steps, waves) && Inv(waves, w) && Enabled(waves, w, a)
    ensures Inv(waves, After(waves, w, a))
  {
    match a {
      case EnterWave => EnterKeepsInv(steps, waves, w);
      case CreateTask => CreateKeepsInv(waves, w);
      case WaitReturns(ok, results) => WaitKeepsInv(waves, w, ok, results);
      case TaskEnds(task, outcome) => TaskEndKeepsInv(waves, w, task, outcome);
      case CreateRetry => ResultStepsKeepInv(waves, w, a);
      case Record => ResultStepsKeepInv(waves, w, a);
      case RetryReturns => ResultStepsKeepInv(waves, w, a);
      case EndWave => ResultStepsKeepInv(waves, w, a);
      case _ => OtherStepsKeepInv(waves, w, a);
    }
  }

  lemma {:induction false} EveryWorldOk(steps: seq<PlanStep>, waves: seq<seq<PlanStep>>, worlds: seq<World>,
                                        actions: seq<Action>, k: nat)
    requires Sorted(steps, waves) && Run(steps, waves, worlds, actions) && k < |worlds|
    ensures Inv(waves, worlds[k])
  {
    if k > 0 {
      EveryWorldOk(steps, waves, worlds, actions, k - 1);
      assert StepAt(waves, worlds, actions, k - 1);
      StepKeepsInv(steps, waves, worlds[k - 1], actions[k - 1]);
    }
  }

  // ----- Whole runs

  /** The wave in which a task is created, by the process that creates it. */
  lemma CreationWave(waves: seq<seq<PlanStep>>, w: World, a: Action) returns (n: nat, s: PlanStep)
    requires Inv(waves, w) && Enabled(waves, w, a) && Creates(w, a).Some?
    ensures w.storedWave <= n < |waves| && s in waves[n] && s.id == Creates(w, a).value && SettledBelow(waves, w, n)
  {
    n := w.process.wave;
    if a.CreateTask? {
      s := w.process.todo[0];
    } else {
      assert InWave(waves[n], w, w.process.left[0]);
      var k :| 0 <= k < |waves[n]| && waves[n][k].id == w.tasks[w.process.left[0]].step;
      s := waves[n][k];
    }
  }

  /**
   * However often the process crashes and resumes, a task for a step (first try, retry or repetition
   * after a crash) is created only when a task of each of its dependencies has reached a final status.
   */
  lemma TasksFollowDependencies(steps: seq<PlanStep>, waves: seq<seq<PlanStep>>, worlds: seq<World>,
                                actions: seq<Action>, k: nat, step: PlanStep, d: string)
    requires Sorted(steps, waves) && Run(steps, waves, worlds, actions) && k < |actions|
    requires Creates(worlds[k], actions[k]) == Some(step.id) && step in steps && d in step.dependsOn
    ensures Settled(worlds[k], d)
  {
    EveryWorldOk(steps, waves, worlds, actions, k);
    assert StepAt(waves, worlds, actions, k);
    var n, s := CreationWave(waves, worlds[k], actions[k]);
    assert IsLevel(steps, waves[n], n);
    Planner.LevelMembers(steps, steps, n);
    assert s == step;
    Planner.DependenciesComeEarlier(steps, waves, s, n, d);
    var v, i :| 0 <= v < n && v < |waves| && 0 <= i < |waves[v]| && waves[v][i].id == d;
    assert WaveSettled(waves[v], worlds[k]);
  }

  /** The stored wave number never decreases. */
  lemma {:induction false} StoredWaveNeverDecreases(steps: seq<PlanStep>, waves: seq<seq<PlanStep>>,
                                                    worlds: seq<World>, actions: seq<Action>, i: nat, j: nat)
    requires Sorted(steps, waves) && Run(steps, waves, worlds, actions) && i <= j < |worlds|
    ensures worlds[i].storedWave <= worlds[j].storedWave
    decreases j
  {
    if i < j {
      StoredWaveNeverDecreases(steps, waves, worlds, actions, i, j - 1);
      EveryWorldOk(steps, waves, worlds, actions, j - 1);
      assert StepAt(waves, worlds, actions, j - 1);
    }
  }

  /** Once a wave number has been stored, no step of a wave below it is ever started again. */
  lemma NoStepStartsAgain(steps: seq<PlanStep>, waves: seq<seq<PlanStep>>, worlds: seq<World>, actions: seq<Action>,
                          i: nat, k: nat, v: nat, s: PlanStep)
    requires Sorted(steps, waves) && Run(steps, waves, worlds, actions) && i <= k < |actions|
    requires v < worlds[i].storedWave && v < |waves| && s in waves[v]
    ensures Creates(worlds[k], actions[k]) != Some(s.id)
  {
    StoredWaveNeverDecreases(steps, waves, worlds, actions, i, k);
    EveryWorldOk(steps, waves, worlds, actions, k);
    assert StepAt(waves, worlds, actions, k);
    if Creates(worlds[k], actions[k]) == Some(s.id) {
      var n, s' := CreationWave(waves, worlds[k], actions[k]);
      assert IsLevel(steps, waves[n], n) && IsLevel(steps, waves[v], v);
      Planner.LevelMembers(steps, steps, n);
      Planner.LevelMembers(steps, steps, v);
      Planner.OneLevelOnly(steps, s.id, v, n);
    }
  }

  /** Storing the number after a wave ends it for good: no later action, of any process, makes a task for its steps. */
  lemma FinishedWaveNeverRunsAgain(steps: seq<PlanStep>, waves: seq<seq<PlanStep>>, worlds: seq<World>,
                                   actions: seq<Action>, k: nat, j: nat, s: PlanStep)
    requires Sorted(steps, waves) && Run(steps, waves, worlds, actions) && k < j < |actions|
    requires actions[k] == StoreWave(true) && worlds[k].process.WaveDone?
    requires worlds[k].process.wave < |waves| && s in waves[worlds[k].process.wave]
    ensures Settled(worlds[k], s.id) && Creates(worlds[j], actions[j]) != Some(s.id)
  {
    var n := worlds[k].process.wave;
    EveryWorldOk(steps, waves, worlds, actions, k);
    assert WaveSettled(waves[n], worlds[k]);
    assert StepAt(waves, worlds, actions, k);
    NoStepStartsAgain(steps, waves, worlds, actions, k + 1, j, n, s);
  }

  /** A plan is marked succeeded only when every step has had a task reach a final status, whatever it was. */
  lemma SucceededMeansSettled(steps: seq<PlanStep>, waves: seq<seq<PlanStep>>, worlds: seq<World>, actions: seq<Action>,
                              k: nat, s: PlanStep)
    requires Sorted(steps, waves) && Run(steps, waves, worlds, actions) && k < |worlds|
    requires worlds[k].status == PlanSucceeded && s in steps
    ensures Settled(worlds[k], s.id)
  {
    EveryWorldOk(steps, waves, worlds, actions, k);
    var i :| 0 <= i < |steps| && steps[i] == s;
    assert s.id in Ids(steps);
    var s', w := Planner.StepHasALevel(steps, waves, s.id);
    assert WaveSettled(waves[w], worlds[k]);
  }

  /** Some step of this list has had a task reach a final status. */
  ghost predicate SomeSettled(list: seq<PlanStep>, w: World) {
    exists i :: 0 <= i < |list| && Settled(w, list[i].id)
  }

  /**
   * Resuming is documented to skip the steps of the wave that had already finished.  It never does:
   * the outcomes it stores are spelled in a way the step table refuses, so every row stays pending
   * and the interrupted wave is run again in full.
   */
  lemma ResumeRepeatsTheWholeWave(steps: seq<PlanStep>, waves: seq<seq<PlanStep>>,
                                  worlds: seq<World>, actions: seq<Action>, k: nat)
    requires Sorted(steps, waves) && Run(steps, waves, worlds, actions) && k + 1 < |actions|
    requires actions[k].Resume? && actions[k + 1].EnterWave? && worlds[k].storedWave < |waves|
    ensures forall id :: id in worlds[k].stepStatus ==> worlds[k].stepStatus[id] == "pending"
    ensures worlds[k + 2].process == Creating(worlds[k].storedWave, {}, waves[worlds[k].storedWave], [])
  {
    EveryWorldOk(steps, waves, worlds, actions, k);
    EveryWorldOk(steps, waves, worlds, actions, k + 1);
    assert StepAt(waves, worlds, actions, k);
    assert StepAt(waves, worlds, actions, k + 1);
    var n := worlds[k].storedWave;
    assert IsLevel(steps, waves[n], n);
    NothingSkipped(waves[n]);
  }

  // ----- A run that repeats a finished step

  const TWO_STEPS: seq<PlanStep> := [PlanStep("a", "", "", []), PlanStep("b", "", "", [])]
  const ONE_WAVE: seq<seq<PlanStep>> := [TWO_STEPS]

  lemma TwoStepsSorted()
    ensures Sorted(TWO_STEPS, ONE_WAVE)
  {
    forall id | id in Ids(TWO_STEPS)
      ensures AtLevel(TWO_STEPS, id, 0)
    {
      EveryStepIsAChain(TWO_STEPS, id);
      if HasChain(TWO_STEPS, id, 1) {
        var _ := ShorterChain(TWO_STEPS, id, 0);
        assert false;
      }
    }
    var one := TWO_STEPS[..1];
    assert TWO_STEPS[0].id in Ids(TWO_STEPS) && TWO_STEPS[1].id in Ids(TWO_STEPS);
    assert one[..0] == [] && LevelSteps(TWO_STEPS, one, 0) == one;
    assert LevelSteps(TWO_STEPS, TWO_STEPS, 0) == one + [TWO_STEPS[1]] == TWO_STEPS;
    assert IsLevel(TWO_STEPS, ONE_WAVE[0], 0);
    assert LevelBelow(TWO_STEPS, "a", 1) && LevelBelow(TWO_STEPS, "b", 1);
  }

  ghost predicate StepsTo(waves: seq<seq<PlanStep>>, w: World, a: Action, w': World) {
    Enabled(waves, w, a) && w' == After(waves, w, a)
  }

  /** The world with these tasks and this process; nothing else changes in this run. */
  function Here(tasks: seq<PlanTask>, p: Process): World {
    World(0, PlanRunning, map["a" := "pending", "b" := "pending"], tasks, p)
  }

  const OPEN_A: PlanTask := PlanTask("a", None)
  const OPEN_B: PlanTask := PlanTask("b", None)
  const DONE_A: PlanTask := PlanTask("a", Some("SUCCEEDED"))

  lemma TasksAreCreated(tasks: seq<PlanTask>)
    ensures StepsTo(ONE_WAVE, Here(tasks, AtWave(0, {})), EnterWave, Here(tasks, Creating(0, {}, TWO_STEPS, [])))
    ensures StepsTo(ONE_WAVE, Here(tasks, Creating(0, {}, TWO_STEPS, [])), CreateTask,
                    Here(tasks + [OPEN_A], Creating(0, {}, [TWO_STEPS[1]], [|tasks|])))
    ensures StepsTo(ONE_WAVE, Here([OPEN_A], Creating(0, {}, [TWO_STEPS[1]], [0])), CreateTask,
                    Here([OPEN_A, OPEN_B], Creating(0, {}, [], [0, 1])))
  {
    NothingSkipped(TWO_STEPS);
    var second := [TWO_STEPS[1]];
    assert TWO_STEPS[1..] == second && second[1..] == [];
    assert [] + [|tasks|] == [|tasks|] && [0] + [1] == [0, 1] && [OPEN_A] + [OPEN_B] == [OPEN_A, OPEN_B];
  }

  lemma OneTaskEnds()
    ensures StepsTo(ONE_WAVE, Here([OPEN_A, OPEN_B], Creating(0, {}, [], [0, 1])), TaskEnds(0, "SUCCEEDED"),
                    Here([DONE_A, OPEN_B], Creating(0, {}, [], [0, 1])))
    ensures StepsTo(ONE_WAVE, Here([DONE_A, OPEN_B], Creating(0, {}, [], [0, 1])), WaitReturns(false, [0]),
                    Here([DONE_A, OPEN_B], Settling(0, {}, [0], false)))
    ensures StepsTo(ONE_WAVE, Here([DONE_A, OPEN_B], Settling(0, {}, [0], false)), Record,
                    Here([DONE_A, OPEN_B], Settling(0, {}, [], false)))
  {
    assert "SUCCEEDED" !in STEP_STATUSES;
    assert [0][1..] == [];
  }

  lemma CrashAndResume(tasks: seq<PlanTask>)
    ensures StepsTo(ONE_WAVE, Here(tasks, Settling(0, {}, [], false)), Crash, Here(tasks, Down))
    ensures StepsTo(ONE_WAVE, Here(tasks, Down), Resume, Here(tasks, AtWave(0, {})))
  {
    assert "pending" !in DONE_STATUSES;
    var rows := Here(tasks, Down).stepStatus;
    assert (set id | id in rows && rows[id] in DONE_STATUSES) == {};
  }

  lemma RunOn(steps: seq<PlanStep>, waves: seq<seq<PlanStep>>, worlds: seq<World>, actions: seq<Action>, a: Action,
              w': World)
    requires Run(steps, waves, worlds, actions) && StepsTo(waves, worlds[|actions|], a, w')
    ensures Run(steps, waves, worlds + [w'], actions + [a])
  {
    PathOn(waves, worlds, actions, a);
  }

  /** A run of the two-step plan that ends in this world. */
  ghost predicate RunTo(worlds: seq<World>, actions: seq<Action>, w: World) {
    Run(TWO_STEPS, ONE_WAVE, worlds, actions) && worlds[|actions|] == w
  }

  lemma StartedRun() returns (worlds: seq<World>, actions: seq<Action>)
    ensures RunTo(worlds, actions, Here([OPEN_A, OPEN_B], Creating(0, {}, [], [0, 1])))
  {
    TasksAreCreated([]);
    assert [] + [OPEN_A] == [OPEN_A];
    worlds, actions := [Here([], AtWave(0, {}))], [];
    assert worlds[0] == Started(TWO_STEPS, true);
    var w1, w2 := Here([], Creating(0, {}, TWO_STEPS, [])), Here([OPEN_A], Creating(0, {}, [TWO_STEPS[1]], [0]));
    RunOn(TWO_STEPS, ONE_WAVE, worlds, actions, EnterWave, w1);
    worlds, actions := worlds + [w1], actions + [EnterWave];
    RunOn(TWO_STEPS, ONE_WAVE, worlds, actions, CreateTask, w2);
    worlds, actions := worlds + [w2], actions + [CreateTask];
    var w3 := Here([OPEN_A, OPEN_B], Creating(0, {}, [], [0, 1]));
    RunOn(TWO_STEPS, ONE_WAVE, worlds, actions, CreateTask, w3);
    worlds, actions := worlds + [w3], actions + [CreateTask];
  }

  lemma CrashedRun() returns (worlds: seq<World>, actions: seq<Action>)
    ensures RunTo(worlds, actions, Here([DONE_A, OPEN_B], Down))
    ensures |actions| >= 2 && actions[|actions| - 2..] == [Record, Crash]
  {
    worlds, actions := StartedRun();
    OneTaskEnds();
    var tasks := [DONE_A, OPEN_B];
    CrashAndResume(tasks);
    var w1, w2 := Here(tasks, Creating(0, {}, [], [0, 1])), Here(tasks, Settling(0, {}, [0], false));
    RunOn(TWO_STEPS, ONE_WAVE, worlds, actions, TaskEnds(0, "SUCCEEDED"), w1);
    worlds, actions := worlds + [w1], actions + [TaskEnds(0, "SUCCEEDED")];
    RunOn(TWO_STEPS, ONE_WAVE, worlds, actions, WaitReturns(false, [0]), w2);
    worlds, actions := worlds + [w2], actions + [WaitReturns(false, [0])];
    var w3, w4 := Here(tasks, Settling(0, {}, [], false)), Here(tasks, Down);
    RunOn(TWO_STEPS, ONE_WAVE, worlds, actions, Record, w3);
    worlds, actions := worlds + [w3], actions + [Record];
    RunOn(TWO_STEPS, ONE_WAVE, worlds, actions, Crash, w4);
    worlds, actions := worlds + [w4], actions + [Crash];
  }

  /**
   * A run that repeats finished work: the task of step `a` ends in time and is recorded, that of `b` does
   * not; the process dies and is resumed, at action `k`; and `a` gets another task.
   */
  lemma FinishedStepIsRepeated() returns (worlds: seq<World>, actions: seq<Action>, k: nat)
    ensures Sorted(TWO_STEPS, ONE_WAVE) && Run(TWO_STEPS, ONE_WAVE, worlds, actions)
    ensures 2 <= k && |actions| == k + 3 && actions[k - 2] == Record && actions[k - 1] == Crash && actions[k] == Resume
    ensures worlds[k].storedWave == 0 && worlds[k].tasks == [DONE_A, OPEN_B] && SomeSettled(ONE_WAVE[0], worlds[k])
    ensures Creates(worlds[k + 2], actions[k + 2]) == Some("a")
  {
    TwoStepsSorted();
    worlds, actions := CrashedRun();
    k := |actions|;
    var before := worlds[k];
    worlds, actions := RepeatedRun(worlds, actions);
    assert Settled(before, ONE_WAVE[0][0].id) by {
      assert before.tasks[0].step == "a";
    }
  }

  lemma RepeatedRun(worlds: seq<World>, actions: seq<Action>) returns (worlds': seq<World>, actions': seq<Action>)
    requires RunTo(worlds, actions, Here([DONE_A, OPEN_B], Down))
    ensures Run(TWO_STEPS, ONE_WAVE, worlds', actions') && worlds <= worlds'
    ensures |actions'| == |actions| + 3 && actions < actions' && actions'[|actions|] == Resume
    ensures Creates(worlds'[|actions| + 2], actions'[|actions| + 2]) == Some("a")
  {
    var tasks := [DONE_A, OPEN_B];
    CrashAndResume(tasks);
    TasksAreCreated(tasks);
    var w1, w2 := Here(tasks, AtWave(0, {})), Here(tasks, Creating(0, {}, TWO_STEPS, []));
    RunOn(TWO_STEPS, ONE_WAVE, worlds, actions, Resume, w1);
    worlds', actions' := worlds + [w1], actions + [Resume];
    RunOn(TWO_STEPS, ONE_WAVE, worlds', actions', EnterWave, w2);
    worlds', actions' := worlds' + [w2], actions' + [EnterWave];
    var w3 := Here(tasks + [OPEN_A], Creating(0, {}, [TWO_STEPS[1]], [2]));
    RunOn(TWO_STEPS, ONE_WAVE, worlds', actions', CreateTask, w3);
    worlds', actions' := worlds' + [w3], actions' + [CreateTask];
  }
}
