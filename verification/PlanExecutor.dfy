/**
 * The executor's loops, over the rows they change.  Every statement that touches the database is also
 * logged as an action of PlanRuns, so that what is proved there of all runs holds of these methods, cut
 * short anywhere.
 */
module PlanExecutor {
  import opened Common
  import opened PlanGraph
  import Planner
  import opened PlanRuns
  import opened PlanRepeats
  import opened PlanResumes

  /**
   * What the surroundings do: whether the plan's row and the step rows can be written, whether they can be
   * read again, which task creations fail, the final status a task reaches in time, if any, which wave
   * numbers can be stored, and whether the plan's final status can.
   */
  datatype Env = Env(
    creates: bool,
    initialises: bool,
    hydrates: bool,
    refuses: nat -> bool,
    outcome: nat -> Option<string>,
    stores: nat -> bool,
    completes: bool)

  ghost predicate EnvOk(env: Env) {
    forall i: nat :: env.outcome(i).Some? ==> env.outcome(i).value in TASK_OUTCOMES
  }

  /** Nothing goes wrong that matters: the rows are there, and every task is created and succeeds in time. */
  ghost predicate Smooth(env: Env) {
    env.initialises && env.hydrates && forall i: nat :: !env.refuses(i) && env.outcome(i) == Some("SUCCEEDED")
  }

  datatype ExecError =
    | InvalidPlan(error: PlanError)
    | NotInitialised
    | NotHydrated
    | WaveFailed(wave: nat, partial: map<string, Option<nat>>)

  /** The steps of waves `n` and up that are not skipped, in order. */
  function StepsFrom(waves: seq<seq<PlanStep>>, n: nat, skip: set<string>): seq<string>
    decreases |waves| - n
  {
    if n >= |waves| then [] else IdSeq(Pending(waves[n], skip)) + StepsFrom(waves, n + 1, skip)
  }

  lemma MadeMore(before: seq<string>, todo: seq<PlanStep>, made: seq<string>, rest: seq<string>)
    ensures (before + made) + IdSeq(todo) == before + (made + IdSeq(todo))
    ensures made + (IdSeq(todo) + rest) == (made + IdSeq(todo)) + rest
    ensures Elements(made + IdSeq(todo)) == Elements(made) + Ids(todo)
  {
    forall id | id in Ids(todo)
      ensures id in IdSeq(todo)
    {
      var i :| 0 <= i < |todo| && todo[i].id == id;
      assert IdSeq(todo)[i] == id;
    }
  }

  function IdSeq(steps: seq<PlanStep>): seq<string> {
    seq(|steps|, i requires 0 <= i < |steps| => steps[i].id)
  }

  function TaskSteps(tasks: seq<PlanTask>): seq<string> {
    seq(|tasks|, i requires 0 <= i < |tasks| => tasks[i].step)
  }

  /** The task reported for this step is one of its tasks, and has a final status. */
  ghost predicate EndedFor(tasks: seq<PlanTask>, results: map<string, Option<nat>>, id: string) {
    id in results && results[id].Some? &&
    var t := results[id].value;
    t < |tasks| && tasks[t].step == id && tasks[t].outcome.Some?
  }

  /** Some task in `queue` is for this step. */
  ghost predicate Queued(tasks: seq<PlanTask>, queue: seq<nat>, id: string) {
    exists j :: 0 <= j < |queue| && queue[j] < |tasks| && tasks[queue[j]].step == id
  }

  /** Every reported step either has a final outcome, or one of its tasks is still to be dealt with. */
  ghost predicate Reported(tasks: seq<PlanTask>, results: map<string, Option<nat>>, queue: seq<nat>) {
    && (forall id :: id in results ==> EndedFor(tasks, results, id) || Queued(tasks, queue, id))
    && forall k :: 0 <= k < |queue| ==> queue[k] < |tasks| && tasks[queue[k]].step in results
  }

  ghost predicate AllEnded(tasks: seq<PlanTask>, queue: seq<nat>) {
    forall k :: 0 <= k < |queue| ==> queue[k] < |tasks| && tasks[queue[k]].outcome.Some?
  }

  ghost predicate AllSucceeded(tasks: seq<PlanTask>, queue: seq<nat>) {
    forall k :: 0 <= k < |queue| ==> queue[k] < |tasks| && tasks[queue[k]].outcome == Some("SUCCEEDED")
  }

  /** These tasks are different, and none has ended. */
  ghost predicate Waiting(tasks: seq<PlanTask>, queue: seq<nat>) {
    && (forall k :: 0 <= k < |queue| ==> queue[k] < |tasks| && tasks[queue[k]].outcome.None?)
    && Distinct(queue)
  }

  /** The same tasks; only outcomes have been added. */
  ghost predicate Kept(before: seq<PlanTask>, tasks: seq<PlanTask>) {
    && TaskSteps(tasks) == TaskSteps(before)
    && |tasks| == |before|
    && forall k :: 0 <= k < |before| ==>
         tasks[k].step == before[k].step && (before[k].outcome.Some? ==> tasks[k] == before[k])
  }

  lemma KeptEnd(before: seq<PlanTask>, tasks: seq<PlanTask>, t: nat, outcome: Option<string>)
    requires Kept(before, tasks) && t < |tasks| && tasks[t].outcome.None?
    ensures Kept(before, tasks[t := tasks[t].(outcome := outcome)])
  {
    assert TaskSteps(tasks[t := tasks[t].(outcome := outcome)]) == TaskSteps(tasks);
  }

  lemma ReportedKept(before: seq<PlanTask>, tasks: seq<PlanTask>, results: map<string, Option<nat>>, queue: seq<nat>)
    requires Kept(before, tasks) && Reported(before, results, queue)
    ensures Reported(tasks, results, queue)
  {
    forall id | id in results
      ensures EndedFor(tasks, results, id) || Queued(tasks, queue, id)
    {
      if !EndedFor(before, results, id) {
        assert Queued(before, queue, id);
      }
    }
  }

  /** The first `i` of the tasks have been waited for, and those in `done` have ended. */
  ghost predicate Awaited(before: seq<PlanTask>, tasks: seq<PlanTask>, mine: seq<nat>, i: nat, done: seq<nat>) {
    && i <= |mine| && |done| <= i
    && Kept(before, tasks) && Waiting(tasks, mine[i..])
    && AllEnded(tasks, done) && Distinct(done) && (forall k :: 0 <= k < |done| ==> done[k] in mine)
    && (|done| == i ==> done == mine[..i])
    && Distinct(mine) && (|done| == i <==> AllEnded(tasks, mine[..i]))
  }

  lemma AwaitedStart(tasks: seq<PlanTask>, mine: seq<nat>)
    requires Waiting(tasks, mine)
    ensures Awaited(tasks, tasks, mine, 0, [])
  {
    assert mine[0..] == mine;
  }

  lemma AwaitedNext(before: seq<PlanTask>, tasks: seq<PlanTask>, mine: seq<nat>, i: nat, done: seq<nat>,
                    outcome: Option<string>)
    requires Awaited(before, tasks, mine, i, done) && i < |mine|
    ensures mine[i] < |tasks| && tasks[mine[i]].outcome.None?
    ensures outcome.None? ==> Awaited(before, tasks, mine, i + 1, done)
    ensures outcome.Some? ==>
              var tasks' := tasks[mine[i] := PlanTask(tasks[mine[i]].step, outcome)];
              && Awaited(before, tasks', mine, i + 1, done + [mine[i]])
              && (AllSucceeded(tasks, done) && outcome.value == "SUCCEEDED" ==> AllSucceeded(tasks', done + [mine[i]]))
  {
    assert mine[i..][0] == mine[i] && mine[i + 1..] == mine[i..][1..];
    if outcome.Some? {
      KeptEnd(before, tasks, mine[i], outcome);
      assert mine[..i + 1] == mine[..i] + [mine[i]];
    }
  }

  lemma AwaitedAll(before: seq<PlanTask>, tasks: seq<PlanTask>, mine: seq<nat>, done: seq<nat>,
                   results: map<string, Option<nat>>)
    requires Awaited(before, tasks, mine, |mine|, done) && Reported(before, results, mine)
    ensures Reported(tasks, results, mine)
    ensures |done| == |mine| ==> done == mine
    ensures |done| == |mine| <==> AllEnded(tasks, mine)
  {
    ReportedKept(before, tasks, results, mine);
    assert mine[..|mine|] == mine;
  }

  lemma ReportedCreate(tasks: seq<PlanTask>, results: map<string, Option<nat>>, queue: seq<nat>, id: string)
    requires Reported(tasks, results, queue)
    ensures Reported(tasks + [PlanTask(id, None)], results[id := Some(|tasks|)], queue + [|tasks|])
  {
    var tasks', results', queue' := tasks + [PlanTask(id, None)], results[id := Some(|tasks|)], queue + [|tasks|];
    forall x | x in results'
      ensures EndedFor(tasks', results', x) || Queued(tasks', queue', x)
    {
      if x == id {
        assert queue'[|queue|] == |tasks|;
      } else if Queued(tasks, queue, x) {
        var j :| 0 <= j < |queue| && queue[j] < |tasks| && tasks[queue[j]].step == x;
        assert queue'[j] == queue[j];
      }
    }
  }

  /** One more task, after those of the first `i` steps. */
  lemma MadeOne(tasks: seq<PlanTask>, before: seq<string>, todo: seq<PlanStep>, i: nat)
    requires i < |todo| && TaskSteps(tasks) == before + IdSeq(todo[..i])
    ensures TaskSteps(tasks + [PlanTask(todo[i].id, None)]) == before + IdSeq(todo[..i + 1])
    ensures Ids(todo[..i + 1]) == Ids(todo[..i]) + {todo[i].id}
  {
    assert todo[..i + 1] == todo[..i] + [todo[i]];
    assert IdSeq(todo[..i + 1]) == IdSeq(todo[..i]) + [todo[i].id];
    assert TaskSteps(tasks + [PlanTask(todo[i].id, None)]) == TaskSteps(tasks) + [todo[i].id];
  }

  /** The head of the queue is dealt with: its step is reported with a task that ended. */
  lemma ReportedSettle(tasks: seq<PlanTask>, results: map<string, Option<nat>>, queue: seq<nat>, tasks': seq<PlanTask>,
                       task: nat)
    requires Reported(tasks, results, queue) && queue != [] && queue[0] < |tasks| <= |tasks'|
    requires forall i :: 0 <= i < |tasks| ==> tasks'[i] == tasks[i]
    requires task < |tasks'| && tasks'[task].step == tasks[queue[0]].step && tasks'[task].outcome.Some?
    ensures Reported(tasks', results[tasks'[task].step := Some(task)], queue[1..])
  {
    var results' := results[tasks'[task].step := Some(task)];
    forall x | x in results'
      ensures EndedFor(tasks', results', x) || Queued(tasks', queue[1..], x)
    {
      if x != tasks'[task].step && Queued(tasks, queue, x) {
        var j :| 0 <= j < |queue| && queue[j] < |tasks| && tasks[queue[j]].step == x;
        assert queue[1..][j - 1] == queue[j];
      }
    }
  }

  /** The entry for this step names no task, or one of its own. */
  ghost predicate OwnEntry(tasks: seq<PlanTask>, results: map<string, Option<nat>>, id: string) {
    id in results && (results[id].Some? ==> results[id].value < |tasks| && tasks[results[id].value].step == id)
  }

  /** From one pair of tasks and results to another: tasks and outcomes are added, entries change only for `ids`. */
  ghost predicate Changed(t0: seq<PlanTask>, r0: map<string, Option<nat>>, tasks: seq<PlanTask>,
                          results: map<string, Option<nat>>, ids: set<string>)
  {
    && |t0| <= |tasks|
    && (forall i :: 0 <= i < |t0| ==> tasks[i].step == t0[i].step && (t0[i].outcome.Some? ==> tasks[i] == t0[i]))
    && r0.Keys <= results.Keys <= r0.Keys + ids
    && (forall id :: id in r0 && id !in ids ==> results[id] == r0[id])
    && (forall id :: id in results ==> OwnEntry(tasks, results, id))
  }

  lemma ChangedStart(tasks: seq<PlanTask>, results: map<string, Option<nat>>, ids: set<string>)
    requires Reported(tasks, results, [])
    ensures Changed(tasks, results, tasks, results, ids)
  {
    forall id | id in results
      ensures OwnEntry(tasks, results, id)
    {
      assert EndedFor(tasks, results, id) || Queued(tasks, [], id);
    }
  }

  /** An entry is replaced, after tasks or outcomes may have been added. */
  lemma ChangedEntry(t0: seq<PlanTask>, r0: map<string, Option<nat>>, tasks: seq<PlanTask>,
                     results: map<string, Option<nat>>, ids: set<string>, tasks': seq<PlanTask>, id: string,
                     entry: Option<nat>)
    requires Changed(t0, r0, tasks, results, ids) && id in ids && |tasks| <= |tasks'|
    requires forall i :: 0 <= i < |tasks| ==> tasks'[i] == tasks[i]
    requires entry.Some? ==> entry.value < |tasks'| && tasks'[entry.value].step == id
    ensures Changed(t0, r0, tasks', results[id := entry], ids)
  {
    var results' := results[id := entry];
    forall x | x in results'
      ensures OwnEntry(tasks', results', x)
    {
      if x != id {
        assert OwnEntry(tasks, results, x);
      }
    }
  }

  lemma ChangedOutcomes(t0: seq<PlanTask>, r0: map<string, Option<nat>>, tasks: seq<PlanTask>,
                        results: map<string, Option<nat>>, ids: set<string>, tasks': seq<PlanTask>)
    requires Changed(t0, r0, tasks, results, ids) && Kept(tasks, tasks')
    ensures Changed(t0, r0, tasks', results, ids)
  {
    forall x | x in results
      ensures OwnEntry(tasks', results, x)
    {
      assert OwnEntry(tasks, results, x);
    }
  }

  /** The tasks of the first `i` steps have been created. */
  ghost predicate Created(t0: seq<PlanTask>, r0: map<string, Option<nat>>, tasks: seq<PlanTask>,
                          results: map<string, Option<nat>>, todo: seq<PlanStep>, i: nat, mine: seq<nat>)
  {
    && i <= |todo| && |mine| == i
    && TaskSteps(tasks) == TaskSteps(t0) + IdSeq(todo[..i]) && results.Keys == r0.Keys + Ids(todo[..i])
    && Reported(tasks, results, mine) && Waiting(tasks, mine)
    && (forall k :: 0 <= k < i ==> mine[k] < |tasks| && tasks[mine[k]].step == todo[k].id)
    && |tasks| == |t0| + i && (forall k :: 0 <= k < i ==> mine[k] == |t0| + k)
    && Changed(t0, r0, tasks, results, Ids(todo))
  }

  lemma CreatedStart(tasks: seq<PlanTask>, results: map<string, Option<nat>>, todo: seq<PlanStep>)
    requires Reported(tasks, results, [])
    ensures Created(tasks, results, tasks, results, todo, 0, [])
  {
    ChangedStart(tasks, results, Ids(todo));
  }

  lemma WaitingCreate(tasks: seq<PlanTask>, todo: seq<PlanStep>, mine: seq<nat>, i: nat)
    requires i < |todo| && |mine| == i && Waiting(tasks, mine)
    requires forall k :: 0 <= k < i ==> mine[k] < |tasks| && tasks[mine[k]].step == todo[k].id
    ensures var tasks', mine' := tasks + [PlanTask(todo[i].id, None)], mine + [|tasks|];
            && Waiting(tasks', mine')
            && forall k :: 0 <= k < i + 1 ==> mine'[k] < |tasks'| && tasks'[mine'[k]].step == todo[k].id
  {
  }

  lemma CreatedNext(t0: seq<PlanTask>, r0: map<string, Option<nat>>, tasks: seq<PlanTask>,
                    results: map<string, Option<nat>>, todo: seq<PlanStep>, i: nat, mine: seq<nat>)
    requires Created(t0, r0, tasks, results, todo, i, mine) && i < |todo|
    ensures var id := todo[i].id;
            Created(t0, r0, tasks + [PlanTask(id, None)], results[id := Some(|tasks|)], todo, i + 1, mine + [|tasks|])
  {
    var id := todo[i].id;
    MadeOne(tasks, TaskSteps(t0), todo, i);
    WaitingCreate(tasks, todo, mine, i);
    ReportedCreate(tasks, results, mine, id);
    ChangedEntry(t0, r0, tasks, results, Ids(todo), tasks + [PlanTask(id, None)], id, Some(|tasks|));
  }

  /** What was reported with a final outcome before, and is not touched, still is. */
  lemma EndedForStays(t0: seq<PlanTask>, r0: map<string, Option<nat>>, tasks: seq<PlanTask>,
                      results: map<string, Option<nat>>, ids: set<string>)
    requires Changed(t0, r0, tasks, results, ids) && Reported(t0, r0, [])
    ensures forall id :: id in r0 && id !in ids ==> EndedFor(tasks, results, id)
  {
    forall id | id in r0 && id !in ids
      ensures EndedFor(tasks, results, id)
    {
      assert EndedFor(t0, r0, id) || Queued(t0, [], id);
    }
  }

  /** Every step of the waves from `first` to before `n` that is not skipped has an entry. */
  ghost predicate InResults(waves: seq<seq<PlanStep>>, first: nat, n: nat, skip: set<string>,
                            results: map<string, Option<nat>>)
  {
    forall v :: first <= v < n && v < |waves| ==> WaveInResults(waves[v], skip, results)
  }

  ghost predicate WaveInResults(wave: seq<PlanStep>, skip: set<string>, results: map<string, Option<nat>>) {
    forall i :: 0 <= i < |wave| && wave[i].id !in skip ==> wave[i].id in results
  }

  /**
   * What is reported when wave `n` fails: the steps of the waves before it have ended tasks, and any entry
   * of its own steps names no task or one of the step's.
   */
  ghost predicate PartlyReported(waves: seq<seq<PlanStep>>, first: nat, n: nat, skip: set<string>,
                                 tasks: seq<PlanTask>, results: map<string, Option<nat>>)
  {
    && first <= n < |waves| && InResults(waves, first, n, skip, results)
    && (forall id :: id in results && id !in Ids(waves[n]) ==> EndedFor(tasks, results, id))
    && (forall id :: id in results ==> OwnEntry(tasks, results, id))
  }

  lemma {:induction false} PartOfWave(wave: seq<PlanStep>, skip: set<string>)
    ensures forall id :: id in Ids(Pending(wave, skip)) <==> id in Ids(wave) && id !in skip
  {
    if wave != [] {
      var front, last := wave[..|wave| - 1], wave[|wave| - 1];
      PartOfWave(front, skip);
      assert wave == front + [last];
      IdsAppend(front, [last]);
      IdsAppend(Pending(front, skip), if last.id in skip then [] else [last]);
    }
  }

  lemma IdsAppend(a: seq<PlanStep>, b: seq<PlanStep>)
    ensures Ids(a + b) == Ids(a) + Ids(b)
  {
    forall id | id in Ids(a) + Ids(b)
      ensures id in Ids(a + b)
    {
      if id in Ids(a) {
        var i :| 0 <= i < |a| && a[i].id == id;
        assert (a + b)[i] == a[i];
      } else {
        var i :| 0 <= i < |b| && b[i].id == id;
        assert (a + b)[|a| + i] == b[i];
      }
    }
  }

  lemma OneMoreInResults(waves: seq<seq<PlanStep>>, first: nat, n: nat, skip: set<string>,
                         r0: map<string, Option<nat>>, results: map<string, Option<nat>>)
    requires n < |waves| && InResults(waves, first, n, skip, r0)
    requires results.Keys == r0.Keys + Ids(Pending(waves[n], skip))
    ensures InResults(waves, first, n + 1, skip, results)
  {
    PartOfWave(waves[n], skip);
    forall v | first <= v < n + 1 && v < |waves|
      ensures WaveInResults(waves[v], skip, results)
    {
      if v < n {
        assert WaveInResults(waves[v], skip, r0);
      } else {
        assert forall i :: 0 <= i < |waves[n]| ==> waves[n][i].id in Ids(waves[n]);
      }
    }
  }

  lemma FailedWaveReports(waves: seq<seq<PlanStep>>, first: nat, n: nat, skip: set<string>, t0: seq<PlanTask>,
                          r0: map<string, Option<nat>>, tasks: seq<PlanTask>, results: map<string, Option<nat>>)
    requires first <= n < |waves| && InResults(waves, first, n, skip, r0) && Reported(t0, r0, [])
    requires Changed(t0, r0, tasks, results, Ids(Pending(waves[n], skip)))
    ensures PartlyReported(waves, first, n, skip, tasks, results)
  {
    EndedForStays(t0, r0, tasks, results, Ids(Pending(waves[n], skip)));
    PartOfWave(waves[n], skip);
  }

  /** The steps of waves `first` to before `n` that are not skipped, in order. */
  function StepsBetween(waves: seq<seq<PlanStep>>, first: nat, n: nat, skip: set<string>): seq<string> {
    if n <= first || n > |waves| then []
    else StepsBetween(waves, first, n - 1, skip) + IdSeq(Pending(waves[n - 1], skip))
  }

  lemma {:induction false} BetweenAndFrom(waves: seq<seq<PlanStep>>, first: nat, n: nat, skip: set<string>)
    requires first <= n <= |waves|
    ensures StepsBetween(waves, first, n, skip) + StepsFrom(waves, n, skip) == StepsFrom(waves, first, skip)
  {
    if first < n {
      BetweenAndFrom(waves, first, n - 1, skip);
      MadeMore([], Pending(waves[n - 1], skip), StepsBetween(waves, first, n - 1, skip), StepsFrom(waves, n, skip));
    }
  }

  /** The waves from `first` to before `n` have been run, from these tasks and results to those. */
  ghost predicate Ran(waves: seq<seq<PlanStep>>, first: nat, n: nat, skip: set<string>, t0: seq<PlanTask>,
                      r0: map<string, Option<nat>>, tasks: seq<PlanTask>, results: map<string, Option<nat>>,
                      smooth: bool)
  {
    && first <= n && (n <= |waves| || n == first)
    && Reported(tasks, results, []) && InResults(waves, first, n, skip, results)
    && results.Keys == r0.Keys + Elements(StepsBetween(waves, first, n, skip))
    && (smooth ==> TaskSteps(tasks) == TaskSteps(t0) + StepsBetween(waves, first, n, skip))
  }

  lemma RanStart(waves: seq<seq<PlanStep>>, first: nat, skip: set<string>, tasks: seq<PlanTask>,
                 results: map<string, Option<nat>>, smooth: bool)
    requires Reported(tasks, results, [])
    ensures Ran(waves, first, first, skip, tasks, results, tasks, results, smooth)
  {
  }

  lemma RanNext(waves: seq<seq<PlanStep>>, first: nat, n: nat, skip: set<string>, t0: seq<PlanTask>,
                r0: map<string, Option<nat>>, tasks: seq<PlanTask>, results: map<string, Option<nat>>,
                tasks': seq<PlanTask>, results': map<string, Option<nat>>, smooth: bool)
    requires n < |waves| && Ran(waves, first, n, skip, t0, r0, tasks, results, smooth) && Reported(tasks', results', [])
    requires results'.Keys == results.Keys + Ids(Pending(waves[n], skip))
    requires smooth ==> TaskSteps(tasks') == TaskSteps(tasks) + IdSeq(Pending(waves[n], skip))
    ensures Ran(waves, first, n + 1, skip, t0, r0, tasks', results', smooth)
  {
    OneMoreInResults(waves, first, n, skip, results, results');
    MadeMore(TaskSteps(t0), Pending(waves[n], skip), StepsBetween(waves, first, n, skip), []);
  }

  lemma RanAll(waves: seq<seq<PlanStep>>, first: nat, n: nat, skip: set<string>, t0: seq<PlanTask>,
               r0: map<string, Option<nat>>, tasks: seq<PlanTask>, results: map<string, Option<nat>>, smooth: bool)
    requires n >= |waves| && Ran(waves, first, n, skip, t0, r0, tasks, results, smooth)
    ensures results.Keys == r0.Keys + Elements(StepsFrom(waves, first, skip))
    ensures smooth ==> TaskSteps(tasks) == TaskSteps(t0) + StepsFrom(waves, first, skip)
  {
    if n <= |waves| {
      BetweenAndFrom(waves, first, n, skip);
    }
    assert StepsBetween(waves, first, n, skip) == StepsFrom(waves, first, skip);
  }

  /** In a sorted plan the failed wave shares no step with those before it. */
  lemma EarlierWavesEnded(steps: seq<PlanStep>, waves: seq<seq<PlanStep>>, first: nat, n: nat, tasks: seq<PlanTask>,
                          results: map<string, Option<nat>>)
    requires Sorted(steps, waves) && PartlyReported(waves, first, n, {}, tasks, results)
    ensures EndedBefore(waves, first, n, tasks, results)
  {
    forall v, i | first <= v < n && 0 <= i < |waves[v]|
      ensures EndedFor(tasks, results, waves[v][i].id)
    {
      var id := waves[v][i].id;
      assert WaveInResults(waves[v], {}, results);
      WaveIdsDistinct(steps, waves, v);
      assert id in Ids(waves[v]);
      assert !InWaves(waves, v + 1, id);
    }
  }

  /** The results that come with a failed wave `n`. */
  ghost predicate PartialOk(waves: seq<seq<PlanStep>>, first: nat, n: nat, tasks: seq<PlanTask>,
                            partial: map<string, Option<nat>>)
  {
    EndedBefore(waves, first, n, tasks, partial) && forall id :: id in partial ==> OwnEntry(tasks, partial, id)
  }

  /** Every step of the waves from `first` to before `n` is reported with a task that ended. */
  ghost predicate EndedBefore(waves: seq<seq<PlanStep>>, first: nat, n: nat, tasks: seq<PlanTask>,
                              results: map<string, Option<nat>>)
  {
    n < |waves| && forall v, i :: first <= v < n && 0 <= i < |waves[v]| ==> EndedFor(tasks, results, waves[v][i].id)
  }

  /** Some actions, one after the other, lead from the one world to the other. */
  ghost predicate Leads(waves: seq<seq<PlanStep>>, w: World, w': World) {
    exists worlds, actions :: Path(waves, worlds, actions) && worlds[0] == w && worlds[|actions|] == w'
  }

  lemma LeadsNowhere(waves: seq<seq<PlanStep>>, w: World)
    ensures Leads(waves, w, w)
  {
    var actions: seq<Action> := [];
    assert Path(waves, [w], actions);
  }

  lemma LeadsMore(waves: seq<seq<PlanStep>>, w: World, w': World, a: Action)
    requires Leads(waves, w, w') && Enabled(waves, w', a)
    ensures Leads(waves, w, After(waves, w', a))
  {
    var worlds, actions :| Path(waves, worlds, actions) && worlds[0] == w && worlds[|actions|] == w';
    PathOn(waves, worlds, actions, a);
    var worlds', actions' := worlds + [After(waves, w', a)], actions + [a];
    assert Path(waves, worlds', actions');
  }

  /** Waiting ends with the tasks that have ended; without error, those are all. */
  lemma WaitEnds(waves: seq<seq<PlanStep>>, w0: World, w: World, ok: bool, done: seq<nat>)
    requires w.process.Creating? && w.process.todo == [] && Leads(waves, w0, w)
    requires AllEnded(w.tasks, done) && Distinct(done) && forall k :: 0 <= k < |done| ==> done[k] in w.process.mine
    requires ok ==> done == w.process.mine
    ensures Leads(waves, w0, w.(process := Settling(w.process.wave, w.process.skip, done, ok)))
  {
    assert forall k :: 0 <= k < |done| ==> Ended(w, done[k]);
    LeadsMore(waves, w0, w, WaitReturns(ok, done));
  }

  lemma WaitIsOver(waves: seq<seq<PlanStep>>, w0: World, w: World, before: seq<PlanTask>, done: seq<nat>,
                   results: map<string, Option<nat>>)
    requires w.process.Creating? && w.process.todo == [] && Leads(waves, w0, w)
    requires Awaited(before, w.tasks, w.process.mine, |w.process.mine|, done)
    requires Reported(before, results, w.process.mine)
    ensures var p, ok := w.process, |done| == |w.process.mine|;
            && Leads(waves, w0, w.(process := Settling(p.wave, p.skip, done, ok)))
            && AllEnded(w.tasks, done) && Kept(before, w.tasks) && (forall k :: 0 <= k < |done| ==> done[k] in p.mine)
            && (ok <==> AllEnded(w.tasks, p.mine)) && (ok ==> done == p.mine && Reported(w.tasks, results, done))
  {
    AwaitedAll(before, w.tasks, w.process.mine, done, results);
    WaitEnds(waves, w0, w, |done| == |w.process.mine|, done);
  }

  /** The outcome of task `t` is stored, and the next result taken up. */
  ghost function Recorded(w: World, t: nat): World
    requires w.process.Settling? && w.process.left != [] && Ended(w, t)
  {
    var p := w.process;
    w.(stepStatus := RecordStep(w, w.tasks[t].step, w.tasks[t].outcome.value),
       process := Settling(p.wave, p.skip, p.left[1..], p.ok))
  }

  /** The levels of a graph are unique: sorting the plan again gives the same waves. */
  lemma LevelsAreUnique(steps: seq<PlanStep>, waves: seq<seq<PlanStep>>, order: seq<seq<PlanStep>>)
    requires AreLevels(steps, waves) && AreLevels(steps, order)
    ensures waves == order
  {
    if |waves| < |order| {
      NoFurtherLevel(steps, waves, order[|waves|]);
    } else if |order| < |waves| {
      NoFurtherLevel(steps, order, waves[|order|]);
    }
    forall w | 0 <= w < |waves|
      ensures waves[w] == order[w]
    {
      assert IsLevel(steps, waves[w], w) && IsLevel(steps, order[w], w);
    }
  }

  lemma NoFurtherLevel(steps: seq<PlanStep>, waves: seq<seq<PlanStep>>, wave: seq<PlanStep>)
    requires AreLevels(steps, waves)
    ensures !IsLevel(steps, wave, |waves|)
  {
    if IsLevel(steps, wave, |waves|) {
      Planner.LevelMembers(steps, steps, |waves|);
      assert wave[0] in steps;
      var i :| 0 <= i < |steps| && steps[i] == wave[0];
      assert LevelBelow(steps, steps[i].id, |waves|);
      var w :| 0 <= w < |waves| && AtLevel(steps, steps[i].id, w);
      Planner.OneLevelOnly(steps, steps[i].id, w, |waves|);
    }
  }

  /** What validation accepts. */
  ghost predicate Acceptable(steps: seq<PlanStep>) {
    steps != [] && "" !in Ids(steps) && UniqueIds(steps) && KnownDeps(steps) && !Cyclic(steps)
  }

  /** An execution of the plan leads here. */
  ghost predicate Begun(steps: seq<PlanStep>, waves: seq<seq<PlanStep>>, w: World) {
    Leads(waves, Started(steps, true), w) || Leads(waves, Started(steps, false), w)
  }

  lemma ReachableOk(steps: seq<PlanStep>, waves: seq<seq<PlanStep>>, w: World)
    requires Sorted(steps, waves) && Begun(steps, waves, w)
    ensures Inv(waves, w)
  {
    var start := if Leads(waves, Started(steps, true), w) then Started(steps, true) else Started(steps, false);
    var worlds, actions :| Path(waves, worlds, actions) && worlds[0] == start && worlds[|actions|] == w;
    assert Run(steps, waves, worlds, actions);
    EveryWorldOk(steps, waves, worlds, actions, |actions|);
  }

  /** Resuming skips nothing, and goes on from the stored wave. */
  lemma ResumeLeads(steps: seq<PlanStep>, waves: seq<seq<PlanStep>>, w: World)
    requires Sorted(steps, waves) && Begun(steps, waves, w) && w.process.Down?
    ensures Leads(waves, w, w) && Leads(waves, w, w.(process := AtWave(w.storedWave, {})))
    ensures (set id | id in w.stepStatus && w.stepStatus[id] in DONE_STATUSES) == {}
  {
    ReachableOk(steps, waves, w);
    NothingDone(w.stepStatus);
    LeadsNowhere(waves, w);
    LeadsMore(waves, w, w, Resume);
    var done := set id | id in w.stepStatus && w.stepStatus[id] in DONE_STATUSES;
    assert done == {};
    assert After(waves, w, Resume) == w.(process := AtWave(w.storedWave, done));
  }

  lemma NothingDone(rows: map<string, string>)
    requires forall id :: id in rows ==> rows[id] == "pending"
    ensures (set id | id in rows && rows[id] in DONE_STATUSES) == {}
  {
    assert "pending" !in DONE_STATUSES;
  }

  lemma {:induction false} InStepsFrom(waves: seq<seq<PlanStep>>, n: nat, id: string)
    ensures id in StepsFrom(waves, n, {}) <==> exists v :: n <= v < |waves| && id in Ids(waves[v])
    decreases |waves| - n
  {
    if n < |waves| {
      InStepsFrom(waves, n + 1, id);
      NothingSkipped(waves[n]);
      assert id in Ids(waves[n]) <==> id in IdSeq(waves[n]) by {
        MadeMore([], waves[n], [], []);
        assert [] + IdSeq(waves[n]) == IdSeq(waves[n]);
        assert id in Elements(IdSeq(waves[n])) <==> id in IdSeq(waves[n]);
      }
    }
  }

  /** From the first wave on, these are all steps of the plan. */
  lemma AllStepsFrom(steps: seq<PlanStep>, waves: seq<seq<PlanStep>>)
    requires Sorted(steps, waves)
    ensures Elements(StepsFrom(waves, 0, {})) == Ids(steps)
  {
    forall id
      ensures id in StepsFrom(waves, 0, {}) <==> id in Ids(steps)
    {
      InStepsFrom(waves, 0, id);
      if id in Ids(steps) {
        var s, w := Planner.StepHasALevel(steps, waves, id);
        assert id in Ids(waves[w]);
      } else if id in StepsFrom(waves, 0, {}) {
        var v :| 0 <= v < |waves| && id in Ids(waves[v]);
        assert IsLevel(steps, waves[v], v);
        Planner.LevelMembers(steps, steps, v);
        assert false;
      }
    }
  }

  /** The stored status after an execution or resumption has ended. */
  function Final(before: PlanStatus, ok: bool, stored: bool): PlanStatus {
    if !stored then before else if ok then PlanSucceeded else PlanFailed
  }

  /** The number after wave `n` is stored when the wave is done: it had something to run, and the write succeeds. */
  predicate Stores(hasRow: bool, env: Env, waves: seq<seq<PlanStep>>, skip: set<string>, n: nat) {
    hasRow && env.stores(n) && n < |waves| && Pending(waves[n], skip) != []
  }

  /** The stored wave number when the waves from `first` to before `m` are done. */
  function LastStored(before: nat, hasRow: bool, env: Env, waves: seq<seq<PlanStep>>, skip: set<string>, first: nat,
                      m: nat): nat
  {
    if m <= first then before
    else if Stores(hasRow, env, waves, skip, m - 1) then m
    else LastStored(before, hasRow, env, waves, skip, first, m - 1)
  }

  /** It is one more than the last of those waves whose number could be stored, or what it was if there is none. */
  lemma {:induction false} LastStoredExact(before: nat, hasRow: bool, env: Env, waves: seq<seq<PlanStep>>,
                                           skip: set<string>, first: nat, m: nat)
    ensures var r := LastStored(before, hasRow, env, waves, skip, first, m);
            || (r == before && forall n :: first <= n < m ==> !Stores(hasRow, env, waves, skip, n))
            || (first < r <= m && Stores(hasRow, env, waves, skip, r - 1)
                && forall n :: r <= n < m ==> !Stores(hasRow, env, waves, skip, n))
  {
    if m > first && !Stores(hasRow, env, waves, skip, m - 1) {
      LastStoredExact(before, hasRow, env, waves, skip, first, m - 1);
    }
  }

  /** Every write of a wave number succeeds. */
  ghost predicate AllStored(env: Env) {
    forall n: nat :: env.stores(n)
  }

  /** Then it is the number of the wave that comes next. */
  lemma EveryWaveStored(steps: seq<PlanStep>, before: nat, env: Env, waves: seq<seq<PlanStep>>, first: nat, m: nat)
    requires Sorted(steps, waves) && AllStored(env) && first < m <= |waves|
    ensures LastStored(before, true, env, waves, {}, first, m) == m
  {
    NothingSkipped(waves[m - 1]);
    assert IsLevel(steps, waves[m - 1], m - 1);
  }

  /** The wave an execution or resumption came to: the failed one, or the end. */
  function Reach(waves: seq<seq<PlanStep>>, r: Result<map<string, Option<nat>>, ExecError>): nat {
    if r.Err? && r.error.WaveFailed? then r.error.wave else |waves|
  }

  // ----- New tasks are those of the waves not yet stored

  /** Every task after the first `count` belongs to a step of wave `n` or a later one. */
  ghost predicate NewTasksFrom(waves: seq<seq<PlanStep>>, n: nat, count: nat, tasks: seq<PlanTask>) {
    count <= |tasks| && forall i :: count <= i < |tasks| ==> InWaves(waves, n, tasks[i].step)
  }

  lemma StepMakesLaterTasks(steps: seq<PlanStep>, waves: seq<seq<PlanStep>>, w: World, a: Action, n: nat, count: nat)
    requires Sorted(steps, waves) && Inv(waves, w) && Enabled(waves, w, a)
    requires n <= w.storedWave && NewTasksFrom(waves, n, count, w.tasks)
    ensures n <= After(waves, w, a).storedWave && NewTasksFrom(waves, n, count, After(waves, w, a).tasks)
  {
    var w' := After(waves, w, a);
    StepGrows(waves, w, a);
    OneNewTask(waves, w, a);
    if Creates(w, a).Some? {
      var m, s := CreationWave(waves, w, a);
      assert s.id in Ids(waves[m]);
      assert InWaves(waves, n, s.id);
    }
    assert forall i :: count <= i < |w.tasks| ==> w'.tasks[i].step == w.tasks[i].step;
  }

  lemma {:induction false} PathMakesLaterTasks(steps: seq<PlanStep>, waves: seq<seq<PlanStep>>, worlds: seq<World>,
                                               actions: seq<Action>, k: nat)
    requires Sorted(steps, waves) && Path(waves, worlds, actions) && Inv(waves, worlds[0]) && k <= |actions|
    ensures Inv(waves, worlds[k]) && worlds[0].storedWave <= worlds[k].storedWave
    ensures NewTasksFrom(waves, worlds[0].storedWave, |worlds[0].tasks|, worlds[k].tasks)
  {
    if k > 0 {
      PathMakesLaterTasks(steps, waves, worlds, actions, k - 1);
      assert StepAt(waves, worlds, actions, k - 1);
      StepMakesLaterTasks(steps, waves, worlds[k - 1], actions[k - 1], worlds[0].storedWave, |worlds[0].tasks|);
      StepKeepsInv(steps, waves, worlds[k - 1], actions[k - 1]);
    }
  }

  /** Whatever leads on from a world makes tasks only for steps of the wave stored there and later ones. */
  lemma LeadsToLaterTasks(steps: seq<PlanStep>, waves: seq<seq<PlanStep>>, w: World, w': World)
    requires Sorted(steps, waves) && Inv(waves, w) && Leads(waves, w, w')
    ensures NewTasksFrom(waves, w.storedWave, |w.tasks|, w'.tasks)
  {
    var worlds, actions :| Path(waves, worlds, actions) && worlds[0] == w && worlds[|actions|] == w';
    PathMakesLaterTasks(steps, waves, worlds, actions, |actions|);
  }

  /** A failed task is retried if the retry can be created. */
  predicate Retries(tasks: seq<PlanTask>, t: nat, env: Env)
    requires t < |tasks|
  {
    tasks[t].outcome == Some("FAILED") && !env.refuses(|tasks|)
  }

  /**
   * What becomes of task `t` that has ended: a failed one is followed by one more for its step, which is the
   * one reported if it ends in time; nothing else is done, and `t` is reported, in all other cases.
   */
  ghost predicate RetriedOnce(before: seq<PlanTask>, t: nat, env: Env, tasks: seq<PlanTask>, reported: nat)
    requires t < |before|
  {
    if Retries(before, t, env)
    then tasks == before + [PlanTask(before[t].step, env.outcome(|before|))]
         && reported == (if env.outcome(|before|).Some? then |before| else t)
    else tasks == before && reported == t
  }

  ghost predicate NoneRefused(env: Env) {
    forall i: nat :: !env.refuses(i)
  }

  /** How many of these tasks have failed. */
  function FailedAmong(tasks: seq<PlanTask>, queue: seq<nat>): nat
    requires forall k :: 0 <= k < |queue| ==> queue[k] < |tasks|
  {
    if queue == [] then 0
    else
      var last := |queue| - 1;
      FailedAmong(tasks, queue[..last]) + if tasks[queue[last]].outcome == Some("FAILED") then 1 else 0
  }

  /** Of the new tasks the first `n` are first tries, and each of these that failed has one more, its retry. */
  ghost predicate OneRetryEach(before: seq<PlanTask>, tasks: seq<PlanTask>, n: nat) {
    && |before| + n <= |tasks|
    && |tasks| == |before| + n + FailedAmong(tasks, seq(n, k requires 0 <= k < n => |before| + k))
  }

  lemma {:induction false} SameFailures(a: seq<PlanTask>, b: seq<PlanTask>, queue: seq<nat>)
    requires forall k :: 0 <= k < |queue| ==> queue[k] < |a| && queue[k] < |b| && a[queue[k]] == b[queue[k]]
    ensures FailedAmong(a, queue) == FailedAmong(b, queue)
  {
    if queue != [] {
      SameFailures(a, b, queue[..|queue| - 1]);
    }
  }

  lemma RetriesCounted(before: seq<PlanTask>, settled: seq<PlanTask>, tasks: seq<PlanTask>, mine: seq<nat>)
    requires |settled| == |before| + |mine| && forall k :: 0 <= k < |mine| ==> mine[k] == |before| + k
    requires |settled| <= |tasks| && tasks[..|settled|] == settled
    requires |tasks| == |settled| + FailedAmong(settled, mine)
    ensures OneRetryEach(before, tasks, |mine|)
  {
    assert mine == seq(|mine|, k requires 0 <= k < |mine| => |before| + k);
    assert forall k :: 0 <= k < |settled| ==> tasks[k] == tasks[..|settled|][k];
    SameFailures(settled, tasks, mine);
  }

  lemma FailedNext(start: seq<PlanTask>, tasks: seq<PlanTask>, done: seq<nat>, i: nat, env: Env, tasks': seq<PlanTask>,
                   reported: nat)
    requires i < |done| && AllEnded(start, done) && |start| <= |tasks| && tasks[..|start|] == start
    requires NoneRefused(env) && |tasks| == |start| + FailedAmong(start, done[..i])
    requires RetriedOnce(tasks, done[i], env, tasks', reported)
    ensures |tasks'| == |start| + FailedAmong(start, done[..i + 1])
  {
    assert done[..i + 1][..i] == done[..i];
    assert tasks[done[i]] == tasks[..|start|][done[i]];
  }

  class Executor {
    /** The plan's row exists; without it, nothing of the plan itself is stored. */
    var hasRow: bool
    var storedWave: nat
    var status: PlanStatus
    var stepStatus: map<string, string>
    var tasks: seq<PlanTask>
    /** The task reported for each step, or none if its task could not be created. */
    var results: map<string, Option<nat>>

    ghost function Now(p: Process): World
      reads this
    {
      World(storedWave, status, stepStatus, tasks, p)
    }

    /** Creates one task. */
    method CreateOne(ghost waves: seq<seq<PlanStep>>, ghost w0: World, ghost p: Process, step: PlanStep)
      requires p.Creating? && p.todo != [] && p.todo[0] == step && Leads(waves, w0, Now(p))
      modifies this`tasks, this`results
      ensures Leads(waves, w0, Now(p.(todo := p.todo[1..], mine := p.mine + [|old(tasks)|])))
      ensures tasks == old(tasks) + [PlanTask(step.id, None)] && results == old(results)[step.id := Some(|old(tasks)|)]
    {
      LeadsMore(waves, w0, Now(p), CreateTask);
      results := results[step.id := Some(|tasks|)];
      tasks := tasks + [PlanTask(step.id, None)];
    }

    /** The next task of the wave. */
    method CreateNext(ghost waves: seq<seq<PlanStep>>, ghost w0: World, ghost p: Process, todo: seq<PlanStep>, i: nat,
                      mine: seq<nat>, ghost t0: seq<PlanTask>, ghost r0: map<string, Option<nat>>)
      returns (mine': seq<nat>)
      requires p.Creating? && i < |todo| && Created(t0, r0, tasks, results, todo, i, mine)
      requires Leads(waves, w0, Now(p.(todo := todo[i..], mine := mine)))
      modifies this`tasks, this`results
      ensures Created(t0, r0, tasks, results, todo, i + 1, mine')
      ensures Leads(waves, w0, Now(p.(todo := todo[i + 1..], mine := mine')))
    {
      CreatedNext(t0, r0, tasks, results, todo, i, mine);
      mine' := mine + [|tasks|];
      assert todo[i..][1..] == todo[i + 1..];
      CreateOne(waves, w0, p.(todo := todo[i..], mine := mine), todo[i]);
    }

    /** Creates the tasks of a wave, one for each step, until one cannot be created. */
    method CreateTasks(ghost waves: seq<seq<PlanStep>>, ghost w0: World, ghost p: Process, todo: seq<PlanStep>,
                       env: Env)
      returns (ok: bool, mine: seq<nat>, ghost rest: seq<PlanStep>)
      requires p.Creating? && p.todo == todo && p.mine == [] && Leads(waves, w0, Now(p)) && Reported(tasks, results, [])
      modifies this`tasks, this`results
      ensures |mine| <= |todo| && rest == todo[|mine|..] && Leads(waves, w0, Now(p.(todo := rest, mine := mine)))
      ensures TaskSteps(tasks) == old(TaskSteps(tasks)) + IdSeq(todo[..|mine|])
      ensures ok ==> |mine| == |todo| && results.Keys == old(results.Keys) + Ids(todo)
      ensures ok ==> Reported(tasks, results, mine) && Waiting(tasks, mine)
      ensures Changed(old(tasks), old(results), tasks, results, Ids(todo))
      ensures forall k :: 0 <= k < |mine| ==> mine[k] < |tasks| && tasks[mine[k]].step in Ids(todo)
      ensures |tasks| == |old(tasks)| + |mine| && forall k :: 0 <= k < |mine| ==> mine[k] == |old(tasks)| + k
      ensures !ok ==> |mine| < |todo| && env.refuses(|tasks|) && todo[|mine|].id in results
      ensures !ok ==> results[todo[|mine|].id] == None
      ensures Smooth(env) ==> ok
    {
      mine := [];
      var i := 0;
      CreatedStart(tasks, results, todo);
      while i < |todo|
        invariant Created(old(tasks), old(results), tasks, results, todo, i, mine)
        invariant Leads(waves, w0, Now(p.(todo := todo[i..], mine := mine)))
      {
        rest := todo[i..];
        if env.refuses(|tasks|) {
          ChangedEntry(old(tasks), old(results), tasks, results, Ids(todo), tasks, todo[i].id, None);
          results := results[todo[i].id := None];
          return false, mine, rest;
        }
        mine := CreateNext(waves, w0, p, todo, i, mine, old(tasks), old(results));
        i := i + 1;
      }
      assert todo[..i] == todo && todo[i..] == [];
      return true, mine, [];
    }

    /** While the process waits, a task reaches a final status. */
    method EndTask(ghost waves: seq<seq<PlanStep>>, ghost w0: World, ghost p: Process, t: nat, outcome: string)
      requires Leads(waves, w0, Now(p)) && outcome in TASK_OUTCOMES && t < |tasks| && tasks[t].outcome.None?
      modifies this`tasks
      ensures Leads(waves, w0, Now(p)) && tasks == old(tasks)[t := PlanTask(old(tasks)[t].step, Some(outcome))]
    {
      LeadsMore(waves, w0, Now(p), TaskEnds(t, outcome));
      tasks := tasks[t := tasks[t].(outcome := Some(outcome))];
    }

    /** Waits for the tasks of a wave: those that reach a final status in time give results. */
    method WaitForAll(ghost waves: seq<seq<PlanStep>>, ghost w0: World, ghost p: Process, mine: seq<nat>, env: Env)
      returns (ok: bool, done: seq<nat>)
      requires EnvOk(env) && p.Creating? && p.todo == [] && p.mine == mine && Leads(waves, w0, Now(p))
      requires Reported(tasks, results, mine) && Waiting(tasks, mine)
      modifies this`tasks
      ensures Leads(waves, w0, Now(Settling(p.wave, p.skip, done, ok))) && AllEnded(tasks, done)
      ensures Kept(old(tasks), tasks) && forall k :: 0 <= k < |done| ==> done[k] in mine
      ensures (ok <==> AllEnded(tasks, mine)) && (ok ==> done == mine)
      ensures ok ==> Reported(tasks, results, done)
      ensures Smooth(env) ==> ok && AllSucceeded(tasks, done)
    {
      done := AwaitEach(waves, w0, p, mine, env);
      ok := |done| == |mine|;
      WaitIsOver(waves, w0, Now(p), old(tasks), done, results);
    }

    method AwaitEach(ghost waves: seq<seq<PlanStep>>, ghost w0: World, ghost p: Process, mine: seq<nat>, env: Env)
      returns (done: seq<nat>)
      requires EnvOk(env) && Leads(waves, w0, Now(p)) && Waiting(tasks, mine)
      modifies this`tasks
      ensures Awaiting(waves, w0, p, old(tasks), mine, |mine|, done, env)
    {
      done := [];
      var i := 0;
      AwaitedStart(tasks, mine);
      while i < |mine|
        invariant i <= |mine| && Awaiting(waves, w0, p, old(tasks), mine, i, done, env)
      {
        done := WaitForTask(waves, w0, p, old(tasks), mine, i, done, env);
        i := i + 1;
      }
    }

    /** The first `i` tasks have been waited for. */
    ghost predicate Awaiting(waves: seq<seq<PlanStep>>, w0: World, p: Process, before: seq<PlanTask>, mine: seq<nat>,
                             i: nat, done: seq<nat>, env: Env)
      reads this
    {
      && Awaited(before, tasks, mine, i, done) && Leads(waves, w0, Now(p))
      && (Smooth(env) ==> |done| == i && AllSucceeded(tasks, done))
    }

    /** Waits for one task: it ends in time, or is given up. */
    method WaitForTask(ghost waves: seq<seq<PlanStep>>, ghost w0: World, ghost p: Process, ghost before: seq<PlanTask>,
                       mine: seq<nat>, i: nat, done: seq<nat>, env: Env)
      returns (done': seq<nat>)
      requires EnvOk(env) && i < |mine| && Awaiting(waves, w0, p, before, mine, i, done, env)
      modifies this`tasks
      ensures Awaiting(waves, w0, p, before, mine, i + 1, done', env)
    {
      var t := mine[i];
      AwaitedNext(before, tasks, mine, i, done, env.outcome(t));
      done' := done;
      if env.outcome(t).Some? {
        EndTask(waves, w0, p, t, env.outcome(t).value);
        done' := done + [t];
      }
    }

    /** The task whose outcome counts: a failed task is tried once more, and the retry counts if it ends in time. */
    method Outcome(ghost waves: seq<seq<PlanStep>>, ghost w0: World, ghost p: Process, t: nat, env: Env)
      returns (reported: nat)
      requires EnvOk(env) && p.Settling? && p.left != [] && p.left[0] == t && Leads(waves, w0, Now(p))
      requires AllEnded(tasks, p.left)
      modifies this`tasks
      ensures |old(tasks)| <= |tasks| && tasks[..|old(tasks)|] == old(tasks)
      ensures reported < |tasks| && tasks[reported].outcome.Some? && tasks[reported].step == old(tasks)[t].step
      ensures Leads(waves, w0, Recorded(Now(p), reported))
      ensures RetriedOnce(old(tasks), t, env, tasks, reported)
      ensures var retry := |old(tasks)|;
              if old(tasks)[t].outcome == Some("FAILED") && !env.refuses(retry)
              then |tasks| == retry + 1 && tasks[retry].step == old(tasks)[t].step
                   && (reported == retry <==> env.outcome(retry).Some?) && (reported == t <==> env.outcome(retry).None?)
              else tasks == old(tasks) && reported == t
    {
      reported := t;
      if tasks[t].outcome == Some("FAILED") && !env.refuses(|tasks|) {
        LeadsMore(waves, w0, Now(p), CreateRetry);
        var retry := |tasks|;
        ghost var q := Retrying(p.wave, p.skip, p.left, p.ok, retry);
        tasks := tasks + [PlanTask(tasks[t].step, None)];
        if env.outcome(retry).Some? {
          EndTask(waves, w0, q, retry, env.outcome(retry).value);
          reported := retry;
        }
        LeadsMore(waves, w0, Now(q), RetryReturns);
      } else {
        LeadsMore(waves, w0, Now(p), Record);
      }
    }

    /** Deals with one result: the outcome that counts is reported and stored. */
    method SettleOne(ghost waves: seq<seq<PlanStep>>, ghost w0: World, ghost p: Process, t: nat, env: Env)
      returns (reported: nat)
      requires EnvOk(env) && p.Settling? && p.left != [] && p.left[0] == t && Leads(waves, w0, Now(p))
      requires AllEnded(tasks, p.left)
      modifies this`tasks, this`results, this`stepStatus
      ensures Leads(waves, w0, Now(Settling(p.wave, p.skip, p.left[1..], p.ok)))
      ensures |old(tasks)| <= |tasks| && tasks[..|old(tasks)|] == old(tasks)
      ensures reported < |tasks| && tasks[reported].step == old(tasks)[t].step
      ensures results == old(results)[old(tasks)[t].step := Some(reported)]
      ensures RetriedOnce(old(tasks), t, env, tasks, reported)
      ensures old(Reported(tasks, results, p.left)) ==> Reported(tasks, results, p.left[1..])
      ensures old(Reported(tasks, results, p.left)) ==> results.Keys == old(results.Keys)
    {
      reported := Outcome(waves, w0, p, t, env);
      if old(Reported(tasks, results, p.left)) {
        ReportedSettle(old(tasks), results, p.left, tasks, reported);
      }
      results := results[tasks[reported].step := Some(reported)];
      RecordStepComplete(tasks[reported].step, tasks[reported].outcome.value);
    }

    /** Stores a step's outcome; a status the table does not allow is refused, and the error ignored. */
    method RecordStepComplete(step: string, outcome: string)
      modifies this`stepStatus
      ensures stepStatus == RecordStep(old(Now(Down)), step, outcome)
    {
      if outcome in STEP_STATUSES && step in stepStatus {
        stepStatus := stepStatus[step := outcome];
      }
    }

    /** Deals with the results of a wave, one after the other. */
    method SettleAll(ghost waves: seq<seq<PlanStep>>, ghost w0: World, ghost p: Process, done: seq<nat>, env: Env,
                     ghost t0: seq<PlanTask>, ghost r0: map<string, Option<nat>>, ghost ids: set<string>)
      requires EnvOk(env) && p.Settling? && p.left == done && Leads(waves, w0, Now(p)) && AllEnded(tasks, done)
      requires Changed(t0, r0, tasks, results, ids)
      requires forall k :: 0 <= k < |done| ==> done[k] < |tasks| && tasks[done[k]].step in ids
      modifies this`tasks, this`results, this`stepStatus
      ensures Leads(waves, w0, Now(Settling(p.wave, p.skip, [], p.ok)))
      ensures old(Reported(tasks, results, done)) ==> Reported(tasks, results, []) && results.Keys == old(results.Keys)
      ensures old(AllSucceeded(tasks, done)) ==> tasks == old(tasks)
      ensures NoneRefused(env) ==> |tasks| == |old(tasks)| + FailedAmong(old(tasks), done)
      ensures |old(tasks)| <= |tasks| && tasks[..|old(tasks)|] == old(tasks)
      ensures Changed(t0, r0, tasks, results, ids)
    {
      var i := 0;
      assert done[0..] == done;
      ghost var whole := Reported(tasks, results, done);
      while i < |done|
        invariant Dealt(old(tasks), old(results), whole, done, i, env, t0, r0, ids)
        invariant Leads(waves, w0, Now(Settling(p.wave, p.skip, done[i..], p.ok)))
      {
        SettleNext(waves, w0, p, old(tasks), old(results), whole, done, i, env, t0, r0, ids);
        i := i + 1;
      }
      assert done[i..] == [] && done[..i] == done;
    }

    /** The first `i` results have been dealt with. */
    ghost predicate Dealt(start: seq<PlanTask>, entries: map<string, Option<nat>>, whole: bool, done: seq<nat>, i: nat,
                          env: Env, t0: seq<PlanTask>, r0: map<string, Option<nat>>, ids: set<string>)
      reads this
    {
      && i <= |done| && |start| <= |tasks| && tasks[..|start|] == start && Changed(t0, r0, tasks, results, ids)
      && (whole ==> Reported(tasks, results, done[i..]) && results.Keys == entries.Keys)
      && (AllSucceeded(start, done) ==> tasks == start)
      && AllEnded(start, done) && (forall k :: 0 <= k < |done| ==> start[done[k]].step in ids)
      && (NoneRefused(env) ==> |tasks| == |start| + FailedAmong(start, done[..i]))
    }

    method SettleNext(ghost waves: seq<seq<PlanStep>>, ghost w0: World, ghost p: Process, ghost start: seq<PlanTask>,
                      ghost entries: map<string, Option<nat>>, ghost whole: bool, done: seq<nat>, i: nat, env: Env,
                      ghost t0: seq<PlanTask>, ghost r0: map<string, Option<nat>>, ghost ids: set<string>)
      requires EnvOk(env) && i < |done| && Dealt(start, entries, whole, done, i, env, t0, r0, ids)
      requires p.Settling? && Leads(waves, w0, Now(Settling(p.wave, p.skip, done[i..], p.ok)))
      modifies this`tasks, this`results, this`stepStatus
      ensures Dealt(start, entries, whole, done, i + 1, env, t0, r0, ids)
      ensures Leads(waves, w0, Now(Settling(p.wave, p.skip, done[i + 1..], p.ok)))
    {
      assert forall k :: 0 <= k < |done| ==> tasks[done[k]] == start[done[k]];
      assert done[i..][1..] == done[i + 1..];
      var reported := SettleOne(waves, w0, Settling(p.wave, p.skip, done[i..], p.ok), done[i], env);
      assert forall k :: 0 <= k < |old(tasks)| ==> tasks[k] == tasks[..|old(tasks)|][k];
      if NoneRefused(env) {
        FailedNext(start, old(tasks), done, i, env, tasks, reported);
      }
      ChangedEntry(t0, r0, old(tasks), old(results), ids, tasks, old(tasks)[done[i]].step, Some(reported));
    }

    /** Runs the steps of one wave. */
    method ExecuteWave(ghost waves: seq<seq<PlanStep>>, ghost w0: World, ghost p: Process, todo: seq<PlanStep>,
                       env: Env)
      returns (ok: bool)
      requires EnvOk(env) && p.Creating? && p.todo == todo && p.mine == [] && Leads(waves, w0, Now(p))
      requires Reported(tasks, results, [])
      modifies this`tasks, this`results, this`stepStatus
      ensures ok ==> Leads(waves, w0, Now(WaveDone(p.wave, p.skip)))
      ensures ok ==> Reported(tasks, results, []) && results.Keys == old(results.Keys) + Ids(todo)
      ensures !ok ==> Leads(waves, w0, Now(Ending(false)))
      ensures Changed(old(tasks), old(results), tasks, results, Ids(todo))
      ensures ok && NoneRefused(env) ==> OneRetryEach(old(tasks), tasks, |todo|)
      ensures Smooth(env) ==> ok && TaskSteps(tasks) == old(TaskSteps(tasks)) + IdSeq(todo)
    {
      var created, mine, rest := CreateTasks(waves, w0, p, todo, env);
      if !created {
        LeadsMore(waves, w0, Now(p.(todo := rest, mine := mine)), CreateFails);
        return false;
      }
      assert todo[..|mine|] == todo;
      ghost var before := tasks;
      var waited, done := WaitForAll(waves, w0, p.(todo := [], mine := mine), mine, env);
      ChangedOutcomes(old(tasks), old(results), before, results, Ids(todo), tasks);
      assert forall k :: 0 <= k < |done| ==> tasks[done[k]].step == before[done[k]].step;
      ghost var settled := tasks;
      SettleAll(waves, w0, Settling(p.wave, p.skip, done, waited), done, env, old(tasks), old(results), Ids(todo));
      if waited && NoneRefused(env) {
        RetriesCounted(old(tasks), settled, tasks, mine);
      }
      LeadsMore(waves, w0, Now(Settling(p.wave, p.skip, [], waited)), EndWave);
      return waited;
    }

    /** Takes up wave `n`, runs what is pending of it, and stores the next wave's number. */
    method RunWave(ghost w0: World, waves: seq<seq<PlanStep>>, n: nat, skip: set<string>, env: Env) returns (ok: bool)
      requires EnvOk(env) && n < |waves| && Leads(waves, w0, Now(AtWave(n, skip))) && Reported(tasks, results, [])
      modifies this`tasks, this`results, this`stepStatus, this`storedWave
      ensures ok ==> Leads(waves, w0, Now(AtWave(n + 1, skip))) && Reported(tasks, results, [])
      ensures ok ==> results.Keys == old(results.Keys) + Ids(Pending(waves[n], skip))
      ensures !ok ==> Leads(waves, w0, Now(Ending(false)))
      ensures storedWave == if ok && Stores(hasRow, env, waves, skip, n) then n + 1 else old(storedWave)
      ensures Changed(old(tasks), old(results), tasks, results, Ids(Pending(waves[n], skip)))
      ensures Smooth(env) ==> ok && TaskSteps(tasks) == old(TaskSteps(tasks)) + IdSeq(Pending(waves[n], skip))
    {
      ChangedStart(tasks, results, Ids(Pending(waves[n], skip)));
      var todo := FilterPending(waves[n], skip);
      LeadsMore(waves, w0, Now(AtWave(n, skip)), EnterWave);
      if todo == [] {
        return true;
      }
      ok := ExecuteWave(waves, w0, Creating(n, skip, todo, []), todo, env);
      if !ok {
        return false;
      }
      var stored := hasRow && env.stores(n);
      LeadsMore(waves, w0, Now(WaveDone(n, skip)), StoreWave(stored));
      if stored {
        storedWave := n + 1;
      }
    }

    /** Stores the plan's final status; an error is ignored. */
    method CompletePlan(ghost w0: World, ghost waves: seq<seq<PlanStep>>, ok: bool, env: Env)
      requires Leads(waves, w0, Now(Ending(ok)))
      modifies this`status
      ensures Leads(waves, w0, Now(Down)) && status == Final(old(status), ok, hasRow && env.completes)
    {
      LeadsMore(waves, w0, Now(Ending(ok)), Complete(hasRow && env.completes));
      if hasRow && env.completes {
        status := if ok then PlanSucceeded else PlanFailed;
      }
    }

    /** The waves from `first` on, then the end of the plan. */
    method RunWaves(ghost w0: World, waves: seq<seq<PlanStep>>, first: nat, skip: set<string>, env: Env)
      returns (failed: Option<nat>)
      requires EnvOk(env) && Leads(waves, w0, Now(AtWave(first, skip))) && Reported(tasks, results, [])
      modifies this`tasks, this`results, this`stepStatus, this`storedWave, this`status
      ensures Leads(waves, w0, Now(Down)) && status == Final(old(status), failed.None?, hasRow && env.completes)
      ensures failed.Some? ==> PartlyReported(waves, first, failed.value, skip, tasks, results)
      ensures storedWave == LastStored(old(storedWave), hasRow, env, waves, skip, first,
                                       if failed.Some? then failed.value else |waves|)
      ensures failed.None? ==> Reported(tasks, results, [])
      ensures failed.None? ==> results.Keys == old(results.Keys) + Elements(StepsFrom(waves, first, skip))
      ensures Smooth(env) ==> failed.None? && TaskSteps(tasks) == old(TaskSteps(tasks)) + StepsFrom(waves, first, skip)
    {
      var n, ok := RunEach(w0, waves, first, skip, env);
      if !ok {
        CompletePlan(w0, waves, false, env);
        return Some(n);
      }
      RanAll(waves, first, n, skip, old(tasks), old(results), tasks, results, Smooth(env));
      LeadsMore(waves, w0, Now(AtWave(n, skip)), EnterWave);
      CompletePlan(w0, waves, true, env);
      return None;
    }

    /** The loop over the waves: it comes to the end, or to the first wave that fails. */
    method RunEach(ghost w0: World, waves: seq<seq<PlanStep>>, first: nat, skip: set<string>, env: Env)
      returns (n: nat, ok: bool)
      requires EnvOk(env) && Leads(waves, w0, Now(AtWave(first, skip))) && Reported(tasks, results, [])
      modifies this`tasks, this`results, this`stepStatus, this`storedWave
      ensures ok ==> n >= |waves| && RanTo(w0, waves, first, n, skip, env, old(tasks), old(results), old(storedWave))
      ensures !ok ==> Leads(waves, w0, Now(Ending(false))) && !Smooth(env)
      ensures !ok ==> PartlyReported(waves, first, n, skip, tasks, results)
      ensures !ok ==> storedWave == LastStored(old(storedWave), hasRow, env, waves, skip, first, n)
    {
      n := first;
      RanStart(waves, first, skip, tasks, results, Smooth(env));
      while n < |waves|
        invariant RanTo(w0, waves, first, n, skip, env, old(tasks), old(results), old(storedWave))
        decreases |waves| - n
      {
        ok := RunNext(w0, waves, first, n, skip, env, old(tasks), old(results), old(storedWave));
        if !ok {
          return n, false;
        }
        n := n + 1;
      }
      return n, true;
    }

    /** The waves from `first` to before `n` are done, and what could be stored of that is. */
    ghost predicate RanTo(w0: World, waves: seq<seq<PlanStep>>, first: nat, n: nat, skip: set<string>, env: Env,
                          t0: seq<PlanTask>, r0: map<string, Option<nat>>, stored0: nat)
      reads this
    {
      && Leads(waves, w0, Now(AtWave(n, skip)))
      && Ran(waves, first, n, skip, t0, r0, tasks, results, Smooth(env))
      && storedWave == LastStored(stored0, hasRow, env, waves, skip, first, n)
    }

    method RunNext(ghost w0: World, waves: seq<seq<PlanStep>>, ghost first: nat, n: nat, skip: set<string>, env: Env,
                   ghost t0: seq<PlanTask>, ghost r0: map<string, Option<nat>>, ghost stored0: nat)
      returns (ok: bool)
      requires EnvOk(env) && n < |waves| && RanTo(w0, waves, first, n, skip, env, t0, r0, stored0)
      modifies this`tasks, this`results, this`stepStatus, this`storedWave
      ensures ok ==> RanTo(w0, waves, first, n + 1, skip, env, t0, r0, stored0)
      ensures !ok ==> Leads(waves, w0, Now(Ending(false))) && !Smooth(env)
      ensures !ok ==> PartlyReported(waves, first, n, skip, tasks, results) && storedWave == old(storedWave)
    {
      ghost var t, r := tasks, results;
      ok := RunWave(w0, waves, n, skip, env);
      if ok {
        RanNext(waves, first, n, skip, t0, r0, t, r, tasks, results, Smooth(env));
      } else {
        FailedWaveReports(waves, first, n, skip, t, r, tasks, results);
      }
    }

    /** The steps of a wave that are not to be skipped. */
    method FilterPending(wave: seq<PlanStep>, skip: set<string>) returns (todo: seq<PlanStep>)
      ensures todo == Pending(wave, skip)
    {
      todo := [];
      for i := 0 to |wave|
        invariant todo == Pending(wave[..i], skip)
      {
        assert wave[..i + 1][..i] == wave[..i];
        if wave[i].id !in skip {
          todo := todo + [wave[i]];
        }
      }
      assert wave[..|wave|] == wave;
    }

    /** The rows of a new execution. */
    method Begin(steps: seq<PlanStep>, ghost waves: seq<seq<PlanStep>>, env: Env)
      modifies this
      ensures Now(if env.initialises then AtWave(0, {}) else Ending(false)) == Started(steps, env.initialises)
      ensures Leads(waves, Started(steps, env.initialises), Started(steps, env.initialises))
      ensures Reported(tasks, results, []) && results.Keys == {} && hasRow == env.creates && status == PlanRunning
      ensures forall ids :: TaskSteps(tasks) + ids == ids
    {
      status, storedWave, tasks, results := PlanRunning, 0, [], map[];
      hasRow, stepStatus := env.creates, map[];
      if env.initialises {
        stepStatus := map id | id in Ids(steps) :: "pending";
      }
      LeadsNowhere(waves, Started(steps, env.initialises));
    }

    /**
     * Runs a plan.  A plan that is refused changes nothing.  Otherwise the rows are reached by a run of the
     * plan; success reports, for every step, one of its tasks that ended; and if nothing goes wrong the plan
     * succeeds with exactly one task for each step, wave by wave.
     */
    method Execute(steps: seq<PlanStep>, env: Env)
      returns (r: Result<map<string, Option<nat>>, ExecError>, ghost waves: seq<seq<PlanStep>>)
      requires EnvOk(env)
      modifies this
      ensures (r.Err? && r.error.InvalidPlan?) <==> !Acceptable(steps)
      ensures r != Err(NotHydrated)
      ensures !Acceptable(steps) ==> unchanged(this)
      ensures Acceptable(steps) ==> Sorted(steps, waves) && Leads(waves, Started(steps, env.initialises), Now(Down))
      ensures Acceptable(steps) ==> hasRow == env.creates
      ensures Acceptable(steps) ==> status == Final(PlanRunning, r.Ok?, hasRow && env.completes)
      ensures Acceptable(steps) ==> (r == Err(NotInitialised) <==> !env.initialises)
      ensures Acceptable(steps) ==> (r == Err(NotInitialised) ==> tasks == [])
      ensures r.Ok? ==> r.value.Keys == Ids(steps) && forall id :: id in r.value ==> EndedFor(tasks, r.value, id)
      ensures r.Err? && r.error.WaveFailed? ==>
                PartialOk(waves, 0, r.error.wave, tasks, r.error.partial)
      ensures Acceptable(steps) && env.initialises ==>
                storedWave == LastStored(0, hasRow, env, waves, {}, 0, Reach(waves, r))
      ensures Acceptable(steps) && Smooth(env) ==> r.Ok? && TaskSteps(tasks) == StepsFrom(waves, 0, {})
    {
      waves := [];
      var error := Planner.Validate(steps);
      if error.Some? {
        return Err(InvalidPlan(error.value)), [];
      }
      var order := Planner.TopoSort(steps);
      waves := order.value;
      Begin(steps, waves, env);
      if !env.initialises {
        CompletePlan(Started(steps, false), waves, false, env);
        return Err(NotInitialised), waves;
      }
      r := RunPlan(Started(steps, true), steps, order.value, 0, {}, env);
      AllStepsFrom(steps, waves);
    }

    /** Runs the waves from `first` on and gives back what is reported. */
    method RunPlan(ghost w0: World, ghost steps: seq<PlanStep>, waves: seq<seq<PlanStep>>, first: nat,
                   skip: set<string>, env: Env)
      returns (r: Result<map<string, Option<nat>>, ExecError>)
      requires EnvOk(env) && Sorted(steps, waves) && Leads(waves, w0, Now(AtWave(first, skip))) && skip == {}
      requires Reported(tasks, results, []) && results.Keys == {}
      modifies this`tasks, this`results, this`stepStatus, this`storedWave, this`status
      ensures Leads(waves, w0, Now(Down)) && status == Final(old(status), r.Ok?, hasRow && env.completes)
      ensures r.Ok? ==> r.value.Keys == Elements(StepsFrom(waves, first, {}))
      ensures r.Ok? ==> forall id :: id in r.value ==> EndedFor(tasks, r.value, id)
      ensures r.Err? ==> r.error.WaveFailed? && PartialOk(waves, first, r.error.wave, tasks, r.error.partial)
      ensures storedWave == LastStored(old(storedWave), hasRow, env, waves, {}, first, Reach(waves, r))
      ensures Smooth(env) ==> r.Ok? && TaskSteps(tasks) == old(TaskSteps(tasks)) + StepsFrom(waves, first, {})
    {
      var failed := RunWaves(w0, waves, first, skip, env);
      if failed.Some? {
        EarlierWavesEnded(steps, waves, first, failed.value, tasks, results);
        return Err(WaveFailed(failed.value, results));
      }
      return Ok(results);
    }

    /**
     * Takes up an execution that was cut short or failed.  It starts from the stored wave; if nothing goes
     * wrong, exactly one new task is made for each step from there on, and only those steps are reported.
     */
    method Resume(steps: seq<PlanStep>, ghost waves: seq<seq<PlanStep>>, env: Env)
      returns (r: Result<map<string, Option<nat>>, ExecError>)
      requires EnvOk(env) && Sorted(steps, waves) && Begun(steps, waves, Now(Down))
      modifies this
      ensures (r.Err? && r.error.InvalidPlan?) <==> !Acceptable(steps)
      ensures r == Err(NotHydrated) <==> Acceptable(steps) && !(hasRow && env.hydrates)
      ensures r.Err? && !r.error.WaveFailed? ==> unchanged(this)
      ensures hasRow == old(hasRow) && Leads(waves, old(Now(Down)), Now(Down))
      ensures r.Ok? || r.error.WaveFailed? ==> status == Final(old(status), r.Ok?, env.completes)
      ensures r.Ok? ==> r.value.Keys == Elements(StepsFrom(waves, old(storedWave), {}))
      ensures r.Ok? ==> forall id :: id in r.value ==> EndedFor(tasks, r.value, id)
      ensures r.Err? && r.error.WaveFailed? ==>
                PartialOk(waves, old(storedWave), r.error.wave, tasks, r.error.partial)
      ensures r.Ok? || r.error.WaveFailed? ==>
                storedWave == LastStored(old(storedWave), true, env, waves, {}, old(storedWave), Reach(waves, r))
      ensures NewTasksFrom(waves, old(storedWave), |old(tasks)|, tasks)
      ensures Acceptable(steps) && hasRow && Smooth(env) ==>
                r.Ok? && TaskSteps(tasks) == old(TaskSteps(tasks)) + StepsFrom(waves, old(storedWave), {})
    {
      ResumeLeads(steps, waves, Now(Down));
      ReachableOk(steps, waves, Now(Down));
      var error := Planner.Validate(steps);
      if error.Some? {
        return Err(InvalidPlan(error.value));
      }
      if !hasRow || !env.hydrates {
        return Err(NotHydrated);
      }
      var skip := set id | id in stepStatus && stepStatus[id] in DONE_STATUSES;
      results := map[];
      assert skip == {} && results.Keys == {} && Reported(tasks, results, []);
      var order := Planner.TopoSort(steps);
      LevelsAreUnique(steps, waves, order.value);
      r := RunPlan(old(Now(Down)), steps, order.value, storedWave, skip, env);
      LeadsToLaterTasks(steps, waves, old(Now(Down)), Now(Down));
    }

    /**
     * Executing a plan and, if a wave fails, resuming it.  If every wave number could be stored, the
     * resumption goes on from the failed wave: it makes no task for a step of an earlier one.
     */
    method ExecuteAndResume(steps: seq<PlanStep>, env: Env, again: Env)
      returns (r: Result<map<string, Option<nat>>, ExecError>, failed: Option<nat>, made: nat,
               ghost waves: seq<seq<PlanStep>>)
      requires EnvOk(env) && EnvOk(again) && Acceptable(steps) && env.creates && env.initialises
      modifies this
      ensures Sorted(steps, waves) && (failed.Some? ==> failed.value < |waves|)
      ensures AllStored(env) && failed.Some? ==> NewTasksFrom(waves, failed.value, made, tasks)
      ensures failed.None? ==> r.Ok? && made == |tasks|
    {
      failed := None;
      r, waves := Execute(steps, env);
      made := |tasks|;
      if r.Err? && r.error.WaveFailed? {
        failed := Some(r.error.wave);
        if AllStored(env) && r.error.wave > 0 {
          EveryWaveStored(steps, 0, env, waves, 0, r.error.wave);
        }
        r := Resume(steps, waves, again);
      }
    }
  }
}
