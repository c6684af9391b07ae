/** What a resumption repeats: which finished steps get another task, and when. */
module PlanResumes {
  import opened Common
  import opened PlanGraph
  import opened PlanRuns
  import opened PlanRepeats

  // ----- No task is ahead of its time

  /** All waves before that of the step are settled. */
  ghost predicate Reached(waves: seq<seq<PlanStep>>, w: World, id: string) {
    exists v :: 0 <= v < |waves| && id in Ids(waves[v]) && SettledBelow(waves, w, v)
  }

  ghost predicate AllReached(waves: seq<seq<PlanStep>>, w: World) {
    forall i :: 0 <= i < |w.tasks| ==> Reached(waves, w, w.tasks[i].step)
  }

  lemma ReachedKept(waves: seq<seq<PlanStep>>, w: World, w': World, id: string)
    requires Grows(w, w') && Reached(waves, w, id)
    ensures Reached(waves, w', id)
  {
    var v :| 0 <= v < |waves| && id in Ids(waves[v]) && SettledBelow(waves, w, v);
    SettledKept(waves, w, w', v);
  }

  /** Only the last task can be new, and it is the one the action creates. */
  lemma OneNewTask(waves: seq<seq<PlanStep>>, w: World, a: Action)
    requires Enabled(waves, w, a)
    ensures match Creates(w, a)
            case None => |After(waves, w, a).tasks| == |w.tasks|
            case Some(id) => After(waves, w, a).tasks == w.tasks + [PlanTask(id, None)]
  {
  }

  lemma StepKeepsReached(waves: seq<seq<PlanStep>>, w: World, a: Action)
    requires Inv(waves, w) && Enabled(waves, w, a) && AllReached(waves, w)
    ensures AllReached(waves, After(waves, w, a))
  {
    var w' := After(waves, w, a);
    StepGrows(waves, w, a);
    OneNewTask(waves, w, a);
    forall i | 0 <= i < |w'.tasks|
      ensures Reached(waves, w', w'.tasks[i].step)
    {
      if i < |w.tasks| {
        ReachedKept(waves, w, w', w.tasks[i].step);
      } else {
        var n, s := CreationWave(waves, w, a);
        assert s.id in Ids(waves[n]);
        SettledKept(waves, w, w', n);
      }
    }
  }

  lemma {:induction false} TasksAreReached(steps: seq<PlanStep>, waves: seq<seq<PlanStep>>,
                                           worlds: seq<World>, actions: seq<Action>, k: nat)
    requires Sorted(steps, waves) && Run(steps, waves, worlds, actions) && k < |worlds|
    ensures AllReached(waves, worlds[k])
  {
    if k > 0 {
      TasksAreReached(steps, waves, worlds, actions, k - 1);
      EveryWorldOk(steps, waves, worlds, actions, k - 1);
      assert StepAt(waves, worlds, actions, k - 1);
      StepKeepsReached(waves, worlds[k - 1], actions[k - 1]);
    }
  }

  lemma OneWaveOnly(steps: seq<PlanStep>, waves: seq<seq<PlanStep>>, id: string, v: nat, n: nat)
    requires Sorted(steps, waves) && v < |waves| && n < |waves| && id in Ids(waves[v]) && id in Ids(waves[n])
    ensures v == n
  {
    if v < n {
      assert InWaves(waves, v + 1, id);
      WaveIdsDistinct(steps, waves, v);
    } else if n < v {
      assert InWaves(waves, n + 1, id);
      WaveIdsDistinct(steps, waves, n);
    }
  }

  /** A step that gets a task at `j` is in no wave below what was stored before. */
  lemma CreatedAtOrAbove(steps: seq<PlanStep>, waves: seq<seq<PlanStep>>, worlds: seq<World>, actions: seq<Action>,
                         k: nat, j: nat, id: string) returns (n: nat)
    requires Sorted(steps, waves) && Run(steps, waves, worlds, actions) && k <= j < |actions|
    requires Creates(worlds[j], actions[j]) == Some(id)
    ensures worlds[k].storedWave <= n < |waves| && id in Ids(waves[n])
  {
    StoredWaveNeverDecreases(steps, waves, worlds, actions, k, j);
    EveryWorldOk(steps, waves, worlds, actions, j);
    assert StepAt(waves, worlds, actions, j);
    var s;
    n, s := CreationWave(waves, worlds[j], actions[j]);
  }

  /** A step of wave `n` has finished, so every wave up to that has a finished step. */
  lemma SettledAtOrBelow(steps: seq<PlanStep>, waves: seq<seq<PlanStep>>, w: World, id: string, m: nat, n: nat)
    requires Sorted(steps, waves) && AllReached(waves, w) && Settled(w, id)
    requires m <= n < |waves| && id in Ids(waves[n])
    ensures SomeSettled(waves[m], w)
  {
    if m == n {
      SettledStepCounts(waves[m], w, id);
    } else {
      var t :| 0 <= t < |w.tasks| && w.tasks[t].step == id;
      assert Reached(waves, w, w.tasks[t].step);
      ReachedMeansSettledBelow(steps, waves, w, id, n);
      SettledWaveCounts(steps, waves, w, m, n);
    }
  }

  lemma ReachedMeansSettledBelow(steps: seq<PlanStep>, waves: seq<seq<PlanStep>>, w: World, id: string, n: nat)
    requires Sorted(steps, waves) && Reached(waves, w, id) && n < |waves| && id in Ids(waves[n])
    ensures SettledBelow(waves, w, n)
  {
    var v :| 0 <= v < |waves| && id in Ids(waves[v]) && SettledBelow(waves, w, v);
    OneWaveOnly(steps, waves, id, v, n);
  }

  lemma SettledWaveCounts(steps: seq<PlanStep>, waves: seq<seq<PlanStep>>, w: World, m: nat, n: nat)
    requires Sorted(steps, waves) && SettledBelow(waves, w, n) && m < n
    ensures SomeSettled(waves[m], w)
  {
    assert WaveSettled(waves[m], w) && IsLevel(steps, waves[m], m);
    assert Settled(w, waves[m][0].id);
  }

  lemma SettledStepCounts(wave: seq<PlanStep>, w: World, id: string)
    requires id in Ids(wave) && Settled(w, id)
    ensures SomeSettled(wave, w)
  {
    var i :| 0 <= i < |wave| && wave[i].id == id;
    assert Settled(w, wave[i].id);
  }

  /**
   * If a step that has finished gets another task at any later time, from whatever process, then some step
   * of the wave that is stored now has finished: where none has, no resumption repeats finished work.
   */
  lemma RepetitionNeedsASettledStep(steps: seq<PlanStep>, waves: seq<seq<PlanStep>>, worlds: seq<World>,
                                    actions: seq<Action>, k: nat, j: nat, id: string)
    requires Sorted(steps, waves) && Run(steps, waves, worlds, actions) && k <= j < |actions|
    requires Settled(worlds[k], id) && Creates(worlds[j], actions[j]) == Some(id)
    ensures worlds[k].storedWave < |waves| && SomeSettled(waves[worlds[k].storedWave], worlds[k])
  {
    TasksAreReached(steps, waves, worlds, actions, k);
    var n := CreatedAtOrAbove(steps, waves, worlds, actions, k, j, id);
    SettledAtOrBelow(steps, waves, worlds[k], id, worlds[k].storedWave, n);
  }

  // ----- A resumed wave gets one more task for each step

  /** The tasks of `before` are still there, and those the process has made for its wave are new. */
  ghost predicate MadeSince(before: seq<PlanTask>, w: World) {
    && |before| <= |w.tasks| && (forall i :: 0 <= i < |before| ==> w.tasks[i].step == before[i].step)
    && (w.process.Creating? ==> forall i :: 0 <= i < |w.process.mine| ==> |before| <= w.process.mine[i])
  }

  lemma {:induction false} MadeSinceAlongRun(steps: seq<PlanStep>, waves: seq<seq<PlanStep>>, worlds: seq<World>,
                                             actions: seq<Action>, before: seq<PlanTask>, i: nat, j: nat)
    requires Run(steps, waves, worlds, actions) && i <= j < |worlds| && MadeSince(before, worlds[i])
    ensures MadeSince(before, worlds[j])
    decreases j
  {
    if i < j {
      MadeSinceAlongRun(steps, waves, worlds, actions, before, i, j - 1);
      assert StepAt(waves, worlds, actions, j - 1);
      StepGrows(waves, worlds[j - 1], actions[j - 1]);
    }
  }

  /** A task beyond the old ones counts on top of them. */
  lemma {:induction false} OneMoreAtLeast(tasks: seq<PlanTask>, tasks': seq<PlanTask>, t: nat)
    requires |tasks| <= t < |tasks'| && forall i :: 0 <= i < |tasks| ==> tasks'[i].step == tasks[i].step
    ensures CountTasks(tasks', tasks'[t].step) >= CountTasks(tasks, tasks'[t].step) + 1
  {
    var front := tasks'[..|tasks'| - 1];
    if t == |front| {
      CountGrows(tasks, front, tasks'[t].step);
    } else {
      OneMoreAtLeast(tasks, front, t);
    }
  }

  /** The process resumed at `k` is through with creating the tasks of the wave it took up. */
  ghost predicate WaveCreated(worlds: seq<World>, actions: seq<Action>, k: nat, j: nat) {
    && k < j < |worlds| == |actions| + 1 && actions[k].Resume? && OneProcess(actions, k + 1, j)
    && worlds[j].process.Creating? && worlds[j].process.wave == worlds[k].storedWave && worlds[j].process.todo == []
  }

  lemma ResumedWaveGetsMore(steps: seq<PlanStep>, waves: seq<seq<PlanStep>>, worlds: seq<World>,
                            actions: seq<Action>, k: nat, j: nat, p: nat)
    requires Sorted(steps, waves) && Run(steps, waves, worlds, actions) && WaveCreated(worlds, actions, k, j)
    requires worlds[k].storedWave < |waves| && p < |waves[worlds[k].storedWave]|
    ensures var id := waves[worlds[k].storedWave][p].id;
            CountTasks(worlds[j].tasks, id) >= CountTasks(worlds[k].tasks, id) + 1
  {
    assert StepAt(waves, worlds, actions, k);
    MadeSinceAlongRun(steps, waves, worlds, actions, worlds[k].tasks, k + 1, j);
    EveryShapeOk(steps, waves, worlds, actions, j);
    OneMoreAtLeast(worlds[k].tasks, worlds[j].tasks, worlds[j].process.mine[p]);
  }

  /** When the tasks of its wave are created, only the retry of a step is left to the process. */
  lemma RetryIsLeft(steps: seq<PlanStep>, waves: seq<seq<PlanStep>>, w: World, id: string)
    requires Sorted(steps, waves) && w.process.Creating? && w.process.wave < |waves|
    requires id in Ids(waves[w.process.wave])
    ensures Budget(waves, w, id) >= 1
  {
    assert InWaves(waves, w.process.wave, id);
  }

  /** Then each step of that wave, finished before or not, has exactly one task more. */
  lemma ResumedWaveGetsOneMore(steps: seq<PlanStep>, waves: seq<seq<PlanStep>>, worlds: seq<World>,
                               actions: seq<Action>, k: nat, j: nat, s: PlanStep)
    requires Sorted(steps, waves) && Run(steps, waves, worlds, actions) && WaveCreated(worlds, actions, k, j)
    requires worlds[k].storedWave < |waves| && s in waves[worlds[k].storedWave]
    ensures CountTasks(worlds[j].tasks, s.id) == CountTasks(worlds[k].tasks, s.id) + 1
  {
    var wave := waves[worlds[k].storedWave];
    var p :| 0 <= p < |wave| && wave[p] == s;
    ResumedWaveGetsMore(steps, waves, worlds, actions, k, j, p);
    RetryIsLeft(steps, waves, worlds[j], s.id);
    BudgetIsSpent(steps, waves, worlds, actions, k + 1, j, s.id);
    assert StepAt(waves, worlds, actions, k);
    assert worlds[k + 1].tasks == worlds[k].tasks;
  }

  // ----- Both directions

  lemma NoCreationNoTask(waves: seq<seq<PlanStep>>, w: World, a: Action, id: string)
    requires Enabled(waves, w, a) && Creates(w, a) != Some(id)
    ensures CountTasks(After(waves, w, a).tasks, id) == CountTasks(w.tasks, id)
  {
    StepGrows(waves, w, a);
    OneNewTask(waves, w, a);
    if Creates(w, a).Some? {
      CountSnoc(w.tasks, PlanTask(Creates(w, a).value, None), id);
    } else {
      CountSameSteps(w.tasks, After(waves, w, a).tasks, id);
    }
  }

  /** A step that has more tasks than before had one created in between. */
  lemma {:induction false} MoreTasksWereCreated(steps: seq<PlanStep>, waves: seq<seq<PlanStep>>, worlds: seq<World>,
                                                actions: seq<Action>, k: nat, j: nat, id: string)
    returns (i: nat)
    requires Run(steps, waves, worlds, actions) && k <= j < |worlds|
    requires CountTasks(worlds[j].tasks, id) > CountTasks(worlds[k].tasks, id)
    ensures k <= i < j && Creates(worlds[i], actions[i]) == Some(id)
    decreases j
  {
    i := j - 1;
    if Creates(worlds[i], actions[i]) != Some(id) {
      assert StepAt(waves, worlds, actions, i);
      NoCreationNoTask(waves, worlds[i], actions[i], id);
      i := MoreTasksWereCreated(steps, waves, worlds, actions, k, i, id);
    }
  }

  /** Some step that had finished at `k` has more tasks at `j`. */
  ghost predicate FinishedWorkRepeated(w: World, w': World) {
    exists id :: Settled(w, id) && CountTasks(w'.tasks, id) > CountTasks(w.tasks, id)
  }

  /**
   * A resumption that gets its first wave's tasks created has repeated finished work exactly when some step
   * of the stored wave had finished.
   */
  lemma ResumeRepeatsExactlyWhen(steps: seq<PlanStep>, waves: seq<seq<PlanStep>>, worlds: seq<World>,
                                 actions: seq<Action>, k: nat, j: nat)
    requires Sorted(steps, waves) && Run(steps, waves, worlds, actions) && WaveCreated(worlds, actions, k, j)
    ensures worlds[k].storedWave < |waves|
    ensures FinishedWorkRepeated(worlds[k], worlds[j]) <==> SomeSettled(waves[worlds[k].storedWave], worlds[k])
  {
    EveryWorldOk(steps, waves, worlds, actions, j);
    var n := worlds[k].storedWave;
    if FinishedWorkRepeated(worlds[k], worlds[j]) {
      var id :| Settled(worlds[k], id) && CountTasks(worlds[j].tasks, id) > CountTasks(worlds[k].tasks, id);
      var i := MoreTasksWereCreated(steps, waves, worlds, actions, k, j, id);
      RepetitionNeedsASettledStep(steps, waves, worlds, actions, k, i, id);
    }
    if SomeSettled(waves[n], worlds[k]) {
      var p :| 0 <= p < |waves[n]| && Settled(worlds[k], waves[n][p].id);
      ResumedWaveGetsOneMore(steps, waves, worlds, actions, k, j, waves[n][p]);
    }
  }
}
