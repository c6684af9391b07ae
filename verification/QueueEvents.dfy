/** The event log of the task queue: for each task an unbroken path that ends in its committed status. */
module QueueEvents {
  import opened Common
  import opened TaskQueue
  import QueueRuns

  /** The events about one task, oldest first. */
  function History(events: seq<Event>, id: TaskId): seq<Event> {
    if events == [] then []
    else
      var e := events[|events| - 1];
      History(events[..|events| - 1], id) + (if e.task == id then [e] else [])
  }

  predicate Allowed(e: Event) {
    match e.from
    case None => e.to == Queued
    case Some(from) => CanTransition(from, e.to)
  }

  /** Each event is an allowed move out of the state the previous one left; the first leaves `start`. */
  predicate Path(start: Option<Status>, h: seq<Event>) {
    forall i :: 0 <= i < |h| ==> Allowed(h[i]) && h[i].from == StateBefore(start, h, i)
  }

  function StateBefore(start: Option<Status>, h: seq<Event>, i: nat): Option<Status>
    requires i < |h|
  {
    if i == 0 then start else Some(h[i - 1].to)
  }

  /** The state a path from `start` ends in. */
  function End(start: Option<Status>, h: seq<Event>): Option<Status> {
    if h == [] then start else Some(h[|h| - 1].to)
  }

  /** Chat tasks are enqueued by an event; subtasks and recorded tool calls appear without one. */
  function Origin(t: Task): Option<Status> {
    match t.kind
    case Chat => None
    case Subtask => Some(Queued)
    case Tool => Some(t.status)
  }

  /** Deleting an agent is the one operation that cancels tasks without an event, and it leaves this mark. */
  predicate CanceledSilently(t: Task) {
    t.errorCode == Some(AgentCanceled)
  }

  predicate LogAgrees(t: Task, h: seq<Event>) {
    && Path(Origin(t), h)
    && (t.kind == Tool ==> h == [])
    && (if CanceledSilently(t)
        then t.status == Canceled && End(Origin(t), h) in {Some(Queued), Some(Claimed)}
        else End(Origin(t), h) == Some(t.status))
  }

  ghost predicate LogOk(s: Db) {
    && (forall i :: 0 <= i < |s.events| ==> s.events[i].task in s.tasks)
    && (forall id :: TaskLogOk(s, id))
  }

  predicate TaskLogOk(s: Db, id: TaskId) {
    id in s.tasks ==> LogAgrees(s.tasks[id], History(s.events, id))
  }

  // ----- Histories grow by the events of each step

  lemma {:induction false} HistoryAppend(events: seq<Event>, more: seq<Event>, id: TaskId)
    ensures History(events + more, id) == History(events, id) + History(more, id)
  {
    if more == [] {
      assert events + more == events;
    } else {
      var front := more[..|more| - 1];
      assert (events + more)[..|events + more| - 1] == events + front;
      HistoryAppend(events, front, id);
    }
  }

  lemma {:induction false} AllAboutOne(es: seq<Event>, id: TaskId, other: TaskId)
    requires forall i :: 0 <= i < |es| ==> es[i].task == id
    ensures History(es, other) == if other == id then es else []
  {
    if es != [] {
      AllAboutOne(es[..|es| - 1], id, other);
    }
  }

  lemma RowEventsAboutRow(op: Op, id: TaskId, t: Task)
    ensures forall i :: 0 <= i < |RowEvents(op, id, t)| ==> RowEvents(op, id, t)[i].task == id
  {
  }

  lemma {:induction false} EventsOfOne(tasks: map<TaskId, Task>, op: Op, ids: seq<TaskId>, id: TaskId)
    requires Distinct(ids) && id in tasks
    ensures History(EventsFor(tasks, op, ids), id) == if id in ids then RowEvents(op, id, tasks[id]) else []
  {
    if ids != [] {
      var front, last := ids[..|ids| - 1], ids[|ids| - 1];
      assert ids == front + [last] && last !in front;
      EventsOfOne(tasks, op, front, id);
      if last in tasks {
        HistoryAppend(EventsFor(tasks, op, front), RowEvents(op, last, tasks[last]), id);
        RowEventsAboutRow(op, last, tasks[last]);
        AllAboutOne(RowEvents(op, last, tasks[last]), last, id);
      } else {
        assert EventsFor(tasks, op, ids) == EventsFor(tasks, op, front);
      }
    }
  }

  lemma {:induction false} EventsOnlyOf(tasks: map<TaskId, Task>, op: Op, ids: seq<TaskId>)
    ensures forall i :: 0 <= i < |EventsFor(tasks, op, ids)| ==> EventsFor(tasks, op, ids)[i].task in tasks
  {
    if ids != [] {
      EventsOnlyOf(tasks, op, ids[..|ids| - 1]);
    }
  }

  /** A row that the step does not list has no event and, unless its agent was deleted, no new status. */
  lemma Untouched(s: Db, op: Op, id: TaskId)
    requires Enabled(s, op) && id in s.tasks && id !in Touched(op)
    ensures RowEvents(op, id, s.tasks[id]) == []
  {
  }

  lemma TouchedOnce(s: Db, op: Op)
    requires Enabled(s, op)
    ensures Distinct(Touched(op))
  {
  }

  /** The history of an existing task grows by exactly the events about its row. */
  lemma StepHistory(s: Db, op: Op, id: TaskId)
    requires Enabled(s, op) && id in s.tasks
    ensures History(After(s, op).events, id) == History(s.events, id) + RowEvents(op, id, s.tasks[id])
  {
    HistoryAppend(s.events, Emitted(s, op), id);
    if op.Create? {
      assert Emitted(s, op)[..0] == [];
    } else {
      TouchedOnce(s, op);
      EventsOfOne(s.tasks, op, Touched(op), id);
      if id !in Touched(op) {
        Untouched(s, op, id);
      }
    }
  }

  // ----- One step keeps the log in agreement

  lemma ExtendPath(start: Option<Status>, h: seq<Event>, more: seq<Event>)
    requires Path(start, h) && Path(End(start, h), more)
    ensures Path(start, h + more) && End(start, h + more) == End(End(start, h), more)
  {
    var all := h + more;
    forall i | 0 <= i < |all|
      ensures Allowed(all[i]) && all[i].from == StateBefore(start, all, i)
    {
      if i < |h| {
        assert all[i] == h[i];
      } else {
        assert all[i] == more[i - |h|];
      }
    }
  }

  /** The events about a row lead from its old status to its new one, through allowed moves only. */
  lemma RowEventsLead(s: Db, op: Op, id: TaskId)
    requires Enabled(s, op) && id in s.tasks && s.tasks[id].status != RetryWait
    ensures var t := s.tasks[id];
            var t' := RowAfter(op, id, t);
            && Path(Some(t.status), RowEvents(op, id, t))
            && (CanceledSilently(t') && !CanceledSilently(t) ==>
                  RowEvents(op, id, t) == [] && t.status in {Queued, Claimed} && t'.status == Canceled)
            && (!CanceledSilently(t') ==> End(Some(t.status), RowEvents(op, id, t)) == Some(t'.status))
            && t'.kind == t.kind
  {
  }

  lemma RowKeepsAgreeing(s: Db, op: Op, id: TaskId, h: seq<Event>)
    requires Enabled(s, op) && id in s.tasks && QueueRuns.RowOk(s.tasks[id]) && LogAgrees(s.tasks[id], h)
    ensures LogAgrees(RowAfter(op, id, s.tasks[id]), h + RowEvents(op, id, s.tasks[id]))
  {
    var t := s.tasks[id];
    if IsTerminal(t.status) {
      QueueRuns.TerminalRowFrozen(s, op, id);
      assert h + [] == h;
      assert Origin(RowAfter(op, id, t)) == Origin(t);
    } else {
      RowEventsLead(s, op, id);
      assert !CanceledSilently(t);
      ExtendPath(Origin(t), h, RowEvents(op, id, t));
    }
  }

  lemma {:induction false} NoHistoryYet(events: seq<Event>, id: TaskId)
    requires forall i :: 0 <= i < |events| ==> events[i].task != id
    ensures History(events, id) == []
  {
    if events != [] {
      NoHistoryYet(events[..|events| - 1], id);
    }
  }

  lemma NewTaskAgrees(s: Db, op: Op, id: TaskId)
    requires LogOk(s) && id !in s.tasks && id in NewRows(op)
    ensures LogAgrees(NewRows(op)[id], History(s.events + Emitted(s, op), id))
  {
    NoHistoryYet(s.events, id);
    HistoryAppend(s.events, Emitted(s, op), id);
    if op.Create? {
      var e := Event(id, op.session, None, Queued, EvEnqueued);
      AllAboutOne([e], id, id);
      assert Path(None, [e]);
    } else {
      assert Emitted(s, op) == [];
    }
  }

  lemma EventsNameTasks(s: Db, op: Op, s': Db)
    requires LogOk(s) && Step(s, op, s')
    ensures forall i :: 0 <= i < |s'.events| ==> s'.events[i].task in s'.tasks
  {
    EventsOnlyOf(s.tasks, op, Touched(op));
  }

  lemma StepKeepsTaskLog(s: Db, op: Op, s': Db, id: TaskId)
    requires QueueRuns.Inv(s) && LogOk(s) && Step(s, op, s')
    ensures TaskLogOk(s', id)
  {
    if id in s.tasks {
      assert QueueRuns.TaskOk(s, id) && TaskLogOk(s, id);
      QueueRuns.StepRow(s, op, s', id);
      StepHistory(s, op, id);
      RowKeepsAgreeing(s, op, id, History(s.events, id));
    } else if id in s'.tasks {
      QueueRuns.StepNewRow(s, op, s', id);
      NewTaskAgrees(s, op, id);
    }
  }

  lemma StepKeepsLog(s: Db, op: Op, s': Db)
    requires QueueRuns.Inv(s) && LogOk(s) && Step(s, op, s')
    ensures LogOk(s')
  {
    EventsNameTasks(s, op, s');
    forall id
      ensures TaskLogOk(s', id)
    {
      StepKeepsTaskLog(s, op, s', id);
    }
  }

  lemma {:induction false} LogAlwaysOk(states: seq<Db>, ops: seq<Op>, k: nat)
    requires Run(states, ops) && k < |states|
    ensures LogOk(states[k])
  {
    if k > 0 {
      LogAlwaysOk(states, ops, k - 1);
      QueueRuns.EveryStateOk(states, ops, k - 1);
      assert StepAt(states, ops, k - 1);
      StepKeepsLog(states[k - 1], ops[k - 1], states[k]);
    }
  }

  /**
   * In every committed state of every run the events of a task form an unbroken path of allowed
   * moves from its origin, and the path ends in the task's status exactly when the task was not
   * canceled by the deletion of its agent.
   */
  lemma EventLogIsThePath(states: seq<Db>, ops: seq<Op>, k: nat, id: TaskId)
    requires Run(states, ops) && k < |states| && id in states[k].tasks
    ensures var t, h := states[k].tasks[id], History(states[k].events, id);
            && Path(Origin(t), h)
            && (End(Origin(t), h) == Some(t.status) <==> t.errorCode != Some(AgentCanceled))
            && (t.kind == Chat ==> h != [])
            && (t.kind == Tool ==> h == [])
  {
    LogAlwaysOk(states, ops, k);
    assert TaskLogOk(states[k], id);
  }

  // ----- Where the log does not end in the status

  /** Step `i` deletes the task's agent while the task waits to be run. */
  predicate DeletesWaiting(s: Db, op: Op, id: TaskId) {
    op.DeleteAgent? && id in s.tasks && s.tasks[id].agent == op.agent && s.tasks[id].status in {Queued, Claimed}
  }

  ghost predicate DeletedWithAgent(states: seq<Db>, ops: seq<Op>, k: nat, id: TaskId)
    requires k <= |ops| < |states|
  {
    exists i :: 0 <= i < k && DeletesWaiting(states[i], ops[i], id)
  }

  lemma MarkRow(s: Db, op: Op, id: TaskId)
    requires Enabled(s, op) && id in s.tasks && (CanceledSilently(s.tasks[id]) ==> s.tasks[id].status == Canceled)
    ensures CanceledSilently(RowAfter(op, id, s.tasks[id])) <==>
            CanceledSilently(s.tasks[id]) || DeletesWaiting(s, op, id)
    ensures CanceledSilently(RowAfter(op, id, s.tasks[id])) ==> RowAfter(op, id, s.tasks[id]).status == Canceled
  {
  }

  /** A row is marked exactly when, at some step of the run, its agent was deleted while it was queued or claimed. */
  lemma {:induction false} MarkTellsHistory(states: seq<Db>, ops: seq<Op>, k: nat, id: TaskId)
    requires Run(states, ops) && k <= |ops|
    ensures id in states[k].tasks ==>
              (CanceledSilently(states[k].tasks[id]) <==> DeletedWithAgent(states, ops, k, id))
              && (CanceledSilently(states[k].tasks[id]) ==> states[k].tasks[id].status == Canceled)
    ensures id !in states[k].tasks ==> !DeletedWithAgent(states, ops, k, id)
  {
    if k > 0 {
      var s, op, s' := states[k - 1], ops[k - 1], states[k];
      MarkTellsHistory(states, ops, k - 1, id);
      assert StepAt(states, ops, k - 1);
      assert DeletedWithAgent(states, ops, k, id) <==>
             DeletedWithAgent(states, ops, k - 1, id) || DeletesWaiting(s, op, id);
      QueueRuns.TasksPersist(s, op, s');
      if id in s.tasks {
        QueueRuns.StepRow(s, op, s', id);
        MarkRow(s, op, id);
      } else if id in s'.tasks {
        QueueRuns.StepNewRow(s, op, s', id);
      }
    }
  }

  /**
   * So, in terms of the run: the events of a task end in its status exactly when no step has deleted its
   * agent while it was queued or claimed.
   */
  lemma LogEndsInStatusExactlyWhen(states: seq<Db>, ops: seq<Op>, k: nat, id: TaskId)
    requires Run(states, ops) && k <= |ops| && id in states[k].tasks
    ensures var t, h := states[k].tasks[id], History(states[k].events, id);
            End(Origin(t), h) == Some(t.status) <==> !DeletedWithAgent(states, ops, k, id)
  {
    EventLogIsThePath(states, ops, k, id);
    MarkTellsHistory(states, ops, k, id);
  }

  /** For instance: a task is created and its agent deleted; it is canceled, and its log still ends in QUEUED. */
  lemma DeletedAgentLeavesLogBehind() returns (states: seq<Db>, ops: seq<Op>)
    ensures Run(states, ops) && |ops| == 2 && 1 in states[2].tasks
    ensures states[2].tasks[1].status == Canceled
    ensures History(states[2].events, 1) == [Event(1, 0, None, Queued, EvEnqueued)]
  {
    ops := [HELPED, HELPER_GONE];
    var created := After(EMPTY, HELPED);
    HelpedTask();
    HelperDeleted(created);
    states := [EMPTY, created, After(created, HELPER_GONE)];
    AllAboutOne(states[2].events, 1, 1);
    assert StepAt(states, ops, 0) && StepAt(states, ops, 1);
  }

  const HELPED: Op := Create(0, 1, 0, "helper", "", 3)
  const HELPER_GONE: Op := DeleteAgent(1, "helper")

  lemma HelpedTask()
    ensures After(EMPTY, HELPED).tasks == map[1 := NewChat(HELPED)]
    ensures After(EMPTY, HELPED).events == [Event(1, 0, None, Queued, EvEnqueued)]
    ensures Enabled(EMPTY, HELPED) && Enabled(After(EMPTY, HELPED), HELPER_GONE)
  {
  }

  lemma HelperDeleted(s: Db)
    requires s.tasks == map[1 := NewChat(HELPED)]
    ensures 1 in After(s, HELPER_GONE).tasks && After(s, HELPER_GONE).tasks[1].status == Canceled
    ensures After(s, HELPER_GONE).events == s.events
  {
    assert RowAfter(HELPER_GONE, 1, s.tasks[1]).status == Canceled;
  }

  // ----- Retention

  lemma PathSuffix(start: Option<Status>, a: seq<Event>, b: seq<Event>)
    requires Path(start, a + b)
    ensures Path(End(start, a), b) && End(End(start, a), b) == End(start, a + b)
  {
    var all := a + b;
    forall i | 0 <= i < |b|
      ensures Allowed(b[i]) && b[i].from == StateBefore(End(start, a), b, i)
    {
      assert all[|a| + i] == b[i];
      if i == 0 {
        assert a != [] ==> all[|a| - 1] == a[|a| - 1];
      } else {
        assert all[|a| + i - 1] == b[i - 1];
      }
    }
  }

  /**
   * Retention deletes the oldest events, and nothing in the queue reads them.  What it leaves of a task's
   * events, however much it deletes, is the end of the same path: unbroken, of allowed moves, and, if
   * anything is left, ending in the task's status exactly when the whole path does.
   */
  lemma RetainedEventsEndThePath(states: seq<Db>, ops: seq<Op>, k: nat, id: TaskId, deleted: nat)
    requires Run(states, ops) && k <= |ops| && id in states[k].tasks && deleted <= |states[k].events|
    ensures var t, events := states[k].tasks[id], states[k].events;
            var gone, left := History(events[..deleted], id), History(events[deleted..], id);
            && History(events, id) == gone + left
            && Path(End(Origin(t), gone), left)
            && (left != [] ==> (left[|left| - 1].to == t.status <==> !DeletedWithAgent(states, ops, k, id)))
  {
    var t, events := states[k].tasks[id], states[k].events;
    var gone, left := History(events[..deleted], id), History(events[deleted..], id);
    assert events == events[..deleted] + events[deleted..];
    HistoryAppend(events[..deleted], events[deleted..], id);
    EventLogIsThePath(states, ops, k, id);
    PathSuffix(Origin(t), gone, left);
    LogEndsInStatusExactlyWhen(states, ops, k, id);
  }
}
