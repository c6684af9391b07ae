/** What holds in every run of the task queue: row invariants, final statuses, leases and recovery. */
module QueueRuns {
  import opened Common
  import opened TaskQueue

  // ----- Row invariants

  /** Holds of every committed row, though not between two moves of one transaction. */
  predicate RowOk(t: Task) {
    && t.status != RetryWait
    && (t.leaseOwner.Some? <==> InFlight(t.status))
    && (t.leaseExpires.Some? <==> InFlight(t.status))
    && (!IsTerminal(t.status) ==> 0 <= t.attempt < Budget(t))
    && (t.kind == Tool ==> IsTerminal(t.status))
  }

  lemma RowStaysOk(s: Db, op: Op, id: TaskId)
    requires Enabled(s, op) && id in s.tasks && RowOk(s.tasks[id])
    ensures RowOk(RowAfter(op, id, s.tasks[id]))
  {
  }

  /** The transition table lets a failed task move on; no transaction uses that.  Only a purge still writes the row. */
  lemma TerminalRowFrozen(s: Db, op: Op, id: TaskId)
    requires Enabled(s, op) && id in s.tasks && IsTerminal(s.tasks[id].status)
    ensures RowAfter(op, id, s.tasks[id]) ==
            if Purges(op, s.tasks[id].session) then Tombstone(s.tasks[id], op.now) else s.tasks[id]
    ensures RowEvents(op, id, s.tasks[id]) == []
  {
  }

  predicate Purges(op: Op, session: SessionId) {
    op.Purge? && op.session == session
  }

  predicate SharesLease(t: Task, u: Task) {
    t.leaseOwner.Some? && t.leaseOwner == u.leaseOwner
  }

  /** The lease token of a task, if it has one, was handed out. */
  predicate TaskOk(s: Db, id: TaskId) {
    id in s.tasks ==> RowOk(s.tasks[id]) && (s.tasks[id].leaseOwner.Some? ==> s.tasks[id].leaseOwner.value in s.issued)
  }

  /** No two tasks have the same lease token. */
  predicate LeasesApart(s: Db, i: TaskId, j: TaskId) {
    i in s.tasks && j in s.tasks && SharesLease(s.tasks[i], s.tasks[j]) ==> i == j
  }

  ghost predicate Inv(s: Db) {
    && (forall id :: TaskOk(s, id))
    && (forall i, j :: LeasesApart(s, i, j))
  }

  /** A row keeps its lease owner, loses it, or gets the token of a claim. */
  lemma OwnerAfter(s: Db, op: Op, id: TaskId)
    requires id in s.tasks
    ensures var owner := RowAfter(op, id, s.tasks[id]).leaseOwner;
            || owner == s.tasks[id].leaseOwner
            || owner == None
            || (op.Claim? && op.picked == Some(id) && owner == Some(op.token))
  {
  }

  /** A step keeps every task and does to its row what the operation does. */
  lemma StepRow(s: Db, op: Op, s': Db, id: TaskId)
    requires Step(s, op, s') && id in s.tasks
    ensures id in s'.tasks && s'.tasks[id] == RowAfter(op, id, s.tasks[id])
  {
  }

  lemma TasksPersist(s: Db, op: Op, s': Db)
    requires Step(s, op, s')
    ensures s.tasks.Keys <= s'.tasks.Keys
  {
  }

  /** A task it adds is a well-formed new row without a lease. */
  lemma StepNewRow(s: Db, op: Op, s': Db, id: TaskId)
    requires Step(s, op, s') && id in s'.tasks && id !in s.tasks
    ensures id in NewRows(op) && s'.tasks[id] == NewRows(op)[id] && RowOk(s'.tasks[id]) && s'.tasks[id].leaseOwner.None?
  {
  }

  lemma StepIssued(s: Db, op: Op, s': Db)
    requires Step(s, op, s')
    ensures s'.issued == if op.Claim? && op.picked.Some? then s.issued + {op.token} else s.issued
    ensures op.Claim? ==> op.token !in s.issued
  {
  }

  lemma StepKeepsTask(s: Db, op: Op, s': Db, id: TaskId)
    requires Inv(s) && Step(s, op, s')
    ensures TaskOk(s', id)
  {
    StepIssued(s, op, s');
    if id in s.tasks {
      assert TaskOk(s, id);
      StepRow(s, op, s', id);
      RowStaysOk(s, op, id);
      OwnerAfter(s, op, id);
    } else if id in s'.tasks {
      StepNewRow(s, op, s', id);
    }
  }

  lemma StepKeepsApart(s: Db, op: Op, s': Db, i: TaskId, j: TaskId)
    requires Inv(s) && Step(s, op, s')
    ensures LeasesApart(s', i, j)
  {
    if i in s'.tasks && j in s'.tasks && SharesLease(s'.tasks[i], s'.tasks[j]) {
      LeasedBefore(s, op, s', i);
      LeasedBefore(s, op, s', j);
      assert TaskOk(s, i) && TaskOk(s, j) && LeasesApart(s, i, j);
    }
  }

  /** A leased task was there before, with the same lease unless this step claimed it. */
  lemma LeasedBefore(s: Db, op: Op, s': Db, id: TaskId)
    requires Step(s, op, s') && id in s'.tasks && s'.tasks[id].leaseOwner.Some?
    ensures id in s.tasks
    ensures s'.tasks[id].leaseOwner == s.tasks[id].leaseOwner
            || (op.Claim? && op.picked == Some(id) && s'.tasks[id].leaseOwner == Some(op.token)
                && op.token !in s.issued)
  {
    StepIssued(s, op, s');
    if id in s.tasks {
      StepRow(s, op, s', id);
      OwnerAfter(s, op, id);
    } else {
      StepNewRow(s, op, s', id);
    }
  }

  lemma StepKeepsInv(s: Db, op: Op, s': Db)
    requires Inv(s) && Step(s, op, s')
    ensures Inv(s')
  {
    forall id
      ensures TaskOk(s', id)
    {
      StepKeepsTask(s, op, s', id);
    }
    forall i, j
      ensures LeasesApart(s', i, j)
    {
      StepKeepsApart(s, op, s', i, j);
    }
  }

  /** The invariant holds in every committed state of every run. */
  lemma {:induction false} EveryStateOk(states: seq<Db>, ops: seq<Op>, k: nat)
    requires Run(states, ops) && k < |states|
    ensures Inv(states[k])
  {
    if k > 0 {
      EveryStateOk(states, ops, k - 1);
      assert StepAt(states, ops, k - 1);
      StepKeepsInv(states[k - 1], ops[k - 1], states[k]);
    }
  }

  /** RETRY_WAIT is passed through, never committed. */
  lemma RetryWaitNeverCommitted(states: seq<Db>, ops: seq<Op>, k: nat, id: TaskId)
    requires Run(states, ops) && k < |states| && id in states[k].tasks
    ensures states[k].tasks[id].status != RetryWait
  {
    EveryStateOk(states, ops, k);
    assert TaskOk(states[k], id);
  }

  // ----- Final statuses

  /** When the session was last purged in steps `i` to `j`, if it was. */
  function LastPurge(ops: seq<Op>, i: nat, j: nat, session: SessionId): Option<int>
    requires i <= j <= |ops|
    decreases j
  {
    if i == j then None
    else if Purges(ops[j - 1], session) then Some(ops[j - 1].now)
    else LastPurge(ops, i, j - 1, session)
  }

  function PurgedAt(t: Task, at: Option<int>): Task {
    if at.None? then t else Tombstone(t, at.value)
  }

  /**
   * Rows are never deleted.  A row whose status is final keeps it, with its attempts, error, error code
   * and lack of a lease; it changes exactly by the purges of its session, to what the last one made of it.
   */
  lemma {:induction false} TerminalIsPermanent(states: seq<Db>, ops: seq<Op>, i: nat, j: nat, id: TaskId)
    requires Run(states, ops) && i <= j < |states| && id in states[i].tasks
    ensures id in states[j].tasks
    ensures var t := states[i].tasks[id];
            IsTerminal(t.status) ==> states[j].tasks[id] == PurgedAt(t, LastPurge(ops, i, j, t.session))
    decreases j
  {
    if i < j {
      TerminalIsPermanent(states, ops, i, j - 1, id);
      assert StepAt(states, ops, j - 1);
      StepRow(states[j - 1], ops[j - 1], states[j], id);
      if IsTerminal(states[i].tasks[id].status) {
        TerminalRowFrozen(states[j - 1], ops[j - 1], id);
      }
    }
  }

  datatype TaskResult = TaskResult(status: Status, output: string, error: string, duration: int)

  function OrEmpty(text: Option<string>): string {
    if text.Some? then text.value else ""
  }

  /** One look at the task: an error if it is unknown, nothing if it is still in progress. */
  function CheckTerminal(s: Db, id: TaskId): Result<Option<TaskResult>, ()> {
    if id !in s.tasks then Err(())
    else
      var t := s.tasks[id];
      if !IsTerminal(t.status) then Ok(None)
      else Ok(Some(TaskResult(t.status, OrEmpty(t.result), OrEmpty(t.error), t.updatedAt - t.createdAt)))
  }

  /** A result collected from the row `t` survives the last purge, if there was one. */
  predicate Withstands(t: Task, at: Option<int>) {
    at.None? || (OrEmpty(t.result) in {"", REDACTED} && at.value == t.updatedAt)
  }

  /**
   * Waiting for several tasks polls each of them at its own moments and collects the first result
   * of each.  Although they are read at different times, one look at any later state gives for all of
   * them the collected statuses and errors.  It gives the whole collected result exactly when the
   * task's session has not been purged since, or the purge found nothing to change.
   */
  lemma WaitForAllIsASnapshot(states: seq<Db>, ops: seq<Op>, seen: map<TaskId, nat>, results: map<TaskId, TaskResult>,
                              k: nat)
    requires Run(states, ops) && k < |states| && results.Keys == seen.Keys
    requires forall id :: id in seen ==> seen[id] <= k && CheckTerminal(states[seen[id]], id) == Ok(Some(results[id]))
    ensures forall id :: id in results ==> SnapshotOf(states, ops, seen[id], k, id, results[id])
  {
    forall id | id in results
      ensures SnapshotOf(states, ops, seen[id], k, id, results[id])
    {
      TerminalIsPermanent(states, ops, seen[id], k, id);
    }
  }

  /** The result that was read in state `i`, against a look at state `k`. */
  predicate SnapshotOf(states: seq<Db>, ops: seq<Op>, i: nat, k: nat, id: TaskId, read: TaskResult) {
    && i <= k <= |ops| < |states| && id in states[i].tasks
    && var t, look := states[i].tasks[id], CheckTerminal(states[k], id);
       && look.Ok? && look.value.Some?
       && look.value.value.status == read.status && look.value.value.error == read.error
       && (look.value.value == read <==> Withstands(t, LastPurge(ops, i, k, t.session)))
  }

  /** A run in which a purge after the task ended changes what a look at it gives. */
  lemma PurgeRewritesResult() returns (states: seq<Db>, ops: seq<Op>)
    ensures Run(states, ops) && |ops| == 2 && ops[1].Purge?
    ensures CheckTerminal(states[1], 1) == Ok(Some(TaskResult(Succeeded, "x", "", 0)))
    ensures CheckTerminal(states[2], 1) == Ok(Some(TaskResult(Succeeded, REDACTED, "", 5)))
  {
    ops := [RecordTool(0, 1, 0, "", "x", None), Purge(5, 0)];
    var recorded := After(EMPTY, ops[0]);
    states := [EMPTY, recorded, After(recorded, ops[1])];
    assert recorded.tasks == map[1 := NewTool(ops[0])];
    assert StepAt(states, ops, 0) && StepAt(states, ops, 1);
  }

  // ----- Leases

  /** In every committed state a lease and its expiry are there exactly while a task is claimed or running. */
  lemma LeasedExactlyInFlight(states: seq<Db>, ops: seq<Op>, k: nat, id: TaskId)
    requires Run(states, ops) && k < |states| && id in states[k].tasks
    ensures var t := states[k].tasks[id];
            && (InFlight(t.status) <==> t.leaseOwner.Some?)
            && (InFlight(t.status) <==> t.leaseExpires.Some?)
  {
    EveryStateOk(states, ops, k);
    assert TaskOk(states[k], id);
  }

  /** Hence the expiry sweep can reach every in-flight task, and only those past their expiry. */
  lemma ExpiryStrandsNoTask(states: seq<Db>, ops: seq<Op>, k: nat, id: TaskId)
    requires Run(states, ops) && k < |ops| && ops[k].RequeueExpired? && id in states[k].tasks
    ensures id in states[k + 1].tasks
    ensures var t, t' := states[k].tasks[id], states[k + 1].tasks[id];
            if InFlight(t.status) && (t.leaseExpires.None? || t.leaseExpires.value <= ops[k].now)
            then t' == BackToQueue(t, ops[k].now) && id in ops[k].order
            else t' == t && id !in ops[k].order
  {
    EveryStateOk(states, ops, k);
    assert TaskOk(states[k], id);
    assert StepAt(states, ops, k);
    StepRow(states[k], ops[k], states[k + 1], id);
  }

  predicate Held(s: Db, token: Token) {
    exists id :: id in s.tasks && s.tasks[id].leaseOwner == Some(token)
  }

  lemma {:induction false} UnheldStaysUnheld(states: seq<Db>, ops: seq<Op>, i: nat, j: nat, token: Token)
    requires Run(states, ops) && i <= j < |states|
    requires token in states[i].issued && !Held(states[i], token)
    ensures token in states[j].issued && !Held(states[j], token)
    decreases j - i
  {
    if i < j {
      var s, op, s' := states[i], ops[i], states[i + 1];
      assert StepAt(states, ops, i);
      StepIssued(s, op, s');
      forall id | id in s'.tasks
        ensures s'.tasks[id].leaseOwner != Some(token)
      {
        if s'.tasks[id].leaseOwner.Some? {
          LeasedBefore(s, op, s', id);
        }
      }
      UnheldStaysUnheld(states, ops, i + 1, j, token);
    }
  }

  /**
   * A token taken away from its task (by expiry, recovery, completion, failure or abort) is never
   * accepted again: no later start or heartbeat with it, for any task, changes anything.
   */
  lemma LostTokenNeverAccepted(states: seq<Db>, ops: seq<Op>, i: nat, j: nat, k: nat, token: Token, id: TaskId)
    requires Run(states, ops) && i <= j <= k < |ops|
    requires id in states[i].tasks && states[i].tasks[id].leaseOwner == Some(token)
    requires id in states[j].tasks && states[j].tasks[id].leaseOwner != Some(token)
    requires (ops[k].Start? || ops[k].Heartbeat?) && ops[k].owner == Some(token)
    ensures states[k + 1] == states[k].(now := ops[k].now)
  {
    HeldByAtMostOne(states, ops, i, j, token, id);
    UnheldStaysUnheld(states, ops, j, k, token);
    assert StepAt(states, ops, k);
    RefusedTokenChangesNothing(states[k], ops[k], token);
  }

  lemma RefusedTokenChangesNothing(s: Db, op: Op, token: Token)
    requires (op.Start? || op.Heartbeat?) && op.owner == Some(token) && !Held(s, token)
    ensures After(s, op) == s.(now := op.now)
  {
    forall id | id in s.tasks
      ensures RowAfter(op, id, s.tasks[id]) == s.tasks[id]
    {
      assert s.tasks[id].leaseOwner != Some(token);
    }
    assert After(s, op).tasks == s.tasks;
    if op.Start? {
      assert [op.id][..0] == [] && EventsFor(s.tasks, op, []) == [];
    }
    assert Emitted(s, op) == [];
  }

  ghost predicate OnlyHolder(s: Db, token: Token, id: TaskId) {
    forall other :: other in s.tasks && s.tasks[other].leaseOwner == Some(token) ==> other == id
  }

  /** A token never wanders to another task. */
  lemma {:induction false} HeldByAtMostOne(states: seq<Db>, ops: seq<Op>, i: nat, j: nat, token: Token, id: TaskId)
    requires Run(states, ops) && i <= j < |states|
    requires id in states[i].tasks && states[i].tasks[id].leaseOwner == Some(token)
    ensures token in states[j].issued
    ensures OnlyHolder(states[j], token, id)
    decreases j
  {
    EveryStateOk(states, ops, i);
    assert TaskOk(states[i], id);
    if i == j {
      forall other | other in states[j].tasks && states[j].tasks[other].leaseOwner == Some(token)
        ensures other == id
      {
        assert LeasesApart(states[j], id, other);
      }
    } else {
      HeldByAtMostOne(states, ops, i, j - 1, token, id);
      var s, op, s' := states[j - 1], ops[j - 1], states[j];
      assert StepAt(states, ops, j - 1);
      StepIssued(s, op, s');
      forall other | other in s'.tasks && s'.tasks[other].leaseOwner == Some(token)
        ensures other == id
      {
        LeasedBefore(s, op, s', other);
      }
    }
  }

  // ----- Crash recovery

  /** What recovery may make of a row: nothing if it is final, else queued, unleased and otherwise the same. */
  predicate Recovered(t: Task, t': Task) {
    if IsTerminal(t.status) then t' == t
    else t' == t.(status := Queued, leaseOwner := None, leaseExpires := None, updatedAt := t'.updatedAt)
  }

  function InFlightIds(s: Db): set<TaskId> {
    set id | id in s.tasks && InFlight(s.tasks[id].status)
  }

  lemma RecoverRow(op: Op, id: TaskId, t: Task)
    requires op.Recover? && RowOk(t)
    ensures Recovered(t, RowAfter(op, id, t))
  {
  }

  /**
   * Recovery from any reachable state leaves every task final, and untouched, or queued without a
   * lease, with its attempts, priority and age; the count is that of the in-flight tasks.  The scan
   * skips RETRY_WAIT rows, so this rests on there being none.
   */
  lemma RecoveryIsComplete(states: seq<Db>, ops: seq<Op>, k: nat)
    requires Run(states, ops) && k < |ops| && ops[k].Recover?
    ensures states[k + 1].tasks.Keys == states[k].tasks.Keys
    ensures forall id :: id in states[k].tasks ==> Recovered(states[k].tasks[id], states[k + 1].tasks[id])
    ensures |ops[k].order| == |InFlightIds(states[k])|
  {
    var s, op, s' := states[k], ops[k], states[k + 1];
    EveryStateOk(states, ops, k);
    assert StepAt(states, ops, k);
    assert s'.tasks.Keys == s.tasks.Keys;
    forall id | id in s.tasks
      ensures Recovered(s.tasks[id], s'.tasks[id])
    {
      assert TaskOk(s, id);
      StepRow(s, op, s', id);
      RecoverRow(op, id, s.tasks[id]);
    }
    DistinctSize(op.order, InFlightIds(s));
  }

  /** Where nothing is in flight, recovery does nothing. */
  lemma NothingToRecover(s: Db, op: Op)
    requires op.Recover? && Enabled(s, op)
    requires forall id :: id in s.tasks ==> !InFlight(s.tasks[id].status)
    ensures op.order == [] && After(s, op) == s.(now := op.now)
  {
    NothingOrphaned(s.tasks, s.messages);
    assert After(s, op).tasks == s.tasks;
    assert Emitted(s, op) == [];
  }

  /** So recovering once more finds nothing to requeue and no message to delete. */
  lemma RecoveryIsIdempotent(states: seq<Db>, ops: seq<Op>, k: nat, again: Op)
    requires Run(states, ops) && k < |ops| && ops[k].Recover?
    requires again.Recover? && Enabled(states[k + 1], again)
    ensures again.order == [] && After(states[k + 1], again) == states[k + 1].(now := again.now)
  {
    RecoveryIsComplete(states, ops, k);
    var s' := states[k + 1];
    forall id | id in s'.tasks
      ensures !InFlight(s'.tasks[id].status)
    {
      assert Recovered(states[k].tasks[id], s'.tasks[id]);
    }
    NothingToRecover(s', again);
  }

  lemma {:induction false} DistinctSize(ids: seq<TaskId>, members: set<TaskId>)
    requires Distinct(ids) && forall id :: id in ids <==> id in members
    ensures |ids| == |members|
  {
    if ids == [] {
      assert members == {};
    } else {
      var last := ids[|ids| - 1];
      var front := ids[..|ids| - 1];
      assert forall id :: id in front <==> id in ids && id != last;
      DistinctSize(front, members - {last});
    }
  }

  lemma {:induction false} NothingOrphaned(tasks: map<TaskId, Task>, messages: seq<Message>)
    requires forall id :: id in tasks ==> tasks[id].status != Running
    ensures WithoutOrphans(tasks, messages) == messages
  {
    if messages != [] {
      NothingOrphaned(tasks, messages[..|messages| - 1]);
    }
  }
}
