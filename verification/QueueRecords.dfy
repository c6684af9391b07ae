/** What the columns of a task's row tell: each is determined by the steps of the run so far. */
module QueueRecords {
  import opened Common
  import opened TaskQueue
  import QueueRuns
  import QueueFailures
  import Backoff

  // ----- When a task may be claimed

  /** A claim takes no task before it is available. */
  lemma NoEarlyClaim(states: seq<Db>, ops: seq<Op>, k: nat, id: TaskId)
    requires Run(states, ops) && k < |ops| && ops[k].Claim? && ops[k].picked == Some(id)
    ensures id in states[k].tasks && states[k].tasks[id].status == Queued
    ensures states[k].tasks[id].availableAt <= ops[k].now
    ensures ops[k].agent in {"", states[k].tasks[id].agent}
  {
    assert StepAt(states, ops, k);
  }

  /** And it comes back without a task only if none is queued, available and for its agent. */
  lemma DueTaskIsClaimable(states: seq<Db>, ops: seq<Op>, k: nat, id: TaskId)
    requires Run(states, ops) && k < |ops| && ops[k].Claim? && id in states[k].tasks
    requires states[k].tasks[id].status == Queued && states[k].tasks[id].availableAt <= ops[k].now
    requires ops[k].agent in {"", states[k].tasks[id].agent}
    ensures ops[k].picked.Some?
  {
    assert StepAt(states, ops, k);
    assert Eligible(states[k].tasks[id], ops[k].agent, ops[k].now);
  }

  /**
   * Of the queued and available tasks it may take, a claim takes one of the highest priority, of those the
   * oldest, and of those the one with the smallest ID.
   */
  lemma ClaimOrder(states: seq<Db>, ops: seq<Op>, k: nat, id: TaskId, other: TaskId)
    requires Run(states, ops) && k < |ops| && ops[k].Claim? && ops[k].picked == Some(id)
    requires other in states[k].tasks && other != id && states[k].tasks[other].status == Queued
    requires states[k].tasks[other].availableAt <= ops[k].now && ops[k].agent in {"", states[k].tasks[other].agent}
    ensures id in states[k].tasks
    ensures var t, u := states[k].tasks[id], states[k].tasks[other];
            || t.priority > u.priority
            || (t.priority == u.priority && t.createdAt < u.createdAt)
            || (t.priority == u.priority && t.createdAt == u.createdAt && id < other)
  {
    assert StepAt(states, ops, k);
    assert Eligible(states[k].tasks[other], ops[k].agent, ops[k].now);
  }

  /** Only a failure moves the time a task becomes available, to at least a second later. */
  lemma AvailableRow(s: Db, op: Op, id: TaskId)
    requires id in s.tasks
    ensures var t, t' := s.tasks[id], RowAfter(op, id, s.tasks[id]);
            if QueueFailures.FailsNow(s, op, id) && t'.status == Queued
            then t'.availableAt == op.now + Backoff.Delay(t.attempt + 1, op.jitter)
            else t'.availableAt == t.availableAt
  {
  }

  lemma {:induction false} NotAvailableBefore(states: seq<Db>, ops: seq<Op>, i: nat, j: nat, id: TaskId, time: int)
    requires Run(states, ops) && i <= j < |states| && id in states[i].tasks
    requires states[i].tasks[id].availableAt >= time && states[i].now + Backoff.SECOND >= time
    ensures id in states[j].tasks && states[j].tasks[id].availableAt >= time && states[j].now + Backoff.SECOND >= time
    decreases j
  {
    if i < j {
      NotAvailableBefore(states, ops, i, j - 1, id, time);
      assert StepAt(states, ops, j - 1);
      QueueRuns.StepRow(states[j - 1], ops[j - 1], states[j], id);
      AvailableRow(states[j - 1], ops[j - 1], id);
    }
  }

  /** A task that failed and is to be retried is not claimed again within a second, whatever happens meanwhile. */
  lemma NoEarlyRetry(states: seq<Db>, ops: seq<Op>, k: nat, j: nat, id: TaskId)
    requires Run(states, ops) && k < j < |ops| && QueueFailures.FailsNow(states[k], ops[k], id)
    requires id in states[k + 1].tasks && states[k + 1].tasks[id].status == Queued
    requires ops[j].Claim? && ops[j].picked == Some(id)
    ensures ops[j].now >= ops[k].now + Backoff.SECOND
  {
    assert StepAt(states, ops, k);
    QueueRuns.StepRow(states[k], ops[k], states[k + 1], id);
    AvailableRow(states[k], ops[k], id);
    NotAvailableBefore(states, ops, k + 1, j, id, ops[k].now + Backoff.SECOND);
    NoEarlyClaim(states, ops, j, id);
  }

  /**
   * How long it waits after its `n`-th failure: at least a second doubled `n - 1` times or thirty seconds,
   * whichever is less, and at most one and a half times that or thirty seconds.
   */
  lemma RetryWaitGrows(states: seq<Db>, ops: seq<Op>, k: nat, id: TaskId)
    requires Run(states, ops) && k < |ops| && QueueFailures.FailsNow(states[k], ops[k], id)
    requires id in states[k + 1].tasks && states[k + 1].tasks[id].status == Queued
    ensures var n := |QueueFailures.Failures(states, ops, k + 1, id)|;
            var wait := states[k + 1].tasks[id].availableAt - ops[k].now;
            && n >= 1
            && var power := Backoff.SECOND * Backoff.Pow2(n - 1);
               var base := if power < 30 * Backoff.SECOND then power else 30 * Backoff.SECOND;
               base <= wait <= 30 * Backoff.SECOND && 2 * wait <= 3 * base
  {
    assert StepAt(states, ops, k);
    QueueRuns.StepRow(states[k], ops[k], states[k + 1], id);
    AvailableRow(states[k], ops[k], id);
    QueueFailures.CountersTellHistory(states, ops, k, id);
    var n := |QueueFailures.Failures(states, ops, k + 1, id)|;
    assert n == states[k].tasks[id].attempt + 1;
    Backoff.BaseIsCappedPower(n);
    Backoff.DelayNearBase(n, ops[k].jitter);
  }

  // ----- How long a lease lasts

  /** Step `op` gives task `id` a lease, or renews it. */
  predicate Renews(s: Db, op: Op, id: TaskId) {
    id in s.tasks &&
    match op
    case Claim(_, _, _, picked) => picked == Some(id)
    case Start(_, i, owner, _) =>
      i == id && s.tasks[id].status == Claimed && owner.Some? && s.tasks[id].leaseOwner == owner
    case Heartbeat(_, i, owner) =>
      i == id && s.tasks[id].status in {Claimed, Running} && owner.Some? && s.tasks[id].leaseOwner == owner
    case _ => false
  }

  /** When that last happened in the first `k` steps. */
  function LastRenewal(states: seq<Db>, ops: seq<Op>, k: nat, id: TaskId): Option<int>
    requires k <= |ops| < |states|
  {
    if k == 0 then None
    else if Renews(states[k - 1], ops[k - 1], id) then Some(ops[k - 1].now)
    else LastRenewal(states, ops, k - 1, id)
  }

  lemma RenewalRow(s: Db, op: Op, id: TaskId)
    requires Enabled(s, op) && id in s.tasks
    ensures var t, t' := s.tasks[id], RowAfter(op, id, s.tasks[id]);
            if Renews(s, op, id) then InFlight(t'.status) && t'.leaseExpires == Some(op.now + 30 * Backoff.SECOND)
            else InFlight(t'.status) ==> InFlight(t.status) && t'.leaseExpires == t.leaseExpires
  {
  }

  /** An in-flight task's lease ends thirty seconds after it was last claimed, started or renewed. */
  lemma {:induction false} LeaseTellsRenewal(states: seq<Db>, ops: seq<Op>, k: nat, id: TaskId)
    requires Run(states, ops) && k <= |ops| && id in states[k].tasks && InFlight(states[k].tasks[id].status)
    ensures LastRenewal(states, ops, k, id).Some?
    ensures states[k].tasks[id].leaseExpires == Some(LastRenewal(states, ops, k, id).value + 30 * Backoff.SECOND)
  {
    if k > 0 {
      var s, op, s' := states[k - 1], ops[k - 1], states[k];
      assert StepAt(states, ops, k - 1);
      if id in s.tasks {
        QueueRuns.StepRow(s, op, s', id);
        RenewalRow(s, op, id);
        if !Renews(s, op, id) {
          LeaseTellsRenewal(states, ops, k - 1, id);
        }
      } else {
        QueueRuns.StepNewRow(s, op, s', id);
      }
    }
  }

  /** So the sweep takes an in-flight task exactly if its worker has been silent for thirty seconds. */
  lemma SweepTakesSilentWorkers(states: seq<Db>, ops: seq<Op>, k: nat, id: TaskId)
    requires Run(states, ops) && k < |ops| && ops[k].RequeueExpired? && id in states[k].tasks
    requires InFlight(states[k].tasks[id].status)
    ensures id in states[k + 1].tasks && LastRenewal(states, ops, k, id).Some?
    ensures states[k + 1].tasks[id].status == Queued <==>
            ops[k].now - LastRenewal(states, ops, k, id).value >= 30 * Backoff.SECOND
  {
    LeaseTellsRenewal(states, ops, k, id);
    QueueRuns.ExpiryStrandsNoTask(states, ops, k, id);
  }

  // ----- Cancellation

  predicate AsksToCancel(s: Db, op: Op, id: TaskId) {
    op.RequestCancel? && op.id == id && id in s.tasks && s.tasks[id].status in {Claimed, Running}
  }

  ghost predicate AskedToCancel(states: seq<Db>, ops: seq<Op>, k: nat, id: TaskId)
    requires k <= |ops| < |states|
  {
    exists i :: 0 <= i < k && AsksToCancel(states[i], ops[i], id)
  }

  lemma CancelRow(s: Db, op: Op, id: TaskId)
    requires id in s.tasks && s.tasks[id].status != RetryWait
    ensures RowAfter(op, id, s.tasks[id]).cancelRequested <==> s.tasks[id].cancelRequested || AsksToCancel(s, op, id)
  {
  }

  /** A worker sees the cancel flag exactly if its task was asked to cancel at some time while in flight. */
  lemma {:induction false} CancelFlagTellsRequest(states: seq<Db>, ops: seq<Op>, k: nat, id: TaskId)
    requires Run(states, ops) && k <= |ops|
    ensures id in states[k].tasks ==> (states[k].tasks[id].cancelRequested <==> AskedToCancel(states, ops, k, id))
    ensures id !in states[k].tasks ==> !AskedToCancel(states, ops, k, id)
  {
    if k > 0 {
      var s, op, s' := states[k - 1], ops[k - 1], states[k];
      CancelFlagTellsRequest(states, ops, k - 1, id);
      assert StepAt(states, ops, k - 1);
      assert AskedToCancel(states, ops, k, id) <==> AskedToCancel(states, ops, k - 1, id) || AsksToCancel(s, op, id);
      QueueRuns.TasksPersist(s, op, s');
      if id in s.tasks {
        QueueRuns.RetryWaitNeverCommitted(states, ops, k - 1, id);
        QueueRuns.StepRow(s, op, s', id);
        CancelRow(s, op, id);
      } else if id in s'.tasks {
        QueueRuns.StepNewRow(s, op, s', id);
      }
    }
  }

  // ----- Priority

  /** The sweep at this step raises the task: it is queued, available, untouched for the threshold, below the cap. */
  predicate Raised(s: Db, op: Op, id: TaskId) {
    op.Age? && id in s.tasks &&
    var t := s.tasks[id];
    t.status == Queued && t.availableAt <= op.now && t.updatedAt < op.now - op.threshold && t.priority < op.cap
  }

  function Raises(states: seq<Db>, ops: seq<Op>, i: nat, k: nat, id: TaskId): nat
    requires i <= k <= |ops| < |states|
    decreases k
  {
    if i == k then 0 else Raises(states, ops, i, k - 1, id) + if Raised(states[k - 1], ops[k - 1], id) then 1 else 0
  }

  lemma RaisedRow(s: Db, op: Op, id: TaskId)
    requires id in s.tasks
    ensures RowAfter(op, id, s.tasks[id]).priority == s.tasks[id].priority + if Raised(s, op, id) then 1 else 0
  {
  }

  /** A task's priority is what it was plus the number of sweeps that raised it since. */
  lemma {:induction false} PriorityCountsRaises(states: seq<Db>, ops: seq<Op>, i: nat, k: nat, id: TaskId)
    requires Run(states, ops) && i <= k <= |ops| && id in states[i].tasks
    ensures id in states[k].tasks
    ensures states[k].tasks[id].priority == states[i].tasks[id].priority + Raises(states, ops, i, k, id)
    decreases k
  {
    if i < k {
      PriorityCountsRaises(states, ops, i, k - 1, id);
      assert StepAt(states, ops, k - 1);
      QueueRuns.StepRow(states[k - 1], ops[k - 1], states[k], id);
      RaisedRow(states[k - 1], ops[k - 1], id);
    }
  }

  // ----- How a task ends

  /** What a row says about the end it came to by `op`: status, result and error. */
  predicate EndsBy(op: Op, before: Task, t: Task) {
    match op
    case Complete(_, _, result) => t.status == Succeeded && t.result == Some(result) && t.error == None
    case Fail(_, _, message) => t.status == Failed && t.result == before.result && t.error == Some(message)
    case HandleFailure(_, _, message, _, _) =>
      t.status == DeadLetter && t.result == before.result && t.error == Some(message)
    case Abort(_, _) =>
      t.status == Canceled && t.result == before.result && t.error == Some("aborted") && t.errorCode == Some(Aborted)
    case DeleteAgent(_, _) =>
      t.status == Canceled && t.result == before.result && t.error == Some("agent_deleted")
      && t.errorCode == Some(AgentCanceled)
    case _ => false
  }

  lemma EndRow(s: Db, op: Op, id: TaskId)
    requires Enabled(s, op) && id in s.tasks && !IsTerminal(s.tasks[id].status) && s.tasks[id].status != RetryWait
    requires IsTerminal(RowAfter(op, id, s.tasks[id]).status)
    ensures EndsBy(op, s.tasks[id], RowAfter(op, id, s.tasks[id]))
  {
  }

  /**
   * The step that ends a task says how: with the result given, or with the message given and no new result.
   * That is what the row says at every later time, unless the session is purged.
   */
  lemma EndIsRecorded(states: seq<Db>, ops: seq<Op>, k: nat, j: nat, id: TaskId)
    requires Run(states, ops) && k < j <= |ops| && id in states[k].tasks && id in states[k + 1].tasks
    requires !IsTerminal(states[k].tasks[id].status) && IsTerminal(states[k + 1].tasks[id].status)
    requires QueueRuns.LastPurge(ops, k + 1, j, states[k + 1].tasks[id].session).None?
    ensures id in states[j].tasks && EndsBy(ops[k], states[k].tasks[id], states[j].tasks[id])
  {
    assert StepAt(states, ops, k);
    QueueRuns.RetryWaitNeverCommitted(states, ops, k, id);
    QueueRuns.StepRow(states[k], ops[k], states[k + 1], id);
    EndRow(states[k], ops[k], id);
    QueueRuns.TerminalIsPermanent(states, ops, k + 1, j, id);
  }

  /** A running task's completion and failure do end it, or send it back with what the worker reported. */
  lemma ReportsTakeEffect(states: seq<Db>, ops: seq<Op>, k: nat, id: TaskId)
    requires Run(states, ops) && k < |ops| && id in states[k].tasks && states[k].tasks[id].status == Running
    ensures id in states[k + 1].tasks
    ensures var t := states[k + 1].tasks[id];
            match ops[k]
            case Complete(_, i, result) => i == id ==> t.status == Succeeded && t.result == Some(result)
            case Fail(_, i, message) => i == id ==> t.status == Failed && t.error == Some(message)
            case HandleFailure(_, i, message, _, _) =>
              i == id ==> t.status in {Queued, DeadLetter} && t.error == Some(message)
            case Abort(_, i) => i == id ==> t.status == Canceled
            case _ => true
  {
    assert StepAt(states, ops, k);
    QueueRuns.StepRow(states[k], ops[k], states[k + 1], id);
  }

  /** A claim and a start move the task on, for the worker that holds the token; an abort ends any unfinished task. */
  lemma WorkersMoveTasks(states: seq<Db>, ops: seq<Op>, k: nat, id: TaskId)
    requires Run(states, ops) && k < |ops| && id in states[k].tasks
    ensures id in states[k + 1].tasks
    ensures var t, t' := states[k].tasks[id], states[k + 1].tasks[id];
            match ops[k]
            case Claim(_, _, token, picked) =>
              picked == Some(id) ==> t'.status == Claimed && t'.leaseOwner == Some(token)
            case Start(_, i, owner, policy) =>
              i == id && t.status == Claimed && owner.Some? && t.leaseOwner == owner ==>
                t'.status == Running && t'.leaseOwner == owner && t'.policyVersion == Some(policy)
            case Abort(_, i) => i == id && !IsTerminal(t.status) ==> t'.status == Canceled && t'.leaseOwner.None?
            case _ => true
  {
    assert StepAt(states, ops, k);
    QueueRuns.StepRow(states[k], ops[k], states[k + 1], id);
  }

  /** Whatever changes a row leaves the time it did. */
  lemma ChangeTellsTime(states: seq<Db>, ops: seq<Op>, k: nat, id: TaskId)
    requires Run(states, ops) && k < |ops| && id in states[k].tasks
    ensures id in states[k + 1].tasks
    ensures states[k + 1].tasks[id] != states[k].tasks[id] ==> states[k + 1].tasks[id].updatedAt == ops[k].now
  {
    assert StepAt(states, ops, k);
    QueueRuns.StepRow(states[k], ops[k], states[k + 1], id);
  }

  // ----- What a task is created with

  /** A chat task can be claimed for its agent the moment it is created, and carries what it was created with. */
  lemma NewTaskIsDue(states: seq<Db>, ops: seq<Op>, k: nat)
    requires Run(states, ops) && k < |ops| && ops[k].Create?
    ensures ops[k].id in states[k + 1].tasks
    ensures var op, t := ops[k], states[k + 1].tasks[ops[k].id];
            && t.status == Queued && t.availableAt == op.now == t.createdAt && t.payload == op.payload
            && t.session == op.session && t.agent == (if op.agent == "" then "default" else op.agent)
            && t.priority == 0 && t.attempt == 0 && t.maxAttempts == op.maxAttempts
            && t.result.None? && t.error.None? && t.leaseOwner.None?
  {
    assert StepAt(states, ops, k);
    assert ops[k].id in NewRows(ops[k]);
  }

  /** A subtask likewise, with its priority; a recorded tool call is finished, failed exactly if the call failed. */
  lemma OtherNewTasks(states: seq<Db>, ops: seq<Op>, k: nat)
    requires Run(states, ops) && k < |ops| && (ops[k].CreateSubtask? || ops[k].RecordTool?)
    ensures ops[k].id in states[k + 1].tasks
    ensures var op, t := ops[k], states[k + 1].tasks[ops[k].id];
            && t.payload == op.payload && t.session == op.session && t.createdAt == op.now
            && (op.CreateSubtask? ==> t.status == Queued && t.priority == op.priority && t.availableAt == op.now)
            && (op.RecordTool? ==>
                  && (t.status == Failed <==> op.failure.Some?) && (t.status == Succeeded <==> op.failure.None?)
                  && t.result == Some(op.result) && (op.failure.Some? ==> t.error == op.failure))
  {
    assert StepAt(states, ops, k);
    assert ops[k].id in NewRows(ops[k]);
  }

  lemma FixedColumns(op: Op, id: TaskId, t: Task)
    ensures var t' := RowAfter(op, id, t);
            && t'.session == t.session && t'.agent == t.agent && t'.kind == t.kind && t'.createdAt == t.createdAt
            && t'.payload == if QueueRuns.Purges(op, t.session) then REDACTED else t.payload
  {
  }

  /** Session, agent, kind and creation time never change; the payload only by a purge of the session. */
  lemma {:induction false} IdentityIsFixed(states: seq<Db>, ops: seq<Op>, i: nat, j: nat, id: TaskId)
    requires Run(states, ops) && i <= j <= |ops| && id in states[i].tasks
    ensures id in states[j].tasks
    ensures var t, t' := states[i].tasks[id], states[j].tasks[id];
            && t'.session == t.session && t'.agent == t.agent && t'.kind == t.kind && t'.createdAt == t.createdAt
            && t'.payload == if QueueRuns.LastPurge(ops, i, j, t.session).Some? then "[REDACTED]" else t.payload
    decreases j
  {
    if i < j {
      IdentityIsFixed(states, ops, i, j - 1, id);
      assert StepAt(states, ops, j - 1);
      QueueRuns.StepRow(states[j - 1], ops[j - 1], states[j], id);
      FixedColumns(ops[j - 1], id, states[j - 1].tasks[id]);
    }
  }

  // ----- Which messages go

  /** `a` is `b` with some elements left out. */
  predicate Subsequence(a: seq<Message>, b: seq<Message>) {
    if a == [] then true
    else if b == [] then false
    else
      || (a[|a| - 1] == b[|b| - 1] && Subsequence(a[..|a| - 1], b[..|b| - 1]))
      || Subsequence(a, b[..|b| - 1])
  }

  /** A running task of the message's session was last touched no later than this assistant message was written. */
  ghost predicate MaybeUnfinished(tasks: map<TaskId, Task>, m: Message) {
    exists id :: id in tasks && tasks[id].status == Running && tasks[id].session == m.session && m.assistant
                 && tasks[id].updatedAt <= m.createdAt
  }

  lemma OrphanedExactlyWhen(tasks: map<TaskId, Task>, m: Message)
    ensures Orphaned(tasks, m) <==> MaybeUnfinished(tasks, m)
  {
    if Orphaned(tasks, m) {
      var id :| id in tasks && LeftBy(tasks[id], m);
      assert tasks[id].updatedAt <= m.createdAt;
    }
    if MaybeUnfinished(tasks, m) {
      var id :| id in tasks && tasks[id].status == Running && tasks[id].session == m.session && m.assistant
                && tasks[id].updatedAt <= m.createdAt;
      assert LeftBy(tasks[id], m);
    }
  }

  /** Recovery deletes exactly the messages a running task may have left unfinished, and keeps the others in order. */
  lemma {:induction false} OrphansGo(tasks: map<TaskId, Task>, messages: seq<Message>, m: Message)
    ensures Subsequence(WithoutOrphans(tasks, messages), messages)
    ensures multiset(WithoutOrphans(tasks, messages))[m] ==
            if MaybeUnfinished(tasks, m) then 0 else multiset(messages)[m]
  {
    if messages != [] {
      var front, last := messages[..|messages| - 1], messages[|messages| - 1];
      OrphansGo(tasks, front, m);
      assert messages == front + [last];
      OrphanedExactlyWhen(tasks, last);
      if !Orphaned(tasks, last) {
        var rest := WithoutOrphans(tasks, front);
        assert (rest + [last])[..|rest|] == rest;
      }
    }
  }

  /** A purge deletes exactly the session's messages, and keeps the others in order. */
  lemma {:induction false} SessionGoes(messages: seq<Message>, session: SessionId, m: Message)
    ensures Subsequence(WithoutSession(messages, session), messages)
    ensures multiset(WithoutSession(messages, session))[m] == if m.session == session then 0 else multiset(messages)[m]
  {
    if messages != [] {
      var front, last := messages[..|messages| - 1], messages[|messages| - 1];
      SessionGoes(front, session, m);
      assert messages == front + [last];
      if last.session != session {
        var rest := WithoutSession(front, session);
        assert (rest + [last])[..|rest|] == rest;
      } else {
        assert WithoutSession(messages, session) == WithoutSession(front, session);
      }
    }
  }

  /**
   * The messages after each step: recovery and purges delete exactly those, a new message comes last, and
   * nothing else touches them.
   */
  lemma MessagesTellSteps(states: seq<Db>, ops: seq<Op>, k: nat, m: Message)
    requires Run(states, ops) && k < |ops|
    ensures var before, after := states[k].messages, states[k + 1].messages;
            match ops[k]
            case AddMessage(_, row) => after == before + [row]
            case Recover(_, _) =>
              Subsequence(after, before)
              && multiset(after)[m] == if MaybeUnfinished(states[k].tasks, m) then 0 else multiset(before)[m]
            case Purge(_, session) =>
              Subsequence(after, before)
              && multiset(after)[m] == if m.session == session then 0 else multiset(before)[m]
            case _ => after == before
  {
    assert StepAt(states, ops, k);
    if ops[k].Recover? {
      OrphansGo(states[k].tasks, states[k].messages, m);
    } else if ops[k].Purge? {
      SessionGoes(states[k].messages, ops[k].session, m);
    }
  }
}
