/** Retries and dead letters: the counters on a row against the task's whole failure history. */
module QueueFailures {
  import opened Common
  import opened TaskQueue
  import QueueRuns
  import Backoff

  /** `op` commits a failure of task `id` in state `s`. */
  predicate FailsNow(s: Db, op: Op, id: TaskId) {
    op.HandleFailure? && op.id == id && id in s.tasks && s.tasks[id].status == Running
  }

  /** The fingerprints of the failures of task `id` among the first `k` steps of a run. */
  function Failures(states: seq<Db>, ops: seq<Op>, k: nat, id: TaskId): (h: seq<Fingerprint>)
    requires k <= |ops| < |states|
  {
    if k == 0 then []
    else
      Failures(states, ops, k - 1, id) + (if FailsNow(states[k - 1], ops[k - 1], id) then [ops[k - 1].fp] else [])
  }

  /** The last `n` fingerprints are all equal to the last one. */
  predicate EndsWithRun(h: seq<Fingerprint>, n: nat) {
    n <= |h| && forall i :: |h| - n <= i < |h| ==> h[i] == h[|h| - 1]
  }

  /** The length of the trailing run of equal fingerprints. */
  function TrailingRun(h: seq<Fingerprint>): nat {
    if h == [] then 0
    else
      var front := h[..|h| - 1];
      if front != [] && front[|front| - 1] == h[|h| - 1] then TrailingRun(front) + 1 else 1
  }

  /** The counters say how often the task has failed, and how often in a row with the last error. */
  predicate CountersAgree(t: Task, h: seq<Fingerprint>) {
    && t.attempt == |h|
    && t.fingerprint == (if h == [] then None else Some(h[|h| - 1]))
    && t.poison == TrailingRun(h)
  }

  /** A history ends in `m` equal fingerprints exactly when its trailing run is at least that long. */
  lemma {:induction false} LongerRuns(h: seq<Fingerprint>, m: nat)
    ensures TrailingRun(h) <= |h|
    ensures EndsWithRun(h, m) <==> m <= TrailingRun(h)
  {
    if h != [] {
      var front := h[..|h| - 1];
      LongerRuns(front, if m == 0 then 0 else m - 1);
      if front == [] || front[|front| - 1] != h[|h| - 1] {
        assert m >= 2 && |h| >= 2 ==> h[|h| - 2] != h[|h| - 1];
      } else if m >= 1 {
        assert EndsWithRun(h, m) <==> EndsWithRun(front, m - 1);
      }
    }
  }

  /** Only a committed failure touches the counters. */
  lemma CountersMove(s: Db, op: Op, id: TaskId)
    requires id in s.tasks
    ensures var t, t' := s.tasks[id], RowAfter(op, id, s.tasks[id]);
            if FailsNow(s, op, id)
            then t'.attempt == t.attempt + 1 && t'.fingerprint == Some(op.fp) && t'.poison == NextPoison(t, op.fp)
            else t'.attempt == t.attempt && t'.fingerprint == t.fingerprint && t'.poison == t.poison
  {
  }

  lemma CountersKeepAgreeing(s: Db, op: Op, id: TaskId, h: seq<Fingerprint>)
    requires id in s.tasks && CountersAgree(s.tasks[id], h)
    ensures CountersAgree(RowAfter(op, id, s.tasks[id]), if FailsNow(s, op, id) then h + [op.fp] else h)
  {
    CountersMove(s, op, id);
    if FailsNow(s, op, id) {
      assert (h + [op.fp])[..|h|] == h;
    }
  }

  lemma NewTaskCounters(op: Op, id: TaskId)
    requires id in NewRows(op)
    ensures CountersAgree(NewRows(op)[id], [])
  {
  }

  lemma {:induction false} NeverFailedYet(states: seq<Db>, ops: seq<Op>, k: nat, id: TaskId)
    requires Run(states, ops) && k <= |ops| && id !in states[k].tasks
    ensures Failures(states, ops, k, id) == []
  {
    if k > 0 {
      assert StepAt(states, ops, k - 1);
      QueueRuns.TasksPersist(states[k - 1], ops[k - 1], states[k]);
      NeverFailedYet(states, ops, k - 1, id);
    }
  }

  /** In every run: `attempt` is the length of the failure history and `poison` its trailing run. */
  lemma {:induction false} CountersTellHistory(states: seq<Db>, ops: seq<Op>, k: nat, id: TaskId)
    requires Run(states, ops) && k <= |ops| && id in states[k].tasks
    ensures CountersAgree(states[k].tasks[id], Failures(states, ops, k, id))
  {
    if k > 0 {
      var s, op, s' := states[k - 1], ops[k - 1], states[k];
      assert StepAt(states, ops, k - 1);
      var h := Failures(states, ops, k - 1, id);
      if id in s.tasks {
        QueueRuns.StepRow(s, op, s', id);
        CountersTellHistory(states, ops, k - 1, id);
        CountersKeepAgreeing(s, op, id, h);
        assert h + [] == h;
      } else {
        QueueRuns.StepNewRow(s, op, s', id);
        NeverFailedYet(states, ops, k - 1, id);
        NewTaskCounters(op, id);
        assert h + [] == h;
      }
    }
  }

  /**
   * A failure dead-letters the task exactly when its history has reached the retry budget or ends in
   * three equal fingerprints; otherwise the task is queued again.  Running out of attempts wins when
   * both apply.
   */
  lemma DeadLetterExactlyWhen(states: seq<Db>, ops: seq<Op>, k: nat, id: TaskId)
    requires Run(states, ops) && k < |ops| && FailsNow(states[k], ops[k], id)
    ensures id in states[k + 1].tasks
    ensures var t' := states[k + 1].tasks[id];
            var h := Failures(states, ops, k + 1, id);
            && t'.status in {DeadLetter, Queued}
            && (t'.status == Queued ==> t'.errorCode == Some(RetryProcessorError))
            && (t'.status == DeadLetter <==> |h| >= Budget(states[k].tasks[id]) || EndsWithRun(h, POISON_THRESHOLD))
            && (t'.errorCode == Some(DeadLetterMaxAttempts) <==> |h| >= Budget(states[k].tasks[id]))
            && (t'.errorCode == Some(DeadLetterPoisonPill) <==>
                  |h| < Budget(states[k].tasks[id]) && EndsWithRun(h, POISON_THRESHOLD))
  {
    assert StepAt(states, ops, k);
    QueueRuns.StepRow(states[k], ops[k], states[k + 1], id);
    CountersTellHistory(states, ops, k + 1, id);
    LongerRuns(Failures(states, ops, k + 1, id), POISON_THRESHOLD);
  }

  /** With the usual budget of three, or none given, it is the third failure that ends a task, whatever the errors. */
  lemma ThirdFailureEndsTask(states: seq<Db>, ops: seq<Op>, k: nat, id: TaskId)
    requires Run(states, ops) && k < |ops| && FailsNow(states[k], ops[k], id)
    requires states[k].tasks[id].maxAttempts == 3 || states[k].tasks[id].maxAttempts <= 0
    ensures id in states[k + 1].tasks
    ensures states[k + 1].tasks[id].status == DeadLetter <==> |Failures(states, ops, k + 1, id)| >= 3
  {
    DeadLetterExactlyWhen(states, ops, k, id);
  }

  /** Every task that may still run has attempts left. */
  lemma AttemptsLeft(states: seq<Db>, ops: seq<Op>, k: nat, id: TaskId)
    requires Run(states, ops) && k <= |ops| && id in states[k].tasks && !IsTerminal(states[k].tasks[id].status)
    ensures |Failures(states, ops, k, id)| < Budget(states[k].tasks[id])
  {
    QueueRuns.EveryStateOk(states, ops, k);
    assert QueueRuns.TaskOk(states[k], id);
    CountersTellHistory(states, ops, k, id);
  }

  // ----- The poison rule and the default budget

  lemma PoisonRow(op: Op, id: TaskId, t: Task)
    requires t.poison <= t.attempt && (t.errorCode == Some(DeadLetterPoisonPill) ==> Budget(t) > POISON_THRESHOLD)
    ensures var t' := RowAfter(op, id, t);
            Budget(t') == Budget(t) && (t'.errorCode == Some(DeadLetterPoisonPill) ==> Budget(t') > POISON_THRESHOLD)
  {
  }

  /**
   * No run dead-letters a task as a poison pill unless its retry budget is above three: with the
   * default budget the third failure always runs out of attempts first.
   */
  lemma {:induction false} PoisonPillNeedsLargerBudget(states: seq<Db>, ops: seq<Op>, k: nat, id: TaskId)
    requires Run(states, ops) && k <= |ops| && id in states[k].tasks
    requires Budget(states[k].tasks[id]) <= DEFAULT_MAX_ATTEMPTS
    ensures states[k].tasks[id].errorCode != Some(DeadLetterPoisonPill)
  {
    if k > 0 {
      var s, op, s' := states[k - 1], ops[k - 1], states[k];
      assert StepAt(states, ops, k - 1);
      if id in s.tasks {
        QueueRuns.StepRow(s, op, s', id);
        CountersTellHistory(states, ops, k - 1, id);
        LongerRuns(Failures(states, ops, k - 1, id), 0);
        BudgetFixed(op, id, s.tasks[id]);
        PoisonPillNeedsLargerBudget(states, ops, k - 1, id);
        PoisonRow(op, id, s.tasks[id]);
      } else {
        QueueRuns.StepNewRow(s, op, s', id);
      }
    }
  }

  lemma BudgetFixed(op: Op, id: TaskId, t: Task)
    ensures Budget(RowAfter(op, id, t)) == Budget(t)
  {
  }

  lemma ExtendRun(states: seq<Db>, ops: seq<Op>, op: Op)
    requires Run(states, ops) && Enabled(states[|ops|], op)
    ensures Run(states + [After(states[|ops|], op)], ops + [op])
  {
    var states', ops' := states + [After(states[|ops|], op)], ops + [op];
    forall i | 0 <= i < |ops'|
      ensures StepAt(states', ops', i)
    {
      if i < |ops| {
        assert StepAt(states, ops, i);
      }
    }
  }

  lemma OnlyTask(s: Db, t: Task, op: Op)
    requires s.tasks == map[1 := t] && NewRows(op) == map[]
    ensures After(s, op).tasks == map[1 := RowAfter(op, 1, t)]
  {
  }

  /** A run in which task 1 is alone, queued and due at `now`, with tokens from `token` on unused. */
  ghost predicate Alone(states: seq<Db>, ops: seq<Op>, t: Task, now: int, token: Token) {
    && Run(states, ops)
    && states[|ops|].tasks == map[1 := t] && states[|ops|].now <= now
    && forall used :: used in states[|ops|].issued ==> used < token
  }

  lemma OneMoreStep(states: seq<Db>, ops: seq<Op>, t: Task, op: Op, now: int, token: Token)
      returns (states': seq<Db>, ops': seq<Op>)
    requires Alone(states, ops, t, now, token) && NewRows(op) == map[] && op.now == now
    requires op.Claim? ==> op.agent == "" && op.token == token && op.picked == Some(1) && Eligible(t, "", now)
    requires !op.RequeueExpired? && !op.Recover?
    ensures Alone(states', ops', RowAfter(op, 1, t), now, if op.Claim? then token + 1 else token)
  {
    var s := states[|ops|];
    OnlyTask(s, t, op);
    ExtendRun(states, ops, op);
    states', ops' := states + [After(s, op)], ops + [op];
  }

  /** The task is claimed, started and fails with fingerprint 7. */
  lemma FailOnceMore(states: seq<Db>, ops: seq<Op>, t: Task, now: int, token: Token)
      returns (states': seq<Db>, ops': seq<Op>, t': Task)
    requires Alone(states, ops, t, now, token) && t.status == Queued && t.availableAt <= now
    ensures Alone(states', ops', t', now, token + 1)
    ensures t' == RowAfterFailure(t.(policyVersion := Some("")), now, "boom", 7, 0)
  {
    var claim, start := Claim(now, "", token, Some(1)), Start(now, 1, Some(token), "");
    var fail := HandleFailure(now, 1, "boom", 7, 0);
    states', ops' := OneMoreStep(states, ops, t, claim, now, token);
    t' := RowAfter(claim, 1, t);
    states', ops' := OneMoreStep(states', ops', t', start, now, token + 1);
    t' := RowAfter(start, 1, t');
    states', ops' := OneMoreStep(states', ops', t', fail, now, token + 1);
    t' := RowAfter(fail, 1, t');
  }

  /** With any larger budget the poison rule does fire: three failures alike are enough. */
  lemma PoisonPillReachable(budget: int) returns (states: seq<Db>, ops: seq<Op>)
    requires budget > DEFAULT_MAX_ATTEMPTS
    ensures Run(states, ops) && 1 in states[|ops|].tasks
    ensures Budget(states[|ops|].tasks[1]) == budget
    ensures states[|ops|].tasks[1].errorCode == Some(DeadLetterPoisonPill)
  {
    var create := Create(0, 1, 0, "", "", budget);
    var t := NewChat(create);
    assert Run([EMPTY], []);
    ExtendRun([EMPTY], [], create);
    states, ops := [EMPTY] + [After(EMPTY, create)], [] + [create];
    assert states[1].tasks == map[1 := t];
    states, ops, t := FailOnceMore(states, ops, t, 0, 0);
    states, ops, t := FailOnceMore(states, ops, t, Backoff.RETRY_MAX, 1);
    states, ops, t := FailOnceMore(states, ops, t, 2 * Backoff.RETRY_MAX, 2);
  }
}
