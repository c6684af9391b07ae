/** The order in which queued tasks are claimed, and why aging keeps it fair. */
module QueueOrder {
  import opened Common
  import opened TaskQueue
  import QueueRuns

  /** The claim query has one answer. */
  lemma NextIsUnique(tasks: map<TaskId, Task>, agent: string, now: int, p: Option<TaskId>, q: Option<TaskId>)
    requires IsNext(tasks, agent, now, p) && IsNext(tasks, agent, now, q)
    ensures p == q
  {
    if p.Some? && q.Some? {
      var i, j := p.value, q.value;
      assert ClaimedBefore(i, tasks[i], j, tasks[j]) && ClaimedBefore(j, tasks[j], i, tasks[i]);
    }
  }

  /** A claim takes the next task, hands it a lease, and touches nothing else. */
  lemma ClaimTakesTheNext(states: seq<Db>, ops: seq<Op>, k: nat)
    requires Run(states, ops) && k < |ops| && ops[k].Claim?
    ensures IsNext(states[k].tasks, ops[k].agent, ops[k].now, ops[k].picked)
    ensures forall id :: id in states[k].tasks && ops[k].picked != Some(id) ==>
              id in states[k + 1].tasks && states[k + 1].tasks[id] == states[k].tasks[id]
    ensures ops[k].picked.Some? ==>
              var id := ops[k].picked.value;
              id in states[k + 1].tasks && HoldsLease(states[k + 1].tasks[id], Some(ops[k].token))
  {
    assert StepAt(states, ops, k);
    forall id | id in states[k].tasks
      ensures id in states[k + 1].tasks && states[k + 1].tasks[id] == RowAfter(ops[k], id, states[k].tasks[id])
    {
      QueueRuns.StepRow(states[k], ops[k], states[k + 1], id);
    }
  }

  /** No step of the run creates or ages a task beyond `cap`. */
  ghost predicate CappedAt(ops: seq<Op>, cap: int) {
    && 0 <= cap
    && forall i :: 0 <= i < |ops| ==> CapsPriority(ops[i], cap)
  }

  predicate CapsPriority(op: Op, cap: int) {
    match op
    case CreateSubtask(_, _, _, priority, _) => priority <= cap
    case Age(_, _, c) => c <= cap
    case _ => true
  }

  lemma PriorityRow(op: Op, id: TaskId, t: Task, cap: int)
    requires CapsPriority(op, cap) && t.priority <= cap
    ensures t.priority <= RowAfter(op, id, t).priority <= cap
  {
  }

  lemma {:induction false} PrioritiesStayCapped(states: seq<Db>, ops: seq<Op>, k: nat, cap: int, id: TaskId)
    requires Run(states, ops) && CappedAt(ops, cap) && k < |states| && id in states[k].tasks
    ensures states[k].tasks[id].priority <= cap
  {
    if k > 0 {
      assert StepAt(states, ops, k - 1);
      assert CapsPriority(ops[k - 1], cap);
      if id in states[k - 1].tasks {
        QueueRuns.StepRow(states[k - 1], ops[k - 1], states[k], id);
        PrioritiesStayCapped(states, ops, k - 1, cap, id);
        PriorityRow(ops[k - 1], id, states[k - 1].tasks[id], cap);
      } else {
        QueueRuns.StepNewRow(states[k - 1], ops[k - 1], states[k], id);
      }
    }
  }

  /** The same row, up to its texts and the time of its last change. */
  predicate SamePlace(t: Task, u: Task) {
    u == t.(payload := u.payload, result := u.result, updatedAt := u.updatedAt)
  }

  /** While a task waits at the cap, only a purge changes its row, and not its place in the line. */
  lemma WaitingRowFixed(s: Db, op: Op, id: TaskId, cap: int)
    requires Enabled(s, op) && id in s.tasks && CapsPriority(op, cap)
    requires s.tasks[id].status == Queued && s.tasks[id].priority == cap
    requires RowAfter(op, id, s.tasks[id]).status == Queued
    ensures SamePlace(s.tasks[id], RowAfter(op, id, s.tasks[id]))
  {
  }

  ghost predicate WaitsThroughout(states: seq<Db>, i: nat, j: nat, id: TaskId)
    requires i <= j < |states|
  {
    forall k :: i <= k <= j ==> id in states[k].tasks && states[k].tasks[id].status == Queued
  }

  lemma {:induction false} WaitingTaskFixed(states: seq<Db>, ops: seq<Op>, i: nat, j: nat, cap: int, id: TaskId)
    requires Run(states, ops) && CappedAt(ops, cap) && i <= j < |states| && WaitsThroughout(states, i, j, id)
    requires states[i].tasks[id].priority == cap
    ensures SamePlace(states[i].tasks[id], states[j].tasks[id]) && states[i].now <= states[j].now
    decreases j - i
  {
    if i < j {
      var s, op, s' := states[i], ops[i], states[i + 1];
      assert StepAt(states, ops, i);
      QueueRuns.StepRow(s, op, s', id);
      assert CapsPriority(op, cap) && s'.tasks[id].status == Queued;
      WaitingRowFixed(s, op, id, cap);
      WaitingTaskFixed(states, ops, i + 1, j, cap, id);
    }
  }

  /**
   * Once a queued task is available and has aged to the cap, every claim that could have taken it
   * takes a task created no later (ties by ID), for as long as it waits: no interleaving of creates,
   * claims, aging, failures, expiry sweeps and recoveries lets a younger task overtake it.
   */
  lemma AgedTaskNeverOvertaken(states: seq<Db>, ops: seq<Op>, i: nat, j: nat, cap: int, id: TaskId)
    requires Run(states, ops) && CappedAt(ops, cap) && i <= j < |ops| && WaitsThroughout(states, i, j, id)
    requires states[i].tasks[id].priority == cap && states[i].tasks[id].availableAt <= states[i].now
    requires ops[j].Claim? && (ops[j].agent == "" || ops[j].agent == states[i].tasks[id].agent)
    ensures ops[j].picked.Some? && ops[j].picked.value in states[j].tasks
    ensures var winner := states[j].tasks[ops[j].picked.value];
            winner.createdAt < states[i].tasks[id].createdAt
            || (winner.createdAt == states[i].tasks[id].createdAt && ops[j].picked.value <= id)
  {
    WaitingTaskFixed(states, ops, i, j, cap, id);
    assert StepAt(states, ops, j);
    assert Eligible(states[j].tasks[id], ops[j].agent, ops[j].now);
    var winner := ops[j].picked.value;
    PrioritiesStayCapped(states, ops, j, cap, winner);
  }

  // ----- How long an aged task can be kept waiting

  /** `j` would be claimed before `id` among tasks of equal priority. */
  predicate Older(j: TaskId, u: Task, id: TaskId, t: Task) {
    u.createdAt < t.createdAt || (u.createdAt == t.createdAt && j < id)
  }

  /** The queued tasks ahead of `id` that a claim for `agent` may take, available or not. */
  function Ahead(s: Db, agent: string, id: TaskId): set<TaskId>
    requires id in s.tasks
  {
    set j | j in s.tasks && s.tasks[j].status == Queued && (agent == "" || s.tasks[j].agent == agent)
            && Older(j, s.tasks[j], id, s.tasks[id])
  }

  /** The number of claims for one of `agents` in steps `i` to `j`. */
  function Claims(ops: seq<Op>, agents: set<string>, i: nat, j: nat): nat
    requires i <= j <= |ops|
    decreases j - i
  {
    if i == j then 0
    else (if ops[i].Claim? && ops[i].agent in agents then 1 else 0) + Claims(ops, agents, i + 1, j)
  }

  /** How often, in steps `i` to `j`, a task comes to stand ahead of `id` that did not before. */
  function Joins(states: seq<Db>, agent: string, id: TaskId, i: nat, j: nat): nat
    requires i <= j < |states| && forall k :: i <= k <= j ==> id in states[k].tasks
    decreases j - i
  {
    if i == j then 0
    else |Ahead(states[i + 1], agent, id) - Ahead(states[i], agent, id)| + Joins(states, agent, id, i + 1, j)
  }

  /** A claim takes one of the tasks ahead, in its own agent's line and in the line of all; it is queued no more. */
  lemma ClaimShortensTheLine(states: seq<Db>, ops: seq<Op>, i: nat, cap: int, line: string, id: TaskId)
    requires Run(states, ops) && CappedAt(ops, cap) && i < |ops| && WaitsThroughout(states, i, i + 1, id)
    requires states[i].tasks[id].priority == cap && states[i].tasks[id].availableAt <= states[i].now
    requires ops[i].Claim? && ops[i].agent in {"", states[i].tasks[id].agent} && line in {"", ops[i].agent}
    ensures ops[i].picked.Some?
    ensures ops[i].picked.value in Ahead(states[i], line, id)
    ensures ops[i].picked.value !in Ahead(states[i + 1], line, id)
  {
    assert WaitsThroughout(states, i, i, id);
    AgedTaskNeverOvertaken(states, ops, i, i, cap, id);
    ClaimTakesTheNext(states, ops, i);
    var winner := ops[i].picked.value;
    assert states[i + 1].tasks[id].status == Queued;
    assert winner != id;
  }

  /** The claims for `agents` are paid for by the line they all draw from. */
  lemma {:induction false} ClaimsUseUpTheLine(states: seq<Db>, ops: seq<Op>, i: nat, j: nat, cap: int,
                                              agents: set<string>, line: string, id: TaskId)
    requires Run(states, ops) && CappedAt(ops, cap) && i <= j <= |ops| && WaitsThroughout(states, i, j, id)
    requires states[i].tasks[id].priority == cap && states[i].tasks[id].availableAt <= states[i].now
    requires agents <= {"", states[i].tasks[id].agent} && (line == "" || agents <= {line})
    ensures Claims(ops, agents, i, j) + |Ahead(states[j], line, id)|
         <= |Ahead(states[i], line, id)| + Joins(states, line, id, i, j)
    decreases j - i
  {
    if i < j {
      assert WaitsThroughout(states, i, i + 1, id) && WaitsThroughout(states, i + 1, j, id);
      WaitingTaskFixed(states, ops, i, i + 1, cap, id);
      ClaimsUseUpTheLine(states, ops, i + 1, j, cap, agents, line, id);
      var before, after := Ahead(states[i], line, id), Ahead(states[i + 1], line, id);
      if ops[i].Claim? && ops[i].agent in agents {
        ClaimShortensTheLine(states, ops, i, cap, line, id);
        var winner := ops[i].picked.value;
        SetGrowth(before - {winner}, after, before);
        assert |before - {winner}| == |before| - 1;
      } else {
        SetGrowth(before, after, before);
      }
    }
  }

  /**
   * Bounded bypass: while an available task waits at the cap, all the claims that could have taken it, for
   * any agent or for its own, are at most as many as the tasks ahead of it at the start plus those that
   * come to stand ahead of it later (by a retry, an expired lease, a recovery, or an equal creation time).
   * If nothing joins the line, the task is claimed at the latest when the line at the start is used up.
   */
  lemma BoundedBypass(states: seq<Db>, ops: seq<Op>, i: nat, j: nat, cap: int, id: TaskId)
    requires Run(states, ops) && CappedAt(ops, cap) && i <= j <= |ops| && WaitsThroughout(states, i, j, id)
    requires states[i].tasks[id].priority == cap && states[i].tasks[id].availableAt <= states[i].now
    ensures Claims(ops, {"", states[i].tasks[id].agent}, i, j) + |Ahead(states[j], "", id)|
         <= |Ahead(states[i], "", id)| + Joins(states, "", id, i, j)
  {
    ClaimsUseUpTheLine(states, ops, i, j, cap, {"", states[i].tasks[id].agent}, "", id);
  }

  /** The claims for its own agent alone are bounded by that agent's line. */
  lemma BoundedBypassByAgent(states: seq<Db>, ops: seq<Op>, i: nat, j: nat, cap: int, id: TaskId)
    requires Run(states, ops) && CappedAt(ops, cap) && i <= j <= |ops| && WaitsThroughout(states, i, j, id)
    requires states[i].tasks[id].priority == cap && states[i].tasks[id].availableAt <= states[i].now
    ensures var agent := states[i].tasks[id].agent;
            Claims(ops, {agent}, i, j) + |Ahead(states[j], agent, id)| <=
            |Ahead(states[i], agent, id)| + Joins(states, agent, id, i, j)
  {
    var agent := states[i].tasks[id].agent;
    ClaimsUseUpTheLine(states, ops, i, j, cap, {agent}, agent, id);
  }

  lemma SetGrowth(kept: set<TaskId>, after: set<TaskId>, before: set<TaskId>)
    requires after <= kept + (after - before) && kept <= before
    ensures |after| <= |kept| + |after - before|
  {
    var joined := after - before;
    assert after == (after * kept) + joined;
    SubsetSize(after * kept, kept);
  }
}
