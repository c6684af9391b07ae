/**
 * The store's transactions as the code runs them, statement by statement, each proved to commit
 * exactly one step of `TaskQueue` (two for an abort, which commits its cancel flag first).
 */
module QueueStore {
  import opened Common
  import opened TaskQueue
  import Backoff

  datatype StoreError = NoRows | IllegalTransition(from: Status, to: Status) | AgentNotFound

  datatype Outcome = Retried(until: int) | DeadLettered

  datatype FailureDecision = FailureDecision(outcome: Outcome, attempt: int, maxAttempts: int, reason: Reason,
                                             poison: int)

  /** The decision handed back to the caller agrees with the row that was committed. */
  predicate Reports(d: FailureDecision, t: Task) {
    && d.attempt == t.attempt && d.maxAttempts == t.maxAttempts && d.poison == t.poison && t.errorCode == Some(d.reason)
    && t.status == (if d.outcome.DeadLettered? then DeadLetter else Queued)
    && (d.outcome.Retried? ==> t.availableAt == d.outcome.until)
  }

  /** An operation on one task leaves every other row alone. */
  ghost predicate Targets(op: Op, id: TaskId) {
    match op
    case Claim(_, _, _, picked) => picked == Some(id)
    case Start(_, i, _, _) => i == id
    case Heartbeat(_, i, _) => i == id
    case Complete(_, i, _) => i == id
    case Fail(_, i, _) => i == id
    case HandleFailure(_, i, _, _, _) => i == id
    case RequestCancel(_, i) => i == id
    case Abort(_, i) => i == id
    case _ => false
  }

  lemma OtherRow(op: Op, id: TaskId, other: TaskId, t: Task)
    requires Targets(op, id) && other != id
    ensures RowAfter(op, other, t) == t
  {
  }

  lemma NoNewRows(op: Op, id: TaskId)
    requires Targets(op, id)
    ensures NewRows(op) == map[] && !op.Create?
  {
  }

  lemma SingleRowTasks(s: Db, op: Op, id: TaskId)
    requires Targets(op, id)
    ensures After(s, op).tasks == if id in s.tasks then s.tasks[id := RowAfter(op, id, s.tasks[id])] else s.tasks
  {
    NoNewRows(op, id);
    var tasks' := if id in s.tasks then s.tasks[id := RowAfter(op, id, s.tasks[id])] else s.tasks;
    forall other | other in s.tasks
      ensures RowAfter(op, other, s.tasks[other]) == tasks'[other]
    {
      if other != id {
        OtherRow(op, id, other, s.tasks[other]);
      }
    }
  }

  lemma SingleRowEvents(s: Db, op: Op, id: TaskId)
    requires Targets(op, id)
    ensures After(s, op).events == s.events + (if id in s.tasks then RowEvents(op, id, s.tasks[id]) else [])
  {
    NoNewRows(op, id);
    assert EventsFor(s.tasks, op, []) == [];
    assert [id][..0] == [];
    assert EventsFor(s.tasks, op, [id]) == if id in s.tasks then RowEvents(op, id, s.tasks[id]) else [];
  }

  /** So its step is an update of one row plus that row's events. */
  lemma SingleRow(s: Db, op: Op, id: TaskId)
    requires Targets(op, id)
    ensures id in s.tasks ==>
              && After(s, op).tasks == s.tasks[id := RowAfter(op, id, s.tasks[id])]
              && After(s, op).events == s.events + RowEvents(op, id, s.tasks[id])
    ensures id !in s.tasks ==> After(s, op).tasks == s.tasks && After(s, op).events == s.events
  {
    SingleRowTasks(s, op, id);
    SingleRowEvents(s, op, id);
  }

  /** What a failure makes of a running row, and the two events it logs. */
  lemma FailureStep(id: TaskId, t: Task, at: int, message: string, fp: Fingerprint, jitter: nat)
    requires t.status == Running
    ensures var op := HandleFailure(at, id, message, fp, jitter);
            && RowAfter(op, id, t) == RowAfterFailure(t, at, message, fp, jitter)
            && RowEvents(op, id, t) == FailureEvents(id, t, fp)
  {
    assert RowAfterFailure(t, at, message, fp, jitter).status != Running;
  }

  /** The rows, and the log entries, of a bulk requeue of the tasks in `ids`. */
  function RequeuedRows(tasks: map<TaskId, Task>, ids: seq<TaskId>, at: int): map<TaskId, Task> {
    map id | id in tasks :: if id in ids then BackToQueue(tasks[id], at) else tasks[id]
  }

  function RequeueEvent(tasks: map<TaskId, Task>, id: TaskId, what: EventType): Event
    requires id in tasks
  {
    Event(id, tasks[id].session, Some(tasks[id].status), Queued, what)
  }

  function RequeueEvents(tasks: map<TaskId, Task>, ids: seq<TaskId>, what: EventType): seq<Event>
    requires forall id :: id in ids ==> id in tasks
  {
    if ids == [] then [] else RequeueEvents(tasks, ids[..|ids| - 1], what) + [RequeueEvent(tasks, ids[|ids| - 1], what)]
  }

  /** Dealing with one more task of a bulk requeue. */
  lemma OneMoreRequeued(tasks: map<TaskId, Task>, log: seq<Event>, ids: seq<TaskId>, k: nat, what: EventType, at: int)
    requires Distinct(ids) && k < |ids| && forall id :: id in ids ==> id in tasks
    ensures ids[k] in RequeuedRows(tasks, ids[..k], at) && RequeuedRows(tasks, ids[..k], at)[ids[k]] == tasks[ids[k]]
    ensures RequeuedRows(tasks, ids[..k + 1], at)
            == RequeuedRows(tasks, ids[..k], at)[ids[k] := BackToQueue(tasks[ids[k]], at)]
    ensures log + RequeueEvents(tasks, ids[..k + 1], what)
         == log + RequeueEvents(tasks, ids[..k], what) + [RequeueEvent(tasks, ids[k], what)]
  {
    assert ids[..k + 1] == ids[..k] + [ids[k]];
    assert ids[..k + 1][..k] == ids[..k];
  }

  /** The event that `op` appends about each task it sends back to the queue is `what`. */
  lemma RequeueEventsMatch(tasks: map<TaskId, Task>, op: Op, ids: seq<TaskId>, what: EventType)
    requires forall id :: id in ids ==> id in tasks && RowEvents(op, id, tasks[id]) == [RequeueEvent(tasks, id, what)]
    ensures EventsFor(tasks, op, ids) == RequeueEvents(tasks, ids, what)
  {
    if ids != [] {
      RequeueEventsMatch(tasks, op, ids[..|ids| - 1], what);
    }
  }

  /** What a bulk requeue does to one row it takes. */
  lemma RequeuedRow(op: Op, id: TaskId, t: Task)
    requires Takes(op, t)
    ensures RowAfter(op, id, t) == BackToQueue(t, op.now)
    ensures RowEvents(op, id, t) ==
            [Event(id, t.session, Some(t.status), Queued, if op.Recover? then EvRecovered else EvLeaseExpired)]
  {
  }

  /** The bulk requeue takes the rows in `ids` and leaves the others alone. */
  ghost predicate TakesExactly(s: Db, op: Op, ids: seq<TaskId>) {
    && (forall id :: id in ids ==> id in s.tasks && Takes(op, s.tasks[id]))
    && (forall id :: id in s.tasks && id !in ids ==> RowAfter(op, id, s.tasks[id]) == s.tasks[id])
  }

  predicate Takes(op: Op, t: Task) {
    (op.RequeueExpired? && Expired(t, op.now)) || (op.Recover? && InFlight(t.status))
  }

  lemma RequeueStepTasks(s: Db, op: Op, ids: seq<TaskId>)
    requires (op.RequeueExpired? || op.Recover?) && op.order == ids && TakesExactly(s, op, ids)
    ensures After(s, op).tasks == RequeuedRows(s.tasks, ids, op.now)
  {
    assert NewRows(op) == map[];
    forall id | id in s.tasks
      ensures RowAfter(op, id, s.tasks[id]) == if id in ids then BackToQueue(s.tasks[id], op.now) else s.tasks[id]
    {
      if id in ids {
        RequeuedRow(op, id, s.tasks[id]);
      }
    }
  }

  lemma RequeueStepEvents(s: Db, op: Op, ids: seq<TaskId>, what: EventType)
    requires (op.RequeueExpired? || op.Recover?) && op.order == ids && TakesExactly(s, op, ids)
    requires what == if op.Recover? then EvRecovered else EvLeaseExpired
    ensures After(s, op).events == s.events + RequeueEvents(s.tasks, ids, what)
  {
    forall id | id in ids
      ensures RowEvents(op, id, s.tasks[id]) == [RequeueEvent(s.tasks, id, what)]
    {
      RequeuedRow(op, id, s.tasks[id]);
    }
    RequeueEventsMatch(s.tasks, op, ids, what);
    assert Touched(op) == ids;
  }

  lemma ExpiredStep(s: Db, ids: seq<TaskId>, at: int)
    requires ListsExpired(ids, s.tasks, at)
    ensures After(s, RequeueExpired(at, ids)).tasks == RequeuedRows(s.tasks, ids, at)
    ensures After(s, RequeueExpired(at, ids)).events == s.events + RequeueEvents(s.tasks, ids, EvLeaseExpired)
  {
    assert TakesExactly(s, RequeueExpired(at, ids), ids);
    RequeueStepTasks(s, RequeueExpired(at, ids), ids);
    RequeueStepEvents(s, RequeueExpired(at, ids), ids, EvLeaseExpired);
  }

  lemma RecoverStep(s: Db, ids: seq<TaskId>, at: int)
    requires ListsInFlight(ids, s.tasks)
    ensures After(s, Recover(at, ids)).tasks == RequeuedRows(s.tasks, ids, at)
    ensures After(s, Recover(at, ids)).events == s.events + RequeueEvents(s.tasks, ids, EvRecovered)
  {
    assert TakesExactly(s, Recover(at, ids), ids);
    RequeueStepTasks(s, Recover(at, ids), ids);
    RequeueStepEvents(s, Recover(at, ids), ids, EvRecovered);
  }

  /** The messages left when the orphans of the tasks in `ids` are deleted. */
  function WithoutOrphansOf(tasks: map<TaskId, Task>, ids: seq<TaskId>, messages: seq<Message>): seq<Message>
    requires forall id :: id in ids ==> id in tasks
  {
    if messages == [] then []
    else
      var rest := WithoutOrphansOf(tasks, ids, messages[..|messages| - 1]);
      var m := messages[|messages| - 1];
      if exists id :: id in ids && LeftBy(tasks[id], m) then rest else rest + [m]
  }

  /** `messages` without the assistant messages of `session` written at `since` or later. */
  function Surviving(messages: seq<Message>, session: SessionId, since: int): seq<Message> {
    if messages == [] then []
    else
      var rest := Surviving(messages[..|messages| - 1], session, since);
      var m := messages[|messages| - 1];
      if m.session == session && m.assistant && m.createdAt >= since then rest else rest + [m]
  }

  lemma NoOrphansYet(tasks: map<TaskId, Task>, messages: seq<Message>)
    ensures WithoutOrphansOf(tasks, [], messages) == messages
  {
    if messages != [] {
      NoOrphansYet(tasks, messages[..|messages| - 1]);
    }
  }

  lemma SurvivingAppend(messages: seq<Message>, m: Message, session: SessionId, since: int)
    ensures Surviving(messages + [m], session, since)
         == Surviving(messages, session, since)
            + (if m.session == session && m.assistant && m.createdAt >= since then [] else [m])
  {
    assert (messages + [m])[..|messages|] == messages;
  }

  /** Cleaning up after one more task deletes exactly its orphans from what is left. */
  lemma {:induction false} OneMoreCleaned(tasks: map<TaskId, Task>, ids: seq<TaskId>, k: nat, messages: seq<Message>)
    requires k < |ids| && forall id :: id in ids ==> id in tasks
    ensures WithoutOrphansOf(tasks, ids[..k + 1], messages)
         == var left := WithoutOrphansOf(tasks, ids[..k], messages);
            var t := tasks[ids[k]];
            if t.status == Running then Surviving(left, t.session, t.updatedAt) else left
  {
    if messages != [] {
      var front, m := messages[..|messages| - 1], messages[|messages| - 1];
      OneMoreCleaned(tasks, ids, k, front);
      assert ids[..k + 1] == ids[..k] + [ids[k]];
      var t := tasks[ids[k]];
      SurvivingAppend(WithoutOrphansOf(tasks, ids[..k], front), m, t.session, t.updatedAt);
    }
  }

  lemma {:induction false} AllCleaned(tasks: map<TaskId, Task>, ids: seq<TaskId>, messages: seq<Message>)
    requires ListsInFlight(ids, tasks)
    ensures WithoutOrphansOf(tasks, ids, messages) == WithoutOrphans(tasks, messages)
  {
    if messages != [] {
      AllCleaned(tasks, ids, messages[..|messages| - 1]);
    }
  }

  /** Capping the new priority never matters: only rows below the cap are aged. */
  lemma AgeStep(s: Db, threshold: int, cap: int, at: int)
    ensures After(s, Age(at, threshold, cap)).events == s.events
    ensures After(s, Age(at, threshold, cap)).tasks ==
              map id | id in s.tasks ::
                if Ages(s.tasks[id], at, threshold, cap)
                then s.tasks[id].(
                  priority := if s.tasks[id].priority + 1 < cap then s.tasks[id].priority + 1 else cap, updatedAt := at)
                else s.tasks[id]
  {
  }

  lemma DeleteAgentStep(s: Db, agent: string, at: int)
    ensures After(s, DeleteAgent(at, agent)).events == s.events
    ensures After(s, DeleteAgent(at, agent)).tasks ==
              map id | id in s.tasks ::
                if s.tasks[id].agent == agent && s.tasks[id].status in {Queued, Claimed}
                then s.tasks[id].(status := Canceled, error := Some("agent_deleted"), errorCode := Some(AgentCanceled),
                                  updatedAt := at, leaseOwner := None, leaseExpires := None)
                else s.tasks[id]
  {
  }

  function TombstonedRows(tasks: map<TaskId, Task>, session: SessionId, at: int): map<TaskId, Task> {
    map id | id in tasks :: if tasks[id].session == session then Tombstone(tasks[id], at) else tasks[id]
  }

  /** How many events are of this session. */
  function EventsIn(events: seq<Event>, session: SessionId): nat {
    if events == [] then 0
    else EventsIn(events[..|events| - 1], session) + if events[|events| - 1].session == session then 1 else 0
  }

  lemma PurgeStep(s: Db, session: SessionId, at: int)
    ensures After(s, Purge(at, session)).events == s.events
    ensures After(s, Purge(at, session)).tasks == TombstonedRows(s.tasks, session, at)
  {
  }

  /** The links that do not name the agent. */
  function WithoutAgent(links: seq<(string, string)>, agent: string): seq<(string, string)> {
    if links == [] then []
    else
      var link := links[|links| - 1];
      WithoutAgent(links[..|links| - 1], agent) + (if link.0 == agent || link.1 == agent then [] else [link])
  }

  class Store {
    var tasks: map<TaskId, Task>
    var events: seq<Event>
    var messages: seq<Message>
    var agents: set<string>
    /** Sender and receiver of each inter-agent message; parent and child of each delegation. */
    var agentMessages: seq<(string, string)>
    var delegations: seq<(string, string)>
    ghost var issued: set<Token>
    ghost var lastCommit: int

    ghost function State(): Db
      reads this
    {
      Db(lastCommit, tasks, events, messages, issued)
    }

    constructor ()
      ensures State() == EMPTY && agents == {} && agentMessages == [] && delegations == []
    {
      tasks, events, messages, issued, lastCommit := map[], [], [], {}, 0;
      agents, agentMessages, delegations := {}, [], [];
    }

    method AppendTaskEventTx(id: TaskId, session: SessionId, from: Option<Status>, to: Status, what: EventType)
      modifies this`events
      ensures events == old(events) + [Event(id, session, from, to, what)]
    {
      events := events + [Event(id, session, from, to, what)];
    }

    /** Moves a task along the transition table; an illegal move is an error that aborts the transaction. */
    method TransitionTaskTx(id: TaskId, allowedFrom: set<Status>, to: Status, what: EventType,
                            result: Option<string>, error: Option<string>, at: int)
      returns (r: Result<bool, StoreError>)
      modifies this`tasks, this`events
      ensures id !in old(tasks) || old(tasks)[id].status !in allowedFrom ==> r == Ok(false)
      ensures id in old(tasks) && old(tasks)[id].status in allowedFrom ==>
                r == if CanTransition(old(tasks)[id].status, to) then Ok(true)
                     else Err(IllegalTransition(old(tasks)[id].status, to))
      ensures r != Ok(true) ==> tasks == old(tasks) && events == old(events)
      ensures r == Ok(true) ==>
                var t := old(tasks)[id];
                && tasks == old(tasks)[id := t.(
                                         status := to,
                                         result := if result.Some? then result else t.result,
                                         error := if error.Some? then error else t.error,
                                         updatedAt := at)]
                && events == old(events) + [Event(id, t.session, Some(t.status), to, what)]
    {
      if id !in tasks {
        return Ok(false);
      }
      var t := tasks[id];
      if t.status !in allowedFrom {
        return Ok(false);
      }
      if !CanTransition(t.status, to) {
        return Err(IllegalTransition(t.status, to));
      }
      tasks := tasks[id := t.(status := to,
                              result := if result.Some? then result else t.result,
                              error := if error.Some? then error else t.error,
                              updatedAt := at)];
      AppendTaskEventTx(id, t.session, Some(t.status), to, what);
      return Ok(true);
    }

    method CreateTask(id: TaskId, agent: string, session: SessionId, payload: string, maxAttempts: int, at: int)
      requires lastCommit <= at && id !in tasks
      modifies this`tasks, this`events, this`messages, this`issued, this`lastCommit
      ensures Step(old(State()), Create(at, id, session, agent, payload, maxAttempts), State())
    {
      ghost var op := Create(at, id, session, agent, payload, maxAttempts);
      var who := if agent == "" then DEFAULT_AGENT else agent;
      tasks := tasks[id := Task(session, Chat, who, Queued, 0, 0, maxAttempts, at, false, None, None, 0,
                                None, None, None, payload, None, None, at, at)];
      AppendTaskEventTx(id, session, None, Queued, EvEnqueued);
      lastCommit := at;
      assert tasks == After(old(State()), op).tasks;
    }

    method CreateSubtask(id: TaskId, session: SessionId, payload: string, priority: int, at: int)
      requires lastCommit <= at && id !in tasks
      modifies this`tasks, this`events, this`messages, this`issued, this`lastCommit
      ensures Step(old(State()), TaskQueue.CreateSubtask(at, id, session, priority, payload), State())
    {
      tasks := tasks[id := Task(session, Subtask, DEFAULT_AGENT, Queued, priority, 0, DEFAULT_MAX_ATTEMPTS, at, false,
                                None, None, 0, None, None, None, payload, None, None, at, at)];
      lastCommit := at;
      ghost var op := TaskQueue.CreateSubtask(at, id, session, priority, payload);
      assert tasks == After(old(State()), op).tasks;
      assert events == After(old(State()), op).events;
    }

    method RecordToolTask(id: TaskId, session: SessionId, payload: string, result: string, failure: Option<string>,
                          at: int)
      requires lastCommit <= at && id !in tasks
      modifies this`tasks, this`events, this`messages, this`issued, this`lastCommit
      ensures Step(old(State()), RecordTool(at, id, session, payload, result, failure), State())
    {
      var status, message := Succeeded, "";
      if failure.Some? {
        status, message := Failed, failure.value;
      }
      tasks := tasks[id := Task(session, Tool, DEFAULT_AGENT, status, 0, 0, DEFAULT_MAX_ATTEMPTS, at, false,
                                None, None, 0, None, None, None, payload, Some(result), Some(message), at, at)];
      lastCommit := at;
      ghost var op := RecordTool(at, id, session, payload, result, failure);
      assert tasks == After(old(State()), op).tasks;
      assert events == After(old(State()), op).events;
    }

    /** The claim query: the first eligible row in claim order. */
    method SelectNext(agent: string, at: int) returns (picked: Option<TaskId>)
      ensures IsNext(tasks, agent, at, picked)
    {
      picked := None;
      var left := tasks.Keys;
      while left != {}
        invariant left <= tasks.Keys
        invariant picked.Some? ==> picked.value in tasks && Eligible(tasks[picked.value], agent, at)
        invariant forall j :: j in tasks && j !in left && Eligible(tasks[j], agent, at) ==>
                                picked.Some? && ClaimedBefore(picked.value, tasks[picked.value], j, tasks[j])
        decreases left
      {
        var j :| j in left;
        left := left - {j};
        if Eligible(tasks[j], agent, at) {
          if picked.None? || !ClaimedBefore(picked.value, tasks[picked.value], j, tasks[j]) {
            picked := Some(j);
          }
        }
      }
    }

    method ClaimNextPendingTask(agent: string, token: Token, at: int) returns (claimed: Option<TaskId>)
      requires lastCommit <= at && token !in issued
      modifies this`tasks, this`events, this`messages, this`issued, this`lastCommit
      ensures Step(old(State()), Claim(at, agent, token, claimed), State())
    {
      claimed := SelectNext(agent, at);
      ghost var op := Claim(at, agent, token, claimed);
      lastCommit := at;
      if claimed.Some? {
        var id := claimed.value;
        SingleRow(old(State()), op, id);
        var ok := TransitionTaskTx(id, {Queued}, Claimed, EvClaimed, None, None, at);
        assert ok == Ok(true);
        tasks := tasks[id := tasks[id].(leaseOwner := Some(token), leaseExpires := Some(at + LEASE_DURATION),
                                        updatedAt := at)];
        issued := issued + {token};
      } else {
        assert tasks == After(old(State()), op).tasks;
      }
    }

    method StartTaskRun(id: TaskId, owner: Option<Token>, policy: string, at: int) returns (r: Result<(), StoreError>)
      requires lastCommit <= at
      modifies this`tasks, this`events, this`messages, this`issued, this`lastCommit
      ensures Step(old(State()), Start(at, id, owner, policy), State())
      ensures r.Ok? <==> id in old(tasks) && old(tasks)[id].status == Claimed && HoldsLease(old(tasks)[id], owner)
    {
      ghost var op := Start(at, id, owner, policy);
      SingleRow(State(), op, id);
      lastCommit := at;
      if id !in tasks || tasks[id].status != Claimed {
        return Err(NoRows);
      }
      if tasks[id].leaseOwner.None? || tasks[id].leaseOwner != owner {
        return Err(NoRows);
      }
      var ok := TransitionTaskTx(id, {Claimed}, Running, EvRunning, None, None, at);
      assert ok == Ok(true);
      tasks := tasks[id := tasks[id].(leaseExpires := Some(at + LEASE_DURATION), policyVersion := Some(policy),
                                      updatedAt := at)];
      return Ok(());
    }

    method HeartbeatLease(id: TaskId, owner: Option<Token>, at: int) returns (renewed: bool)
      requires lastCommit <= at
      modifies this`tasks, this`events, this`messages, this`issued, this`lastCommit
      ensures Step(old(State()), Heartbeat(at, id, owner), State())
      ensures renewed <==> id in old(tasks) && HoldsLease(old(tasks)[id], owner)
    {
      SingleRow(State(), Heartbeat(at, id, owner), id);
      lastCommit := at;
      renewed := owner.Some? && id in tasks && tasks[id].leaseOwner == owner && tasks[id].status in {Claimed, Running};
      if renewed {
        tasks := tasks[id := tasks[id].(leaseExpires := Some(at + LEASE_DURATION), updatedAt := at)];
      }
    }

    method CompleteTask(id: TaskId, result: string, at: int) returns (r: Result<(), StoreError>)
      requires lastCommit <= at
      modifies this`tasks, this`events, this`messages, this`issued, this`lastCommit
      ensures Step(old(State()), Complete(at, id, result), State())
      ensures r.Ok? <==> id in old(tasks) && old(tasks)[id].status == Running
    {
      SingleRow(State(), Complete(at, id, result), id);
      lastCommit := at;
      var ok := TransitionTaskTx(id, {Running}, Succeeded, EvSucceeded, Some(result), None, at);
      if ok != Ok(true) {
        return Err(NoRows);
      }
      tasks := tasks[id := tasks[id].(leaseOwner := None, leaseExpires := None, error := None, updatedAt := at)];
      return Ok(());
    }

    /** Lists queued and claimed as sources, but the table forbids both moves: those calls fail and change nothing. */
    method FailTask(id: TaskId, message: string, at: int) returns (r: Result<(), StoreError>)
      requires lastCommit <= at
      modifies this`tasks, this`events, this`messages, this`issued, this`lastCommit
      ensures Step(old(State()), Fail(at, id, message), State())
      ensures r.Ok? <==> id in old(tasks) && old(tasks)[id].status in {Running, RetryWait}
      ensures id in old(tasks) && old(tasks)[id].status in {Queued, Claimed} ==>
                r == Err(IllegalTransition(old(tasks)[id].status, Failed))
    {
      SingleRow(State(), Fail(at, id, message), id);
      lastCommit := at;
      var ok := TransitionTaskTx(id, {Queued, Claimed, Running, RetryWait}, Failed, EvFailed, None, Some(message), at);
      if ok.Err? {
        return Err(ok.error);
      }
      if !ok.value {
        return Err(NoRows);
      }
      tasks := tasks[id := tasks[id].(leaseOwner := None, leaseExpires := None, updatedAt := at)];
      return Ok(());
    }

    /** RUNNING to FAILED to DEAD_LETTER, with the failure's metadata written in between. */
    method DeadLetterTx(id: TaskId, message: string, fp: Fingerprint, attempt: int, maxAttempts: int, poison: int,
                        reason: Reason, at: int)
      requires id in tasks && tasks[id].status == Running
      modifies this`tasks, this`events
      ensures tasks == old(tasks)[id := old(tasks)[id].(
                                    status := DeadLetter, error := Some(message), attempt := attempt,
                                    maxAttempts := maxAttempts, errorCode := Some(reason), fingerprint := Some(fp),
                                    poison := poison, leaseOwner := None, leaseExpires := None, updatedAt := at)]
      ensures events == old(events) + [Event(id, old(tasks)[id].session, Some(Running), Failed, EvFailed),
                                       Event(id, old(tasks)[id].session, Some(Failed), DeadLetter, EvDeadLetter)]
    {
      var first := TransitionTaskTx(id, {Running}, Failed, EvFailed, None, Some(message), at);
      assert first == Ok(true);
      tasks := tasks[id := tasks[id].(attempt := attempt, maxAttempts := maxAttempts, errorCode := Some(reason),
                                      fingerprint := Some(fp), poison := poison,
                                      leaseOwner := None, leaseExpires := None, updatedAt := at)];
      var second := TransitionTaskTx(id, {Failed}, DeadLetter, EvDeadLetter, None, None, at);
      assert second == Ok(true);
      tasks := tasks[id := tasks[id].(leaseOwner := None, leaseExpires := None, updatedAt := at)];
    }

    /** RUNNING to RETRY_WAIT to QUEUED: the waiting status never outlives the transaction. */
    method RetryTx(id: TaskId, message: string, fp: Fingerprint, attempt: int, maxAttempts: int, poison: int,
                   reason: Reason, availableAt: int, at: int)
      requires id in tasks && tasks[id].status == Running
      modifies this`tasks, this`events
      ensures tasks == old(tasks)[id := old(tasks)[id].(
                                    status := Queued, error := Some(message), attempt := attempt,
                                    maxAttempts := maxAttempts, availableAt := availableAt, errorCode := Some(reason),
                                    fingerprint := Some(fp), poison := poison,
                                    leaseOwner := None, leaseExpires := None, updatedAt := at)]
      ensures events == old(events) + [Event(id, old(tasks)[id].session, Some(Running), RetryWait, EvRetryWait),
                                       Event(id, old(tasks)[id].session, Some(RetryWait), Queued, EvRequeued)]
    {
      var first := TransitionTaskTx(id, {Running}, RetryWait, EvRetryWait, None, Some(message), at);
      assert first == Ok(true);
      tasks := tasks[id := tasks[id].(attempt := attempt, maxAttempts := maxAttempts, availableAt := availableAt,
                                      errorCode := Some(reason), fingerprint := Some(fp), poison := poison,
                                      leaseOwner := None, leaseExpires := None, updatedAt := at)];
      var second := TransitionTaskTx(id, {RetryWait}, Queued, EvRequeued, None, None, at);
      assert second == Ok(true);
    }

    /** Counts the failure and decides: the poison rule first, then the attempts, whose reason wins. */
    static method Decide(t: Task, fp: Fingerprint)
      returns (maxAttempts: int, nextAttempt: int, nextPoison: int, reason: Reason, dead: bool)
      ensures maxAttempts == Budget(t) && nextAttempt == t.attempt + 1 && nextPoison == NextPoison(t, fp)
      ensures reason == FailureReason(t, fp) && dead == DeadLetters(t, fp)
    {
      maxAttempts := if t.maxAttempts <= 0 then DEFAULT_MAX_ATTEMPTS else t.maxAttempts;
      nextAttempt, nextPoison := t.attempt + 1, 1;
      if t.fingerprint == Some(fp) {
        nextPoison := t.poison + 1;
      }
      reason, dead := RetryProcessorError, false;
      if nextPoison >= POISON_THRESHOLD {
        reason, dead := DeadLetterPoisonPill, true;
      }
      if nextAttempt >= maxAttempts {
        reason, dead := DeadLetterMaxAttempts, true;
      }
    }

    /** Retry, or dead-letter, a running task. */
    method HandleTaskFailure(id: TaskId, message: string, fp: Fingerprint, jitter: nat, at: int)
      returns (r: Result<FailureDecision, StoreError>)
      requires lastCommit <= at && jitter <= Backoff.INT64_MAX
      modifies this`tasks, this`events, this`messages, this`issued, this`lastCommit
      ensures Step(old(State()), HandleFailure(at, id, message, fp, jitter), State())
      ensures r.Ok? <==> id in old(tasks) && old(tasks)[id].status == Running
      ensures r.Ok? ==> id in tasks && Reports(r.value, tasks[id])
    {
      ghost var op := HandleFailure(at, id, message, fp, jitter);
      SingleRow(State(), op, id);
      lastCommit := at;
      if id !in tasks || tasks[id].status != Running {
        assert id in tasks ==> tasks == tasks[id := tasks[id]];
        return Err(NoRows);
      }
      FailureStep(id, tasks[id], at, message, fp, jitter);
      var decision := FailTx(id, message, fp, jitter, at);
      return Ok(decision);
    }

    /** Decides about a failure and carries the decision out. */
    method FailTx(id: TaskId, message: string, fp: Fingerprint, jitter: nat, at: int) returns (d: FailureDecision)
      requires id in tasks && tasks[id].status == Running && jitter <= Backoff.INT64_MAX
      modifies this`tasks, this`events
      ensures tasks == old(tasks)[id := RowAfterFailure(old(tasks)[id], at, message, fp, jitter)]
      ensures events == old(events) + FailureEvents(id, old(tasks)[id], fp)
      ensures Reports(d, tasks[id])
    {
      var maxAttempts, nextAttempt, nextPoison, reason, dead := Decide(tasks[id], fp);
      if dead {
        DeadLetterTx(id, message, fp, nextAttempt, maxAttempts, nextPoison, reason, at);
        return FailureDecision(DeadLettered, nextAttempt, maxAttempts, reason, nextPoison);
      }
      var delay := Backoff.RetryDelay(nextAttempt, jitter);
      RetryTx(id, message, fp, nextAttempt, maxAttempts, nextPoison, reason, at + delay, at);
      return FailureDecision(Retried(at + delay), nextAttempt, maxAttempts, reason, nextPoison);
    }

    method RequestCancel(id: TaskId, at: int) returns (updated: bool)
      requires lastCommit <= at
      modifies this`tasks, this`events, this`messages, this`issued, this`lastCommit
      ensures Step(old(State()), TaskQueue.RequestCancel(at, id), State())
      ensures updated <==> id in old(tasks) && old(tasks)[id].status in {Claimed, Running, RetryWait}
    {
      ghost var op := TaskQueue.RequestCancel(at, id);
      SingleRow(State(), op, id);
      lastCommit := at;
      updated := id in tasks && tasks[id].status in {Claimed, Running, RetryWait};
      if updated {
        tasks := tasks[id := tasks[id].(cancelRequested := true, updatedAt := at)];
      }
    }

    method AbortTx(id: TaskId, at: int) returns (aborted: bool)
      requires lastCommit <= at
      modifies this`tasks, this`events, this`messages, this`issued, this`lastCommit
      ensures Step(old(State()), Abort(at, id), State())
      ensures aborted <==> id in old(tasks) && !IsTerminal(old(tasks)[id].status)
    {
      SingleRow(State(), Abort(at, id), id);
      lastCommit := at;
      var ok := TransitionTaskTx(id, {Queued, Claimed, Running, RetryWait}, Canceled, EvCanceled, None, Some("aborted"),
                                 at);
      aborted := ok == Ok(true);
      if aborted {
        tasks := tasks[id := tasks[id].(leaseOwner := None, leaseExpires := None, errorCode := Some(Aborted),
                                        updatedAt := at)];
      } else if id in tasks {
        match tasks[id].status {
          case Queued => case Claimed => case Running => case RetryWait =>
          case _ => assert tasks == tasks[id := tasks[id]];
        }
      }
    }

    /** The cancel flag is committed on its own before the transaction that cancels. */
    method AbortTask(id: TaskId, at: int) returns (aborted: bool, ghost between: Db)
      requires lastCommit <= at
      modifies this`tasks, this`events, this`messages, this`issued, this`lastCommit
      ensures Step(old(State()), TaskQueue.RequestCancel(at, id), between)
      ensures Step(between, Abort(at, id), State())
      ensures aborted <==> id in old(tasks) && !IsTerminal(old(tasks)[id].status)
      ensures aborted ==> id in tasks && tasks[id].status == Canceled
    {
      SingleRow(State(), TaskQueue.RequestCancel(at, id), id);
      var _ := RequestCancel(id, at);
      SingleRow(State(), Abort(at, id), id);
      between := State();
      aborted := AbortTx(id, at);
    }

    method AgeQueuedPriorities(threshold: int, cap: int, at: int) returns (aged: nat)
      requires lastCommit <= at
      modifies this`tasks, this`events, this`messages, this`issued, this`lastCommit
      ensures Step(old(State()), Age(at, threshold, cap), State())
      ensures aged == |set id | id in old(tasks) && Ages(old(tasks)[id], at, threshold, cap)|
    {
      AgeStep(State(), threshold, cap, at);
      var rows := set id | id in tasks && Ages(tasks[id], at, threshold, cap);
      aged := |rows|;
      tasks := map id | id in tasks ::
          if id in rows
          then tasks[id].(priority := if tasks[id].priority + 1 < cap then tasks[id].priority + 1 else cap,
                          updatedAt := at)
          else tasks[id];
      lastCommit := at;
    }

    /** Cancels the deleted agent's queued and claimed tasks in one bulk update, without events. */
    method CancelOrphans(agent: string, at: int)
      requires lastCommit <= at
      modifies this`tasks, this`lastCommit
      ensures Step(old(State()), TaskQueue.DeleteAgent(at, agent), State())
    {
      DeleteAgentStep(State(), agent, at);
      tasks := map id | id in tasks ::
          if tasks[id].agent == agent && tasks[id].status in {Queued, Claimed}
          then tasks[id].(status := Canceled, error := Some("agent_deleted"), errorCode := Some(AgentCanceled),
                          updatedAt := at, leaseOwner := None, leaseExpires := None)
          else tasks[id];
      lastCommit := at;
    }

    /** Deletes the rows that name the agent on either side. */
    static method DeleteLinks(links: seq<(string, string)>, agent: string) returns (kept: seq<(string, string)>)
      ensures kept == WithoutAgent(links, agent)
    {
      kept := [];
      for i := 0 to |links|
        invariant kept == WithoutAgent(links[..i], agent)
      {
        assert links[..i + 1][..i] == links[..i];
        if links[i].0 != agent && links[i].1 != agent {
          kept := kept + [links[i]];
        }
      }
      assert links[..|links|] == links;
    }

    /** Deletes an agent and its links and cancels its waiting tasks, in one transaction. */
    method DeleteAgent(agent: string, at: int) returns (r: Result<(), StoreError>)
      requires lastCommit <= at
      modifies this
      ensures r == if agent in old(agents) then Ok(()) else Err(AgentNotFound)
      ensures r.Ok? ==> Step(old(State()), TaskQueue.DeleteAgent(at, agent), State())
      ensures r.Ok? ==> agents == old(agents) - {agent}
      ensures r.Ok? ==> agentMessages == WithoutAgent(old(agentMessages), agent)
      ensures r.Ok? ==> delegations == WithoutAgent(old(delegations), agent)
      ensures r.Err? ==> unchanged(this)
    {
      if agent !in agents {
        return Err(AgentNotFound);
      }
      agents := agents - {agent};
      agentMessages := DeleteLinks(agentMessages, agent);
      delegations := DeleteLinks(delegations, agent);
      CancelOrphans(agent, at);
      return Ok(());
    }

    method DeleteSession(session: SessionId) returns (deleted: nat)
      modifies this`messages
      ensures messages == WithoutSession(old(messages), session)
      ensures deleted == |old(messages)| - |messages|
    {
      var kept := [];
      deleted := 0;
      for i := 0 to |messages|
        invariant kept == WithoutSession(messages[..i], session) && messages == old(messages)
        invariant deleted + |kept| == i
      {
        assert messages[..i + 1][..i] == messages[..i];
        if messages[i].session == session {
          deleted := deleted + 1;
        } else {
          kept := kept + [messages[i]];
        }
      }
      assert messages[..|messages|] == messages;
      messages := kept;
    }

    /** Deletes a session's messages and overwrites the texts of its tasks, finished or not, in one transaction. */
    method PurgeSessionPII(session: SessionId, at: int)
      returns (deleted: nat, tombstoned: nat, eventsTombed: nat, recorded: nat)
      requires lastCommit <= at
      modifies this`tasks, this`events, this`messages, this`issued, this`lastCommit
      ensures Step(old(State()), Purge(at, session), State())
      ensures deleted == |old(messages)| - |messages|
      ensures tombstoned == |set id | id in old(tasks) && old(tasks)[id].session == session|
      ensures eventsTombed == EventsIn(events, session) && recorded == deleted + tombstoned
    {
      PurgeStep(State(), session, at);
      deleted := DeleteSession(session);
      tombstoned := TombstoneTasks(session, at);
      recorded := deleted + tombstoned;
      eventsTombed := CountEvents(session);
      lastCommit := at;
    }

    method CountEvents(session: SessionId) returns (n: nat)
      ensures n == EventsIn(events, session)
    {
      n := 0;
      for i := 0 to |events|
        invariant n == EventsIn(events[..i], session)
      {
        assert events[..i + 1][..i] == events[..i];
        if events[i].session == session {
          n := n + 1;
        }
      }
      assert events[..|events|] == events;
    }

    method TombstoneTasks(session: SessionId, at: int) returns (tombstoned: nat)
      modifies this`tasks
      ensures tasks == TombstonedRows(old(tasks), session, at)
      ensures tombstoned == |set id | id in old(tasks) && old(tasks)[id].session == session|
    {
      var rows := set id | id in tasks && tasks[id].session == session;
      tombstoned := |rows|;
      tasks := map id | id in tasks ::
          if id in rows
          then tasks[id].(payload := REDACTED,
                          result := match tasks[id].result
                                    case Some(text) => Some(if text != "" then REDACTED else text)
                                    case None => None,
                          updatedAt := at)
          else tasks[id];
    }

    /** Claimed and running rows whose lease ran out, in whatever order the scan returns them. */
    method SelectExpired(at: int) returns (ids: seq<TaskId>)
      ensures ListsExpired(ids, tasks, at)
    {
      ids := [];
      var left := tasks.Keys;
      while left != {}
        invariant left <= tasks.Keys && Distinct(ids)
        invariant forall id :: id in ids <==> id in tasks && id !in left && Expired(tasks[id], at)
        decreases left
      {
        var id :| id in left;
        left := left - {id};
        if Expired(tasks[id], at) {
          ids := ids + [id];
        }
      }
    }

    /** One row of a bulk requeue: the move, then the lease columns. */
    method RequeueTx(id: TaskId, what: EventType, at: int) returns (ok: bool)
      requires id in tasks && InFlight(tasks[id].status)
      modifies this`tasks, this`events
      ensures ok
      ensures tasks == old(tasks)[id := BackToQueue(old(tasks)[id], at)]
      ensures events == old(events) + [Event(id, old(tasks)[id].session, Some(old(tasks)[id].status), Queued, what)]
    {
      var moved := TransitionTaskTx(id, {Claimed, Running}, Queued, what, None, None, at);
      ok := moved == Ok(true);
      if ok {
        tasks := tasks[id := tasks[id].(leaseOwner := None, leaseExpires := None, updatedAt := at)];
      }
    }

    /** The loop over the rows whose lease expired. */
    method RequeueAllTx(ids: seq<TaskId>, at: int) returns (moved: nat)
      requires Distinct(ids) && forall id :: id in ids ==> id in tasks && InFlight(tasks[id].status)
      modifies this`tasks, this`events
      ensures tasks == RequeuedRows(old(tasks), ids, at)
      ensures events == old(events) + RequeueEvents(old(tasks), ids, EvLeaseExpired)
      ensures moved == |ids|
    {
      moved := 0;
      var k := 0;
      assert tasks == RequeuedRows(old(tasks), ids[..0], at);
      while k < |ids|
        invariant 0 <= k <= |ids| && moved == k
        invariant tasks == RequeuedRows(old(tasks), ids[..k], at)
        invariant events == old(events) + RequeueEvents(old(tasks), ids[..k], EvLeaseExpired)
      {
        OneMoreRequeued(old(tasks), old(events), ids, k, EvLeaseExpired, at);
        var ok := RequeueTx(ids[k], EvLeaseExpired, at);
        if ok {
          moved := moved + 1;
        }
        k := k + 1;
      }
      assert ids[..k] == ids;
    }

    method RequeueExpiredLeases(at: int) returns (reclaimed: nat, ghost order: seq<TaskId>)
      requires lastCommit <= at
      modifies this`tasks, this`events, this`messages, this`issued, this`lastCommit
      ensures Step(old(State()), RequeueExpired(at, order), State())
      ensures reclaimed == |order|
    {
      var ids := SelectExpired(at);
      order := ids;
      ExpiredStep(State(), ids, at);
      reclaimed := RequeueAllTx(ids, at);
      lastCommit := at;
    }

    method SelectInFlight() returns (ids: seq<TaskId>)
      ensures ListsInFlight(ids, tasks)
    {
      ids := [];
      var left := tasks.Keys;
      while left != {}
        invariant left <= tasks.Keys && Distinct(ids)
        invariant forall id :: id in ids <==> id in tasks && id !in left && InFlight(tasks[id].status)
        decreases left
      {
        var id :| id in left;
        left := left - {id};
        if InFlight(tasks[id].status) {
          ids := ids + [id];
        }
      }
    }

    /** Deletes the assistant messages a crashed run may have left in its session. */
    method DeleteOrphans(session: SessionId, since: int)
      modifies this`messages
      ensures messages == Surviving(old(messages), session, since)
    {
      var kept := [];
      var i := 0;
      while i < |messages|
        invariant 0 <= i <= |messages|
        invariant kept == Surviving(messages[..i], session, since)
      {
        var m := messages[i];
        assert messages[..i + 1][..i] == messages[..i];
        if !(m.session == session && m.assistant && m.createdAt >= since) {
          kept := kept + [m];
        }
        i := i + 1;
      }
      assert messages[..i] == messages;
      messages := kept;
    }

    /** The loop over the claimed and running rows. */
    method RecoverAllTx(ids: seq<TaskId>, at: int) returns (moved: nat)
      requires Distinct(ids) && forall id :: id in ids ==> id in tasks && InFlight(tasks[id].status)
      modifies this`tasks, this`events, this`messages
      ensures tasks == RequeuedRows(old(tasks), ids, at)
      ensures events == old(events) + RequeueEvents(old(tasks), ids, EvRecovered)
      ensures messages == WithoutOrphansOf(old(tasks), ids, old(messages))
      ensures moved == |ids|
    {
      var rows := tasks;
      moved := 0;
      var k := 0;
      assert tasks == RequeuedRows(rows, ids[..0], at);
      NoOrphansYet(rows, messages);
      while k < |ids|
        invariant 0 <= k <= |ids| && moved == k
        invariant tasks == RequeuedRows(rows, ids[..k], at)
        invariant events == old(events) + RequeueEvents(rows, ids[..k], EvRecovered)
        invariant messages == WithoutOrphansOf(rows, ids[..k], old(messages))
      {
        var id := ids[k];
        OneMoreRequeued(rows, old(events), ids, k, EvRecovered, at);
        OneMoreCleaned(rows, ids, k, old(messages));
        var ok := RequeueTx(id, EvRecovered, at);
        if ok {
          if rows[id].status == Running {
            DeleteOrphans(rows[id].session, rows[id].updatedAt);
          }
          moved := moved + 1;
        }
        k := k + 1;
      }
      assert ids[..k] == ids;
    }

    method RecoverRunningTasks(at: int) returns (recovered: nat, ghost order: seq<TaskId>)
      requires lastCommit <= at
      modifies this`tasks, this`events, this`messages, this`issued, this`lastCommit
      ensures Step(old(State()), Recover(at, order), State())
      ensures recovered == |order|
    {
      var ids := SelectInFlight();
      order := ids;
      RecoverStep(State(), ids, at);
      AllCleaned(tasks, ids, messages);
      recovered := RecoverAllTx(ids, at);
      lastCommit := at;
    }
  }
}
