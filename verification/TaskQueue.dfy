/**
 * The durable task queue: its rows, its transition table, and what each committed transaction
 * does to the tables.
 *
 * A transaction is one atomic step.  `RowAfter` says what a step makes of one task row and
 * `RowEvents` which events it appends about that row; both look at nothing but the row, so an
 * invariant of rows is proved row by row.  `Store` (QueueStore.dfy) shows that the code's
 * transactions, with their intermediate statuses, commit exactly these steps.
 */
module TaskQueue {
  import opened Common
  import Backoff

  datatype Status =
    | Queued | Claimed | Running | RetryWait
    | Succeeded | Failed | Canceled | DeadLetter

  /** The table of allowed transitions. */
  predicate CanTransition(from: Status, to: Status) {
    match from
    case Queued => to in {Claimed, Canceled}
    case Claimed => to in {Running, Canceled, Queued}
    case Running => to in {Succeeded, Failed, RetryWait, Canceled, Queued}
    case RetryWait => to in {Queued, Failed, Canceled}
    case Failed => to in {DeadLetter, RetryWait}
    case _ => false
  }

  /** The statuses a waiter treats as final. */
  predicate IsTerminal(s: Status) {
    s in {Succeeded, Failed, Canceled, DeadLetter}
  }

  predicate InFlight(s: Status) {
    s == Claimed || s == Running
  }

  // A task ID stands for the rank of its UUID in the database's text order.
  type TaskId = nat
  // Lease tokens are UUIDs, compared only for equality; so are error fingerprints.
  type Token = nat
  type Fingerprint = nat
  type SessionId = nat

  const LEASE_DURATION: int := 30 * Backoff.SECOND
  const DEFAULT_MAX_ATTEMPTS: int := 3
  const POISON_THRESHOLD: int := 3
  const DEFAULT_AGENT: string := "default"

  datatype Kind = Chat | Subtask | Tool

  datatype Reason =
    | RetryProcessorError | DeadLetterPoisonPill | DeadLetterMaxAttempts | Aborted | AgentCanceled

  datatype Task = Task(
    session: SessionId,
    kind: Kind,
    agent: string,
    status: Status,
    priority: int,
    attempt: int,
    maxAttempts: int,
    availableAt: int,
    cancelRequested: bool,
    errorCode: Option<Reason>,
    fingerprint: Option<Fingerprint>,
    poison: int,
    policyVersion: Option<string>,
    leaseOwner: Option<Token>,
    leaseExpires: Option<int>,
    payload: string,
    result: Option<string>,
    error: Option<string>,
    createdAt: int,
    updatedAt: int)

  datatype EventType =
    | EvEnqueued | EvClaimed | EvRunning | EvLeaseExpired | EvSucceeded | EvFailed
    | EvDeadLetter | EvRetryWait | EvRequeued | EvRecovered | EvCanceled

  /** `from` is absent on the event that enqueues a task. */
  datatype Event = Event(task: TaskId, session: SessionId, from: Option<Status>, to: Status, what: EventType)

  datatype Message = Message(session: SessionId, assistant: bool, content: string, createdAt: int)

  /** The tables, the time of the last commit, and the lease tokens handed out so far. */
  datatype Db = Db(
    now: int,
    tasks: map<TaskId, Task>,
    events: seq<Event>,
    messages: seq<Message>,
    issued: set<Token>)

  const EMPTY: Db := Db(0, map[], [], [], {})

  /** One committed transaction, with the values its environment supplied. */
  datatype Op =
    | Create(now: int, id: TaskId, session: SessionId, agent: string, payload: string, maxAttempts: int)
    | CreateSubtask(now: int, id: TaskId, session: SessionId, priority: int, payload: string)
    | RecordTool(now: int, id: TaskId, session: SessionId, payload: string, result: string, failure: Option<string>)
    | AddMessage(now: int, row: Message)
    | Claim(now: int, agent: string, token: Token, picked: Option<TaskId>)
    | Start(now: int, id: TaskId, owner: Option<Token>, policy: string)
    | Heartbeat(now: int, id: TaskId, owner: Option<Token>)
    | RequeueExpired(now: int, order: seq<TaskId>)
    | Age(now: int, threshold: int, cap: int)
    | Complete(now: int, id: TaskId, result: string)
    | Fail(now: int, id: TaskId, message: string)
    | HandleFailure(now: int, id: TaskId, message: string, fp: Fingerprint, jitter: nat)
    | Recover(now: int, order: seq<TaskId>)
    | RequestCancel(now: int, id: TaskId)
    | Abort(now: int, id: TaskId)
    | DeleteAgent(now: int, agent: string)
    | Purge(now: int, session: SessionId)

  // ----- Row-level effects

  /** The retry budget failure handling works with: a stored value that is not positive counts as the default. */
  function Budget(t: Task): (m: int)
    ensures m >= 1
  {
    if t.maxAttempts <= 0 then DEFAULT_MAX_ATTEMPTS else t.maxAttempts
  }

  function NextPoison(t: Task, fp: Fingerprint): int {
    if t.fingerprint == Some(fp) then t.poison + 1 else 1
  }

  predicate DeadLetters(t: Task, fp: Fingerprint) {
    NextPoison(t, fp) >= POISON_THRESHOLD || t.attempt + 1 >= Budget(t)
  }

  function FailureReason(t: Task, fp: Fingerprint): Reason {
    if t.attempt + 1 >= Budget(t) then DeadLetterMaxAttempts
    else if NextPoison(t, fp) >= POISON_THRESHOLD then DeadLetterPoisonPill
    else RetryProcessorError
  }

  predicate Expired(t: Task, now: int) {
    InFlight(t.status) && t.leaseExpires.Some? && t.leaseExpires.value <= now
  }

  predicate Eligible(t: Task, agent: string, now: int) {
    t.status == Queued && (agent == "" || t.agent == agent) && t.availableAt <= now
  }

  predicate Ages(t: Task, now: int, threshold: int, cap: int) {
    t.status == Queued && t.availableAt <= now && t.updatedAt < now - threshold && t.priority < cap
  }

  predicate HoldsLease(t: Task, owner: Option<Token>) {
    owner.Some? && t.leaseOwner == owner && InFlight(t.status)
  }

  function BackToQueue(t: Task, now: int): Task {
    t.(status := Queued, leaseOwner := None, leaseExpires := None, updatedAt := now)
  }

  function RowAfterFailure(t: Task, now: int, message: string, fp: Fingerprint, jitter: nat): Task {
    var failed := t.(
      attempt := t.attempt + 1, maxAttempts := Budget(t), errorCode := Some(FailureReason(t, fp)),
      fingerprint := Some(fp), poison := NextPoison(t, fp),
      leaseOwner := None, leaseExpires := None, error := Some(message), updatedAt := now);
    if DeadLetters(t, fp) then failed.(status := DeadLetter)
    else failed.(status := Queued, availableAt := now + Backoff.Delay(t.attempt + 1, jitter))
  }

  const REDACTED: string := "[REDACTED]"

  /** A row whose texts have been purged: whatever its status, and with a new time of change. */
  function Tombstone(t: Task, now: int): Task {
    t.(payload := REDACTED,
       result := if t.result.Some? && t.result.value != "" then Some(REDACTED) else t.result,
       updatedAt := now)
  }

  /** What `op` makes of the row `t` of task `id`. */
  function RowAfter(op: Op, id: TaskId, t: Task): Task {
    match op
    case Claim(now, _, token, picked) =>
      if picked != Some(id) then t
      else t.(status := Claimed, leaseOwner := Some(token), leaseExpires := Some(now + LEASE_DURATION),
              updatedAt := now)
    case Start(now, target, owner, policy) =>
      if target != id || t.status != Claimed || !HoldsLease(t, owner) then t
      else t.(status := Running, leaseExpires := Some(now + LEASE_DURATION), policyVersion := Some(policy),
              updatedAt := now)
    case Heartbeat(now, target, owner) =>
      if target != id || !HoldsLease(t, owner) then t
      else t.(leaseExpires := Some(now + LEASE_DURATION), updatedAt := now)
    case RequeueExpired(now, _) =>
      if Expired(t, now) then BackToQueue(t, now) else t
    case Age(now, threshold, cap) =>
      if Ages(t, now, threshold, cap) then t.(priority := t.priority + 1, updatedAt := now) else t
    case Complete(now, target, result) =>
      if target != id || t.status != Running then t
      else t.(status := Succeeded, result := Some(result), error := None,
              leaseOwner := None, leaseExpires := None, updatedAt := now)
    case Fail(now, target, message) =>
      if target != id || t.status !in {Running, RetryWait} then t
      else t.(status := Failed, error := Some(message), leaseOwner := None, leaseExpires := None, updatedAt := now)
    case HandleFailure(now, target, message, fp, jitter) =>
      if target != id || t.status != Running then t else RowAfterFailure(t, now, message, fp, jitter)
    case Recover(now, _) =>
      if InFlight(t.status) then BackToQueue(t, now) else t
    case RequestCancel(now, target) =>
      if target != id || t.status !in {Claimed, Running, RetryWait} then t
      else t.(cancelRequested := true, updatedAt := now)
    case Abort(now, target) =>
      if target != id || IsTerminal(t.status) then t
      else t.(status := Canceled, error := Some("aborted"), errorCode := Some(Aborted),
              leaseOwner := None, leaseExpires := None, updatedAt := now)
    case DeleteAgent(now, agent) =>
      if t.agent != agent || t.status !in {Queued, Claimed} then t
      else t.(status := Canceled, error := Some("agent_deleted"), errorCode := Some(AgentCanceled),
              leaseOwner := None, leaseExpires := None, updatedAt := now)
    case Purge(now, session) => if t.session != session then t else Tombstone(t, now)
    case _ => t
  }

  /** A failure of a running task is logged as two moves. */
  function FailureEvents(id: TaskId, t: Task, fp: Fingerprint): seq<Event> {
    if DeadLetters(t, fp) then
      [Event(id, t.session, Some(Running), Failed, EvFailed),
       Event(id, t.session, Some(Failed), DeadLetter, EvDeadLetter)]
    else
      [Event(id, t.session, Some(Running), RetryWait, EvRetryWait),
       Event(id, t.session, Some(RetryWait), Queued, EvRequeued)]
  }

  /** The events `op` appends about task `id`, whose row was `t`. */
  function RowEvents(op: Op, id: TaskId, t: Task): seq<Event> {
    var t' := RowAfter(op, id, t);
    var moved := (what: EventType) => [Event(id, t.session, Some(t.status), t'.status, what)];
    if t' == t then []
    else match op
      case Claim(_, _, _, _) => moved(EvClaimed)
      case Start(_, _, _, _) => moved(EvRunning)
      case RequeueExpired(_, _) => moved(EvLeaseExpired)
      case Complete(_, _, _) => moved(EvSucceeded)
      case Fail(_, _, _) => moved(EvFailed)
      case HandleFailure(_, _, _, fp, _) => FailureEvents(id, t, fp)
      case Recover(_, _) => moved(EvRecovered)
      case Abort(_, _) => moved(EvCanceled)
      case _ => []
  }

  // ----- Transactions

  function NewChat(op: Op): Task
    requires op.Create?
  {
    Task(op.session, Chat, if op.agent == "" then DEFAULT_AGENT else op.agent, Queued, 0, 0, op.maxAttempts, op.now,
         false, None, None, 0, None, None, None, op.payload, None, None, op.now, op.now)
  }

  function NewSubtask(op: Op): Task
    requires op.CreateSubtask?
  {
    Task(op.session, Subtask, DEFAULT_AGENT, Queued, op.priority, 0, DEFAULT_MAX_ATTEMPTS, op.now,
         false, None, None, 0, None, None, None, op.payload, None, None, op.now, op.now)
  }

  function NewTool(op: Op): Task
    requires op.RecordTool?
  {
    Task(op.session, Tool, DEFAULT_AGENT, if op.failure.Some? then Failed else Succeeded, 0, 0,
         DEFAULT_MAX_ATTEMPTS, op.now,
         false, None, None, 0, None, None, None, op.payload, Some(op.result),
         Some(if op.failure.Some? then op.failure.value else ""), op.now, op.now)
  }

  function NewRows(op: Op): map<TaskId, Task> {
    match op
    case Create(_, id, _, _, _, _) => map[id := NewChat(op)]
    case CreateSubtask(_, id, _, _, _) => map[id := NewSubtask(op)]
    case RecordTool(_, id, _, _, _, _) => map[id := NewTool(op)]
    case _ => map[]
  }

  /** The tasks `op` writes events about, in the order it writes them. */
  function Touched(op: Op): seq<TaskId> {
    match op
    case Claim(_, _, _, picked) => if picked.Some? then [picked.value] else []
    case Start(_, id, _, _) => [id]
    case RequeueExpired(_, order) => order
    case Complete(_, id, _) => [id]
    case Fail(_, id, _) => [id]
    case HandleFailure(_, id, _, _, _) => [id]
    case Recover(_, order) => order
    case Abort(_, id) => [id]
    case _ => []
  }

  function EventsFor(tasks: map<TaskId, Task>, op: Op, ids: seq<TaskId>): seq<Event> {
    if ids == [] then []
    else
      EventsFor(tasks, op, ids[..|ids| - 1])
      + (var id := ids[|ids| - 1]; if id in tasks then RowEvents(op, id, tasks[id]) else [])
  }

  function Emitted(s: Db, op: Op): seq<Event> {
    match op
    case Create(_, id, session, _, _, _) => [Event(id, session, None, Queued, EvEnqueued)]
    case _ => EventsFor(s.tasks, op, Touched(op))
  }

  /** An assistant message that the task, running when the process died, may have left behind. */
  predicate LeftBy(t: Task, m: Message) {
    t.status == Running && t.session == m.session && m.assistant && m.createdAt >= t.updatedAt
  }

  predicate Orphaned(tasks: map<TaskId, Task>, m: Message) {
    exists id :: id in tasks && LeftBy(tasks[id], m)
  }

  function WithoutOrphans(tasks: map<TaskId, Task>, messages: seq<Message>): seq<Message> {
    if messages == [] then []
    else
      var rest := WithoutOrphans(tasks, messages[..|messages| - 1]);
      var m := messages[|messages| - 1];
      if Orphaned(tasks, m) then rest else rest + [m]
  }

  function WithoutSession(messages: seq<Message>, session: SessionId): seq<Message> {
    if messages == [] then []
    else
      var m := messages[|messages| - 1];
      WithoutSession(messages[..|messages| - 1], session) + (if m.session == session then [] else [m])
  }

  function MessagesAfter(s: Db, op: Op): seq<Message> {
    match op
    case AddMessage(_, m) => s.messages + [m]
    case Recover(_, _) => WithoutOrphans(s.tasks, s.messages)
    case Purge(_, session) => WithoutSession(s.messages, session)
    case _ => s.messages
  }

  function After(s: Db, op: Op): Db {
    Db(op.now,
       (map id | id in s.tasks :: RowAfter(op, id, s.tasks[id])) + NewRows(op),
       s.events + Emitted(s, op),
       MessagesAfter(s, op),
       if op.Claim? && op.picked.Some? then s.issued + {op.token} else s.issued)
  }

  /** `i` with row `t` is claimed no later than `j` with row `u`: priority, then age, then ID. */
  predicate ClaimedBefore(i: TaskId, t: Task, j: TaskId, u: Task) {
    t.priority > u.priority ||
    (t.priority == u.priority && (t.createdAt < u.createdAt || (t.createdAt == u.createdAt && i <= j)))
  }

  /** `picked` is what the claim query returns. */
  ghost predicate IsNext(tasks: map<TaskId, Task>, agent: string, now: int, picked: Option<TaskId>) {
    match picked
    case None => forall id :: id in tasks ==> !Eligible(tasks[id], agent, now)
    case Some(i) =>
      && i in tasks && Eligible(tasks[i], agent, now)
      && forall j :: j in tasks && Eligible(tasks[j], agent, now) ==> ClaimedBefore(i, tasks[i], j, tasks[j])
  }

  /** `ids` lists the tasks whose lease has expired, in some order. */
  ghost predicate ListsExpired(ids: seq<TaskId>, tasks: map<TaskId, Task>, now: int) {
    Distinct(ids) && forall id :: id in ids <==> id in tasks && Expired(tasks[id], now)
  }

  /** `ids` lists the claimed and running tasks, in some order. */
  ghost predicate ListsInFlight(ids: seq<TaskId>, tasks: map<TaskId, Task>) {
    Distinct(ids) && forall id :: id in ids <==> id in tasks && InFlight(tasks[id].status)
  }

  /** The environment may supply the values in `op`: new UUIDs are new, and queries return what they should. */
  ghost predicate Enabled(s: Db, op: Op) {
    s.now <= op.now &&
    match op
    case Create(_, id, _, _, _, _) => id !in s.tasks
    case CreateSubtask(_, id, _, _, _) => id !in s.tasks
    case RecordTool(_, id, _, _, _, _) => id !in s.tasks
    case Claim(now, agent, token, picked) => token !in s.issued && IsNext(s.tasks, agent, now, picked)
    case RequeueExpired(now, order) => ListsExpired(order, s.tasks, now)
    case Recover(_, order) => ListsInFlight(order, s.tasks)
    case _ => true
  }

  /** `op`, committed in state `s`, gives `s'`. */
  ghost predicate Step(s: Db, op: Op, s': Db) {
    Enabled(s, op) && s' == After(s, op)
  }

  /** A run from the empty database: `states[i]` is what is committed after `ops[..i]`. */
  ghost predicate Run(states: seq<Db>, ops: seq<Op>) {
    && |states| == |ops| + 1
    && states[0] == EMPTY
    && forall i :: 0 <= i < |ops| ==> StepAt(states, ops, i)
  }

  ghost predicate StepAt(states: seq<Db>, ops: seq<Op>, i: nat)
    requires i < |ops| && |states| == |ops| + 1
  {
    Step(states[i], ops[i], states[i + 1])
  }
}
