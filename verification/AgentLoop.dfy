/** The agent loop: budgets, checkpoints, and what crashes and restarts can cost. */
module AgentLoop {
  import opened Common

  datatype Settings = Settings(maxSteps: int, maxTokens: int, interval: int)

  /** Zero means the default. */
  function WithDefaults(cfg: Settings): (r: Settings)
    ensures r.interval != 0
  {
    Settings(if cfg.maxSteps == 0 then 25 else cfg.maxSteps,
             if cfg.maxTokens == 0 then 100000 else cfg.maxTokens,
             if cfg.interval == 0 then 1 else cfg.interval)
  }

  datatype Status = Running | Completed | BudgetExceeded | TimedOut | Failed

  datatype Checkpoint = Checkpoint(step: int, tokens: int, status: Status)

  datatype LoopResult = LoopResult(status: Status, steps: int, tokens: int)

  type LoopId = nat
  type Rows = map<LoopId, Checkpoint>

  datatype Process =
    | Off
    | Checking(id: LoopId, step: int, tokens: int)   // about to check the budgets
    | Calling(id: LoopId, step: int, tokens: int)    // the model call of `step` is under way
    | Replied(id: LoopId, step: int, tokens: int)    // its reply is counted but not yet checkpointed
    | Finished(result: LoopResult)

  /**
   * The checkpoint rows of one task, the process, and what has happened so far.  `unsaved` counts the
   * checkpoints this process could not write since it last wrote one; if it crashes then, they are `lost`.
   */
  datatype World = World(
    rows: Rows,
    process: Process,
    calls: nat,
    crashes: nat,
    lost: nat,
    unsaved: nat,
    replies: seq<nat>)

  datatype Action =
    | Start(id: LoopId)                    // resume the running loop, or begin a new one
    | Check(expired: bool, stored: bool)
    | Reply(length: nat, done: bool, stored: bool)   // a reply of this many bytes, with the keyword or without
    | CallFails(stored: bool)
    | Save(stored: bool)                   // where `stored` is false the checkpoint, if there is one, is lost
    | Crash

  /** The loop a new process takes up: a running one of the task, or a new ID if there is none. */
  predicate CanStart(rows: Rows, id: LoopId) {
    if exists other :: other in rows && rows[other].status == Running
    then id in rows && rows[id].status == Running
    else id !in rows
  }

  predicate Enabled(w: World, a: Action) {
    match a
    case Start(id) => w.process.Off? && CanStart(w.rows, id)
    case Check(_, _) => w.process.Checking?
    case Reply(_, _, _) => w.process.Calling?
    case CallFails(_) => w.process.Calling?
    case Save(_) => w.process.Replied?
    case Crash => !w.process.Off? && !w.process.Finished?
  }

  /** The upsert of a checkpoint, if the database takes it; if not, the error is logged and ignored. */
  function Stored(w: World, id: LoopId, c: Checkpoint, stored: bool): World {
    if stored then w.(rows := w.rows[id := c], unsaved := 0)
    else w.(unsaved := w.unsaved + 1)
  }

  function Finish(w: World, id: LoopId, step: int, tokens: int, status: Status, stored: bool): World {
    Stored(w, id, Checkpoint(step, tokens, status), stored).(process := Finished(LoopResult(status, step, tokens)))
  }

  function Step(cfg: Settings, w: World, a: Action): World
    requires cfg.interval != 0 && Enabled(w, a)
  {
    var p := w.process;
    match a
    case Start(id) =>
      if id in w.rows then w.(process := Checking(id, w.rows[id].step, w.rows[id].tokens))
      else w.(process := Checking(id, 0, 0))
    case Check(expired, stored) =>
      if p.step >= cfg.maxSteps then Finish(w, p.id, p.step, p.tokens, BudgetExceeded, stored)
      else if cfg.maxTokens > 0 && p.tokens >= cfg.maxTokens
      then Finish(w, p.id, p.step, p.tokens, BudgetExceeded, stored)
      else if expired then Finish(w, p.id, p.step, p.tokens, TimedOut, stored)
      else w.(process := Calling(p.id, p.step + 1, p.tokens), calls := w.calls + 1)
    case Reply(length, done, stored) =>
      var w' := w.(replies := w.replies + [length]);
      if done then Finish(w', p.id, p.step, p.tokens + length / 4, Completed, stored)
      else w'.(process := Replied(p.id, p.step, p.tokens + length / 4))
    case CallFails(stored) => Finish(w, p.id, p.step, p.tokens, Failed, stored)
    case Save(stored) =>
      var w' := w.(process := Checking(p.id, p.step, p.tokens));
      if p.step % cfg.interval == 0 then Stored(w', p.id, Checkpoint(p.step, p.tokens, Running), stored) else w'
    case Crash => w.(process := Off, crashes := w.crashes + 1, lost := w.lost + w.unsaved, unsaved := 0)
  }

  /** The actions in `trace` lead from `w` to `w'`. */
  ghost predicate Leads(cfg: Settings, w: World, trace: seq<Action>, w': World)
    requires cfg.interval != 0
    decreases trace
  {
    if trace == [] then w == w'
    else Enabled(w, trace[0]) && Leads(cfg, Step(cfg, w, trace[0]), trace[1..], w')
  }

  lemma {:induction false} LeadsOneMore(cfg: Settings, w: World, trace: seq<Action>, w': World, a: Action)
    requires cfg.interval != 0 && Leads(cfg, w, trace, w') && Enabled(w', a)
    ensures Leads(cfg, w, trace + [a], Step(cfg, w', a))
    decreases trace
  {
    if trace != [] {
      assert (trace + [a])[1..] == trace[1..] + [a];
      LeadsOneMore(cfg, Step(cfg, w, trace[0]), trace[1..], w', a);
    }
  }

  lemma Further(cfg: Settings, w: World, trace: seq<Action>, w': World, a: Action)
    returns (trace': seq<Action>, w'': World)
    requires cfg.interval != 0 && Leads(cfg, w, trace, w') && Enabled(w', a)
    ensures Leads(cfg, w, trace', w'') && w'' == Step(cfg, w', a)
  {
    LeadsOneMore(cfg, w, trace, w', a);
    trace', w'' := trace + [a], Step(cfg, w', a);
  }

  // ----- One process that is not interrupted

  datatype Answer = Answer(length: nat, done: bool) | Error

  /** The tokens recorded after step `k` of a process that starts at step `s0` with `t0` of them. */
  function TokensAt(t0: int, s0: int, answers: int -> Answer, k: int): int
    decreases k - s0
  {
    if k <= s0 then t0
    else TokensAt(t0, s0, answers, k - 1) + if answers(k).Error? then 0 else answers(k).length / 4
  }

  predicate BudgetUsed(cfg: Settings, step: int, tokens: int) {
    step >= cfg.maxSteps || (cfg.maxTokens > 0 && tokens >= cfg.maxTokens)
  }

  /** After step `k` the loop goes no further, or the next step's answer is the last. */
  predicate StopsAt(cfg: Settings, t0: int, s0: int, answers: int -> Answer, expired: int -> bool, k: int) {
    || BudgetUsed(cfg, k, TokensAt(t0, s0, answers, k))
    || expired(k)
    || answers(k + 1).Error?
    || answers(k + 1).done
  }

  /** `k` is the first such step of a process that starts at `s0`. */
  ghost predicate FirstStop(cfg: Settings, t0: int, s0: int, answers: int -> Answer, expired: int -> bool, k: int) {
    s0 <= k && StopsAt(cfg, t0, s0, answers, expired, k)
    && forall j :: s0 <= j < k ==> !StopsAt(cfg, t0, s0, answers, expired, j)
  }

  /** The result, by the cause that comes first. */
  function Verdict(cfg: Settings, t0: int, s0: int, answers: int -> Answer, expired: int -> bool, k: int): LoopResult {
    var tokens := TokensAt(t0, s0, answers, k);
    if BudgetUsed(cfg, k, tokens) then LoopResult(BudgetExceeded, k, tokens)
    else if expired(k) then LoopResult(TimedOut, k, tokens)
    else if answers(k + 1).Error? then LoopResult(Failed, k + 1, tokens)
    else LoopResult(Completed, k + 1, tokens + answers(k + 1).length / 4)
  }

  /** The rows after step `k`: a checkpoint at every multiple of the interval that could be stored. */
  function RowsAt(cfg: Settings, rows: Rows, id: LoopId, t0: int, s0: int, answers: int -> Answer, stores: int -> bool,
                  k: int): Rows
    requires cfg.interval != 0
    decreases k - s0
  {
    if k <= s0 then rows
    else
      var before := RowsAt(cfg, rows, id, t0, s0, answers, stores, k - 1);
      if k % cfg.interval == 0 && stores(k)
      then before[id := Checkpoint(k, TokensAt(t0, s0, answers, k), Running)]
      else before
  }

  /** What the surroundings of a process do, step by step. */
  datatype Inputs = Inputs(answers: int -> Answer, expired: int -> bool, stores: int -> bool)

  /** The loop has gone on through all steps so far. */
  ghost predicate WentOn(cfg: Settings, rows0: Rows, id: LoopId, s0: int, t0: int, ins: Inputs, step: int, tokens: int,
                         rows: Rows)
    requires cfg.interval != 0
  {
    && s0 <= step && tokens == TokensAt(t0, s0, ins.answers, step)
    && rows == RowsAt(cfg, rows0, id, t0, s0, ins.answers, ins.stores, step)
    && forall j :: s0 <= j < step ==> !StopsAt(cfg, t0, s0, ins.answers, ins.expired, j)
  }

  /** What one iteration makes of step and tokens, and why it ends the loop, if it does. */
  function Iteration(cfg: Settings, step: int, tokens: int, expired: bool, answer: Answer): (Option<Status>, int, int) {
    if BudgetUsed(cfg, step, tokens) then (Some(BudgetExceeded), step, tokens)
    else if expired then (Some(TimedOut), step, tokens)
    else if answer.Error? then (Some(Failed), step + 1, tokens)
    else (if answer.done then Some(Completed) else None, step + 1, tokens + answer.length / 4)
  }

  /** The rows after it. */
  function RowsAfter(cfg: Settings, rows: Rows, id: LoopId, end: (Option<Status>, int, int), stored: bool,
                     closes: bool): Rows
    requires cfg.interval != 0
  {
    if end.0.Some? && closes then rows[id := Checkpoint(end.1, end.2, end.0.value)]
    else if end.0.None? && end.1 % cfg.interval == 0 && stored then rows[id := Checkpoint(end.1, end.2, Running)]
    else rows
  }

  /** Going on leads to the next step; stopping is at the first step that stops, with the verdict for it. */
  lemma IterationIsRight(cfg: Settings, rows0: Rows, id: LoopId, s0: int, t0: int, ins: Inputs, step: int, tokens: int,
                         rows: Rows, closes: bool)
    requires cfg.interval != 0 && WentOn(cfg, rows0, id, s0, t0, ins, step, tokens, rows)
    ensures var end := Iteration(cfg, step, tokens, ins.expired(step), ins.answers(step + 1));
            var rows' := RowsAfter(cfg, rows, id, end, ins.stores(step + 1), closes);
            if end.0.None? then WentOn(cfg, rows0, id, s0, t0, ins, end.1, end.2, rows')
            else FirstStop(cfg, t0, s0, ins.answers, ins.expired, step)
                 && LoopResult(end.0.value, end.1, end.2) == Verdict(cfg, t0, s0, ins.answers, ins.expired, step)
  {
  }

  /**
   * The verdict in plain words.  Up to the step that stops, every budget was unused, the deadline ahead, and
   * every answer a reply without the keyword; and each status has its one cause there, in this order.
   */
  lemma EachStatusHasItsCause(cfg: Settings, t0: int, s0: int, ins: Inputs, k: int)
    requires FirstStop(cfg, t0, s0, ins.answers, ins.expired, k)
    ensures var r, tokens := Verdict(cfg, t0, s0, ins.answers, ins.expired, k), TokensAt(t0, s0, ins.answers, k);
            var inBudget := k < cfg.maxSteps && (cfg.maxTokens <= 0 || tokens < cfg.maxTokens);
            var answer := ins.answers(k + 1);
            && (r.status == BudgetExceeded <==> !inBudget)
            && (r.status == TimedOut <==> inBudget && ins.expired(k))
            && (r.status == Failed <==> inBudget && !ins.expired(k) && answer.Error?)
            && (r.status == Completed <==> inBudget && !ins.expired(k) && answer.Answer? && answer.done)
            && r.steps == (if r.status == Failed || r.status == Completed then k + 1 else k)
            && r.tokens == TokensAt(t0, s0, ins.answers, r.steps)
    ensures forall j :: s0 <= j < k ==> NothingStops(cfg, t0, s0, ins, j)
  {
    forall j | s0 <= j < k
      ensures NothingStops(cfg, t0, s0, ins, j)
    {
      assert !StopsAt(cfg, t0, s0, ins.answers, ins.expired, j);
    }
  }

  /** After step `j` budgets and deadline leave room for another, whose answer is a reply without the keyword. */
  predicate NothingStops(cfg: Settings, t0: int, s0: int, ins: Inputs, j: int) {
    && j < cfg.maxSteps && (cfg.maxTokens <= 0 || TokensAt(t0, s0, ins.answers, j) < cfg.maxTokens)
    && !ins.expired(j) && ins.answers(j + 1).Answer? && !ins.answers(j + 1).done
  }

  /** The tokens are those at the start plus a quarter of each reply's length, rounded down. */
  lemma {:induction false} TokensAreTheReplies(t0: int, s0: int, answers: int -> Answer, lengths: seq<nat>, k: int)
    requires k == s0 + |lengths|
    requires forall i :: 0 <= i < |lengths| ==> answers(s0 + 1 + i) == Answer(lengths[i], false)
    ensures TokensAt(t0, s0, answers, k) == t0 + Quarters(lengths)
    decreases |lengths|
  {
    if lengths != [] {
      var last := |lengths| - 1;
      assert answers(s0 + 1 + last) == Answer(lengths[last], false);
      TokensAreTheReplies(t0, s0, answers, lengths[..last], k - 1);
    }
  }

  function Quarters(lengths: seq<nat>): nat {
    if lengths == [] then 0 else Quarters(lengths[..|lengths| - 1]) + lengths[|lengths| - 1] / 4
  }

  /** A running loop's checkpoint is the one written at the last multiple of the interval that could be stored. */
  lemma {:induction false} CheckpointIsTheLastStored(cfg: Settings, rows: Rows, id: LoopId, t0: int, s0: int,
                                                     ins: Inputs, c: int, k: int)
    requires cfg.interval != 0 && s0 < c <= k && c % cfg.interval == 0 && ins.stores(c)
    requires forall j :: c < j <= k && j % cfg.interval == 0 ==> !ins.stores(j)
    ensures var kept := RowsAt(cfg, rows, id, t0, s0, ins.answers, ins.stores, k);
            id in kept && kept[id] == Checkpoint(c, TokensAt(t0, s0, ins.answers, c), Running)
    decreases k - c
  {
    if c < k {
      CheckpointIsTheLastStored(cfg, rows, id, t0, s0, ins, c, k - 1);
    }
  }

  class LoopRunner {
    const cfg: Settings
    var rows: Rows

    constructor (settings: Settings, store: Rows)
      ensures cfg == WithDefaults(settings) && rows == store
      ensures cfg.maxSteps == if settings.maxSteps == 0 then 25 else settings.maxSteps
      ensures cfg.maxTokens == if settings.maxTokens == 0 then 100_000 else settings.maxTokens
      ensures cfg.interval == if settings.interval == 0 then 1 else settings.interval
    {
      cfg := WithDefaults(settings);
      rows := store;
    }

    method SaveCheckpoint(id: LoopId, step: int, tokens: int, status: Status, stored: bool)
      modifies this
      ensures rows == if stored then old(rows)[id := Checkpoint(step, tokens, status)] else old(rows)
    {
      if stored {
        rows := rows[id := Checkpoint(step, tokens, status)];
      }
    }

    /** The checks before each step: a budget that is used up, or the deadline, ends the loop. */
    method CheckBudgets(id: LoopId, step: int, tokens: int, expired: bool, closes: bool, ghost w: World)
      returns (status: Option<Status>)
      requires cfg.interval != 0 && w.process == Checking(id, step, tokens) && w.rows == rows
      modifies this
      ensures var w' := Step(cfg, w, Check(expired, closes));
              && w'.rows == rows && w'.crashes == w.crashes
              && (if status.Some?
                  then w'.process == Finished(LoopResult(status.value, step, tokens)) && w'.calls == w.calls
                  else w'.process == Calling(id, step + 1, tokens) && w'.calls == w.calls + 1)
      ensures status == if BudgetUsed(cfg, step, tokens) then Some(BudgetExceeded)
                        else if expired then Some(TimedOut) else None
      ensures rows == if status.Some? && closes then old(rows)[id := Checkpoint(step, tokens, status.value)]
                      else old(rows)
    {
      if step >= cfg.maxSteps {
        SaveCheckpoint(id, step, tokens, BudgetExceeded, closes);
        return Some(BudgetExceeded);
      }
      if cfg.maxTokens > 0 && tokens >= cfg.maxTokens {
        SaveCheckpoint(id, step, tokens, BudgetExceeded, closes);
        return Some(BudgetExceeded);
      }
      if expired {
        SaveCheckpoint(id, step, tokens, TimedOut, closes);
        return Some(TimedOut);
      }
      return None;
    }

    /**
     * Runs the loop of a task, from its running checkpoint or from nothing.  The first step at which a budget
     * is used up, the deadline has passed, the model fails or its answer holds the keyword decides the
     * result, the number of calls, the recorded tokens and the checkpoints left behind; and what happens is a
     * sequence of actions of the model above.  `ins.stores` tells which checkpoints of a running loop can be
     * written, `closes` whether the last one can.
     */
    method Run(id: LoopId, ins: Inputs, closes: bool)
      returns (result: LoopResult, calls: nat, ghost stop: int, ghost trace: seq<Action>, ghost end: World)
      requires cfg.interval != 0 && CanStart(rows, id)
      modifies this
      ensures Leads(cfg, World(old(rows), Off, 0, 0, 0, 0, []), trace, end)
      ensures end.process == Finished(result) && end.rows == rows && end.calls == calls && end.crashes == 0
      ensures var s0, t0 := StartOf(old(rows), id).0, StartOf(old(rows), id).1;
              && FirstStop(cfg, t0, s0, ins.answers, ins.expired, stop)
              && result == Verdict(cfg, t0, s0, ins.answers, ins.expired, stop) && calls == result.steps - s0
              && (var kept := RowsAt(cfg, old(rows), id, t0, s0, ins.answers, ins.stores, stop);
                  rows == if closes then kept[id := Checkpoint(result.steps, result.tokens, result.status)] else kept)
    {
      ghost var begin := World(rows, Off, 0, 0, 0, 0, []);
      var step, tokens := 0, 0;
      if id in rows {
        step, tokens := rows[id].step, rows[id].tokens;
      }
      ghost var s0, t0 := step, tokens;
      calls := 0;
      trace, end := [Start(id)], Step(cfg, begin, Start(id));
      assert trace[1..] == [];
      while true
        invariant Leads(cfg, begin, trace, end)
        invariant end.process == Checking(id, step, tokens) && end.rows == rows && end.calls == calls
        invariant end.crashes == 0
        invariant WentOn(cfg, old(rows), id, s0, t0, ins, step, tokens, rows) && calls == step - s0
        decreases cfg.maxSteps - step
      {
        stop := step;
        IterationIsRight(cfg, old(rows), id, s0, t0, ins, step, tokens, rows, closes);
        var status, next;
        status, next, tokens, trace, end :=
          Iterate(id, step, tokens, ins.answers(step + 1), ins.expired(step), ins.stores(step + 1), closes,
                  begin, trace, end);
        calls := calls + (next - step);
        step := next;
        if status.Some? {
          return LoopResult(status.value, step, tokens), calls, stop, trace, end;
        }
      }
    }

    /** The checks, and one step if they let it through. */
    method Iterate(id: LoopId, step: int, tokens: int, answer: Answer, expired: bool, stored: bool, closes: bool,
                   ghost begin: World, ghost trace: seq<Action>, ghost w: World)
      returns (status: Option<Status>, step': int, tokens': int, ghost trace': seq<Action>, ghost w': World)
      requires cfg.interval != 0 && Leads(cfg, begin, trace, w)
      requires w.process == Checking(id, step, tokens) && w.rows == rows
      modifies this
      ensures Leads(cfg, begin, trace', w') && w'.rows == rows && w'.crashes == w.crashes
      ensures step <= step' && w'.calls == w.calls + (step' - step)
      ensures w'.process == if status.Some? then Finished(LoopResult(status.value, step', tokens'))
                            else Checking(id, step', tokens')
      ensures (status, step', tokens') == Iteration(cfg, step, tokens, expired, answer)
      ensures rows == RowsAfter(cfg, old(rows), id, (status, step', tokens'), stored, closes)
    {
      status := CheckBudgets(id, step, tokens, expired, closes, w);
      trace', w' := Further(cfg, begin, trace, w, Check(expired, closes));
      step', tokens' := step, tokens;
      if status.None? {
        step' := step + 1;
        status, tokens', trace', w' := TakeStep(id, step', tokens, answer, stored, closes, begin, trace', w');
      }
    }

    /** One answer of the model: it ends the loop, or is counted and perhaps checkpointed. */
    method TakeStep(id: LoopId, step: int, tokens: int, answer: Answer, stored: bool, closes: bool,
                    ghost begin: World, ghost trace: seq<Action>, ghost w: World)
      returns (status: Option<Status>, tokens': int, ghost trace': seq<Action>, ghost w': World)
      requires cfg.interval != 0 && Leads(cfg, begin, trace, w)
      requires w.process == Calling(id, step, tokens) && w.rows == rows
      modifies this
      ensures Leads(cfg, begin, trace', w') && w'.rows == rows && w'.calls == w.calls && w'.crashes == w.crashes
      ensures w'.process == if status.Some? then Finished(LoopResult(status.value, step, tokens'))
                            else Checking(id, step, tokens')
      ensures status == if answer.Error? then Some(Failed) else if answer.done then Some(Completed) else None
      ensures tokens' == if answer.Error? then tokens else tokens + answer.length / 4
      ensures rows == if status.Some? && closes then old(rows)[id := Checkpoint(step, tokens', status.value)]
                      else if status.None? && step % cfg.interval == 0 && stored
                      then old(rows)[id := Checkpoint(step, tokens', Running)]
                      else old(rows)
    {
      tokens' := tokens;
      if answer.Error? {
        trace', w' := Further(cfg, begin, trace, w, CallFails(closes));
        SaveCheckpoint(id, step, tokens, Failed, closes);
        return Some(Failed), tokens', trace', w';
      }
      trace', w' := Further(cfg, begin, trace, w, Reply(answer.length, answer.done, closes));
      tokens' := tokens + answer.length / 4;
      if answer.done {
        SaveCheckpoint(id, step, tokens', Completed, closes);
        return Some(Completed), tokens', trace', w';
      }
      trace', w' := Further(cfg, begin, trace', w', Save(stored));
      if step % cfg.interval == 0 {
        SaveCheckpoint(id, step, tokens', Running, stored);
      }
      return None, tokens', trace', w';
    }
  }

  /** Step and tokens a process starts with: those of the checkpoint, if the loop has one. */
  function StartOf(rows: Rows, id: LoopId): (int, int) {
    if id in rows then (rows[id].step, rows[id].tokens) else (0, 0)
  }

  // ----- Crashes and restarts

  function Interval(cfg: Settings): nat {
    if cfg.interval < 0 then -cfg.interval else cfg.interval
  }

  function StepLimit(cfg: Settings): nat {
    if cfg.maxSteps < 0 then 0 else cfg.maxSteps
  }

  ghost predicate RunningAt(rows: Rows, id: LoopId) {
    id in rows && rows[id].status == Running
  }

  /** The step a restart would continue from. */
  ghost function Saved(rows: Rows, id: LoopId): int {
    if RunningAt(rows, id) then rows[id].step else 0
  }

  /** Recorded tokens are below the budget, or exceed it by less than one reply of the run. */
  ghost predicate TokensOk(cfg: Settings, w: World, tokens: int) {
    cfg.maxTokens > 0 ==>
      tokens < cfg.maxTokens || exists i :: 0 <= i < |w.replies| && tokens < cfg.maxTokens + w.replies[i] / 4
  }

  ghost predicate RowsOk(cfg: Settings, w: World)
    requires cfg.interval != 0
  {
    && (forall i, j :: RunningAt(w.rows, i) && RunningAt(w.rows, j) ==> i == j)
    && (forall id :: RunningAt(w.rows, id) ==>
          && 0 <= w.rows[id].step <= StepLimit(cfg) && w.rows[id].step % Interval(cfg) == 0)
    && (forall id :: id in w.rows ==> TokensOk(cfg, w, w.rows[id].tokens))
  }

  /** What crashes and lost checkpoints may have cost. */
  function Lost(cfg: Settings, w: World): nat {
    Interval(cfg) * (w.crashes + w.lost)
  }

  /** The last step at which this process wrote a checkpoint, or tried to. */
  ghost function LastTry(cfg: Settings, w: World, id: LoopId): int {
    Saved(w.rows, id) + Interval(cfg) * w.unsaved
  }

  /** Only the process's own loop may be running, and it is at most one interval past its last try. */
  ghost predicate InStep(cfg: Settings, w: World, id: LoopId, step: int, behind: int) {
    && (forall other :: RunningAt(w.rows, other) ==> other == id)
    && LastTry(cfg, w, id) <= step <= LastTry(cfg, w, id) + behind
    && step <= StepLimit(cfg)
    && w.calls <= step + Lost(cfg, w)
  }

  ghost predicate Inv(cfg: Settings, w: World)
    requires cfg.interval != 0
  {
    && RowsOk(cfg, w)
    && match w.process
       case Off =>
         && w.unsaved == 0
         && (forall id :: RunningAt(w.rows, id) ==> w.calls <= w.rows[id].step + Lost(cfg, w))
         && ((forall id :: !RunningAt(w.rows, id)) ==> w.calls <= Lost(cfg, w))
       case Checking(id, step, tokens) => InStep(cfg, w, id, step, Interval(cfg) - 1) && TokensOk(cfg, w, tokens)
       case Calling(id, step, tokens) =>
         && InStep(cfg, w, id, step, Interval(cfg)) && step > LastTry(cfg, w, id)
         && (cfg.maxTokens > 0 ==> tokens < cfg.maxTokens)
       case Replied(id, step, tokens) =>
         InStep(cfg, w, id, step, Interval(cfg)) && step > LastTry(cfg, w, id) && TokensOk(cfg, w, tokens)
       case Finished(r) =>
         w.calls <= StepLimit(cfg) + Lost(cfg, w) && r.steps <= StepLimit(cfg) && TokensOk(cfg, w, r.tokens)
  }

  lemma SmallMultiple(d: int, k: int)
    requires d != 0 && (if d < 0 then d < d * k < -d else -d < d * k < d)
    ensures k == 0
  {
  }

  lemma UniqueRemainder(x: int, d: int, q: int, r: int)
    requires d != 0 && 0 <= r < (if d < 0 then -d else d) && x == d * q + r
    ensures x % d == r
  {
    assert x == d * (x / d) + x % d;
    assert d * (q - x / d) == x % d - r;
    SmallMultiple(d, q - x / d);
  }

  /** Checkpoints fall exactly on the multiples of the interval. */
  lemma NextMultiple(saved: int, step: int, c: nat)
    requires c > 0 && saved % c == 0 && saved < step <= saved + c
    ensures step % c == 0 <==> step == saved + c
  {
    var q := saved / c;
    assert saved == c * q;
    if step == saved + c {
      assert step == c * (q + 1);
      UniqueRemainder(step, c, q + 1, 0);
    } else {
      UniqueRemainder(step, c, q, step - saved);
    }
  }

  lemma SameMultiples(step: int, cfg: Settings)
    requires cfg.interval != 0
    ensures step % cfg.interval == 0 <==> step % Interval(cfg) == 0
  {
    var c := Interval(cfg);
    var q := step / c;
    assert step == c * q + step % c;
    if cfg.interval < 0 {
      assert cfg.interval * -q == c * q;
      UniqueRemainder(step, cfg.interval, -q, step % c);
    }
  }

  lemma TokensKept(cfg: Settings, w: World, w': World, tokens: int)
    requires TokensOk(cfg, w, tokens) && w.replies <= w'.replies
    ensures TokensOk(cfg, w', tokens)
  {
    if cfg.maxTokens > 0 && tokens >= cfg.maxTokens {
      var i :| 0 <= i < |w.replies| && tokens < cfg.maxTokens + w.replies[i] / 4;
      assert w'.replies[i] == w.replies[i];
    }
  }

  lemma StartKeepsInv(cfg: Settings, w: World, id: LoopId)
    requires cfg.interval != 0 && Inv(cfg, w) && Enabled(w, Start(id))
    ensures Inv(cfg, Step(cfg, w, Start(id)))
  {
    if exists other :: RunningAt(w.rows, other) {
      assert RunningAt(w.rows, id);
    }
  }

  lemma FinishKeepsInv(cfg: Settings, w: World, id: LoopId, step: int, tokens: int, status: Status, stored: bool)
    requires cfg.interval != 0 && RowsOk(cfg, w) && status != Running && TokensOk(cfg, w, tokens)
    requires InStep(cfg, w, id, step, Interval(cfg))
    ensures Inv(cfg, Finish(w, id, step, tokens, status, stored))
  {
    var w' := Finish(w, id, step, tokens, status, stored);
    assert forall other :: RunningAt(w'.rows, other) ==> RunningAt(w.rows, other);
  }

  lemma ReplyKeepsInv(cfg: Settings, w: World, length: nat, done: bool, stored: bool)
    requires cfg.interval != 0 && Inv(cfg, w) && w.process.Calling?
    ensures Inv(cfg, Step(cfg, w, Reply(length, done, stored)))
  {
    var p := w.process;
    var w' := w.(replies := w.replies + [length]);
    forall id | id in w'.rows
      ensures TokensOk(cfg, w', w'.rows[id].tokens)
    {
      TokensKept(cfg, w, w', w.rows[id].tokens);
    }
    assert w'.replies[|w.replies|] == length;
    assert TokensOk(cfg, w', p.tokens + length / 4);
    assert RowsOk(cfg, w') && InStep(cfg, w', p.id, p.step, Interval(cfg));
    if done {
      FinishKeepsInv(cfg, w', p.id, p.step, p.tokens + length / 4, Completed, stored);
    }
  }

  lemma MultipleFurther(saved: int, c: nat, n: nat)
    requires c > 0 && saved % c == 0
    ensures (saved + c * n) % c == 0
  {
    var q := saved / c;
    assert saved == c * q && saved + c * n == c * (q + n);
    UniqueRemainder(saved + c * n, c, q + n, 0);
  }

  /** A checkpoint is due exactly one interval after the last try. */
  lemma DueExactlyAt(cfg: Settings, w: World)
    requires cfg.interval != 0 && Inv(cfg, w) && w.process.Replied?
    ensures w.process.step % cfg.interval == 0 <==> w.process.step == LastTry(cfg, w, w.process.id) + Interval(cfg)
    ensures w.process.step % cfg.interval == 0 ==> w.process.step % Interval(cfg) == 0
  {
    var p := w.process;
    var saved := Saved(w.rows, p.id);
    assert saved % Interval(cfg) == 0;
    DueAfter(cfg, saved, w.unsaved, p.step);
  }

  lemma DueAfter(cfg: Settings, saved: int, unsaved: nat, step: int)
    requires cfg.interval != 0 && saved % Interval(cfg) == 0
    requires var last := saved + Interval(cfg) * unsaved; last < step <= last + Interval(cfg)
    ensures step % cfg.interval == 0 <==> step == saved + Interval(cfg) * unsaved + Interval(cfg)
    ensures step % cfg.interval == 0 <==> step % Interval(cfg) == 0
  {
    SameMultiples(step, cfg);
    MultipleFurther(saved, Interval(cfg), unsaved);
    NextMultiple(saved + Interval(cfg) * unsaved, step, Interval(cfg));
  }

  lemma StoringKeepsInv(cfg: Settings, w: World)
    requires cfg.interval != 0 && Inv(cfg, w) && w.process.Replied? && w.process.step % cfg.interval == 0
    ensures Inv(cfg, Step(cfg, w, Save(true)))
  {
    var p := w.process;
    DueExactlyAt(cfg, w);
    var w' := Step(cfg, w, Save(true));
    forall other | RunningAt(w'.rows, other)
      ensures other == p.id
    {
      assert other == p.id || RunningAt(w.rows, other);
    }
    assert Saved(w'.rows, p.id) == p.step;
  }

  lemma LosingKeepsInv(cfg: Settings, w: World)
    requires cfg.interval != 0 && Inv(cfg, w) && w.process.Replied? && w.process.step % cfg.interval == 0
    ensures Inv(cfg, Step(cfg, w, Save(false)))
  {
    DueExactlyAt(cfg, w);
    assert Interval(cfg) * (w.unsaved + 1) == Interval(cfg) * w.unsaved + Interval(cfg);
  }

  lemma SaveKeepsInv(cfg: Settings, w: World, stored: bool)
    requires cfg.interval != 0 && Inv(cfg, w) && w.process.Replied?
    ensures Inv(cfg, Step(cfg, w, Save(stored)))
  {
    if w.process.step % cfg.interval != 0 {
      DueExactlyAt(cfg, w);
    } else if stored {
      StoringKeepsInv(cfg, w);
    } else {
      LosingKeepsInv(cfg, w);
    }
  }

  lemma Distribute(c: int, a: int, b: int)
    ensures c * (a + b) == c * a + c * b
  {
  }

  /** A crash costs an interval, and one more for each checkpoint that was not written. */
  lemma LostByCrash(cfg: Settings, w: World, w': World)
    requires w'.crashes == w.crashes + 1 && w'.lost == w.lost + w.unsaved
    ensures Lost(cfg, w') == Lost(cfg, w) + Interval(cfg) + Interval(cfg) * w.unsaved
  {
    var c := Interval(cfg);
    Distribute(c, w.crashes + w.lost, 1 + w.unsaved);
    Distribute(c, 1, w.unsaved);
    assert w'.crashes + w'.lost == (w.crashes + w.lost) + (1 + w.unsaved);
  }

  lemma CrashKeepsInv(cfg: Settings, w: World)
    requires cfg.interval != 0 && Inv(cfg, w) && Enabled(w, Crash)
    ensures Inv(cfg, Step(cfg, w, Crash))
  {
    LostByCrash(cfg, w, Step(cfg, w, Crash));
  }

  lemma StepKeepsInv(cfg: Settings, w: World, a: Action)
    requires cfg.interval != 0 && Inv(cfg, w) && Enabled(w, a)
    ensures Inv(cfg, Step(cfg, w, a))
  {
    var p := w.process;
    match a {
      case Start(id) => StartKeepsInv(cfg, w, id);
      case Check(expired, stored) =>
        if p.step >= cfg.maxSteps || (cfg.maxTokens > 0 && p.tokens >= cfg.maxTokens) {
          FinishKeepsInv(cfg, w, p.id, p.step, p.tokens, BudgetExceeded, stored);
        } else if expired {
          FinishKeepsInv(cfg, w, p.id, p.step, p.tokens, TimedOut, stored);
        }
      case Reply(length, done, stored) => ReplyKeepsInv(cfg, w, length, done, stored);
      case CallFails(stored) => FinishKeepsInv(cfg, w, p.id, p.step, p.tokens, Failed, stored);
      case Save(stored) => SaveKeepsInv(cfg, w, stored);
      case Crash => CrashKeepsInv(cfg, w);
    }
  }

  lemma {:induction false} LeadsKeepsInv(cfg: Settings, w: World, trace: seq<Action>, w': World)
    requires cfg.interval != 0 && Inv(cfg, w) && Leads(cfg, w, trace, w')
    ensures Inv(cfg, w')
    decreases trace
  {
    if trace != [] {
      StepKeepsInv(cfg, w, trace[0]);
      LeadsKeepsInv(cfg, Step(cfg, w, trace[0]), trace[1..], w');
    }
  }

  const NOTHING: World := World(map[], Off, 0, 0, 0, 0, [])

  /**
   * Over any number of crashes and restarts of one task's loop the model is called at most `maxSteps`
   * times plus one checkpoint interval for each crash and for each checkpoint that a crash found unwritten;
   * a checkpoint that fails costs nothing as long as a later one succeeds or the process lives on.  The
   * recorded steps stay within the budget, and the recorded tokens exceed theirs by less than one reply.
   */
  lemma CallsAreBounded(cfg: Settings, trace: seq<Action>, w: World)
    requires cfg.interval != 0 && Leads(cfg, NOTHING, trace, w)
    ensures w.calls <= StepLimit(cfg) + Interval(cfg) * (w.crashes + w.lost)
    ensures forall id :: id in w.rows ==> TokensOk(cfg, w, w.rows[id].tokens)
    ensures w.process.Finished? ==> w.process.result.steps <= StepLimit(cfg)
    ensures w.process.Finished? ==> TokensOk(cfg, w, w.process.result.tokens)
  {
    LeadsKeepsInv(cfg, NOTHING, trace, w);
    if w.process.Off? && exists id :: RunningAt(w.rows, id) {
      var id :| RunningAt(w.rows, id);
    }
  }

  /** The checkpoints due before the reply of step `m` is checkpointed itself. */
  function Due(m: nat, c: nat): nat
    requires c > 0
  {
    if m <= 1 then 0 else Due(m - 1, c) + if (m - 1) % c == 0 then 1 else 0
  }

  lemma {:induction false} DueAtMultiples(c: nat, k: nat, r: nat)
    requires 0 < r <= c
    ensures Due(c * k + r, c) == k
    decreases k, r
  {
    var m := c * k + r;
    if r > 1 {
      UniqueRemainder(m - 1, c, k, r - 1);
      DueAtMultiples(c, k, r - 1);
    } else if k > 0 {
      UniqueRemainder(m - 1, c, k, 0);
      assert c * k == c * (k - 1) + c;
      DueAtMultiples(c, k - 1, c);
    }
  }

  /** `m` calls of a process that starts from nothing, the last one answered, with every checkpoint due unwritten. */
  lemma {:induction false} CallsWithoutCheckpoint(cfg: Settings, trace: seq<Action>, w: World, m: nat)
    returns (trace': seq<Action>, w': World)
    requires 0 < m <= cfg.maxSteps && cfg.interval > 0
    requires Leads(cfg, NOTHING, trace, w) && w.process.Off? && w.rows == map[] && w.unsaved == 0
    ensures Leads(cfg, NOTHING, trace', w')
    ensures w' == World(map[], Replied(0, m, 0), w.calls + m, w.crashes, w.lost, Due(m, cfg.interval), w'.replies)
    decreases m
  {
    if m == 1 {
      trace', w' := Further(cfg, NOTHING, trace, w, Start(0));
    } else {
      trace', w' := CallsWithoutCheckpoint(cfg, trace, w, m - 1);
      trace', w' := Further(cfg, NOTHING, trace', w', Save(false));
    }
    trace', w' := Further(cfg, NOTHING, trace', w', Check(false, true));
    trace', w' := Further(cfg, NOTHING, trace', w', Reply(0, false, true));
  }

  /** `k` processes one after the other that each make `c * (n + 1)` calls, write no checkpoint, and crash. */
  lemma {:induction false} CrashesInVain(cfg: Settings, n: nat, k: nat) returns (trace: seq<Action>, w: World)
    requires cfg.interval > 0 && cfg.interval * (n + 1) <= cfg.maxSteps
    ensures Leads(cfg, NOTHING, trace, w) && w.process.Off? && w.rows == map[] && w.unsaved == 0
    ensures w.crashes == k && w.lost == n * k && w.calls == cfg.interval * (w.crashes + w.lost)
  {
    if k == 0 {
      trace, w := [], NOTHING;
    } else {
      trace, w := CrashesInVain(cfg, n, k - 1);
      trace, w := OneMoreInVain(cfg, n, trace, w);
      Distribute(n, k - 1, 1);
    }
  }

  lemma OneMoreInVain(cfg: Settings, n: nat, trace: seq<Action>, w: World) returns (trace': seq<Action>, w': World)
    requires cfg.interval > 0 && cfg.interval * (n + 1) <= cfg.maxSteps
    requires Leads(cfg, NOTHING, trace, w) && w.process.Off? && w.rows == map[] && w.unsaved == 0
    requires w.calls == cfg.interval * (w.crashes + w.lost)
    ensures Leads(cfg, NOTHING, trace', w') && w'.process.Off? && w'.rows == map[] && w'.unsaved == 0
    ensures w'.crashes == w.crashes + 1 && w'.lost == w.lost + n
    ensures w'.calls == cfg.interval * (w'.crashes + w'.lost)
  {
    var c := cfg.interval;
    Distribute(c, n, 1);
    DueAtMultiples(c, n, c);
    trace', w' := CallsWithoutCheckpoint(cfg, trace, w, c * (n + 1));
    trace', w' := Further(cfg, NOTHING, trace', w', Crash);
    Distribute(c, w.crashes + w.lost, n + 1);
    assert w'.crashes + w'.lost == (w.crashes + w.lost) + (n + 1);
  }

  /**
   * The bound is reached, for any interval, any number of crashes, any number of lost checkpoints at each
   * of them, and any step limit that leaves room for those: the last process makes `maxSteps` more calls.
   */
  lemma BoundIsReached(cfg: Settings, n: nat, k: nat) returns (trace: seq<Action>, w: World)
    requires cfg.interval > 0 && cfg.interval * (n + 1) <= cfg.maxSteps
    ensures Leads(cfg, NOTHING, trace, w)
    ensures w.crashes == k && w.lost == n * k
    ensures w.calls == StepLimit(cfg) + Interval(cfg) * (w.crashes + w.lost)
  {
    trace, w := CrashesInVain(cfg, n, k);
    trace, w := CallsWithoutCheckpoint(cfg, trace, w, cfg.maxSteps);
  }
}
