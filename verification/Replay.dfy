/**
 * A client subscribing to a session's task events: replay of what is stored, then live forwarding
 * driven by a high-water mark, with new events appended at any moment in between.
 *
 * The client's requests are handled one after the other; the forwarder runs beside them.  Each action
 * is one database query, one write to the connection, or one access to the mark under its lock.
 */
module Replay {
  import opened Common

  datatype Entry = Entry(id: int, session: nat)

  const MAX_REPLAY: nat := 64
  const REPLAY_LIMIT: nat := 1000
  const FORWARD_LIMIT: nat := 100

  // ----- The event table

  /** The IDs of the session's events after `from`, in log order. */
  function After(log: seq<Entry>, session: nat, from: int): seq<int> {
    if log == [] then []
    else
      var e := log[|log| - 1];
      After(log[..|log| - 1], session, from) + (if e.session == session && e.id > from then [e.id] else [])
  }

  function ListFrom(log: seq<Entry>, session: nat, from: int, limit: nat): seq<int> {
    var all := After(log, session, from);
    if |all| <= limit then all else all[..limit]
  }

  /** Smallest and largest event ID of the session, 0 if it has none. */
  function MinId(log: seq<Entry>, session: nat): int {
    var all := After(log, session, 0);
    if all == [] then 0 else all[0]
  }

  function MaxId(log: seq<Entry>, session: nat): int {
    var all := After(log, session, 0);
    if all == [] then 0 else all[|all| - 1]
  }

  ghost predicate LogOk(log: seq<Entry>) {
    && (forall i :: 0 <= i < |log| ==> log[i].id > 0)
    && forall i, j :: 0 <= i < j < |log| ==> log[i].id < log[j].id
  }

  ghost predicate InLog(log: seq<Entry>, session: nat, id: int) {
    Entry(id, session) in log
  }

  predicate Increasing(s: seq<int>) {
    forall i, j :: 0 <= i < j < |s| ==> s[i] < s[j]
  }

  /** The query returns exactly the session's later events, in increasing order. */
  lemma {:induction false} AfterIsExact(log: seq<Entry>, session: nat, from: int)
    requires LogOk(log)
    ensures Increasing(After(log, session, from))
    ensures forall id :: id in After(log, session, from) <==> InLog(log, session, id) && id > from
  {
    if log != [] {
      var front, e := log[..|log| - 1], log[|log| - 1];
      AfterIsExact(front, session, from);
      assert log == front + [e];
      forall id | id in After(front, session, from)
        ensures id < e.id
      {
        assert InLog(front, session, id);
        var i :| 0 <= i < |front| && front[i] == Entry(id, session);
        assert log[i].id < e.id;
      }
      var before := After(front, session, from);
      assert forall i :: 0 <= i < |before| ==> before[i] in before;
    }
  }

  // ----- The protocol

  datatype Subscribing =
    | NotSubscribing
    | KnowsMax(from: int, max: int)
    | Replaying(from: int, max: int, queue: seq<int>)

  datatype Forwarding =
    | Asleep
    | KnowsMark(last: int)
    | Sending(last: int, queue: seq<int>, maxSent: int)

  /** `from` and `base` are the start and the maximum of the last accepted subscription. */
  datatype World = World(
    log: seq<Entry>,
    sent: set<int>,
    mark: Option<int>,
    from: int,
    base: int,
    closed: bool,
    sub: Subscribing,
    fwd: Forwarding)

  datatype Action =
    | Append(entry: Entry)      // a task event is committed, of any session
    | ReadBounds(start: int)    // subscribe: read the bounds; refuse a replay gap
    | ListReplay                // subscribe: list the stored events; too many close the connection
    | SendReplay                // subscribe: write one of them
    | Register                  // subscribe: set the mark to the maximum read at the beginning
    | Wake                      // forwarder: a bus event arrives, the mark is read
    | ListNew                   // forwarder: list up to a hundred events after it
    | SendNew                   // forwarder: write one of them
    | RaiseMark                 // forwarder: raise the mark to the last one written

  predicate Enabled(w: World, a: Action) {
    match a
    case Append(e) => e.id > 0 && forall i :: 0 <= i < |w.log| ==> w.log[i].id < e.id
    case ReadBounds(_) => !w.closed && w.sub.NotSubscribing?
    case ListReplay => !w.closed && w.sub.KnowsMax?
    case SendReplay => !w.closed && w.sub.Replaying? && w.sub.queue != []
    case Register => !w.closed && w.sub.Replaying? && w.sub.queue == []
    case Wake => !w.closed && w.fwd.Asleep? && w.mark.Some?
    case ListNew => !w.closed && w.fwd.KnowsMark?
    case SendNew => !w.closed && w.fwd.Sending? && w.fwd.queue != []
    case RaiseMark => !w.closed && w.fwd.Sending? && w.fwd.queue == [] && w.mark.Some?
  }

  function Step(session: nat, w: World, a: Action): World
    requires Enabled(w, a)
  {
    match a
    case Append(e) => w.(log := w.log + [e])
    case ReadBounds(start) =>
      var min, max := MinId(w.log, session), MaxId(w.log, session);
      if start > 0 && min > 0 && start < min - 1 then w else w.(sub := KnowsMax(start, max))
    case ListReplay =>
      var events := ListFrom(w.log, session, w.sub.from, REPLAY_LIMIT);
      if |events| > MAX_REPLAY then w.(closed := true, sub := NotSubscribing)
      else w.(sub := Replaying(w.sub.from, w.sub.max, events))
    case SendReplay => w.(sent := w.sent + {w.sub.queue[0]}, sub := w.sub.(queue := w.sub.queue[1..]))
    case Register => w.(mark := Some(w.sub.max), from := w.sub.from, base := w.sub.max, sub := NotSubscribing)
    case Wake => w.(fwd := KnowsMark(w.mark.value))
    case ListNew =>
      var events := ListFrom(w.log, session, w.fwd.last, FORWARD_LIMIT);
      if events == [] then w.(fwd := Asleep) else w.(fwd := Sending(w.fwd.last, events, 0))
    case SendNew =>
      var id := w.fwd.queue[0];
      w.(sent := w.sent + {id},
         fwd := Sending(w.fwd.last, w.fwd.queue[1..], if id > w.fwd.maxSent then id else w.fwd.maxSent))
    case RaiseMark =>
      w.(mark := if w.fwd.maxSent > w.mark.value then Some(w.fwd.maxSent) else w.mark, fwd := Asleep)
  }

  const START: World := World([], {}, None, 0, 0, false, NotSubscribing, Asleep)

  ghost predicate Run(session: nat, worlds: seq<World>, actions: seq<Action>) {
    && |worlds| == |actions| + 1
    && worlds[0] == START
    && forall i :: 0 <= i < |actions| ==> StepAt(session, worlds, actions, i)
  }

  ghost predicate StepAt(session: nat, worlds: seq<World>, actions: seq<Action>, i: nat)
    requires i < |actions| && |worlds| == |actions| + 1
  {
    Enabled(worlds[i], actions[i]) && worlds[i + 1] == Step(session, worlds[i], actions[i])
  }

  // ----- The invariant

  /** Every event of the session with `lo < id <= hi` has been sent, or is about to be. */
  ghost predicate Covered(session: nat, w: World, lo: int, hi: int, queue: seq<int>) {
    forall id :: InLog(w.log, session, id) && lo < id <= hi ==> id in w.sent || id in queue
  }

  ghost predicate SubOk(session: nat, w: World) {
    match w.sub
    case NotSubscribing => true
    case KnowsMax(_, max) => w.base <= max <= MaxId(w.log, session)
    case Replaying(from, max, queue) =>
      w.base <= max <= MaxId(w.log, session) && Covered(session, w, from, max, queue)
  }

  /** `top` is how far the forwarder's current batch reaches. */
  ghost predicate FwdOk(session: nat, w: World) {
    match w.fwd
    case Asleep => true
    case KnowsMark(last) => w.mark.Some? && last <= MaxId(w.log, session) && Covered(session, w, w.base, last, [])
    case Sending(last, queue, maxSent) =>
      && w.mark.Some? && last <= MaxId(w.log, session) && maxSent <= MaxId(w.log, session)
      && Covered(session, w, w.base, last, [])
      && Covered(session, w, last, maxSent, [])
      && Increasing(queue)
      && (forall i :: 0 <= i < |queue| ==> maxSent < queue[i] <= MaxId(w.log, session))
      && (queue != [] ==> Covered(session, w, last, queue[|queue| - 1], queue))
  }

  ghost predicate MarkOk(session: nat, w: World) {
    w.mark.Some? ==>
      && w.base <= w.mark.value <= MaxId(w.log, session)
      && Covered(session, w, w.from, w.mark.value, [])
      && Covered(session, w, w.base, w.mark.value, [])
  }

  ghost predicate Inv(session: nat, w: World) {
    && LogOk(w.log)
    && w.base <= MaxId(w.log, session)
    && MarkOk(session, w) && SubOk(session, w) && FwdOk(session, w)
  }

  /** The bounds query: zeros for a session without events, otherwise its first and last event. */
  lemma BoundsAreExact(log: seq<Entry>, session: nat)
    requires LogOk(log)
    ensures forall id :: InLog(log, session, id) ==> 0 < MinId(log, session) <= id <= MaxId(log, session)
    ensures if exists id :: InLog(log, session, id)
            then InLog(log, session, MinId(log, session)) && InLog(log, session, MaxId(log, session))
            else MinId(log, session) == 0 && MaxId(log, session) == 0
    ensures MaxId(log, session) >= 0
  {
    AfterIsExact(log, session, 0);
    var all := After(log, session, 0);
    if all != [] {
      assert all[0] in all && all[|all| - 1] in all;
    }
    forall id | InLog(log, session, id)
      ensures 0 < MinId(log, session) <= id <= MaxId(log, session)
    {
      assert id > 0;
      assert id in all;
      var i :| 0 <= i < |all| && all[i] == id;
    }
  }

  // ----- Each action keeps the invariant

  lemma LogOkAppend(log: seq<Entry>, e: Entry)
    requires LogOk(log) && e.id > 0 && forall i :: 0 <= i < |log| ==> log[i].id < e.id
    ensures LogOk(log + [e])
  {
  }

  lemma AfterAppend(log: seq<Entry>, session: nat, e: Entry)
    requires e.id > 0
    ensures After(log + [e], session, 0) == After(log, session, 0) + if e.session == session then [e.id] else []
  {
    assert (log + [e])[..|log|] == log;
  }

  lemma AppendMax(log: seq<Entry>, session: nat, e: Entry)
    requires LogOk(log) && e.id > 0 && forall i :: 0 <= i < |log| ==> log[i].id < e.id
    ensures LogOk(log + [e])
    ensures MaxId(log, session) <= MaxId(log + [e], session)
    ensures e.session == session ==> MaxId(log, session) < e.id
  {
    LogOkAppend(log, e);
    AfterAppend(log, session, e);
    MaxBelow(log, session, e.id);
  }

  lemma MaxBelow(log: seq<Entry>, session: nat, bound: int)
    requires LogOk(log) && bound > 0 && forall i :: 0 <= i < |log| ==> log[i].id < bound
    ensures MaxId(log, session) < bound
  {
    var all := After(log, session, 0);
    AfterIsExact(log, session, 0);
    if all != [] {
      assert all[|all| - 1] in all;
      assert InLog(log, session, MaxId(log, session));
    }
  }

  /** A new event is beyond everything that was promised. */
  lemma CoveredAppend(session: nat, w: World, e: Entry, lo: int, hi: int, queue: seq<int>)
    requires LogOk(w.log) && Enabled(w, Append(e)) && Covered(session, w, lo, hi, queue) && hi <= MaxId(w.log, session)
    ensures Covered(session, Step(session, w, Append(e)), lo, hi, queue)
  {
    AppendMax(w.log, session, e);
    var w' := Step(session, w, Append(e));
    forall id | InLog(w'.log, session, id) && lo < id <= hi
      ensures id in w'.sent || id in queue
    {
      assert InLog(w.log, session, id);
    }
  }

  lemma AppendKeepsInv(session: nat, w: World, e: Entry)
    requires Inv(session, w) && Enabled(w, Append(e))
    ensures Inv(session, Step(session, w, Append(e)))
  {
    AppendMax(w.log, session, e);
    if w.mark.Some? {
      CoveredAppend(session, w, e, w.from, w.mark.value, []);
      CoveredAppend(session, w, e, w.base, w.mark.value, []);
    }
    match w.sub {
      case Replaying(from, max, queue) => CoveredAppend(session, w, e, from, max, queue);
      case _ =>
    }
    match w.fwd {
      case Asleep =>
      case KnowsMark(last) => CoveredAppend(session, w, e, w.base, last, []);
      case Sending(last, queue, maxSent) =>
        CoveredAppend(session, w, e, w.base, last, []);
        CoveredAppend(session, w, e, last, maxSent, []);
        if queue != [] {
          CoveredAppend(session, w, e, last, queue[|queue| - 1], queue);
        }
    }
  }

  /** A list that was not cut short, or any first part of it, has every event up to its last one. */
  lemma ListCovers(session: nat, w: World, from: int, limit: nat)
    requires LogOk(w.log) && limit > 0
    ensures var events := ListFrom(w.log, session, from, limit);
            && Increasing(events)
            && (forall i :: 0 <= i < |events| ==> from < events[i] <= MaxId(w.log, session) && events[i] > 0)
            && (events != [] ==> Covered(session, w, from, events[|events| - 1], events))
            && (|events| < limit ==> forall hi :: Covered(session, w, from, hi, events))
  {
    AfterIsExact(w.log, session, from);
    BoundsAreExact(w.log, session);
    var all, events := After(w.log, session, from), ListFrom(w.log, session, from, limit);
    forall i | 0 <= i < |events|
      ensures from < events[i] <= MaxId(w.log, session) && events[i] > 0
    {
      assert events[i] == all[i] && all[i] in all;
      assert InLog(w.log, session, all[i]);
    }
    forall id | InLog(w.log, session, id) && id > from
                && (|events| < limit || (events != [] && id <= events[|events| - 1]))
      ensures id in events
    {
      assert id in all;
      var i :| 0 <= i < |all| && all[i] == id;
      assert events[i] == id;
    }
  }

  lemma ListReplayKeepsInv(session: nat, w: World)
    requires Inv(session, w) && Enabled(w, ListReplay)
    ensures Inv(session, Step(session, w, ListReplay))
  {
    ListCovers(session, w, w.sub.from, REPLAY_LIMIT);
    var events := ListFrom(w.log, session, w.sub.from, REPLAY_LIMIT);
    if |events| <= MAX_REPLAY {
      assert Covered(session, w, w.sub.from, w.sub.max, events);
    }
  }

  lemma ListNewKeepsInv(session: nat, w: World)
    requires Inv(session, w) && Enabled(w, ListNew)
    ensures Inv(session, Step(session, w, ListNew))
  {
    ListCovers(session, w, w.fwd.last, FORWARD_LIMIT);
    BoundsAreExact(w.log, session);
    assert forall id :: InLog(w.log, session, id) ==> id > 0;
  }

  /** Writing the head of a queue moves it from promised to sent. */
  lemma CoveredSend(session: nat, w: World, w': World, lo: int, hi: int, queue: seq<int>)
    requires queue != [] && w'.log == w.log && w'.sent == w.sent + {queue[0]} && Covered(session, w, lo, hi, queue)
    ensures Covered(session, w', lo, hi, queue[1..])
  {
    assert queue == [queue[0]] + queue[1..];
  }

  lemma MarkKept(session: nat, w: World, w': World)
    requires MarkOk(session, w) && w'.log == w.log && w.sent <= w'.sent
    requires w'.mark == w.mark && w'.from == w.from && w'.base == w.base
    ensures MarkOk(session, w')
  {
  }

  lemma SendReplayKeepsInv(session: nat, w: World)
    requires Inv(session, w) && Enabled(w, SendReplay)
    ensures Inv(session, Step(session, w, SendReplay))
  {
    var w' := Step(session, w, SendReplay);
    MarkKept(session, w, w');
    CoveredSend(session, w, w', w.sub.from, w.sub.max, w.sub.queue);
    assert FwdOk(session, w');
  }

  lemma SendNewKeepsInv(session: nat, w: World)
    requires Inv(session, w) && Enabled(w, SendNew)
    ensures Inv(session, Step(session, w, SendNew))
  {
    var w' := Step(session, w, SendNew);
    MarkKept(session, w, w');
    var last, queue := w.fwd.last, w.fwd.queue;
    var top := queue[|queue| - 1];
    CoveredSend(session, w, w', last, top, queue);
    assert Covered(session, w', last, queue[0], []) by {
      forall id | InLog(w'.log, session, id) && last < id <= queue[0]
        ensures id in w'.sent
      {
        assert id in w.sent || id in queue;
      }
    }
  }

  /** The new maximum is at least the old one, so the forwarder's promises still reach back far enough. */
  lemma RegisterKeepsInv(session: nat, w: World)
    requires Inv(session, w) && Enabled(w, Register)
    ensures Inv(session, Step(session, w, Register))
  {
  }

  lemma RaiseMarkKeepsInv(session: nat, w: World)
    requires Inv(session, w) && Enabled(w, RaiseMark)
    ensures Inv(session, Step(session, w, RaiseMark))
  {
  }

  lemma StepKeepsInv(session: nat, w: World, a: Action)
    requires Inv(session, w) && Enabled(w, a)
    ensures Inv(session, Step(session, w, a))
  {
    match a {
      case Append(e) => AppendKeepsInv(session, w, e);
      case ListReplay => ListReplayKeepsInv(session, w);
      case SendReplay => SendReplayKeepsInv(session, w);
      case Register => RegisterKeepsInv(session, w);
      case ListNew => ListNewKeepsInv(session, w);
      case SendNew => SendNewKeepsInv(session, w);
      case RaiseMark => RaiseMarkKeepsInv(session, w);
      case _ =>
    }
  }

  lemma {:induction false} EveryWorldOk(session: nat, worlds: seq<World>, actions: seq<Action>, k: nat)
    requires Run(session, worlds, actions) && k < |worlds|
    ensures Inv(session, worlds[k])
  {
    if k > 0 {
      EveryWorldOk(session, worlds, actions, k - 1);
      assert StepAt(session, worlds, actions, k - 1);
      StepKeepsInv(session, worlds[k - 1], actions[k - 1]);
    }
  }

  /**
   * In every interleaving of appends, subscriptions and forwarding: every event of the session after the
   * start of the last accepted subscription and up to the high-water mark has been sent.
   */
  lemma NothingBelowTheMarkIsMissed(session: nat, worlds: seq<World>, actions: seq<Action>, k: nat, id: int)
    requires Run(session, worlds, actions) && k < |worlds| && worlds[k].mark.Some?
    requires InLog(worlds[k].log, session, id) && worlds[k].from < id <= worlds[k].mark.value
    ensures id in worlds[k].sent
  {
    EveryWorldOk(session, worlds, actions, k);
  }

  /** When the forwarder finds nothing after the mark, the client has been sent everything it asked for. */
  lemma CaughtUp(session: nat, worlds: seq<World>, actions: seq<Action>, k: nat, id: int)
    requires Run(session, worlds, actions) && k < |worlds| && worlds[k].mark.Some?
    requires ListFrom(worlds[k].log, session, worlds[k].mark.value, FORWARD_LIMIT) == []
    requires InLog(worlds[k].log, session, id) && worlds[k].from < id
    ensures id in worlds[k].sent
  {
    EveryWorldOk(session, worlds, actions, k);
    AfterIsExact(worlds[k].log, session, worlds[k].mark.value);
  }

  // ----- One client, undisturbed

  /** What remains after the event at position `k` is the rest of the list. */
  lemma {:induction false} AfterTail(log: seq<Entry>, session: nat, from: int, k: nat)
    requires LogOk(log) && k < |After(log, session, from)|
    ensures After(log, session, After(log, session, from)[k]) == After(log, session, from)[k + 1..]
  {
    var front, e := log[..|log| - 1], log[|log| - 1];
    var all, before := After(log, session, from), After(front, session, from);
    AfterIsExact(log, session, from);
    AfterIsExact(front, session, all[k]);
    assert all[k] in all && log == front + [e];
    if k < |before| {
      AfterTail(front, session, from, k);
      assert before[k] in before;
      AfterIsExact(front, session, from);
      assert InLog(front, session, before[k]);
    } else {
      assert all[k] == e.id;
      NothingAfter(front, session, e.id);
    }
  }

  lemma {:induction false} NothingAfter(log: seq<Entry>, session: nat, from: int)
    requires forall i :: 0 <= i < |log| ==> log[i].id <= from
    ensures After(log, session, from) == []
  {
    if log != [] {
      NothingAfter(log[..|log| - 1], session, from);
    }
  }

  /** The mark after a batch has been forwarded. */
  function Forwarded(log: seq<Entry>, session: nat, mark: int): int {
    var events := ListFrom(log, session, mark, FORWARD_LIMIT);
    if events == [] then mark else events[|events| - 1]
  }

  /** A batch makes exactly the listed events disappear from what is still to be forwarded. */
  lemma BacklogShrinks(log: seq<Entry>, session: nat, mark: int)
    requires LogOk(log)
    ensures var all, events := After(log, session, mark), ListFrom(log, session, mark, FORWARD_LIMIT);
            After(log, session, Forwarded(log, session, mark)) == all[|events|..]
    ensures Forwarded(log, session, mark) == mark <==> After(log, session, mark) == []
  {
    var all, events := After(log, session, mark), ListFrom(log, session, mark, FORWARD_LIMIT);
    if events != [] {
      AfterTail(log, session, mark, |events| - 1);
      AfterIsExact(log, session, mark);
      assert all[|events| - 1] in all;
    }
  }

  /** The world after some actions, if each is possible when its turn comes. */
  function Perform(session: nat, w: World, actions: seq<Action>): Option<World>
    decreases |actions|
  {
    if actions == [] then Some(w)
    else if Enabled(w, actions[0]) then Perform(session, Step(session, w, actions[0]), actions[1..])
    else None
  }

  function Repeat(a: Action, n: nat): seq<Action> {
    seq(n, _ => a)
  }

  lemma ElementsSplit(ids: seq<int>)
    requires ids != []
    ensures Elements(ids) == {ids[0]} + Elements(ids[1..])
  {
    assert ids == [ids[0]] + ids[1..];
  }

  /** Writing out a batch and raising the mark. */
  lemma {:induction false} BatchIsSent(session: nat, w: World)
    requires !w.closed && w.fwd.Sending? && w.mark.Some? && Increasing(w.fwd.queue)
    requires forall i :: 0 <= i < |w.fwd.queue| ==> w.fwd.queue[i] > w.fwd.maxSent
    ensures var queue := w.fwd.queue;
            var top := if queue == [] then w.fwd.maxSent else queue[|queue| - 1];
            Perform(session, w, Repeat(SendNew, |queue|) + [RaiseMark]) ==
            Some(w.(sent := w.sent + Elements(queue),
                    mark := if top > w.mark.value then Some(top) else w.mark,
                    fwd := Asleep))
    decreases |w.fwd.queue|
  {
    var queue := w.fwd.queue;
    var actions := Repeat(SendNew, |queue|) + [RaiseMark];
    if queue == [] {
      assert actions == [RaiseMark] && actions[1..] == [];
      assert w.sent + Elements(queue) == w.sent;
    } else {
      var w' := Step(session, w, SendNew);
      BatchIsSent(session, w');
      assert actions[0] == SendNew && actions[1..] == Repeat(SendNew, |queue[1..]|) + [RaiseMark];
      ElementsSplit(queue);
      assert w'.sent + Elements(queue[1..]) == w.sent + Elements(queue);
    }
  }

  /** The actions of a round that nothing disturbs do to the world what the client's method below does. */
  lemma UndisturbedRound(session: nat, w: World)
    requires LogOk(w.log) && !w.closed && w.fwd.Asleep? && w.mark.Some?
    ensures var events := ListFrom(w.log, session, w.mark.value, FORWARD_LIMIT);
            var sends := if events == [] then [] else Repeat(SendNew, |events|) + [RaiseMark];
            Perform(session, w, [Wake, ListNew] + sends) ==
            Some(w.(sent := w.sent + Elements(events), mark := Some(Forwarded(w.log, session, w.mark.value))))
  {
    var events := ListFrom(w.log, session, w.mark.value, FORWARD_LIMIT);
    ListIsAhead(w.log, session, w.mark.value);
    var rest := if events == [] then [] else Repeat(SendNew, |events|) + [RaiseMark];
    var actions := [Wake, ListNew] + rest;
    assert actions[1..] == [ListNew] + rest && actions[1..][1..] == rest;
    var awake := Step(session, w, Wake);
    var listed := Step(session, awake, ListNew);
    if events != [] {
      BatchIsSent(session, listed);
    } else {
      assert w.sent + Elements(events) == w.sent;
      assert listed == w && rest == [] && Perform(session, listed, rest) == Some(w);
      assert Perform(session, awake, actions[1..]) == Some(w);
    }
  }

  /** Writing out the stored events and registering the client. */
  lemma {:induction false} ReplayIsSent(session: nat, w: World)
    requires !w.closed && w.sub.Replaying?
    ensures Perform(session, w, Repeat(SendReplay, |w.sub.queue|) + [Register]) ==
            Some(w.(sent := w.sent + Elements(w.sub.queue),
                    mark := Some(w.sub.max), from := w.sub.from, base := w.sub.max, sub := NotSubscribing))
    decreases |w.sub.queue|
  {
    var queue := w.sub.queue;
    var actions := Repeat(SendReplay, |queue|) + [Register];
    if queue == [] {
      assert actions == [Register] && actions[1..] == [];
      assert w.sent + Elements(queue) == w.sent;
    } else {
      var w' := Step(session, w, SendReplay);
      ReplayIsSent(session, w');
      assert actions[0] == SendReplay && actions[1..] == Repeat(SendReplay, |queue[1..]|) + [Register];
      ElementsSplit(queue);
      assert w'.sent + Elements(queue[1..]) == w.sent + Elements(queue);
    }
  }

  /** What an undisturbed subscription makes of the world. */
  function SubscribedTo(session: nat, w: World, start: int): World {
    var min, max, events := MinId(w.log, session), MaxId(w.log, session), After(w.log, session, start);
    if start > 0 && min > 0 && start < min - 1 then w
    else if |events| > MAX_REPLAY then w.(closed := true)
    else w.(sent := w.sent + Elements(events), mark := Some(max), from := start, base := max)
  }

  /** A subscription is refused exactly if it starts before the event that precedes the first one stored. */
  lemma RefusedExactlyWhen(session: nat, w: World, start: int)
    requires LogOk(w.log) && Enabled(w, ReadBounds(start))
    ensures Step(session, w, ReadBounds(start)) == w <==>
            start > 0 && exists id :: IsFirst(w.log, session, id) && start < id - 1
  {
    BoundsAreExact(w.log, session);
    if exists id :: InLog(w.log, session, id) {
      assert IsFirst(w.log, session, MinId(w.log, session));
    }
  }

  /** The actions of a subscription that nothing disturbs do to the world what the client's method below does. */
  lemma UndisturbedSubscribe(session: nat, w: World, start: int) returns (actions: seq<Action>)
    requires !w.closed && w.sub.NotSubscribing?
    ensures Perform(session, w, actions) == Some(SubscribedTo(session, w, start))
    ensures actions != [] && actions[0] == ReadBounds(start)
    ensures forall i :: 1 <= i < |actions| ==> !actions[i].ReadBounds?
  {
    var known := Step(session, w, ReadBounds(start));
    if known == w {
      actions := [ReadBounds(start)];
      assert actions[1..] == [];
    } else {
      var events := ListFrom(w.log, session, start, REPLAY_LIMIT);
      var listed := Step(session, known, ListReplay);
      var rest := if listed.closed then [] else Repeat(SendReplay, |events|) + [Register];
      actions := [ReadBounds(start), ListReplay] + rest;
      assert actions[1..] == [ListReplay] + rest && actions[1..][1..] == rest;
      if !listed.closed {
        ReplayIsSent(session, listed);
      }
      assert Perform(session, known, actions[1..]) == Perform(session, listed, rest);
    }
  }

  datatype Answer = ReplayGap | Backpressure | Subscribed

  class Client {
    /** The sessions subscribed to, with the last event forwarded. */
    var marks: map<nat, int>
    /** What has been written to the connection, in order. */
    var sent: seq<int>
    var closed: bool

    /** Subscribes to a session from an event on, while no other event is appended. */
    method Subscribe(log: seq<Entry>, session: nat, start: int) returns (answer: Answer)
      requires LogOk(log)
      modifies this
      ensures answer == ReplayGap <==> start > 0 && exists id :: IsFirst(log, session, id) && start < id - 1
      ensures answer == Backpressure <==> answer != ReplayGap && |After(log, session, start)| > MAX_REPLAY
      ensures answer != Subscribed ==> marks == old(marks) && sent == old(sent)
      ensures answer != Subscribed ==> closed == (old(closed) || answer == Backpressure)
      ensures answer == Subscribed ==> sent == old(sent) + After(log, session, start) && closed == old(closed)
      ensures answer == Subscribed ==> marks == old(marks)[session := MaxId(log, session)]
    {
      var min, max := MinId(log, session), MaxId(log, session);
      BoundsAreExact(log, session);
      if start > 0 && min > 0 && start < min - 1 {
        assert IsFirst(log, session, min);
        return ReplayGap;
      }
      var events := ListFrom(log, session, start, REPLAY_LIMIT);
      if |events| > MAX_REPLAY {
        closed := true;
        return Backpressure;
      }
      for i := 0 to |events|
        invariant sent == old(sent) + events[..i] && marks == old(marks) && closed == old(closed)
      {
        sent := sent + [events[i]];
      }
      marks := marks[session := max];
      return Subscribed;
    }

    /** What one bus event about a session makes the forwarder do, while no other event is appended. */
    method Forward(log: seq<Entry>, session: nat)
      requires LogOk(log)
      modifies this
      ensures closed == old(closed)
      ensures session !in old(marks) ==> marks == old(marks) && sent == old(sent)
      ensures session in old(marks) ==>
                && sent == old(sent) + ListFrom(log, session, old(marks)[session], FORWARD_LIMIT)
                && marks == old(marks)[session := Forwarded(log, session, old(marks)[session])]
    {
      if session !in marks {
        return;
      }
      var events := ListFrom(log, session, marks[session], FORWARD_LIMIT);
      ListIsAhead(log, session, marks[session]);
      if events == [] {
        return;
      }
      var maxSent := 0;
      for i := 0 to |events|
        invariant sent == old(sent) + events[..i] && marks == old(marks) && closed == old(closed)
        invariant maxSent == if i == 0 then 0 else events[i - 1]
      {
        sent := sent + [events[i]];
        if events[i] > maxSent {
          maxSent := events[i];
        }
      }
      if maxSent > 0 {
        if maxSent > marks[session] {
          marks := marks[session := maxSent];
        }
      }
    }
  }

  ghost predicate IsFirst(log: seq<Entry>, session: nat, id: int) {
    InLog(log, session, id) && forall other :: InLog(log, session, other) ==> id <= other
  }

  lemma ListIsAhead(log: seq<Entry>, session: nat, mark: int)
    requires LogOk(log)
    ensures var events := ListFrom(log, session, mark, FORWARD_LIMIT);
            Increasing(events) && forall i :: 0 <= i < |events| ==> events[i] > mark && events[i] > 0
  {
    AfterIsExact(log, session, mark);
    var all := After(log, session, mark);
    assert forall i :: 0 <= i < |all| ==> all[i] in all;
  }
}
