/** Provider failover with circuit breakers whose state survives crashes in a key-value store. */
module Breaker {
  import opened Common

  datatype Breaker = Breaker(failures: int, lastFailure: int, tripped: bool)

  const FRESH: Breaker := Breaker(0, 0, false)

  datatype Settings = Settings(candidates: seq<string>, threshold: int, cooldown: int)

  /** The constructor replaces settings that are not positive by defaults. */
  predicate SettingsOk(cfg: Settings) {
    cfg.threshold > 0 && cfg.cooldown > 0
  }

  /** What a call gives; `Lost` if the process dies before the outcome is recorded. */
  datatype Outcome = Reply(text: string) | Failure(overflow: bool) | Lost

  /**
   * What one candidate would meet: when its breaker is looked at, what a call gives, when it ends, and
   * whether the key-value store takes the breaker then.
   */
  datatype Attempt = Attempt(check: int, outcome: Outcome, done: int, stored: bool)

  datatype Decision = Skipped | Called

  datatype Answer = Answered(text: string) | ContextOverflow | AllFailed | Interrupted

  /** The breakers in memory, those in the key-value store, and those whose last write this process failed to make. */
  datatype State = State(memory: map<string, Breaker>, kv: map<string, Breaker>, unwritten: set<string>)

  datatype Served = Served(state: State, decisions: seq<Decision>, answer: Answer)

  // ----- One breaker

  predicate CooledDown(cfg: Settings, b: Breaker, now: int) {
    b.tripped && now - b.lastFailure >= cfg.cooldown
  }

  /** Looking at a tripped breaker after its cooldown resets it, in memory only. */
  function Looked(cfg: Settings, b: Breaker, now: int): Breaker {
    if CooledDown(cfg, b, now) then b.(tripped := false, failures := 0) else b
  }

  predicate Blocks(cfg: Settings, b: Breaker, now: int) {
    b.tripped && now - b.lastFailure < cfg.cooldown
  }

  function Failed(cfg: Settings, b: Breaker, now: int): Breaker {
    Breaker(b.failures + 1, now, b.tripped || b.failures + 1 >= cfg.threshold)
  }

  function Succeeded(b: Breaker): Breaker {
    b.(failures := 0, tripped := false)
  }

  // ----- A request

  function Get(m: map<string, Breaker>, name: string): Breaker {
    if name in m then m[name] else FRESH
  }

  /** A breaker is recorded, in memory and, if that succeeds, in the store; a failing write is ignored. */
  function Recorded(s: State, name: string, b: Breaker, stored: bool): State {
    State(s.memory[name := b],
          if stored then s.kv[name := b] else s.kv,
          if stored then s.unwritten - {name} else s.unwritten + {name})
  }

  /** What trying one candidate does: an answer ends the request. */
  datatype Tried = Tried(state: State, decision: Decision, answer: Option<Answer>)

  function Try(cfg: Settings, s: State, name: string, a: Attempt): Tried {
    if name in s.memory && Blocks(cfg, s.memory[name], a.check) then Tried(s, Skipped, None)
    else
      var b := Looked(cfg, Get(s.memory, name), a.check);
      match a.outcome
      case Reply(text) =>
        Tried(if name in s.memory then Recorded(s, name, Succeeded(b), a.stored) else s, Called, Some(Answered(text)))
      case Failure(overflow) =>
        Tried(Recorded(s, name, Failed(cfg, b, a.done), a.stored), Called,
              if overflow then Some(ContextOverflow) else None)
      case Lost =>
        Tried(if name in s.memory then s.(memory := s.memory[name := b]) else s, Called, Some(Interrupted))
  }

  /**
   * Tries the candidates from the `i`-th on; `req[i]` is what the `i`-th would meet.  A request that is
   * shorter than the list of candidates is cut before the next one is looked at.
   */
  function Serve(cfg: Settings, s: State, req: seq<Attempt>, i: nat): Served
    requires i <= |req| <= |cfg.candidates|
    decreases |req| - i
  {
    if i == |req| then Served(s, [], if i == |cfg.candidates| then AllFailed else Interrupted)
    else
      var tried := Try(cfg, s, cfg.candidates[i], req[i]);
      if tried.answer.Some? then Served(tried.state, [tried.decision], tried.answer.value)
      else
        Prefixed([tried.decision], Serve(cfg, tried.state, req, i + 1))
  }

  /** What is served after these decisions have been made. */
  function Prefixed(decisions: seq<Decision>, rest: Served): Served {
    rest.(decisions := decisions + rest.decisions)
  }

  lemma PrefixedMore(decisions: seq<Decision>, d: Decision, rest: Served)
    ensures Prefixed(decisions, Prefixed([d], rest)) == Prefixed(decisions + [d], rest)
  {
  }

  /** What the store knows replaces what is in memory. */
  function Loaded(memory: map<string, Breaker>, kv: map<string, Breaker>): map<string, Breaker> {
    map name | name in memory :: if name in kv then kv[name] else memory[name]
  }

  /** A new process: fresh breakers, then whatever the store knows about them. */
  function Reloaded(s: State): State {
    State(Loaded(map name | name in s.memory :: FRESH, s.kv), s.kv, {})
  }

  class FailoverBrain {
    const cfg: Settings
    var breakers: map<string, Breaker>
    var kv: map<string, Breaker>
    ghost var unwritten: set<string>

    ghost function View(): State
      reads this
    {
      State(breakers, kv, unwritten)
    }

    constructor (candidates: seq<string>, threshold: int, cooldown: int, store: map<string, Breaker>)
      ensures cfg == Settings(candidates,
                              if threshold <= 0 then 5 else threshold,
                              if cooldown <= 0 then 300_000_000_000 else cooldown)
      ensures SettingsOk(cfg)
      ensures kv == store && breakers == (map name | name in candidates :: FRESH) && unwritten == {}
    {
      cfg := Settings(candidates,
                      if threshold <= 0 then 5 else threshold,
                      if cooldown <= 0 then 300_000_000_000 else cooldown);
      kv, unwritten := store, {};
      breakers := map name | name in candidates :: FRESH;
    }

    method IsTripped(name: string, now: int) returns (blocked: bool)
      modifies this`breakers
      ensures blocked <==> name in old(breakers) && Blocks(cfg, old(breakers)[name], now)
      ensures breakers == if name in old(breakers)
                          then old(breakers)[name := Looked(cfg, old(breakers)[name], now)]
                          else old(breakers)
    {
      if name !in breakers {
        return false;
      }
      var b := breakers[name];
      assert breakers == breakers[name := b];
      if !b.tripped {
        return false;
      }
      if now - b.lastFailure >= cfg.cooldown {
        breakers := breakers[name := b.(tripped := false, failures := 0)];
        return false;
      }
      return true;
    }

    method RecordFailure(name: string, now: int, stored: bool)
      modifies this
      ensures View() == Recorded(old(View()), name, Failed(cfg, Get(old(breakers), name), now), stored)
    {
      var b := FRESH;
      if name in breakers {
        b := breakers[name];
      }
      b := b.(failures := b.failures + 1, lastFailure := now);
      if b.failures >= cfg.threshold {
        b := b.(tripped := true);
      }
      breakers := breakers[name := b];
      PersistBreakerState(name, b, stored);
    }

    method RecordSuccess(name: string, stored: bool)
      modifies this
      ensures View() == if name in old(breakers)
                        then Recorded(old(View()), name, Succeeded(old(breakers)[name]), stored)
                        else old(View())
    {
      if name in breakers {
        var b := breakers[name].(failures := 0, tripped := false);
        breakers := breakers[name := b];
        PersistBreakerState(name, b, stored);
      }
    }

    /** Stores one breaker; an error is ignored. */
    method PersistBreakerState(name: string, b: Breaker, stored: bool)
      modifies this`kv, this`unwritten
      ensures kv == if stored then old(kv)[name := b] else old(kv)
      ensures unwritten == if stored then old(unwritten) - {name} else old(unwritten) + {name}
    {
      if stored {
        kv := kv[name := b];
        unwritten := unwritten - {name};
      } else {
        unwritten := unwritten + {name};
      }
    }

    method LoadBreakerState()
      modifies this`breakers
      ensures breakers == Loaded(old(breakers), kv)
    {
      var left := breakers.Keys;
      ghost var start := breakers;
      while left != {}
        invariant left <= breakers.Keys == start.Keys
        invariant forall name :: name in start ==>
                    breakers[name] == if name in left || name !in kv then start[name] else kv[name]
        decreases left
      {
        var name :| name in left;
        left := left - {name};
        if name in kv {
          breakers := breakers[name := kv[name]];
        }
      }
    }

    /** Looks at a candidate's breaker, calls the candidate unless it is blocked, and records the outcome. */
    method TryCandidate(name: string, a: Attempt) returns (decision: Decision, answer: Option<Answer>)
      requires !a.outcome.Lost?
      modifies this
      ensures Tried(View(), decision, answer) == Try(cfg, old(View()), name, a)
    {
      var blocked := IsTripped(name, a.check);
      if blocked {
        assert breakers == old(breakers);
        return Skipped, None;
      }
      ghost var b := Looked(cfg, Get(old(breakers), name), a.check);
      match a.outcome {
        case Reply(text) =>
          RecordSuccess(name, a.stored);
          assert name in old(breakers) ==> breakers == old(breakers)[name := Succeeded(b)];
          return Called, Some(Answered(text));
        case Failure(overflow) =>
          RecordFailure(name, a.done, a.stored);
          assert breakers == old(breakers)[name := Failed(cfg, b, a.done)];
          return Called, if overflow then Some(ContextOverflow) else None;
      }
    }

    method Respond(req: seq<Attempt>) returns (decisions: seq<Decision>, answer: Answer)
      requires |req| == |cfg.candidates| && forall i :: 0 <= i < |req| ==> !req[i].outcome.Lost?
      modifies this
      ensures Served(View(), decisions, answer) == Serve(cfg, old(View()), req, 0)
    {
      decisions := [];
      var i := 0;
      while i < |req|
        invariant 0 <= i <= |req|
        invariant Serve(cfg, old(View()), req, 0) == Prefixed(decisions, Serve(cfg, View(), req, i))
      {
        ghost var tried := Try(cfg, View(), cfg.candidates[i], req[i]);
        PrefixedMore(decisions, tried.decision, Serve(cfg, tried.state, req, i + 1));
        var decision, result := TryCandidate(cfg.candidates[i], req[i]);
        decisions := decisions + [decision];
        if result.Some? {
          return decisions, result.value;
        }
        i := i + 1;
      }
      answer := AllFailed;
    }
  }

  // ----- Crashes make no difference

  datatype Event = Request(req: seq<Attempt>) | Crash

  predicate TimesOk(req: seq<Attempt>, now: int) {
    && (forall i :: 0 <= i < |req| ==> now <= req[i].check <= req[i].done)
    && forall i, j :: 0 <= i < j < |req| ==> req[i].done <= req[j].check
  }

  /** `live` never crashed; `stored` may still show a tripped breaker whose cooldown is over. */
  predicate Agree(cfg: Settings, live: Breaker, stored: Breaker, now: int) {
    live == stored || (CooledDown(cfg, stored, now) && live == Looked(cfg, stored, now))
  }

  /**
   * The memory of the crashing process, and what it has written, agree with the process that never crashed,
   * except for the breakers in `doubt`.
   */
  ghost predicate Alike(cfg: Settings, live: State, s: State, doubt: set<string>, now: int) {
    && live.memory.Keys == s.memory.Keys
    && (forall i :: 0 <= i < |cfg.candidates| ==> cfg.candidates[i] in live.memory)
    && forall name :: name in live.memory && name !in doubt ==> AlikeAt(cfg, live, s, name, now)
  }

  predicate AlikeAt(cfg: Settings, live: State, s: State, name: string, now: int)
    requires name in live.memory && name in s.memory
  {
    && Agree(cfg, live.memory[name], s.memory[name], now)
    && (name !in s.unwritten ==> Agree(cfg, live.memory[name], Get(s.kv, name), now))
  }

  lemma AgreeLater(cfg: Settings, live: Breaker, stored: Breaker, now: int, later: int)
    requires Agree(cfg, live, stored, now) && now <= later
    ensures Agree(cfg, live, stored, later)
    ensures Blocks(cfg, live, later) <==> Blocks(cfg, stored, later)
    ensures Looked(cfg, live, later) == Looked(cfg, stored, later)
    ensures Agree(cfg, Looked(cfg, live, later), stored, later)
  {
  }

  lemma AlikeLater(cfg: Settings, live: State, s: State, doubt: set<string>, now: int, later: int)
    requires Alike(cfg, live, s, doubt, now) && now <= later
    ensures Alike(cfg, live, s, doubt, later)
  {
    forall name | name in live.memory && name !in doubt
      ensures AlikeAt(cfg, live, s, name, later)
    {
      assert AlikeAt(cfg, live, s, name, now);
      AgreeLater(cfg, live.memory[name], s.memory[name], now, later);
      if name !in s.unwritten {
        AgreeLater(cfg, live.memory[name], Get(s.kv, name), now, later);
      }
    }
  }

  ghost function LastTime(req: seq<Attempt>, now: int): int {
    if req == [] then now else req[|req| - 1].done
  }

  lemma TimesTail(req: seq<Attempt>, now: int)
    requires req != [] && TimesOk(req, now)
    ensures TimesOk(req[1..], req[0].done) && LastTime(req[1..], req[0].done) == LastTime(req, now)
  {
    var tail := req[1..];
    forall i | 0 <= i < |tail|
      ensures req[0].done <= tail[i].check <= tail[i].done
    {
      assert tail[i] == req[i + 1];
    }
  }

  /** Having looked at a breaker makes no difference either. */
  lemma LookAlike(cfg: Settings, live: State, s: State, doubt: set<string>, name: string, check: int)
    requires Alike(cfg, live, s, doubt, check) && name in live.memory && name !in doubt
    ensures var b := Looked(cfg, live.memory[name], check);
            Alike(cfg, live.(memory := live.memory[name := b]), s.(memory := s.memory[name := b]), doubt, check)
  {
    assert AlikeAt(cfg, live, s, name, check);
    if name !in s.unwritten {
      AgreeLater(cfg, live.memory[name], Get(s.kv, name), check, check);
    }
  }

  /** Recording the same breaker in both, with a write that succeeds or fails. */
  lemma RecordAlike(cfg: Settings, live: State, s: State, doubt: set<string>, name: string, b: Breaker, stored: bool,
                    now: int)
    requires Alike(cfg, live, s, doubt, now) && name in live.memory
    ensures Alike(cfg, Recorded(live, name, b, stored), Recorded(s, name, b, stored), doubt, now)
  {
    var x, y := Recorded(live, name, b, stored), Recorded(s, name, b, stored);
    forall other | other in x.memory && other !in doubt
      ensures AlikeAt(cfg, x, y, other, now)
    {
      if other != name {
        assert AlikeAt(cfg, live, s, other, now);
      }
    }
  }

  /** The candidates from the `i`-th on that a request of this length considers are not in doubt. */
  ghost predicate Avoids(cfg: Settings, req: seq<Attempt>, i: nat, doubt: set<string>)
    requires |req| <= |cfg.candidates|
  {
    forall k :: i <= k < |req| ==> cfg.candidates[k] !in doubt
  }

  /**
   * One request: the same candidates are skipped and called, the same answer is given, and the processes stay
   * alike.
   */
  lemma {:induction false} ServeAlike(cfg: Settings, live: State, s: State, doubt: set<string>, req: seq<Attempt>,
                                      i: nat, now: int, end: int)
    requires i <= |req| <= |cfg.candidates| && Alike(cfg, live, s, doubt, now) && Avoids(cfg, req, i, doubt)
    requires TimesOk(req[i..], now) && LastTime(req[i..], now) <= end
    ensures var x, y := Serve(cfg, live, req, i), Serve(cfg, s, req, i);
            x.decisions == y.decisions && x.answer == y.answer && Alike(cfg, x.state, y.state, doubt, end)
    decreases |req| - i
  {
    if i == |req| {
      AlikeLater(cfg, live, s, doubt, now, end);
    } else {
      var name, a := cfg.candidates[i], req[i];
      assert req[i..][0] == a;
      TimesTail(req[i..], now);
      assert req[i..][1..] == req[i + 1..];
      assert AlikeAt(cfg, live, s, name, now);
      AgreeLater(cfg, live.memory[name], s.memory[name], now, a.check);
      AlikeLater(cfg, live, s, doubt, now, a.done);
      if Blocks(cfg, live.memory[name], a.check) {
        ServeAlike(cfg, live, s, doubt, req, i + 1, a.done, end);
      } else {
        var b := Looked(cfg, live.memory[name], a.check);
        match a.outcome {
          case Reply(_) =>
            RecordAlike(cfg, live, s, doubt, name, Succeeded(b), a.stored, a.done);
            AlikeLater(cfg, Recorded(live, name, Succeeded(b), a.stored),
                       Recorded(s, name, Succeeded(b), a.stored), doubt, a.done, end);
          case Failure(overflow) =>
            var b' := Failed(cfg, b, a.done);
            var x, y := Recorded(live, name, b', a.stored), Recorded(s, name, b', a.stored);
            RecordAlike(cfg, live, s, doubt, name, b', a.stored, a.done);
            if overflow {
              AlikeLater(cfg, x, y, doubt, a.done, end);
            } else {
              ServeAlike(cfg, x, y, doubt, req, i + 1, a.done, end);
            }
          case Lost =>
            AlikeLater(cfg, live, s, doubt, now, a.check);
            LookAlike(cfg, live, s, doubt, name, a.check);
            AlikeLater(cfg, live.(memory := live.memory[name := b]), s.(memory := s.memory[name := b]), doubt,
                       a.check, end);
        }
      }
    }
  }

  /** A crash puts in doubt what the process had not written, and nothing else. */
  lemma CrashAlike(cfg: Settings, live: State, s: State, doubt: set<string>, now: int)
    requires Alike(cfg, live, s, doubt, now)
    ensures Alike(cfg, live, Reloaded(s), doubt + s.unwritten, now)
  {
    forall name | name in live.memory && name !in doubt + s.unwritten
      ensures AlikeAt(cfg, live, Reloaded(s), name, now)
    {
      assert AlikeAt(cfg, live, s, name, now);
    }
  }

  /** The whole history of a process: `crashes` tells whether its crashes really happen. */
  function History(cfg: Settings, s: State, events: seq<Event>, crashes: bool): seq<(seq<Decision>, Answer)>
    requires forall i :: 0 <= i < |events| ==> EventOk(cfg, events[i])
    decreases events
  {
    if events == [] then []
    else match events[0]
      case Crash => History(cfg, if crashes then Reloaded(s) else s, events[1..], crashes)
      case Request(req) =>
        assert EventOk(cfg, events[0]);
        var served := Serve(cfg, s, req, 0);
        [(served.decisions, served.answer)] + History(cfg, served.state, events[1..], crashes)
  }

  predicate EventOk(cfg: Settings, e: Event) {
    e.Request? ==> |e.req| <= |cfg.candidates|
  }

  /** Requests follow one another in time. */
  ghost predicate InOrder(events: seq<Event>, now: int)
    decreases events
  {
    events == [] ||
    match events[0]
    case Crash => InOrder(events[1..], now)
    case Request(req) => TimesOk(req, now) && InOrder(events[1..], LastTime(req, now))
  }

  /** No request considers a candidate whose breaker a crash before it found unwritten. */
  ghost predicate Clear(cfg: Settings, s: State, events: seq<Event>, doubt: set<string>)
    requires forall i :: 0 <= i < |events| ==> EventOk(cfg, events[i])
    decreases events
  {
    events == [] ||
    match events[0]
    case Crash => Clear(cfg, Reloaded(s), events[1..], doubt + s.unwritten)
    case Request(req) =>
      assert EventOk(cfg, events[0]);
      Avoids(cfg, req, 0, doubt) && Clear(cfg, Serve(cfg, s, req, 0).state, events[1..], doubt)
  }

  lemma {:induction false} HistoriesAgree(cfg: Settings, live: State, s: State, doubt: set<string>,
                                          events: seq<Event>, now: int)
    requires (forall i :: 0 <= i < |events| ==> EventOk(cfg, events[i])) && InOrder(events, now)
    requires Alike(cfg, live, s, doubt, now) && Clear(cfg, s, events, doubt)
    ensures History(cfg, live, events, false) == History(cfg, s, events, true)
    decreases events
  {
    if events != [] {
      match events[0] {
        case Crash =>
          CrashAlike(cfg, live, s, doubt, now);
          HistoriesAgree(cfg, live, Reloaded(s), doubt + s.unwritten, events[1..], now);
        case Request(req) =>
          assert EventOk(cfg, events[0]);
          assert req[0..] == req;
          var end := LastTime(req, now);
          ServeAlike(cfg, live, s, doubt, req, 0, now, end);
          HistoriesAgree(cfg, Serve(cfg, live, req, 0).state, Serve(cfg, s, req, 0).state, doubt, events[1..], end);
      }
    }
  }

  function Initial(cfg: Settings): State {
    State(map name | name in cfg.candidates :: FRESH, map[], {})
  }

  /**
   * Whichever writes to the store fail, a process that crashes and reloads its breakers makes the same
   * decisions as one that never crashed until a request comes to a candidate whose breaker a crash found
   * unwritten: only there can they part.
   */
  lemma OnlyUnwrittenBreakersDiffer(cfg: Settings, events: seq<Event>, now: int)
    requires (forall i :: 0 <= i < |events| ==> EventOk(cfg, events[i])) && InOrder(events, now)
    requires Clear(cfg, Initial(cfg), events, {})
    ensures History(cfg, Initial(cfg), events, false) == History(cfg, Initial(cfg), events, true)
  {
    HistoriesAgree(cfg, Initial(cfg), Initial(cfg), {}, events, now);
  }

  /** Every write succeeds. */
  ghost predicate AllWritten(events: seq<Event>) {
    forall i, k :: 0 <= i < |events| && events[i].Request? && 0 <= k < |events[i].req| ==> events[i].req[k].stored
  }

  lemma {:induction false} ServeWritten(cfg: Settings, s: State, req: seq<Attempt>, i: nat)
    requires i <= |req| <= |cfg.candidates| && s.unwritten == {} && forall k :: 0 <= k < |req| ==> req[k].stored
    ensures Serve(cfg, s, req, i).state.unwritten == {}
    decreases |req| - i
  {
    if i < |req| {
      var name, a := cfg.candidates[i], req[i];
      if name in s.memory && Blocks(cfg, s.memory[name], a.check) {
        ServeWritten(cfg, s, req, i + 1);
      } else if a.outcome.Failure? && !a.outcome.overflow {
        var b' := Failed(cfg, Looked(cfg, Get(s.memory, name), a.check), a.done);
        ServeWritten(cfg, Recorded(s, name, b', a.stored), req, i + 1);
      }
    }
  }

  lemma {:induction false} WrittenIsClear(cfg: Settings, s: State, events: seq<Event>)
    requires (forall i :: 0 <= i < |events| ==> EventOk(cfg, events[i])) && AllWritten(events) && s.unwritten == {}
    ensures Clear(cfg, s, events, {})
    decreases events
  {
    if events != [] {
      var tail := events[1..];
      assert forall i :: 0 <= i < |tail| ==> tail[i] == events[i + 1];
      match events[0] {
        case Crash =>
          WrittenIsClear(cfg, Reloaded(s), tail);
          assert {} + s.unwritten == {};
        case Request(req) =>
          assert EventOk(cfg, events[0]);
          assert forall k :: 0 <= k < |req| ==> events[0].req[k].stored;
          ServeWritten(cfg, s, req, 0);
          WrittenIsClear(cfg, Serve(cfg, s, req, 0).state, tail);
      }
    }
  }

  /**
   * A process that crashes and reloads its breakers makes the same skip and call decisions, and gives the
   * same answers, as one that never crashed, although the reset after a cooldown is not stored.  It may
   * crash between requests or inside one; the other process's request is then cut at the same place.
   */
  lemma CrashesAreInvisible(cfg: Settings, events: seq<Event>, now: int)
    requires (forall i :: 0 <= i < |events| ==> EventOk(cfg, events[i])) && InOrder(events, now) && AllWritten(events)
    ensures History(cfg, Initial(cfg), events, false) == History(cfg, Initial(cfg), events, true)
  {
    WrittenIsClear(cfg, Initial(cfg), events);
    OnlyUnwrittenBreakersDiffer(cfg, events, now);
  }

  const ONE_PROVIDER: Settings := Settings(["p"], 1, 10)
  const FAILS: seq<Attempt> := [Attempt(0, Failure(false), 0, false)]
  const NEXT: seq<Attempt> := [Attempt(1, Reply("x"), 1, true)]
  /** The state after the failure: tripped in memory, nothing in the store. */
  const FORGETFUL: State := Recorded(Initial(ONE_PROVIDER), "p", Breaker(1, 0, true), false)

  lemma FailureTrips()
    ensures Serve(ONE_PROVIDER, Initial(ONE_PROVIDER), FAILS, 0) == Served(FORGETFUL, [Called], AllFailed)
  {
    assert Serve(ONE_PROVIDER, FORGETFUL, FAILS, 1) == Served(FORGETFUL, [], AllFailed);
  }

  lemma TrippedIsSkipped()
    ensures Serve(ONE_PROVIDER, FORGETFUL, NEXT, 0) == Served(FORGETFUL, [Skipped], AllFailed)
  {
    assert Serve(ONE_PROVIDER, FORGETFUL, NEXT, 1) == Served(FORGETFUL, [], AllFailed);
  }

  lemma ForgottenIsCalled()
    ensures var served := Serve(ONE_PROVIDER, Reloaded(FORGETFUL), NEXT, 0);
            served.decisions == [Called] && served.answer == Answered("x")
  {
    assert Reloaded(FORGETFUL).memory["p"] == FRESH;
  }

  lemma OneRequest(s: State, req: seq<Attempt>, crashes: bool)
    requires |req| <= 1
    ensures var served := Serve(ONE_PROVIDER, s, req, 0);
            History(ONE_PROVIDER, s, [Request(req)], crashes) == [(served.decisions, served.answer)]
  {
    var events := [Request(req)];
    assert events[1..] == [];
  }

  /** An unwritten breaker does show: tripped and then forgotten, it no longer keeps the next request away. */
  lemma UnwrittenBreakerShows()
    ensures var events := [Request(FAILS), Crash, Request(NEXT)];
            && InOrder(events, 0)
            && History(ONE_PROVIDER, Initial(ONE_PROVIDER), events, false) ==
               [([Called], AllFailed), ([Skipped], AllFailed)]
            && History(ONE_PROVIDER, Initial(ONE_PROVIDER), events, true) ==
               [([Called], AllFailed), ([Called], Answered("x"))]
  {
    var events := [Request(FAILS), Crash, Request(NEXT)];
    var tail := [Crash, Request(NEXT)];
    assert events[1..] == tail && tail[1..] == [Request(NEXT)] && [Request(NEXT)][1..] == [];
    assert InOrder([Request(NEXT)], 0);
    assert InOrder(tail, 0);
    FailureTrips();
    TrippedIsSkipped();
    ForgottenIsCalled();
    OneRequest(FORGETFUL, NEXT, false);
    OneRequest(Reloaded(FORGETFUL), NEXT, true);
    assert History(ONE_PROVIDER, FORGETFUL, tail, false) == [([Skipped], AllFailed)];
    assert History(ONE_PROVIDER, FORGETFUL, tail, true) == [([Called], Answered("x"))];
  }

  // ----- Tripped means enough failures

  predicate TrippedOk(cfg: Settings, b: Breaker) {
    b.failures >= 0 && (b.tripped <==> b.failures >= cfg.threshold)
  }

  predicate AllTrippedOk(cfg: Settings, s: State) {
    && (forall name :: name in s.memory ==> TrippedOk(cfg, s.memory[name]))
    && (forall name :: name in s.kv ==> TrippedOk(cfg, s.kv[name]))
  }

  lemma {:induction false} ServeKeepsTrippedOk(cfg: Settings, s: State, req: seq<Attempt>, i: nat)
    requires SettingsOk(cfg) && i <= |req| <= |cfg.candidates| && AllTrippedOk(cfg, s)
    ensures AllTrippedOk(cfg, Serve(cfg, s, req, i).state)
    decreases |req| - i
  {
    if i < |req| {
      var name, a := cfg.candidates[i], req[i];
      if name in s.memory && Blocks(cfg, s.memory[name], a.check) {
        ServeKeepsTrippedOk(cfg, s, req, i + 1);
      } else if a.outcome.Failure? && !a.outcome.overflow {
        var b' := Failed(cfg, Looked(cfg, Get(s.memory, name), a.check), a.done);
        ServeKeepsTrippedOk(cfg, Recorded(s, name, b', a.stored), req, i + 1);
      }
    }
  }

  function StateAfter(cfg: Settings, s: State, events: seq<Event>): State
    requires forall i :: 0 <= i < |events| ==> EventOk(cfg, events[i])
  {
    if events == [] then s
    else
      var e, before := events[|events| - 1], StateAfter(cfg, s, events[..|events| - 1]);
      match e
      case Crash => Reloaded(before)
      case Request(req) => assert EventOk(cfg, e); Serve(cfg, before, req, 0).state
  }

  /**
   * After any requests and crashes, in memory and in the store, a breaker is tripped exactly when its
   * failures reach the threshold; so a candidate is skipped exactly when they do and the last of them
   * is more recent than the cooldown.
   */
  lemma {:induction false} TrippedExactlyAtThreshold(cfg: Settings, events: seq<Event>)
    requires SettingsOk(cfg) && forall i :: 0 <= i < |events| ==> EventOk(cfg, events[i])
    ensures AllTrippedOk(cfg, StateAfter(cfg, Initial(cfg), events))
    ensures var memory := StateAfter(cfg, Initial(cfg), events).memory;
            forall name, now :: name in memory ==>
              (Blocks(cfg, memory[name], now) <==>
               memory[name].failures >= cfg.threshold && now - memory[name].lastFailure < cfg.cooldown)
  {
    if events != [] {
      var e, front := events[|events| - 1], events[..|events| - 1];
      TrippedExactlyAtThreshold(cfg, front);
      assert EventOk(cfg, e);
      if e.Request? {
        ServeKeepsTrippedOk(cfg, StateAfter(cfg, Initial(cfg), front), e.req, 0);
      }
    }
  }
}
