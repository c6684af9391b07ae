/** Which provider answers a request, stated from the request and the breakers before it alone. */
module Failover {
  import opened Common
  import opened Breaker

  /**
   * The breaker of `name` when the first `j` candidates have been passed: each of them that was not blocked
   * has failed.  A breaker past its cooldown starts counting again.
   */
  function BreakerAfter(cfg: Settings, memory: map<string, Breaker>, req: seq<Attempt>, name: string, j: nat): Breaker
    requires j <= |req| <= |cfg.candidates|
  {
    if j == 0 then Get(memory, name)
    else
      var b, a := BreakerAfter(cfg, memory, req, name, j - 1), req[j - 1];
      if cfg.candidates[j - 1] != name || (b.tripped && a.check - b.lastFailure < cfg.cooldown) then b
      else
        var failures := 1 + if b.tripped then 0 else b.failures;
        Breaker(failures, a.done, failures >= cfg.threshold)
  }

  /** The breaker candidate `k` has when it is its turn. */
  function BreakerAt(cfg: Settings, memory: map<string, Breaker>, req: seq<Attempt>, k: nat): Breaker
    requires k < |req| <= |cfg.candidates|
  {
    BreakerAfter(cfg, memory, req, cfg.candidates[k], k)
  }

  /** It is tripped, and its last failure is more recent than the cooldown. */
  predicate Blocked(cfg: Settings, memory: map<string, Breaker>, req: seq<Attempt>, k: nat)
    requires k < |req| <= |cfg.candidates|
  {
    var b := BreakerAt(cfg, memory, req, k);
    b.tripped && req[k].check - b.lastFailure < cfg.cooldown
  }

  /** What an attempt makes of the request, if it ends it: only a failure that is not an overflow does not. */
  function Ending(a: Attempt): Option<Answer> {
    match a.outcome
    case Reply(text) => Some(Answered(text))
    case Failure(true) => Some(ContextOverflow)
    case Failure(false) => None
    case Lost => Some(Interrupted)
  }

  /** Candidate `j` is called and its outcome ends the request. */
  predicate Ends(cfg: Settings, memory: map<string, Breaker>, req: seq<Attempt>, j: nat)
    requires j < |req| <= |cfg.candidates|
  {
    !Blocked(cfg, memory, req, j) && req[j].outcome != Failure(false)
  }

  ghost predicate FirstEnd(cfg: Settings, memory: map<string, Breaker>, req: seq<Attempt>, i: nat, j: nat)
    requires |req| <= |cfg.candidates|
  {
    i <= j < |req| && Ends(cfg, memory, req, j) && forall m :: i <= m < j ==> !Ends(cfg, memory, req, m)
  }

  /** A state in which the first `i` candidates have been passed. */
  ghost predicate Passed(cfg: Settings, memory: map<string, Breaker>, s: State, req: seq<Attempt>, i: nat)
    requires i <= |req| <= |cfg.candidates|
  {
    forall name :: Get(s.memory, name) == BreakerAfter(cfg, memory, req, name, i)
  }

  lemma TryDoes(cfg: Settings, memory: map<string, Breaker>, s: State, req: seq<Attempt>, i: nat)
    requires i < |req| <= |cfg.candidates| && Passed(cfg, memory, s, req, i) && SettingsOk(cfg)
    requires TrippedOk(cfg, Get(s.memory, cfg.candidates[i]))
    ensures var tried := Try(cfg, s, cfg.candidates[i], req[i]);
            && tried.decision == DecisionAt(cfg, memory, req, i)
            && tried.answer == (if Blocked(cfg, memory, req, i) then None else Ending(req[i]))
            && (tried.answer.None? ==> Passed(cfg, memory, tried.state, req, i + 1))
  {
    var name, a := cfg.candidates[i], req[i];
    var b := Get(s.memory, name);
    var tried := Try(cfg, s, name, a);
    assert b == BreakerAt(cfg, memory, req, i);
    if tried.answer.None? {
      forall other
        ensures Get(tried.state.memory, other) == BreakerAfter(cfg, memory, req, other, i + 1)
      {
        assert Get(s.memory, other) == BreakerAfter(cfg, memory, req, other, i);
      }
    }
  }

  ghost predicate AllSound(cfg: Settings, s: State) {
    forall name :: TrippedOk(cfg, Get(s.memory, name))
  }

  lemma TryKeepsSound(cfg: Settings, s: State, name: string, a: Attempt)
    requires SettingsOk(cfg) && AllSound(cfg, s)
    ensures AllSound(cfg, Try(cfg, s, name, a).state)
  {
    var s' := Try(cfg, s, name, a).state;
    assert TrippedOk(cfg, Get(s.memory, name));
    forall other
      ensures TrippedOk(cfg, Get(s'.memory, other))
    {
      assert TrippedOk(cfg, Get(s.memory, other));
    }
  }

  /** What a request gives from the `i`-th candidate on. */
  ghost predicate ServedRight(cfg: Settings, memory: map<string, Breaker>, req: seq<Attempt>, i: nat, served: Served)
    requires i <= |req| <= |cfg.candidates|
  {
    && (forall j: nat :: FirstEnd(cfg, memory, req, i, j) ==>
          |served.decisions| == j + 1 - i && Some(served.answer) == Ending(req[j]))
    && ((forall j :: i <= j < |req| ==> !Ends(cfg, memory, req, j)) ==>
          |served.decisions| == |req| - i
          && served.answer == if |req| == |cfg.candidates| then AllFailed else Interrupted)
    && (served.answer == AllFailed ==> forall j :: i <= j < |req| ==> !Ends(cfg, memory, req, j))
    && DecisionsRight(cfg, memory, req, i, served.decisions)
  }

  /** A candidate is skipped exactly if it is blocked when its turn comes. */
  ghost predicate DecisionsRight(cfg: Settings, memory: map<string, Breaker>, req: seq<Attempt>, i: nat,
                                 decisions: seq<Decision>)
    requires i <= |req| <= |cfg.candidates|
  {
    && |decisions| <= |req| - i
    && forall k :: i <= k < i + |decisions| ==> decisions[k - i] == DecisionAt(cfg, memory, req, k)
  }

  function DecisionAt(cfg: Settings, memory: map<string, Breaker>, req: seq<Attempt>, k: nat): Decision
    requires k < |req| <= |cfg.candidates|
  {
    if Blocked(cfg, memory, req, k) then Skipped else Called
  }

  lemma {:induction false} ServeIsRight(cfg: Settings, memory: map<string, Breaker>, s: State, req: seq<Attempt>,
                                        i: nat)
    requires i <= |req| <= |cfg.candidates| && SettingsOk(cfg) && AllSound(cfg, s) && Passed(cfg, memory, s, req, i)
    ensures ServedRight(cfg, memory, req, i, Serve(cfg, s, req, i))
    decreases |req| - i
  {
    if i < |req| {
      var tried := Try(cfg, s, cfg.candidates[i], req[i]);
      TryDoes(cfg, memory, s, req, i);
      if tried.answer.None? {
        TryKeepsSound(cfg, s, cfg.candidates[i], req[i]);
        ServeIsRight(cfg, memory, tried.state, req, i + 1);
        RestIsRight(cfg, memory, req, i, tried.decision, Serve(cfg, tried.state, req, i + 1));
      } else {
        EndIsRight(cfg, memory, req, i, Serve(cfg, s, req, i));
      }
    }
  }

  lemma EndIsRight(cfg: Settings, memory: map<string, Breaker>, req: seq<Attempt>, i: nat, served: Served)
    requires i < |req| <= |cfg.candidates| && Ends(cfg, memory, req, i)
    requires served.decisions == [Called] && Some(served.answer) == Ending(req[i])
    ensures ServedRight(cfg, memory, req, i, served)
  {
    assert forall j: nat :: FirstEnd(cfg, memory, req, i, j) ==> j == i;
    assert DecisionAt(cfg, memory, req, i) == Called;
  }

  lemma RestIsRight(cfg: Settings, memory: map<string, Breaker>, req: seq<Attempt>, i: nat, d: Decision, rest: Served)
    requires i < |req| <= |cfg.candidates| && !Ends(cfg, memory, req, i) && ServedRight(cfg, memory, req, i + 1, rest)
    requires d == DecisionAt(cfg, memory, req, i)
    ensures ServedRight(cfg, memory, req, i, Prefixed([d], rest))
  {
    var served := Prefixed([d], rest);
    forall j: nat | FirstEnd(cfg, memory, req, i, j)
      ensures |served.decisions| == j + 1 - i && Some(served.answer) == Ending(req[j])
    {
      assert FirstEnd(cfg, memory, req, i + 1, j);
    }
    MoreDecisionsRight(cfg, memory, req, i, d, rest.decisions);
  }

  lemma MoreDecisionsRight(cfg: Settings, memory: map<string, Breaker>, req: seq<Attempt>, i: nat, d: Decision,
                           rest: seq<Decision>)
    requires i < |req| <= |cfg.candidates| && DecisionsRight(cfg, memory, req, i + 1, rest)
    requires d == DecisionAt(cfg, memory, req, i)
    ensures DecisionsRight(cfg, memory, req, i, [d] + rest)
  {
    forall k | i <= k < i + |[d] + rest|
      ensures ([d] + rest)[k - i] == DecisionAt(cfg, memory, req, k)
    {
      if k > i {
        assert ([d] + rest)[k - i] == rest[k - (i + 1)];
      }
    }
  }

  /**
   * Failover: after any requests and crashes, the first candidate that is not blocked when its turn comes and
   * that replies, or overflows, gives the answer, and nobody after it is asked; candidates before it were
   * skipped exactly if blocked and called otherwise.  All fail exactly when every candidate is blocked or
   * fails without an overflow.
   */
  lemma FirstUnblockedAnswers(cfg: Settings, events: seq<Event>, req: seq<Attempt>)
    requires SettingsOk(cfg) && |req| <= |cfg.candidates| && forall i :: 0 <= i < |events| ==> EventOk(cfg, events[i])
    ensures var s := StateAfter(cfg, Initial(cfg), events);
            ServedRight(cfg, s.memory, req, 0, Serve(cfg, s, req, 0))
  {
    var s := StateAfter(cfg, Initial(cfg), events);
    TrippedExactlyAtThreshold(cfg, events);
    assert AllSound(cfg, s);
    ServeIsRight(cfg, s.memory, s, req, 0);
  }

  /** For two fresh providers: if the first fails in passing, the second is asked and its reply returned. */
  lemma SecondProviderAnswers(cfg: Settings, first: Attempt, second: Attempt, text: string)
    requires SettingsOk(cfg) && |cfg.candidates| == 2 && cfg.candidates[0] != cfg.candidates[1]
    requires first.outcome == Failure(false) && second.outcome == Reply(text)
    ensures var served := Serve(cfg, Initial(cfg), [first, second], 0);
            served.answer == Answered(text) && served.decisions == [Called, Called]
  {
    var req := [first, second];
    var no: seq<Event> := [];
    FirstUnblockedAnswers(cfg, no, req);
    assert StateAfter(cfg, Initial(cfg), no) == Initial(cfg);
    var memory := Initial(cfg).memory;
    assert BreakerAt(cfg, memory, req, 0) == FRESH;
    assert BreakerAfter(cfg, memory, req, cfg.candidates[1], 0) == FRESH;
    assert BreakerAt(cfg, memory, req, 1) == FRESH;
    assert FirstEnd(cfg, memory, req, 0, 1);
  }

  // ----- What a request leaves in the breakers

  ghost predicate SameBut(s: State, s': State, name: string) {
    forall other :: other != name ==>
      Get(s'.memory, other) == Get(s.memory, other) && Get(s'.kv, other) == Get(s.kv, other)
  }

  /** A reply clears the breaker of who gave it, in memory and, if it can be written, in the store. */
  lemma ReplyClearsBreaker(cfg: Settings, s: State, name: string, a: Attempt)
    requires name in s.memory && a.outcome.Reply? && Try(cfg, s, name, a).decision == Called
    ensures var s' := Try(cfg, s, name, a).state;
            && name in s'.memory && s'.memory[name] == Breaker(0, s.memory[name].lastFailure, false)
            && (a.stored ==> name in s'.kv && s'.kv[name] == s'.memory[name])
            && SameBut(s, s', name)
  {
  }

  /** A failure is counted, from one after a cooldown, with its time, and trips the breaker at the threshold. */
  lemma FailureCounts(cfg: Settings, s: State, name: string, a: Attempt)
    requires SettingsOk(cfg) && TrippedOk(cfg, Get(s.memory, name))
    requires a.outcome.Failure? && Try(cfg, s, name, a).decision == Called
    ensures var s', b := Try(cfg, s, name, a).state, Get(s.memory, name);
            var failures := 1 + if b.tripped then 0 else b.failures;
            && name in s'.memory && s'.memory[name] == Breaker(failures, a.done, failures >= cfg.threshold)
            && (a.stored ==> name in s'.kv && s'.kv[name] == s'.memory[name])
            && SameBut(s, s', name)
  {
  }
}
