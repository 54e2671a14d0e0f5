/** The breaker in front of accounts, and the history it refines. */
module CircuitBreaker {

  datatype State = Closed | Open | HalfOpen

  datatype Options = Options(failureThreshold: nat, openMs: int, successThreshold: nat)

  datatype Memory = Memory(state: State, failures: nat, successes: nat, openedAt: int)

  const INITIAL := Memory(Closed, 0, 0, 0)

  function Succeeded(o: Options, m: Memory): Memory {
    if m.state == HalfOpen then
      Memory(if m.successes + 1 >= o.successThreshold then Closed else HalfOpen, 0, m.successes + 1, m.openedAt)
    else m.(failures := 0, state := Closed)
  }

  function Failed(o: Options, m: Memory, now: int): Memory {
    if m.state == HalfOpen || m.failures + 1 >= o.failureThreshold then Memory(Open, m.failures + 1, 0, now)
    else m.(failures := m.failures + 1, successes := 0)
  }

  predicate Rejects(o: Options, m: Memory, now: int) {
    m.state == Open && now - m.openedAt < o.openMs
  }

  function Admitted(m: Memory): Memory {
    if m.state == Open then m.(state := HalfOpen, successes := 0) else m
  }

  class Breaker {
    const options: Options
    var state: State
    var failures: nat
    var successes: nat
    var openedAt: int

    constructor (options: Options)
      ensures this.options == options && Recall() == INITIAL
    {
      this.options := options;
      state, failures, successes, openedAt := Closed, 0, 0, 0;
    }

    function Recall(): Memory
      reads this
    {
      Memory(state, failures, successes, openedAt)
    }

    /** The first half of `execute`: false is CircuitOpenError, thrown before any work is attempted. */
    method Begin(now: int) returns (admitted: bool)
      modifies this
      ensures admitted <==> !Rejects(options, old(Recall()), now)
      ensures Recall() == if admitted then Admitted(old(Recall())) else old(Recall())
    {
      if state == Open {
        if now - openedAt < options.openMs {
          return false;
        }
        state := HalfOpen;
        successes := 0;
      }
      admitted := true;
    }

    method OnFailure(now: int)
      modifies this
      ensures Recall() == Failed(options, old(Recall()), now)
    {
      failures := failures + 1;
      successes := 0;
      if state == HalfOpen || failures >= options.failureThreshold {
        state := Open;
        openedAt := now;
      }
    }

    method OnSuccess()
      modifies this
      ensures Recall() == Succeeded(options, old(Recall()))
    {
      failures := 0;
      if state == HalfOpen {
        successes := successes + 1;
        if successes >= options.successThreshold {
          state := Closed;
        }
        return;
      }
      state := Closed;
    }

    /** One movement call, as the client makes it: a refusal fails inside `execute` and is then recorded as healthy. */
    method Movement(c: Call) returns (outcome: Outcome)
      modifies this
      ensures Recall() == After(options, old(Recall()), c)
      ensures outcome == OutcomeOf(options, old(Recall()), c)
    {
      var admitted := Begin(c.startedAt);
      if !admitted {
        return RejectedByBreaker;
      }
      if c.work == Answers {
        OnSuccess();
        return Answered;
      }
      OnFailure(c.endedAt);
      if c.work == Refuses {
        OnSuccess();
        return RefusedByAccounts;
      }
      outcome := Broke;
    }
  }

  // ------------------------------------------------------------------ history

  datatype Work = Answers | Breaks | Refuses

  datatype Call = Call(work: Work, startedAt: int, endedAt: int)

  datatype Outcome = Answered | Broke | RefusedByAccounts | RejectedByBreaker

  function OutcomeOf(o: Options, m: Memory, c: Call): Outcome {
    if Rejects(o, m, c.startedAt) then RejectedByBreaker
    else match c.work
         case Answers => Answered
         case Breaks => Broke
         case Refuses => RefusedByAccounts
  }

  function After(o: Options, m: Memory, c: Call): Memory {
    if Rejects(o, m, c.startedAt) then m
    else match c.work
         case Answers => Succeeded(o, Admitted(m))
         case Breaks => Failed(o, Admitted(m), c.endedAt)
         case Refuses => Succeeded(o, Failed(o, Admitted(m), c.endedAt))
  }

  function AfterAll(o: Options, calls: seq<Call>): Memory {
    if calls == [] then INITIAL else After(o, AfterAll(o, calls[..|calls| - 1]), calls[|calls| - 1])
  }

  function History(o: Options, calls: seq<Call>): seq<Outcome> {
    if calls == [] then []
    else History(o, calls[..|calls| - 1]) + [OutcomeOf(o, AfterAll(o, calls[..|calls| - 1]), calls[|calls| - 1])]
  }

  /** Failures since the last healthy answer, rejections not counted. */
  function TrailingFailures(history: seq<Outcome>): nat {
    if history == [] then 0
    else match history[|history| - 1]
         case Broke => TrailingFailures(history[..|history| - 1]) + 1
         case RejectedByBreaker => TrailingFailures(history[..|history| - 1])
         case _ => 0
  }

  /**
   * Between calls, the circuit is open exactly when the trailing run of failures
   * has reached the threshold, and otherwise closed: a scattered failure or a
   * refusal never opens it, whatever the clock does.
   */
  lemma {:induction false} OpenExactlyWhenFailing(o: Options, calls: seq<Call>)
    requires o.failureThreshold >= 1 && o.successThreshold == 1
    ensures var m := AfterAll(o, calls);
      && m.failures == TrailingFailures(History(o, calls))
      && (m.state == Open <==> TrailingFailures(History(o, calls)) >= o.failureThreshold)
      && (m.state == Open || m.state == Closed)
  {
    if calls != [] {
      var init := calls[..|calls| - 1];
      OpenExactlyWhenFailing(o, init);
      var h := History(o, calls);
      assert h[..|h| - 1] == History(o, init);
    }
  }

  /** A refusal is a healthy answer: it leaves the circuit closed with no failure on record, for any settings. */
  lemma {:induction false} RefusalClosesCircuit(o: Options, calls: seq<Call>, c: Call)
    requires OutcomeOf(o, AfterAll(o, calls), c) == RefusedByAccounts
    ensures AfterAll(o, calls + [c]).state == Closed && AfterAll(o, calls + [c]).failures == 0
  {
    assert (calls + [c])[..|calls|] == calls;
  }

  // ------------------------------------------------------------ the pause, by the clock

  /** When the last failing call of the history ended. */
  function LastBreakEnd(calls: seq<Call>, history: seq<Outcome>): int
    requires |history| == |calls|
  {
    if calls == [] then 0
    else if history[|calls| - 1] == Broke then calls[|calls| - 1].endedAt
    else LastBreakEnd(calls[..|calls| - 1], history[..|calls| - 1])
  }

  lemma {:induction false} HistoryLength(o: Options, calls: seq<Call>)
    ensures |History(o, calls)| == |calls|
  {
    if calls != [] {
      HistoryLength(o, calls[..|calls| - 1]);
    }
  }

  /** What a call comes to when the breaker lets it through. */
  function OwnOutcome(work: Work): Outcome {
    match work
    case Answers => Answered
    case Breaks => Broke
    case Refuses => RefusedByAccounts
  }

  lemma {:induction false} OpenedWhenLastBroken(o: Options, calls: seq<Call>)
    requires o.failureThreshold >= 1 && o.successThreshold == 1
    requires |History(o, calls)| == |calls| && AfterAll(o, calls).state == Open
    ensures AfterAll(o, calls).openedAt == LastBreakEnd(calls, History(o, calls))
  {
    if calls != [] {
      var init := calls[..|calls| - 1];
      var h := History(o, calls);
      HistoryLength(o, init);
      OpenExactlyWhenFailing(o, init);
      assert h[..|calls| - 1] == History(o, init);
      if AfterAll(o, init).state == Open {
        OpenedWhenLastBroken(o, init);
      }
    }
  }

  /**
   * The whole of what a caller sees, from the calls and the clock alone: after any
   * history a call is turned away exactly when the trailing failures have reached
   * the threshold and it starts less than `openMs` after the last of them ended;
   * any other call is let through and comes to whatever it would have come to.
   */
  lemma {:induction false} TurnedAwayExactly(o: Options, calls: seq<Call>, c: Call)
    requires o.failureThreshold >= 1 && o.successThreshold == 1
    ensures |History(o, calls)| == |calls|
    ensures var h := History(o, calls);
      OutcomeOf(o, AfterAll(o, calls), c)
      == if TrailingFailures(h) >= o.failureThreshold && c.startedAt - LastBreakEnd(calls, h) < o.openMs
         then RejectedByBreaker
         else OwnOutcome(c.work)
  {
    HistoryLength(o, calls);
    OpenExactlyWhenFailing(o, calls);
    if AfterAll(o, calls).state == Open {
      OpenedWhenLastBroken(o, calls);
    }
  }

  /**
   * Once the pause is over one call decides. If accounts answers it, were it with a
   * refusal, every later call is let through until the threshold is reached anew;
   * if it fails, the pause begins again at its end.
   */
  lemma {:induction false} ProbeDecides(o: Options, calls: seq<Call>, probe: Call, next: Call)
    requires o.failureThreshold >= 1 && o.successThreshold == 1
    requires |History(o, calls)| == |calls| && TrailingFailures(History(o, calls)) >= o.failureThreshold
    requires probe.startedAt - LastBreakEnd(calls, History(o, calls)) >= o.openMs
    ensures var m := AfterAll(o, calls + [probe]);
      if probe.work == Breaks then m.state == Open && m.openedAt == probe.endedAt
      else m.state == Closed && m.failures == 0
    ensures OutcomeOf(o, AfterAll(o, calls + [probe]), next)
            == if probe.work == Breaks && next.startedAt - probe.endedAt < o.openMs then RejectedByBreaker
               else OwnOutcome(next.work)
  {
    assert (calls + [probe])[..|calls|] == calls;
    OpenExactlyWhenFailing(o, calls);
    OpenedWhenLastBroken(o, calls);
  }

  function AfterFrom(o: Options, m: Memory, calls: seq<Call>): Memory {
    if calls == [] then m else After(o, AfterFrom(o, m, calls[..|calls| - 1]), calls[|calls| - 1])
  }

  /** For any settings: once the pause is over it takes `successThreshold` answered calls in a row to close again. */
  lemma {:induction false} ProbesClose(o: Options, m: Memory, probes: seq<Call>)
    requires m.state == Open && probes != [] && probes[0].startedAt - m.openedAt >= o.openMs
    requires forall c :: c in probes ==> c.work == Answers
    ensures var n := AfterFrom(o, m, probes);
      && n.state == (if |probes| >= o.successThreshold then Closed else HalfOpen)
      && n.failures == 0 && (n.state == HalfOpen ==> n.successes == |probes|)
  {
    var init := probes[..|probes| - 1];
    assert probes[|probes| - 1] in probes;
    if init == [] {
      assert AfterFrom(o, m, init) == m;
    } else {
      ProbesClose(o, m, init);
    }
  }
}
