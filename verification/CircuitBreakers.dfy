/**
 The circuit breaker shared by the model clients: closed until `threshold` failures have been
 reported without a success, then open, with one probe call at a time once `recovery` has passed.

 `Breaker` is the breaker's state as a value; class `CircuitBreaker` updates the same three fields
 in place. The history lemmas say what the state means in terms of the calls and reports so far.
 */
module CircuitBreakers {
  import opened Wrappers

  datatype Limits = Limits(threshold: int, recovery: real)

  function Threshold(l: Limits): int {
    if l.threshold < 1 then 1 else l.threshold
  }

  function Recovery(l: Limits): real {
    if l.recovery < 0.0 then 0.0 else l.recovery
  }

  datatype Breaker = Breaker(failures: nat, openedAt: Option<real>, probing: bool)

  const CLOSED: Breaker := Breaker(0, None, false)

  /** Would a call arriving now be let through? */
  predicate Admits(l: Limits, b: Breaker, now: real) {
    b.openedAt == None || (now - b.openedAt.value >= Recovery(l) && !b.probing)
  }

  function AfterCall(l: Limits, b: Breaker, now: real): Breaker {
    if b.openedAt.Some? && Admits(l, b, now) then b.(probing := true) else b
  }

  function AfterSuccess(b: Breaker): Breaker {
    CLOSED
  }

  function AfterFailure(l: Limits, b: Breaker, now: real): Breaker {
    Breaker(b.failures + 1, if b.failures + 1 >= Threshold(l) then Some(now) else b.openedAt, false)
  }

  // ---------- Meaning over a history ----------

  datatype Event = Call(at: real) | Success | Failure(at: real)

  /** The state reached from a closed breaker by a sequence of calls and reports. */
  function Replay(l: Limits, events: seq<Event>): Breaker {
    if events == [] then CLOSED
    else
      var b := Replay(l, events[..|events| - 1]);
      match events[|events| - 1]
      case Call(at) => AfterCall(l, b, at)
      case Success => AfterSuccess(b)
      case Failure(at) => AfterFailure(l, b, at)
  }

  /** Failures reported since the last success. */
  function FailuresSinceSuccess(events: seq<Event>): nat {
    if events == [] then 0
    else match events[|events| - 1]
      case Success => 0
      case Failure(_) => FailuresSinceSuccess(events[..|events| - 1]) + 1
      case Call(_) => FailuresSinceSuccess(events[..|events| - 1])
  }

  /** The time of the latest failure since the last success, if there is one. */
  function LatestFailure(events: seq<Event>): Option<real> {
    if events == [] then None
    else match events[|events| - 1]
      case Success => None
      case Failure(at) => Some(at)
      case Call(_) => LatestFailure(events[..|events| - 1])
  }

  /** Over any history the breaker is open exactly when at least `threshold` failures were reported
      since the last success, and it then remembers the time of the latest of them. */
  lemma {:induction false} OpenIffThresholdReached(l: Limits, events: seq<Event>)
    ensures var b := Replay(l, events);
            && b.failures == FailuresSinceSuccess(events)
            && (b.openedAt.Some? <==> FailuresSinceSuccess(events) >= Threshold(l))
            && (b.openedAt.Some? ==> b.openedAt == LatestFailure(events))
            && (b.probing ==> b.openedAt.Some?)
  {
    if events != [] {
      OpenIffThresholdReached(l, events[..|events| - 1]);
    }
  }

  /** While open, a call is admitted exactly when no probe is out and `recovery` has passed since
      the latest failure. While closed, every call is admitted. */
  lemma AdmitsExactlyAfterRecovery(l: Limits, events: seq<Event>, now: real)
    ensures Admits(l, Replay(l, events), now) <==>
              FailuresSinceSuccess(events) < Threshold(l)
              || (LatestFailure(events).Some? && now - LatestFailure(events).value >= Recovery(l)
                  && !Replay(l, events).probing)
  {
    OpenIffThresholdReached(l, events);
  }

  /** Calls admitted since the last report while the breaker was open. */
  function ProbesSinceReport(l: Limits, events: seq<Event>): nat {
    if events == [] then 0
    else
      var before := events[..|events| - 1];
      match events[|events| - 1]
      case Call(at) =>
        ProbesSinceReport(l, before)
        + if Replay(l, before).openedAt.Some? && Admits(l, Replay(l, before), at) then 1 else 0
      case _ => 0
  }

  /** Half-open means one probe: between two reports at most one call gets through an open breaker,
      and the flag says whether it has. */
  lemma {:induction false} OneProbeBetweenReports(l: Limits, events: seq<Event>)
    ensures ProbesSinceReport(l, events) == if Replay(l, events).probing then 1 else 0
  {
    if events != [] {
      OneProbeBetweenReports(l, events[..|events| - 1]);
    }
  }

  // ---------- The breaker object ----------

  class CircuitBreaker {
    const limits: Limits
    var failures: nat
    var openedAt: Option<real>
    var probeRunning: bool
    ghost var history: seq<Event>

    ghost predicate Valid()
      reads this
    {
      Breaker(failures, openedAt, probeRunning) == Replay(limits, history)
    }

    constructor (limits: Limits)
      ensures Valid() && this.limits == limits && history == []
    {
      this.limits := limits;
      failures, openedAt, probeRunning := 0, None, false;
      history := [];
    }

    /** True when the call may proceed; an open circuit answers false. */
    method BeforeCall(now: real) returns (admitted: bool)
      requires Valid()
      modifies this
      ensures Valid() && history == old(history) + [Call(now)]
      ensures admitted <==> Admits(limits, Replay(limits, old(history)), now)
    {
      ghost var before := history;
      history := history + [Call(now)];
      assert history[..|history| - 1] == before;
      if openedAt == None {
        return true;
      }
      if now - openedAt.value < Recovery(limits) || probeRunning {
        return false;
      }
      probeRunning := true;
      return true;
    }

    method ReportSuccess()
      requires Valid()
      modifies this
      ensures Valid() && history == old(history) + [Success]
    {
      failures, openedAt, probeRunning := 0, None, false;
      ghost var before := history;
      history := history + [Success];
      assert history[..|history| - 1] == before;
    }

    method ReportFailure(now: real)
      requires Valid()
      modifies this
      ensures Valid() && history == old(history) + [Failure(now)]
    {
      probeRunning := false;
      failures := failures + 1;
      if failures >= Threshold(limits) {
        openedAt := Some(now);
      }
      ghost var before := history;
      history := history + [Failure(now)];
      assert history[..|history| - 1] == before;
    }
  }
}
