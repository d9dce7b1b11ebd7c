/** Failure isolation for one specialist: the three-state circuit breaker of
    src/pionir/reliability.py. Each public method of the source runs under one lock,
    so each is one atomic step; the clock reading it takes is a parameter here.

    The pure functions say what one step does to the breaker's value; the class is the
    breaker the executive holds, updated in place, and proved to take exactly those steps. */
module Reliability {

  datatype CircuitState = Closed | Open | HalfOpen

  /** The limits given to the constructor; it refuses a threshold below one and a
      negative recovery time. */
  datatype Limits = Limits(threshold: int, recovery: real) {
    predicate Valid() { threshold >= 1 && recovery >= 0.0 }
  }

  datatype Breaker = Breaker(state: CircuitState, failures: nat, openedAt: real, probeInFlight: bool)

  const FRESH := Breaker(Closed, 0, 0.0, false)

  // ----- one locked step each

  predicate Admits(b: Breaker, limits: Limits, now: real) {
    || b.state.Closed?
    || (b.state.Open? && now - b.openedAt >= limits.recovery)
    || (b.state.HalfOpen? && !b.probeInFlight)
  }

  /** `before_call`: the breaker after a call asked to be let through. */
  function AfterAsking(b: Breaker, limits: Limits, now: real): Breaker {
    if b.state.Closed? || !Admits(b, limits, now) then b
    else b.(state := HalfOpen, probeInFlight := true)
  }

  function AfterSuccess(b: Breaker): Breaker {
    b.(state := Closed, failures := 0, probeInFlight := false)
  }

  function AfterUnattempted(b: Breaker, now: real): Breaker {
    if b.state.HalfOpen? then b.(state := Open, openedAt := now, probeInFlight := false)
    else b.(probeInFlight := false)
  }

  function AfterFailure(b: Breaker, limits: Limits, now: real): Breaker {
    var counted := b.(probeInFlight := false, failures := b.failures + 1);
    if b.state.HalfOpen? || counted.failures >= limits.threshold
    then counted.(state := Open, openedAt := now)
    else counted
  }

  /** What every step keeps, whoever takes it: the probe slot is taken exactly while the
      circuit is half open, and a closed circuit is below its threshold. */
  predicate Sound(b: Breaker, limits: Limits) {
    && (b.probeInFlight <==> b.state.HalfOpen?)
    && (b.state.Closed? ==> b.failures < limits.threshold)
  }

  /** In a sound breaker the branch that hands out a half-open circuit's free slot is
      never taken: a call is admitted exactly when the circuit is closed, or open for long
      enough - and then it becomes the one probe. */
  lemma AdmissionIsClosedOrTimedProbe(b: Breaker, limits: Limits, now: real)
    requires limits.Valid() && Sound(b, limits)
    ensures Admits(b, limits, now) <==>
              b.state.Closed? || (b.state.Open? && now >= b.openedAt + limits.recovery)
    ensures b.state.Open? && Admits(b, limits, now) ==>
              forall later :: !Admits(AfterAsking(b, limits, now), limits, later)
    ensures Sound(AfterAsking(b, limits, now), limits)
    ensures Sound(AfterSuccess(b), limits)
    ensures Sound(AfterUnattempted(b, now), limits)
    ensures Sound(AfterFailure(b, limits, now), limits)
  {
    assert AfterAsking(b, limits, now) == b || AfterAsking(b, limits, now).probeInFlight;
  }

  datatype Snapshot = Snapshot(state: CircuitState, failures: nat, retryAfter: real)

  /** The breaker the executive keeps for one specialist. */
  class CircuitBreaker {
    const limits: Limits
    var state: CircuitState
    var failures: nat
    var openedAt: real
    var probeInFlight: bool

    function Value(): Breaker
      reads this
    {
      Breaker(state, failures, openedAt, probeInFlight)
    }

    constructor (limits: Limits)
      requires limits.Valid()
      ensures this.limits == limits && Value() == FRESH && Sound(Value(), limits)
    {
      this.limits := limits;
      state, failures, openedAt, probeInFlight := Closed, 0, 0.0, false;
    }

    method BeforeCall(now: real) returns (admitted: bool)
      modifies this
      ensures admitted == Admits(old(Value()), limits, now)
      ensures Value() == AfterAsking(old(Value()), limits, now)
    {
      if state.Closed? {
        return true;
      }
      var elapsed := now - openedAt;
      if state.Open? && elapsed >= limits.recovery {
        state := HalfOpen;
        probeInFlight := true;
        return true;
      }
      if state.HalfOpen? && !probeInFlight {
        probeInFlight := true;
        return true;
      }
      return false;
    }

    method RecordSuccess()
      modifies this
      ensures Value() == AfterSuccess(old(Value()))
    {
      state := Closed;
      failures := 0;
      probeInFlight := false;
    }

    method RecordUnattempted(now: real)
      modifies this
      ensures Value() == AfterUnattempted(old(Value()), now)
    {
      if state.HalfOpen? {
        state := Open;
        openedAt := now;
      }
      probeInFlight := false;
    }

    method RecordFailure(now: real)
      modifies this
      ensures Value() == AfterFailure(old(Value()), limits, now)
    {
      probeInFlight := false;
      failures := failures + 1;
      if state.HalfOpen? || failures >= limits.threshold {
        state := Open;
        openedAt := now;
      }
    }

    /** The view doctor and the executive read. A sound breaker that has waited out
        `retryAfter` admits the next call, unless its one probe is still out. */
    method TakeSnapshot(now: real) returns (s: Snapshot)
      requires limits.Valid() && Sound(Value(), limits)
      ensures s.state == state && s.failures == failures && s.retryAfter >= 0.0
      ensures state.Closed? ==> s.retryAfter == 0.0
      ensures !state.HalfOpen? ==> Admits(Value(), limits, now + s.retryAfter)
      ensures state.Open? ==> forall t :: now <= t < now + s.retryAfter ==> !Admits(Value(), limits, t)
    {
      var retryAfter := 0.0;
      if !state.Closed? {
        var left := limits.recovery - (now - openedAt);
        retryAfter := if left > 0.0 then left else 0.0;
      }
      s := Snapshot(state, failures, retryAfter);
    }
  }
}
