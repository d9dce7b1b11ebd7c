/** The executive of src/pionir/runtime.py over the outcome rule of src/pionir/contracts.py:
    what one routed task does to its specialist's circuit, to the ledger and to the lessons. */
module Runtime {
  import opened Reliability

  // ----- a specialist's own output (contracts.py)

  datatype Value =
    | Null
    | Bool(b: bool)
    | Int(n: int)
    | Float(r: real)
    | Text(s: string)
    | Mapping(fields: map<string, Value>)

  const RETURN_CODE_KEYS := ["returncode", "rc", "exit_code"]
  const REFUSAL_KEYS := ["refused", "unavailable"]

  function Get(m: map<string, Value>, key: string): Value {
    if key in m then m[key] else Null
  }

  /** `outcome_failure_reason(output) is not None`. Only an integer is a return code, and a boolean
      is none. */
  predicate ReportsFailure(output: Value) {
    output.Mapping? &&
    (|| Get(output.fields, "ok") == Bool(false)
     || exists key | key in RETURN_CODE_KEYS ::
       var code := Get(output.fields, key); code.Int? && code.n != 0)
  }

  predicate CarriesRefusalKey(v: Value) {
    v.Mapping? && exists key | key in REFUSAL_KEYS :: key in v.fields
  }

  /** What `lstrip` takes off. */
  predicate IsSpace(c: char) {
    || '\t' <= c <= '\r' || '\U{001C}' <= c <= ' ' || c == '\U{0085}' || c == '\U{00A0}' || c == '\U{1680}'
    || '\U{2000}' <= c <= '\U{200A}' || c == '\U{2028}' || c == '\U{2029}' || c == '\U{202F}' || c == '\U{205F}' || c == '\U{3000}'
  }

  function TrimLeft(s: string): string {
    if s != "" && IsSpace(s[0]) then TrimLeft(s[1..]) else s
  }

  /** `== 2`, which a float may be too. */
  predicate IsTwo(v: Value) { v == Int(2) || v == Float(2.0) }

  /** `_is_refusal`: the explicit signals only. */
  predicate SignalsRefusal(output: Value)
    requires output.Mapping?
  {
    var inner := Get(output.fields, "output");
    || CarriesRefusalKey(output)
    || CarriesRefusalKey(inner)
    || (IsTwo(Get(output.fields, "returncode")) && inner.Text? && "Refused:" <= TrimLeft(inner.s))
  }

  datatype Kind = Fine | Refused | Failed

  function OutcomeKind(output: Value): Kind {
    if !ReportsFailure(output) then Fine
    else if SignalsRefusal(output) then Refused
    else Failed
  }

  // ----- one task through the gates

  /** `Uncaught` is what `except Exception` does not catch: SystemExit, KeyboardInterrupt. */
  datatype Exception = ResourceUnavailable | CircuitOpen | OtherError | Uncaught

  /** What the lease, the adapter and its result turn out to be. */
  datatype Attempt =
    | Raises(error: Exception)
    | Returns(sameTask: bool, sameAgent: bool, output: Value)

  datatype Reading = Reading(alive: bool, deferHeavyWork: bool)

  /** How a call ended, in the terms the circuit is settled by. */
  datatype Ending =
    | Rejected          // the circuit let nothing through
    | NotAttempted      // no lease, or Bryo deferred it
    | RaisedCircuitOpen // the adapter itself raised CircuitOpen
    | Escaped           // an exception nothing here catches
    | Faulted           // any other exception
    | RefusedByDoer
    | FailedByDoer
    | Completed

  predicate Defers(model: bool, deferrable: bool, reading: Reading) {
    model && reading.alive && deferrable && reading.deferHeavyWork
  }

  function EndingOf(model: bool, deferrable: bool, reading: Reading, attempt: Attempt): Ending {
    if Defers(model, deferrable, reading) then NotAttempted else EndingOfAttempt(attempt)
  }

  function EndingOfAttempt(attempt: Attempt): Ending {
    match attempt
    case Raises(ResourceUnavailable) => NotAttempted
    case Raises(CircuitOpen) => RaisedCircuitOpen
    case Raises(OtherError) => Faulted
    case Raises(Uncaught) => Escaped
    case Returns(sameTask, sameAgent, output) =>
      if !sameTask || !sameAgent then Faulted
      else match OutcomeKind(output)
        case Fine => Completed
        case Refused => RefusedByDoer
        case Failed => FailedByDoer
  }

  /** What a call that was let through leaves behind, if nothing else overlapped it. */
  function Settled(held: Breaker, limits: Limits, ending: Ending, now: real): Breaker {
    match ending
    case Rejected => held
    case RaisedCircuitOpen => held
    case Escaped => held
    case NotAttempted => AfterUnattempted(held, now)
    case RefusedByDoer => if held.state.HalfOpen? then AfterUnattempted(held, now) else held
    case Faulted => AfterFailure(held, limits, now)
    case FailedByDoer => AfterFailure(held, limits, now)
    case Completed => AfterSuccess(held)
  }

  /** The endings that settle nothing although the call had been let through. */
  predicate KeepsSlot(ending: Ending) { ending.RaisedCircuitOpen? || ending.Escaped? }

  function AfterAlone(b: Breaker, limits: Limits, ending: Ending, asked: real, settled: real): Breaker {
    Settled(AfterAsking(b, limits, asked), limits, ending, settled)
  }

  /** Every ending gives the probe slot back, whatever the circuit was - except an adapter
      that raises CircuitOpen itself, or what nothing catches, while it is the recovery probe.
      A refusal or a deferral moves no failure count; a fault adds one; only a success clears
      it. */
  lemma AloneReturnsTheSlot(b: Breaker, limits: Limits, ending: Ending, asked: real, settled: real)
    requires limits.Valid() && Sound(b, limits) && !b.state.HalfOpen?
    requires ending.Rejected? <==> !Admits(b, limits, asked)
    ensures var after := AfterAlone(b, limits, ending, asked, settled);
      && Sound(after, limits)
      && (after.state.HalfOpen? <==> b.state.Open? && KeepsSlot(ending))
      && (after.failures == match ending
            case Completed => 0
            case Faulted => b.failures + 1
            case FailedByDoer => b.failures + 1
            case _ => b.failures)
      && (after.state.Closed? && !b.state.Closed? ==> ending.Completed?)
  {
    AdmissionIsClosedOrTimedProbe(b, limits, asked);
  }

  datatype Event = Routed | Paced | Deferred | TaskFailed(ending: Ending) | TaskCompleted
  datatype Lesson = CircuitTripped(agent: nat) | TaskRefused(agent: nat)

  /** Exactly one closing event for every routed task, whichever path it took - but none when
      nothing caught what its adapter raised. */
  function EventsOf(ending: Ending, model: bool, deferrable: bool, reading: Reading): seq<Event> {
    [Routed]
    + (if ending.Rejected? || !model || !reading.alive then []
       else if Defers(model, deferrable, reading) then [Deferred] else [Paced])
    + ClosingOf(ending)
  }

  function ClosingOf(ending: Ending): seq<Event> {
    if ending.Escaped? then [] else [if ending.Completed? then TaskCompleted else TaskFailed(ending)]
  }

  predicate Counts(ending: Ending) { ending.Faulted? || ending.FailedByDoer? }

  /** A trip - the circuit going from not open to open - is a lesson once. */
  function LessonsOf(agent: nat, before: Breaker, after: Breaker, ending: Ending): seq<Lesson> {
    if ending.RefusedByDoer? then [TaskRefused(agent)]
    else if Counts(ending) && !before.state.Open? && after.state.Open? then [CircuitTripped(agent)]
    else []
  }

  // ----- what a specialist's output does to its circuit

  predicate Holds(output: Value, key: string) { output.Mapping? && key in output.fields }

  /** `ok` is false, or a return code is an integer other than zero. */
  predicate SaysFailed(output: Value) {
    || (Holds(output, "ok") && output.fields["ok"] == Bool(false))
    || (Holds(output, "returncode") && IsFailureCode(output.fields["returncode"]))
    || (Holds(output, "rc") && IsFailureCode(output.fields["rc"]))
    || (Holds(output, "exit_code") && IsFailureCode(output.fields["exit_code"]))
  }

  predicate IsFailureCode(v: Value) { v.Int? && v.n != 0 }

  predicate HasRefusalKey(v: Value) { Holds(v, "refused") || Holds(v, "unavailable") }

  /** `text` is "Refused:" and more, after white space or none. */
  ghost predicate StartsRefused(text: string) {
    exists k :: 0 <= k <= |text| && (forall j | 0 <= j < k :: IsSpace(text[j])) && "Refused:" <= text[k..]
  }

  /** A refusal key at either level, or "Refused:" printed with code 2. */
  ghost predicate SaysRefused(output: Value) {
    || HasRefusalKey(output)
    || (Holds(output, "output") && HasRefusalKey(output.fields["output"]))
    || (Holds(output, "output") && output.fields["output"].Text? && StartsRefused(output.fields["output"].s)
        && Holds(output, "returncode") && (output.fields["returncode"] == Int(2) || output.fields["returncode"] == Float(2.0)))
  }

  lemma {:induction false} TrimmedStarts(text: string)
    ensures "Refused:" <= TrimLeft(text) <==> StartsRefused(text)
  {
    if text != "" && IsSpace(text[0]) {
      TrimmedStarts(text[1..]);
      if StartsRefused(text[1..]) {
        var k :| 0 <= k <= |text| - 1 && (forall j | 0 <= j < k :: IsSpace(text[1..][j])) && "Refused:" <= text[1..][k..];
        assert text[1..][k..] == text[k + 1..];
        forall j | 0 <= j < k + 1 ensures IsSpace(text[j]) {
          assert j > 0 ==> text[j] == text[1..][j - 1];
        }
      }
      if StartsRefused(text) {
        var k :| 0 <= k <= |text| && (forall j | 0 <= j < k :: IsSpace(text[j])) && "Refused:" <= text[k..];
        assert "Refused:"[0] == 'R' && !IsSpace('R');
        assert k > 0 && text[1..][k - 1..] == text[k..];
        assert forall j | 0 <= j < k - 1 :: IsSpace(text[1..][j]);
      }
    } else {
      assert text[0..] == text;
      if StartsRefused(text) {
        var k :| 0 <= k <= |text| && (forall j | 0 <= j < k :: IsSpace(text[j])) && "Refused:" <= text[k..];
        assert k == 0;
      }
    }
  }

  lemma KeysAre(key: string)
    ensures key in RETURN_CODE_KEYS <==> key == "returncode" || key == "rc" || key == "exit_code"
    ensures key in REFUSAL_KEYS <==> key == "refused" || key == "unavailable"
  {
    assert RETURN_CODE_KEYS[0] == "returncode" && RETURN_CODE_KEYS[1] == "rc" && RETURN_CODE_KEYS[2] == "exit_code";
    assert REFUSAL_KEYS[0] == "refused" && REFUSAL_KEYS[1] == "unavailable";
  }

  lemma FailureMeans(output: Value)
    ensures ReportsFailure(output) <==> SaysFailed(output)
  {
    KeysAre("returncode");
    KeysAre("rc");
    KeysAre("exit_code");
    if SaysFailed(output) && Get(output.fields, "ok") != Bool(false) {
      var key := if IsFailureCode(Get(output.fields, "returncode")) then "returncode"
                 else if IsFailureCode(Get(output.fields, "rc")) then "rc" else "exit_code";
      assert key in RETURN_CODE_KEYS && IsFailureCode(Get(output.fields, key));
    }
    if ReportsFailure(output) && Get(output.fields, "ok") != Bool(false) {
      var key :| key in RETURN_CODE_KEYS && Get(output.fields, key).Int? && Get(output.fields, key).n != 0;
      KeysAre(key);
    }
  }

  lemma KeyMeans(v: Value)
    ensures CarriesRefusalKey(v) <==> HasRefusalKey(v)
  {
    forall key ensures key in REFUSAL_KEYS <==> key == "refused" || key == "unavailable" {
      KeysAre(key);
    }
  }

  lemma OutcomeMeans(output: Value)
    ensures OutcomeKind(output) == if !SaysFailed(output) then Fine else if SaysRefused(output) then Refused else Failed
  {
    FailureMeans(output);
    KeyMeans(output);
    if Holds(output, "output") {
      KeyMeans(output.fields["output"]);
      if output.fields["output"].Text? {
        TrimmedStarts(output.fields["output"].s);
      }
    }
  }

  function EndingAlone(b: Breaker, limits: Limits, model: bool, deferrable: bool, reading: Reading, attempt: Attempt, asked: real): Ending {
    if Admits(b, limits, asked) then EndingOf(model, deferrable, reading, attempt) else Rejected
  }

  /** A result that came back from the right specialist for the right task, and was not put off. */
  predicate Answered(model: bool, deferrable: bool, reading: Reading, attempt: Attempt) {
    attempt.Returns? && attempt.sameTask && attempt.sameAgent && !(model && deferrable && reading.alive && reading.deferHeavyWork)
  }

  /** What the output itself does, when the call is let through: a failure is one more counted,
      and opens the circuit at the threshold or at a probe, from then on; a refusal counts nothing and opens
      nothing; anything else closes the circuit. And what is written down of each. */
  lemma OutputDecides(b: Breaker, limits: Limits, model: bool, deferrable: bool, reading: Reading, attempt: Attempt, asked: real, settled: real, agent: nat)
    requires limits.Valid() && Sound(b, limits)
    requires b.state.Closed? || (b.state.Open? && asked >= b.openedAt + limits.recovery)
    requires Answered(model, deferrable, reading, attempt)
    ensures var ending := EndingAlone(b, limits, model, deferrable, reading, attempt, asked);
      var after := AfterAlone(b, limits, ending, asked, settled);
      var events := EventsOf(ending, model, deferrable, reading);
      var lessons := LessonsOf(agent, AfterAsking(b, limits, asked), after, ending);
      && events[0] == Routed && (events[|events| - 1] == TaskCompleted <==> !SaysFailed(attempt.output))
      && (!SaysFailed(attempt.output) ==> after.state.Closed? && after.failures == 0 && lessons == [])
      && (SaysFailed(attempt.output) && SaysRefused(attempt.output) ==>
            after.state == b.state && after.failures == b.failures && lessons == [TaskRefused(agent)])
      && (SaysFailed(attempt.output) && !SaysRefused(attempt.output) ==>
            && after.failures == b.failures + 1
            && after.state == (if b.state.Closed? && b.failures + 1 < limits.threshold then Closed else Open)
            && lessons == if after.state.Open? then [CircuitTripped(agent)] else [])
      && (after.state.Open? ==> after.openedAt == settled)
  {
    OutcomeMeans(attempt.output);
    AdmissionIsClosedOrTimedProbe(b, limits, asked);
  }

  /** A closed circuit after these results of right calls, one after the other at time `now`. */
  function AfterResults(b: Breaker, limits: Limits, outputs: seq<Value>, now: real): Breaker {
    if outputs == [] then b
    else
      var before := AfterResults(b, limits, outputs[..|outputs| - 1], now);
      var attempt := Returns(true, true, outputs[|outputs| - 1]);
      AfterAlone(before, limits, EndingAlone(before, limits, false, false, Reading(false, false), attempt, now), now, now)
  }

  /** So a broken specialist opens its circuit with its threshold-th failure in a row, and not
      before. */
  lemma {:induction false} BrokenSpecialistTrips(limits: Limits, outputs: seq<Value>, now: real)
    requires limits.Valid() && |outputs| <= limits.threshold
    requires forall i | 0 <= i < |outputs| :: SaysFailed(outputs[i]) && !SaysRefused(outputs[i])
    ensures var after := AfterResults(FRESH, limits, outputs, now);
      && Sound(after, limits) && after.failures == |outputs|
      && after.state == if |outputs| < limits.threshold then Closed else Open
  {
    if outputs != [] {
      var n := |outputs| - 1;
      BrokenSpecialistTrips(limits, outputs[..n], now);
      OutputDecides(AfterResults(FRESH, limits, outputs[..n], now), limits, false, false, Reading(false, false),
                    Returns(true, true, outputs[n]), now, now, 0);
    }
  }

  /** ... and one that only refuses, however often, leaves it closed and its count alone. */
  lemma {:induction false} RefusalsTripNothing(b: Breaker, limits: Limits, outputs: seq<Value>, now: real)
    requires limits.Valid() && Sound(b, limits) && b.state.Closed?
    requires forall i | 0 <= i < |outputs| :: SaysFailed(outputs[i]) && SaysRefused(outputs[i])
    ensures var after := AfterResults(b, limits, outputs, now);
      Sound(after, limits) && after.state.Closed? && after.failures == b.failures
  {
    if outputs != [] {
      var n := |outputs| - 1;
      RefusalsTripNothing(b, limits, outputs[..n], now);
      OutputDecides(AfterResults(b, limits, outputs[..n], now), limits, false, false, Reading(false, false),
                    Returns(true, true, outputs[n]), now, now, 0);
    }
  }

  /** Every call that brings back no such result, by what happened to it instead. */
  lemma NoOutputDecides(b: Breaker, limits: Limits, model: bool, deferrable: bool, reading: Reading, attempt: Attempt, asked: real, settled: real, agent: nat)
    requires limits.Valid() && Sound(b, limits) && !b.state.HalfOpen?
    ensures var ending := EndingAlone(b, limits, model, deferrable, reading, attempt, asked);
      var after := AfterAlone(b, limits, ending, asked, settled);
      var events := EventsOf(ending, model, deferrable, reading);
      var lessons := LessonsOf(agent, AfterAsking(b, limits, asked), after, ending);
      var refused := b.state.Open? && asked < b.openedAt + limits.recovery;
      var putOff := model && deferrable && reading.alive && reading.deferHeavyWork;
      var advised := if model && reading.alive then [Paced] else [];
      && (refused ==> after == b && events == [Routed, TaskFailed(Rejected)] && lessons == [])
      && (!refused && putOff ==>
            after.state == b.state && after.failures == b.failures && lessons == [] && events == [Routed, Deferred, TaskFailed(NotAttempted)])
      && (!refused && !putOff && attempt == Raises(ResourceUnavailable) ==>
            after.state == b.state && after.failures == b.failures && lessons == [] && events == [Routed] + advised + [TaskFailed(NotAttempted)])
      && (!refused && !putOff && (attempt == Raises(OtherError) || (attempt.Returns? && !(attempt.sameTask && attempt.sameAgent))) ==>
            && after.failures == b.failures + 1
            && after.state == (if b.state.Closed? && b.failures + 1 < limits.threshold then Closed else Open)
            && lessons == (if after.state.Open? then [CircuitTripped(agent)] else [])
            && events == [Routed] + advised + [TaskFailed(Faulted)])
      && (!refused && !putOff && (attempt == Raises(CircuitOpen) || attempt == Raises(Uncaught)) ==>
            && after.failures == b.failures && lessons == [] && after.state == (if b.state.Open? then HalfOpen else b.state)
            && events == [Routed] + advised + if attempt == Raises(CircuitOpen) then [TaskFailed(RaisedCircuitOpen)] else [])
      && (!refused && after.state.Open? ==> after.openedAt == settled)
  {
    AdmissionIsClosedOrTimedProbe(b, limits, asked);
  }

  class Executive {
    var circuits: map<nat, CircuitBreaker>
    var ledger: seq<Event>
    var lessons: seq<Lesson>

    constructor ()
      ensures circuits == map[] && ledger == [] && lessons == []
    {
      circuits, ledger, lessons := map[], [], [];
    }

    /** `register`: a fresh circuit for the specialist. */
    method Register(agent: nat, limits: Limits)
      requires limits.Valid()
      modifies this
      ensures circuits.Keys == old(circuits.Keys) + {agent}
      ensures fresh(circuits[agent]) && circuits[agent].Value() == FRESH && circuits[agent].limits == limits
      ensures forall other | other in old(circuits) && other != agent :: circuits[other] == old(circuits[other])
      ensures ledger == old(ledger) && lessons == old(lessons)
    {
      var circuit := new CircuitBreaker(limits);
      circuits := circuits[agent := circuit];
    }

    /** `_count_failure`: the failure, and the lesson if it was this one that tripped. */
    method CountFailure(agent: nat, circuit: CircuitBreaker, now: real)
      requires agent in circuits && circuits[agent] == circuit
      requires circuit.limits.Valid() && Sound(circuit.Value(), circuit.limits)
      modifies `lessons, circuit
      ensures circuit.Value() == AfterFailure(old(circuit.Value()), circuit.limits, now)
      ensures lessons == old(lessons) +
        (if !old(circuit.state).Open? && circuit.state.Open? then [CircuitTripped(agent)] else [])
    {
      var before := circuit.TakeSnapshot(now);
      circuit.RecordFailure(now);
      AdmissionIsClosedOrTimedProbe(old(circuit.Value()), circuit.limits, now);
      var after := circuit.TakeSnapshot(now);
      if !before.state.Open? && after.state.Open? {
        lessons := lessons + [CircuitTripped(agent)];
      }
    }

    /** The tail of `execute`: the lease, the adapter, and the verdict on what came back. */
    method Settle(agent: nat, circuit: CircuitBreaker, attempt: Attempt, now: real) returns (ending: Ending)
      requires agent in circuits && circuits[agent] == circuit
      requires circuit.limits.Valid() && Sound(circuit.Value(), circuit.limits)
      modifies `lessons, circuit
      ensures ending == EndingOfAttempt(attempt)
      ensures circuit.Value() == Settled(old(circuit.Value()), circuit.limits, ending, now)
      ensures lessons == old(lessons) + LessonsOf(agent, old(circuit.Value()), circuit.Value(), ending)
    {
      if attempt.Raises? {
        if attempt.error.ResourceUnavailable? {
          circuit.RecordUnattempted(now);
          return NotAttempted;
        }
        if attempt.error.Uncaught? {
          return Escaped;
        }
        if !attempt.error.CircuitOpen? {
          CountFailure(agent, circuit, now);
          return Faulted;
        }
        return RaisedCircuitOpen;
      }
      if !attempt.sameTask || !attempt.sameAgent {
        CountFailure(agent, circuit, now);
        return Faulted;
      }
      match OutcomeKind(attempt.output) {
        case Refused =>
          var held := circuit.TakeSnapshot(now);
          if held.state.HalfOpen? {
            circuit.RecordUnattempted(now);
          }
          lessons := lessons + [TaskRefused(agent)];
          return RefusedByDoer;
        case Failed =>
          CountFailure(agent, circuit, now);
          return FailedByDoer;
        case Fine =>
          circuit.RecordSuccess();
          return Completed;
      }
    }

    /** `execute`, run with no other call to the same specialist in flight. */
    method Execute(agent: nat, model: bool, deferrable: bool, reading: Reading, attempt: Attempt,
                   asked: real, settled: real)
      returns (ending: Ending)
      requires agent in circuits
      requires circuits[agent].limits.Valid() && Sound(circuits[agent].Value(), circuits[agent].limits)
      modifies `ledger, `lessons, circuits[agent]
      ensures ending == if Admits(old(circuits[agent].Value()), circuits[agent].limits, asked)
                        then EndingOf(model, deferrable, reading, attempt) else Rejected
      ensures circuits[agent].Value() ==
              AfterAlone(old(circuits[agent].Value()), circuits[agent].limits, ending, asked, settled)
      ensures ledger == old(ledger) + EventsOf(ending, model, deferrable, reading)
      ensures lessons == old(lessons) +
              LessonsOf(agent, AfterAsking(old(circuits[agent].Value()), circuits[agent].limits, asked),
                        circuits[agent].Value(), ending)
    {
      var circuit := circuits[agent];
      ledger := ledger + [Routed];
      AdmissionIsClosedOrTimedProbe(circuit.Value(), circuit.limits, asked);
      var admitted := circuit.BeforeCall(asked);
      if !admitted {
        ending := Rejected;
      } else if Defers(model, deferrable, reading) {
        ledger := ledger + [Deferred];
        circuit.RecordUnattempted(settled);
        ending := NotAttempted;
      } else {
        if model && reading.alive {
          ledger := ledger + [Paced];
        }
        ending := Settle(agent, circuit, attempt, settled);
      }
      if !ending.Escaped? {
        ledger := ledger + [if ending.Completed? then TaskCompleted else TaskFailed(ending)];
      }
    }
  }
}

/** Many calls of one specialist in flight at once. Every step below is one lock section of
    the breaker, taken by one call; between two steps of a call any other call may move. */
module Interleaving {
  import opened Wrappers
  import opened Reliability
  import opened Runtime

  /** Where a call is. The refused path and the failure count take several lock sections. */
  datatype Phase =
    | Running
    | Refusing(sawHalfOpen: bool)                         // after the refused path's snapshot
    | Counting(wasOpen: bool, why: Ending)                // after _count_failure's first snapshot
    | Counted(wasOpen: bool, tripped: bool, why: Ending)  // after record_failure, before the second snapshot
    | Done(ending: Ending)

  /** `prober` is the call that last made the circuit half open, and `settled` whether a
      success, a failure or a returned slot has been recorded since, by any call. `trips`
      counts the failures that opened the circuit, `lessons` the trip lessons taught;
      `surplus` the counts that taught without tripping, `lost` those that tripped without
      teaching. */
  datatype System = System(breaker: Breaker, calls: map<nat, Phase>, prober: Option<nat>, settled: bool,
                           trips: nat, lessons: nat, surplus: nat, lost: nat)

  datatype Step =
    | Ask(call: nat, now: real)
    | Move(call: nat, ending: Ending, now: real)  // `ending` is what a running call came back with

  const START := System(FRESH, map[], None, false, 0, 0, 0, 0)

  predicate Enabled(s: System, step: Step) {
    match step
    case Ask(c, _) => c !in s.calls
    case Move(c, ending, _) => c in s.calls && !s.calls[c].Done? && !ending.Rejected?
  }

  function Take(s: System, limits: Limits, step: Step): System
    requires Enabled(s, step)
  {
    match step
    case Ask(c, now) =>
      var asked := AfterAsking(s.breaker, limits, now);
      if !Admits(s.breaker, limits, now) then s.(calls := s.calls[c := Done(Rejected)])
      else if asked.state.HalfOpen? then s.(breaker := asked, calls := s.calls[c := Running], prober := Some(c), settled := false)
      else s.(breaker := asked, calls := s.calls[c := Running])
    case Move(c, ending, now) =>
      match s.calls[c]
      case Running =>
        (match ending
         case Completed => s.(breaker := AfterSuccess(s.breaker), settled := true, calls := s.calls[c := Done(ending)])
         case NotAttempted => s.(breaker := AfterUnattempted(s.breaker, now), settled := true, calls := s.calls[c := Done(ending)])
         case RefusedByDoer => s.(calls := s.calls[c := Refusing(s.breaker.state.HalfOpen?)])
         case Faulted => s.(calls := s.calls[c := Counting(s.breaker.state.Open?, ending)])
         case FailedByDoer => s.(calls := s.calls[c := Counting(s.breaker.state.Open?, ending)])
         case _ => s.(calls := s.calls[c := Done(ending)]))
      case Refusing(saw) =>
        s.(breaker := if saw then AfterUnattempted(s.breaker, now) else s.breaker, settled := s.settled || saw,
           calls := s.calls[c := Done(RefusedByDoer)])
      case Counting(wasOpen, why) =>
        var failed := AfterFailure(s.breaker, limits, now);
        var tripped := !s.breaker.state.Open? && failed.state.Open?;
        s.(breaker := failed, settled := true, calls := s.calls[c := Counted(wasOpen, tripped, why)],
           trips := s.trips + if tripped then 1 else 0)
      case Counted(wasOpen, tripped, why) =>
        var taught := !wasOpen && s.breaker.state.Open?;
        s.(calls := s.calls[c := Done(why)],
           lessons := s.lessons + (if taught then 1 else 0),
           surplus := s.surplus + (if taught && !tripped then 1 else 0),
           lost := s.lost + if tripped && !taught then 1 else 0)
      case Done(_) => s
  }

  predicate CanRun(s: System, limits: Limits, steps: seq<Step>)
    decreases |steps|
  {
    steps == [] || (Enabled(s, steps[0]) && CanRun(Take(s, limits, steps[0]), limits, steps[1..]))
  }

  function Run(s: System, limits: Limits, steps: seq<Step>): System
    requires CanRun(s, limits, steps)
    decreases |steps|
  {
    if steps == [] then s else Run(Take(s, limits, steps[0]), limits, steps[1..])
  }

  predicate Quiet(s: System) { forall c | c in s.calls :: s.calls[c].Done? }

  predicate NobodyKeepsSlot(steps: seq<Step>) {
    forall i | 0 <= i < |steps| :: steps[i].Move? ==> !KeepsSlot(steps[i].ending)
  }

  /** Nothing will ever be let through again while no call is in flight. */
  ghost predicate Wedged(b: Breaker, limits: Limits) { forall now :: !Admits(b, limits, now) }

  // ----- the invariant

  /** The call that made the circuit half open still owes it a verdict, or ended in a way
      that gives none. */
  predicate ProbeAccounted(s: System) {
    s.prober.Some? && s.prober.value in s.calls &&
    var phase := s.calls[s.prober.value];
    phase.Running? || phase == Refusing(true) || phase.Counting? || (phase.Done? && KeepsSlot(phase.ending))
  }

  predicate Inv(s: System, limits: Limits) {
    && Sound(s.breaker, limits)
    && (s.breaker.state.HalfOpen? <==> s.prober.Some? && !s.settled)
    && (s.breaker.state.HalfOpen? ==> ProbeAccounted(s))
  }

  lemma StepKeepsInv(s: System, limits: Limits, step: Step)
    requires limits.Valid() && Inv(s, limits) && Enabled(s, step)
    ensures Inv(Take(s, limits, step), limits)
  {
    AdmissionIsClosedOrTimedProbe(s.breaker, limits, step.now);
  }

  predicate NoneKept(s: System) {
    forall c | c in s.calls ::
      match s.calls[c]
      case Done(ending) => !KeepsSlot(ending)
      case Counting(_, why) => !KeepsSlot(why)
      case Counted(_, _, why) => !KeepsSlot(why)
      case _ => true
  }

  /** In every interleaving of every mix of outcomes: the slot is taken exactly while half
      open, a closed circuit is below its threshold, and a half-open circuit's probe is still
      unresolved (unless it ended in a way that settles nothing). A circuit is half open exactly
      from a probe's admission until anything is recorded. */
  lemma {:induction false} EveryRunKeepsInv(s: System, limits: Limits, steps: seq<Step>)
    requires limits.Valid() && Inv(s, limits) && CanRun(s, limits, steps)
    ensures Inv(Run(s, limits, steps), limits)
    ensures NobodyKeepsSlot(steps) && NoneKept(s) ==> NoneKept(Run(s, limits, steps))
    decreases |steps|
  {
    if steps != [] {
      StepKeepsInv(s, limits, steps[0]);
      var next := Take(s, limits, steps[0]);
      if NobodyKeepsSlot(steps) && NoneKept(s) {
        assert steps[0].Move? ==> !KeepsSlot(steps[0].ending);
        assert NoneKept(next);
        assert forall i | 0 <= i < |steps[1..]| :: steps[1..][i] == steps[i + 1];
      }
      EveryRunKeepsInv(next, limits, steps[1..]);
    }
  }

  /** No circuit can be wedged: once every call has ended, a call made after the recovery
      time is let through, in every run in which no adapter raised CircuitOpen itself or what
      nothing catches. */
  lemma QuietCircuitsRecover(limits: Limits, steps: seq<Step>, now: real)
    requires limits.Valid() && CanRun(START, limits, steps)
    requires NobodyKeepsSlot(steps)
    ensures var end := Run(START, limits, steps);
      Quiet(end) && now >= end.breaker.openedAt + limits.recovery ==> Admits(end.breaker, limits, now)
  {
    EveryRunKeepsInv(START, limits, steps);
  }

  // ----- the one way to wedge it

  /** For any run that has gone quiet: the circuit is wedged if and only if the call that last
      probed it ended by raising CircuitOpen itself, or what nothing catches, and no other
      call has recorded anything since that probe was let through. */
  lemma WedgedExactlyBy(limits: Limits, steps: seq<Step>)
    requires limits.Valid() && CanRun(START, limits, steps) && Quiet(Run(START, limits, steps))
    ensures var end := Run(START, limits, steps);
      Wedged(end.breaker, limits) <==>
        && end.prober.Some? && end.prober.value in end.calls
        && KeepsSlot(end.calls[end.prober.value].ending) && !end.settled
  {
    EveryRunKeepsInv(START, limits, steps);
    var b := Run(START, limits, steps).breaker;
    if !b.state.HalfOpen? {
      assert Admits(b, limits, b.openedAt + limits.recovery);
    }
  }

  function Moves(n: nat, c: nat, ending: Ending, now: real): seq<Step> {
    if n == 0 then [] else [Move(c, ending, now)] + Moves(n - 1, c, ending, now)
  }

  /** The lock sections one call takes, in order. */
  function StepsOf(c: nat, ending: Ending, asked: real, settled: real): seq<Step> {
    [Ask(c, asked)] +
    Moves(match ending case Rejected => 0 case RefusedByDoer => 2 case Faulted => 3 case FailedByDoer => 3 case _ => 1,
          c, ending, settled)
  }

  function FaultingCalls(n: nat): seq<Step> {
    if n == 0 then [] else FaultingCalls(n - 1) + StepsOf(n - 1, Faulted, 0.0, 0.0)
  }

  lemma First(s: System, limits: Limits, step: Step, rest: seq<Step>)
    requires Enabled(s, step) && CanRun(Take(s, limits, step), limits, rest)
    ensures CanRun(s, limits, [step] + rest)
    ensures Run(s, limits, [step] + rest) == Run(Take(s, limits, step), limits, rest)
  {
    assert ([step] + rest)[1..] == rest;
  }

  /** `Executive.Execute` is these steps with nothing in between. */
  lemma AloneIsARun(s: System, limits: Limits, c: nat, ending: Ending, asked: real, settled: real)
    requires limits.Valid() && Sound(s.breaker, limits) && c !in s.calls
    requires ending.Rejected? <==> !Admits(s.breaker, limits, asked)
    ensures CanRun(s, limits, StepsOf(c, ending, asked, settled))
    ensures var end := Run(s, limits, StepsOf(c, ending, asked, settled));
      && end.breaker == AfterAlone(s.breaker, limits, ending, asked, settled)
      && end.calls == s.calls[c := Done(ending)]
      && end.lessons - s.lessons == (if Counts(ending)
           && CircuitTripped(c) in LessonsOf(c, AfterAsking(s.breaker, limits, asked), end.breaker, ending) then 1 else 0)
  {
    var s1 := Take(s, limits, Ask(c, asked));
    var move := Move(c, ending, settled);
    if !ending.Rejected? {
      var s2 := Take(s1, limits, move);
      if ending.RefusedByDoer? || Counts(ending) {
        var s3 := Take(s2, limits, move);
        if Counts(ending) {
          First(s3, limits, move, Moves(0, c, ending, settled));
          First(s2, limits, move, Moves(1, c, ending, settled));
          First(s1, limits, move, Moves(2, c, ending, settled));
        } else {
          First(s2, limits, move, Moves(0, c, ending, settled));
          First(s1, limits, move, Moves(1, c, ending, settled));
        }
      } else {
        First(s1, limits, move, Moves(0, c, ending, settled));
      }
    }
    var moves := StepsOf(c, ending, asked, settled)[1..];
    assert StepsOf(c, ending, asked, settled) == [Ask(c, asked)] + moves;
    First(s, limits, Ask(c, asked), moves);
  }

  lemma {:induction false} RunAppends(s: System, limits: Limits, first: seq<Step>, second: seq<Step>)
    requires CanRun(s, limits, first) && CanRun(Run(s, limits, first), limits, second)
    ensures CanRun(s, limits, first + second)
    ensures Run(s, limits, first + second) == Run(Run(s, limits, first), limits, second)
    decreases |first|
  {
    if first == [] {
      assert first + second == second;
    } else {
      assert (first + second)[1..] == first[1..] + second;
      RunAppends(Take(s, limits, first[0]), limits, first[1..], second);
    }
  }

  lemma {:induction false} Opens(limits: Limits, n: nat)
    requires limits.Valid() && n <= limits.threshold
    ensures CanRun(START, limits, FaultingCalls(n))
    ensures var end := Run(START, limits, FaultingCalls(n));
      && Quiet(end) && (forall c | c in end.calls :: c < n)
      && end.breaker == Breaker(if n == limits.threshold then Open else Closed, n, 0.0, false)
  {
    if n > 0 {
      Opens(limits, n - 1);
      var before := Run(START, limits, FaultingCalls(n - 1));
      AloneIsARun(before, limits, n - 1, Faulted, 0.0, 0.0);
      RunAppends(START, limits, FaultingCalls(n - 1), StepsOf(n - 1, Faulted, 0.0, 0.0));
    }
  }

  /** The side condition is needed: whatever the limits, an adapter that ends so while it is
      the recovery probe leaves the circuit wedged with no call in flight. */
  lemma KeptSlotWedges(limits: Limits, ending: Ending) returns (steps: seq<Step>)
    requires limits.Valid() && KeepsSlot(ending)
    ensures CanRun(START, limits, steps)
    ensures Quiet(Run(START, limits, steps)) && Wedged(Run(START, limits, steps).breaker, limits)
  {
    var n := limits.threshold;
    Opens(limits, n);
    var tripped := Run(START, limits, FaultingCalls(n));
    var probe := StepsOf(n, ending, limits.recovery, limits.recovery);
    AloneIsARun(tripped, limits, n, ending, limits.recovery, limits.recovery);
    RunAppends(START, limits, FaultingCalls(n), probe);
    steps := FaultingCalls(n) + probe;
  }

  function RunOf(s: System, limits: Limits, steps: seq<Step>): Option<System>
    decreases |steps|
  {
    if steps == [] then Some(s)
    else if Enabled(s, steps[0]) then RunOf(Take(s, limits, steps[0]), limits, steps[1..])
    else None
  }

  lemma {:induction false} RunOfIsRun(s: System, limits: Limits, steps: seq<Step>)
    requires RunOf(s, limits, steps).Some?
    ensures CanRun(s, limits, steps) && Run(s, limits, steps) == RunOf(s, limits, steps).value
    decreases |steps|
  {
    if steps != [] {
      RunOfIsRun(Take(s, limits, steps[0]), limits, steps[1..]);
    }
  }

  lemma OnOf(s: System, limits: Limits, step: Step, rest: seq<Step>)
    requires Enabled(s, step)
    ensures RunOf(s, limits, [step] + rest) == RunOf(Take(s, limits, step), limits, rest)
  {
    assert ([step] + rest)[1..] == rest;
  }

  const ONE_STRIKE := Limits(1, 1.0)

  /** A probe that kept the slot does not wedge the circuit if an older call's verdict comes
      later: the success of a call from before the trip closes it. */
  lemma LaterVerdictFrees() returns (steps: seq<Step>)
    ensures CanRun(START, ONE_STRIKE, steps)
    ensures var end := Run(START, ONE_STRIKE, steps);
      && Quiet(end) && end.prober == Some(2) && 2 in end.calls && end.calls[2] == Done(RaisedCircuitOpen)
      && end.settled && !Wedged(end.breaker, ONE_STRIKE)
  {
    var x, y, z := Move(1, Faulted, 0.0), Move(2, RaisedCircuitOpen, 1.0), Move(0, Completed, 1.0);
    var s1 := Take(START, ONE_STRIKE, Ask(0, 0.0));
    var s2 := Take(s1, ONE_STRIKE, Ask(1, 0.0));
    var s3 := Take(s2, ONE_STRIKE, x);
    var s4 := Take(s3, ONE_STRIKE, x);
    var s5 := Take(s4, ONE_STRIKE, x);
    var s6 := Take(s5, ONE_STRIKE, Ask(2, 1.0));
    var s7 := Take(s6, ONE_STRIKE, y);
    OnOf(s7, ONE_STRIKE, z, []);
    OnOf(s6, ONE_STRIKE, y, [z] + []);
    OnOf(s5, ONE_STRIKE, Ask(2, 1.0), [y] + ([z] + []));
    OnOf(s4, ONE_STRIKE, x, [Ask(2, 1.0)] + ([y] + ([z] + [])));
    OnOf(s3, ONE_STRIKE, x, [x] + ([Ask(2, 1.0)] + ([y] + ([z] + []))));
    OnOf(s2, ONE_STRIKE, x, [x] + ([x] + ([Ask(2, 1.0)] + ([y] + ([z] + [])))));
    OnOf(s1, ONE_STRIKE, Ask(1, 0.0), [x] + ([x] + ([x] + ([Ask(2, 1.0)] + ([y] + ([z] + []))))));
    steps := [Ask(0, 0.0)] + ([Ask(1, 0.0)] + ([x] + ([x] + ([x] + ([Ask(2, 1.0)] + ([y] + ([z] + [])))))));
    OnOf(START, ONE_STRIKE, Ask(0, 0.0), [Ask(1, 0.0)] + ([x] + ([x] + ([x] + ([Ask(2, 1.0)] + ([y] + ([z] + [])))))));
    RunOfIsRun(START, ONE_STRIKE, steps);
    assert Admits(Run(START, ONE_STRIKE, steps).breaker, ONE_STRIKE, 1.0);
  }

  // ----- one lesson per trip

  /** The counts that tripped the circuit and have not come to their second snapshot. */
  function Owing(s: System): set<nat> { set c | c in s.calls && s.calls[c].Counted? && s.calls[c].tripped }

  predicate Balanced(s: System) { s.trips + s.surplus == s.lessons + s.lost + |Owing(s)| }

  predicate OwesLesson(phase: Phase) { phase.Counted? && phase.tripped }

  lemma OwingAfter(s: System, next: System, c: nat, phase: Phase)
    requires next.calls == s.calls[c := phase]
    ensures |Owing(next)| == |Owing(s)| + (if OwesLesson(phase) then 1 else 0) - (if c in s.calls && OwesLesson(s.calls[c]) then 1 else 0)
  {
    assert Owing(next) == if OwesLesson(phase) then Owing(s) + {c} else Owing(s) - {c};
    assert c in Owing(s) <==> c in s.calls && OwesLesson(s.calls[c]);
  }

  lemma StepKeepsBalance(s: System, limits: Limits, step: Step)
    requires Balanced(s) && Enabled(s, step)
    ensures Balanced(Take(s, limits, step))
  {
    var next, c := Take(s, limits, step), step.call;
    OwingAfter(s, next, c, next.calls[c]);
  }

  lemma {:induction false} RunKeepsBalance(s: System, limits: Limits, steps: seq<Step>)
    requires Balanced(s) && CanRun(s, limits, steps)
    ensures Balanced(Run(s, limits, steps))
    decreases |steps|
  {
    if steps != [] {
      StepKeepsBalance(s, limits, steps[0]);
      RunKeepsBalance(Take(s, limits, steps[0]), limits, steps[1..]);
    }
  }

  /** The exact account, for every interleaving. A count trips the circuit when it finds it not
      open and leaves it open; it teaches when its two snapshots saw it not open and then open;
      so over a run gone quiet there are as many lessons as trips if and only if as many counts
      taught without tripping as tripped without teaching. */
  lemma LessonsAgainstTrips(limits: Limits, steps: seq<Step>)
    requires CanRun(START, limits, steps) && Quiet(Run(START, limits, steps))
    ensures var end := Run(START, limits, steps);
      && end.lessons + end.lost == end.trips + end.surplus
      && (end.lessons == end.trips <==> end.surplus == end.lost)
  {
    assert Owing(START) == {};
    RunKeepsBalance(START, limits, steps);
    assert Owing(Run(START, limits, steps)) == {};
  }

  predicate MidCount(s: System, c: nat) { c in s.calls && (s.calls[c].Counting? || s.calls[c].Counted?) }

  /** As things stand, this call's count will teach if and only if it trips. */
  predicate Undisturbed(s: System, c: nat)
    requires c in s.calls
  {
    match s.calls[c]
    case Counting(wasOpen, _) => wasOpen == s.breaker.state.Open?
    case Counted(wasOpen, tripped, _) => tripped == (!wasOpen && s.breaker.state.Open?)
    case _ => true
  }

  /** No other call moves while one is between its snapshots in `_count_failure`. */
  predicate CountsUninterrupted(s: System, limits: Limits, steps: seq<Step>)
    requires CanRun(s, limits, steps)
    decreases |steps|
  {
    steps == [] ||
    (&& (forall c | c in s.calls :: MidCount(s, c) ==> steps[0].call == c)
     && CountsUninterrupted(Take(s, limits, steps[0]), limits, steps[1..]))
  }

  predicate NoneDiffers(s: System) {
    s.surplus == 0 && s.lost == 0 && forall c | c in s.calls :: Undisturbed(s, c)
  }

  lemma StepKeepsUndisturbed(s: System, limits: Limits, step: Step)
    requires NoneDiffers(s) && Enabled(s, step)
    requires forall c | c in s.calls :: MidCount(s, c) ==> step.call == c
    ensures NoneDiffers(Take(s, limits, step))
  {
    var next := Take(s, limits, step);
    forall c | c in next.calls ensures Undisturbed(next, c) {
      assert c in s.calls ==> Undisturbed(s, c);
      assert c != step.call ==> !MidCount(s, c);
    }
  }

  lemma {:induction false} UninterruptedNoneDiffers(s: System, limits: Limits, steps: seq<Step>)
    requires CanRun(s, limits, steps) && CountsUninterrupted(s, limits, steps) && NoneDiffers(s)
    ensures NoneDiffers(Run(s, limits, steps))
    decreases |steps|
  {
    if steps != [] {
      StepKeepsUndisturbed(s, limits, steps[0]);
      UninterruptedNoneDiffers(Take(s, limits, steps[0]), limits, steps[1..]);
    }
  }

  /** In particular: counts nobody interrupts teach one lesson per trip. */
  lemma OneLessonPerTrip(limits: Limits, steps: seq<Step>)
    requires CanRun(START, limits, steps) && CountsUninterrupted(START, limits, steps)
    requires Quiet(Run(START, limits, steps))
    ensures Run(START, limits, steps).lessons == Run(START, limits, steps).trips
  {
    LessonsAgainstTrips(limits, steps);
    UninterruptedNoneDiffers(START, limits, steps);
  }

  /** Two calls that fail together teach the same trip twice. */
  lemma TwoLessonsForOneTrip() returns (steps: seq<Step>)
    ensures CanRun(START, ONE_STRIKE, steps) && Quiet(Run(START, ONE_STRIKE, steps))
    ensures Run(START, ONE_STRIKE, steps).trips == 1 && Run(START, ONE_STRIKE, steps).lessons == 2
  {
    var x, y := Move(0, Faulted, 0.0), Move(1, Faulted, 0.0);
    var s1 := Take(START, ONE_STRIKE, Ask(0, 0.0));
    var s2 := Take(s1, ONE_STRIKE, Ask(1, 0.0));
    var s3 := Take(s2, ONE_STRIKE, x);
    var s4 := Take(s3, ONE_STRIKE, y);
    var s5 := Take(s4, ONE_STRIKE, x);
    var s6 := Take(s5, ONE_STRIKE, y);
    var s7 := Take(s6, ONE_STRIKE, x);
    OnOf(s7, ONE_STRIKE, y, []);
    OnOf(s6, ONE_STRIKE, x, [y] + []);
    OnOf(s5, ONE_STRIKE, y, [x] + ([y] + []));
    OnOf(s4, ONE_STRIKE, x, [y] + ([x] + ([y] + [])));
    OnOf(s3, ONE_STRIKE, y, [x] + ([y] + ([x] + ([y] + []))));
    OnOf(s2, ONE_STRIKE, x, [y] + ([x] + ([y] + ([x] + ([y] + [])))));
    OnOf(s1, ONE_STRIKE, Ask(1, 0.0), [x] + ([y] + ([x] + ([y] + ([x] + ([y] + []))))));
    steps := [Ask(0, 0.0)] + ([Ask(1, 0.0)] + ([x] + ([y] + ([x] + ([y] + ([x] + ([y] + [])))))));
    OnOf(START, ONE_STRIKE, Ask(0, 0.0), [Ask(1, 0.0)] + ([x] + ([y] + ([x] + ([y] + ([x] + ([y] + [])))))));
    RunOfIsRun(START, ONE_STRIKE, steps);
  }

  /** A call that succeeds between a failure and its second snapshot takes the trip's lesson
      with it. */
  lemma LessonLost() returns (steps: seq<Step>)
    ensures CanRun(START, ONE_STRIKE, steps) && Quiet(Run(START, ONE_STRIKE, steps))
    ensures Run(START, ONE_STRIKE, steps).trips == 1 && Run(START, ONE_STRIKE, steps).lessons == 0
  {
    var x, y := Move(0, Faulted, 0.0), Move(1, Completed, 0.0);
    var s1 := Take(START, ONE_STRIKE, Ask(0, 0.0));
    var s2 := Take(s1, ONE_STRIKE, Ask(1, 0.0));
    var s3 := Take(s2, ONE_STRIKE, x);
    var s4 := Take(s3, ONE_STRIKE, x);
    var s5 := Take(s4, ONE_STRIKE, y);
    OnOf(s5, ONE_STRIKE, x, []);
    OnOf(s4, ONE_STRIKE, y, [x] + []);
    OnOf(s3, ONE_STRIKE, x, [y] + ([x] + []));
    OnOf(s2, ONE_STRIKE, x, [x] + ([y] + ([x] + [])));
    OnOf(s1, ONE_STRIKE, Ask(1, 0.0), [x] + ([x] + ([y] + ([x] + []))));
    steps := [Ask(0, 0.0)] + ([Ask(1, 0.0)] + ([x] + ([x] + ([y] + ([x] + [])))));
    OnOf(START, ONE_STRIKE, Ask(0, 0.0), [Ask(1, 0.0)] + ([x] + ([x] + ([y] + ([x] + [])))));
    RunOfIsRun(START, ONE_STRIKE, steps);
  }
}
