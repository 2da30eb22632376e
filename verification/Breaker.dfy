/** The per-provider circuit breaker: what trips it, how long it stays open, and which results count. */
module Breaker {

  datatype Phase = CLOSED | OPEN | HALF_OPEN

  datatype Limits = Limits(failureThreshold: int, recoveryTimeout: real, successThreshold: int)

  datatype State = State(phase: Phase, failures: nat, successes: nat, openedAt: real)

  const FRESH := State(CLOSED, 0, 0, 0.0)

  predicate Elapsed(l: Limits, s: State, now: real) {
    now - s.openedAt >= l.recoveryTimeout
  }

  predicate Refuses(l: Limits, s: State, now: real) {
    s.phase.OPEN? && !Elapsed(l, s, now)
  }

  /** Asking also ends the recovery window. */
  function Asked(l: Limits, s: State, now: real): State {
    if s.phase.OPEN? && Elapsed(l, s, now) then s.(phase := HALF_OPEN, successes := 0) else s
  }

  function Succeeded(l: Limits, s: State): State {
    match s.phase
    case HALF_OPEN =>
      if s.successes + 1 >= l.successThreshold then s.(phase := CLOSED, failures := 0, successes := s.successes + 1)
      else s.(successes := s.successes + 1)
    case CLOSED => s.(failures := if s.failures > 0 then s.failures - 1 else 0)
    case OPEN => s
  }

  /** A late failure of an open breaker is counted and nothing else. */
  function Failed(l: Limits, s: State, now: real): State {
    if !s.phase.OPEN? && (s.phase.HALF_OPEN? || s.failures + 1 >= l.failureThreshold) then
      s.(phase := OPEN, openedAt := now, failures := 0)
    else s.(failures := s.failures + 1)
  }

  class CircuitBreaker {
    const limits: Limits
    var phase: Phase
    var failureCount: nat
    var successCount: nat
    var openedAt: real

    function View(): State
      reads this
    {
      State(phase, failureCount, successCount, openedAt)
    }

    constructor (limits: Limits)
      ensures View() == FRESH && this.limits == limits
    {
      this.limits := limits;
      phase, failureCount, successCount, openedAt := CLOSED, 0, 0, 0.0;
    }

    method IsOpen(now: real) returns (skip: bool)
      modifies this
      ensures skip == Refuses(limits, old(View()), now) && View() == Asked(limits, old(View()), now)
    {
      if phase == OPEN {
        var elapsed := now - openedAt;
        if elapsed >= limits.recoveryTimeout {
          phase := HALF_OPEN;
          successCount := 0;
          return false;
        }
        return true;
      }
      return false;
    }

    method RecordSuccess()
      modifies this
      ensures View() == Succeeded(limits, old(View()))
    {
      if phase == HALF_OPEN {
        successCount := successCount + 1;
        if successCount >= limits.successThreshold {
          phase := CLOSED;
          failureCount := 0;
        }
      } else if phase == CLOSED {
        failureCount := if failureCount - 1 > 0 then failureCount - 1 else 0;
      }
    }

    method RecordFailure(now: real)
      modifies this
      ensures View() == Failed(limits, old(View()), now)
    {
      failureCount := failureCount + 1;
      var trip := phase == HALF_OPEN || failureCount >= limits.failureThreshold;
      if trip && phase != OPEN {
        phase := OPEN;
        openedAt := now;
        failureCount := 0;
      }
    }
  }

  // ---- The transport ----

  datatype Answer = Response(status: int) | ConnectError | Timeout | NetworkError | OtherError

  datatype Verdict = Good | Bad | Uncounted

  function VerdictOf(answer: Answer): Verdict {
    match answer
    case Response(status) => if status >= 500 then Bad else Good
    case OtherError => Uncounted
    case _ => Bad
  }

  function Settled(l: Limits, s: State, answer: Answer, now: real): State {
    match VerdictOf(answer)
    case Good => Succeeded(l, s)
    case Bad => Failed(l, s, now)
    case Uncounted => s
  }

  /** Gates requests through a breaker; a refused request is never settled. Other requests may come between the two. */
  class Transport {
    const breaker: CircuitBreaker

    constructor (breaker: CircuitBreaker)
      ensures this.breaker == breaker
    {
      this.breaker := breaker;
    }

    method Admit(now: real) returns (admitted: bool)
      modifies breaker
      ensures admitted == !Refuses(breaker.limits, old(breaker.View()), now)
      ensures breaker.View() == Asked(breaker.limits, old(breaker.View()), now)
    {
      var skip := breaker.IsOpen(now);
      return !skip;
    }

    method Settle(answer: Answer, now: real)
      modifies breaker
      ensures breaker.View() == Settled(breaker.limits, old(breaker.View()), answer, now)
    {
      match answer
      case ConnectError => breaker.RecordFailure(now);
      case Timeout => breaker.RecordFailure(now);
      case NetworkError => breaker.RecordFailure(now);
      case OtherError =>
      case Response(status) =>
        if status >= 500 { breaker.RecordFailure(now); } else { breaker.RecordSuccess(); }
    }
  }

  // ---- Runs: requests asking and results arriving, in any order ----

  datatype Event = Ask(at: real) | Settle(at: real, answer: Answer)

  function Next(l: Limits, s: State, e: Event): State {
    match e
    case Ask(at) => Asked(l, s, at)
    case Settle(at, answer) => Settled(l, s, answer, at)
  }

  function Run(l: Limits, s: State, events: seq<Event>): State
    decreases events
  {
    if events == [] then s else Run(l, Next(l, s, events[0]), events[1..])
  }

  lemma {:induction false} RunAppends(l: Limits, s: State, events: seq<Event>, more: seq<Event>)
    ensures Run(l, s, events + more) == Run(l, Run(l, s, events), more)
    decreases events
  {
    if events == [] { assert events + more == more; }
    else {
      assert (events + more)[0] == events[0] && (events + more)[1..] == events[1..] + more;
      RunAppends(l, Next(l, s, events[0]), events[1..], more);
    }
  }

  // ---- What trips it ----

  /** Failures less successes; true is a failure. */
  function Excess(outcomes: seq<bool>): int {
    if outcomes == [] then 0 else (if outcomes[0] then 1 else -1) + Excess(outcomes[1..])
  }

  lemma {:induction false} ExcessAppends(a: seq<bool>, o: bool)
    ensures Excess(a + [o]) == Excess(a) + if o then 1 else -1
  {
    if a == [] { assert a + [o] == [o]; }
    else {
      assert (a + [o])[1..] == a[1..] + [o];
      ExcessAppends(a[1..], o);
    }
  }

  /** Some recent stretch of the outcomes has at least `n` more failures than successes. */
  ghost predicate Burst(outcomes: seq<bool>, n: int) {
    exists k :: 0 <= k <= |outcomes| && Excess(outcomes[k..]) >= n
  }

  /** The counter is the largest excess of any recent stretch, the empty one included. */
  ghost predicate Counts(outcomes: seq<bool>, counter: nat) {
    && (forall k :: 0 <= k <= |outcomes| ==> Excess(outcomes[k..]) <= counter)
    && (exists k :: 0 <= k <= |outcomes| && Excess(outcomes[k..]) == counter)
  }

  lemma CountsAppends(outcomes: seq<bool>, counter: nat, o: bool)
    requires Counts(outcomes, counter)
    ensures Counts(outcomes + [o], if o then counter + 1 else if counter > 0 then counter - 1 else 0)
  {
    var more := outcomes + [o];
    forall k | 0 <= k <= |outcomes| ensures Excess(more[k..]) == Excess(outcomes[k..]) + if o then 1 else -1 {
      assert more[k..] == outcomes[k..] + [o];
      ExcessAppends(outcomes[k..], o);
    }
    assert more[|more|..] == [];
    var k :| 0 <= k <= |outcomes| && Excess(outcomes[k..]) == counter;
    if !o && counter == 0 { assert Excess(more[|more|..]) == 0; }
    else { assert Excess(more[k..]) == counter + if o then 1 else -1; }
  }

  /** A server error, and each of the three transport errors. */
  predicate Fails(answer: Answer) {
    answer in {ConnectError, Timeout, NetworkError} || (answer.Response? && answer.status >= 500)
  }

  /** Any other response; other errors say nothing. */
  predicate Succeeds(answer: Answer) {
    answer.Response? && answer.status < 500
  }

  /** The outcomes a closed breaker has seen since it last closed. */
  function Since(l: Limits, s: State, seen: seq<bool>, e: Event): seq<bool> {
    if !s.phase.CLOSED? || !Next(l, s, e).phase.CLOSED? then []
    else if e.Settle? && (Fails(e.answer) || Succeeds(e.answer)) then seen + [Fails(e.answer)]
    else seen
  }

  function SeenFrom(l: Limits, s: State, seen: seq<bool>, events: seq<Event>): seq<bool>
    decreases events
  {
    if events == [] then seen else SeenFrom(l, Next(l, s, events[0]), Since(l, s, seen, events[0]), events[1..])
  }

  lemma CounterStep(l: Limits, s: State, seen: seq<bool>, e: Event)
    requires s.phase.CLOSED? ==> Counts(seen, s.failures)
    ensures Next(l, s, e).phase.CLOSED? ==> Counts(Since(l, s, seen, e), Next(l, s, e).failures)
  {
    if s.phase.CLOSED? {
      if e.Settle? && e.answer != OtherError { CountsAppends(seen, s.failures, Fails(e.answer)); }
    } else {
      assert Excess([][0..]) == 0;
    }
  }

  lemma {:induction false} CounterHolds(l: Limits, s: State, seen: seq<bool>, events: seq<Event>)
    requires s.phase.CLOSED? ==> Counts(seen, s.failures)
    ensures var r := Run(l, s, events); r.phase.CLOSED? ==> Counts(SeenFrom(l, s, seen, events), r.failures)
    decreases events
  {
    if events == [] {
    } else {
      CounterStep(l, s, seen, events[0]);
      CounterHolds(l, Next(l, s, events[0]), Since(l, s, seen, events[0]), events[1..]);
    }
  }

  lemma ClosedTripsIff(l: Limits, s: State, e: Event)
    requires s.phase.CLOSED?
    ensures Next(l, s, e).phase.OPEN? <==> e.Settle? && Fails(e.answer) && s.failures + 1 >= l.failureThreshold
  {
  }

  lemma BurstIff(seen: seq<bool>, counter: nat, n: int)
    requires Counts(seen, counter)
    ensures Burst(seen + [true], n) <==> counter + 1 >= n
  {
    CountsAppends(seen, counter, true);
  }

  /**
   * In any run the floored counter is the largest excess of failures over successes in any recent stretch since the
   * breaker last closed, and an event trips a closed breaker exactly when it is a failure that completes a burst of the
   * threshold.
   */
  lemma TripsExactlyOnBursts(l: Limits, events: seq<Event>, e: Event)
    ensures var s, seen := Run(l, FRESH, events), SeenFrom(l, FRESH, [], events);
      s.phase.CLOSED? ==>
        && Counts(seen, s.failures)
        && (Next(l, s, e).phase.OPEN? <==>
              e.Settle? && Fails(e.answer) && Burst(seen + [true], l.failureThreshold))
  {
    var s, seen := Run(l, FRESH, events), SeenFrom(l, FRESH, [], events);
    assert Excess([][0..]) == 0;
    CounterHolds(l, FRESH, [], events);
    if s.phase.CLOSED? {
      ClosedTripsIff(l, s, e);
      BurstIff(seen, s.failures, l.failureThreshold);
    }
  }

  // ---- How long it stays open ----

  lemma {:induction false} WindowHolds(l: Limits, s: State, events: seq<Event>)
    requires s.phase.OPEN? && forall e :: e in events && e.Ask? ==> !Elapsed(l, s, e.at)
    ensures var r := Run(l, s, events); r.phase.OPEN? && r.openedAt == s.openedAt
    decreases events
  {
    if events == [] {
    } else {
      assert events[0] in events;
      WindowHolds(l, Next(l, s, events[0]), events[1..]);
    }
  }

  ghost predicate Monotone(events: seq<Event>) {
    forall i, j :: 0 <= i < j < |events| ==> events[i].at <= events[j].at
  }

  /** State of a fresh breaker just before event `i`. */
  function Before(l: Limits, events: seq<Event>, i: nat): State
    requires i <= |events|
  {
    Run(l, FRESH, events[..i])
  }

  lemma StepAt(l: Limits, events: seq<Event>, i: nat)
    requires i < |events|
    ensures Before(l, events, i + 1) == Next(l, Before(l, events, i), events[i])
  {
    assert events[..i + 1] == events[..i] + [events[i]];
    RunAppends(l, FRESH, events[..i], [events[i]]);
  }

  lemma Between(l: Limits, events: seq<Event>, i: nat, j: nat)
    requires i <= j <= |events|
    ensures Before(l, events, j) == Run(l, Before(l, events, i), events[i..j])
  {
    assert events[..j] == events[..i] + events[i..j];
    RunAppends(l, FRESH, events[..i], events[i..j]);
  }

  /**
   * Under a monotone clock, whatever results arrive late, no request is admitted until the recovery timeout has passed
   * since the breaker opened, and the first to ask after it has passed is admitted.
   */
  lemma WindowIsExact(l: Limits, events: seq<Event>, i: nat, j: nat)
    requires Monotone(events) && i < j < |events| && events[j].Ask?
    requires !Before(l, events, i).phase.OPEN? && Before(l, events, i + 1).phase.OPEN?
    ensures events[j].at < events[i].at + l.recoveryTimeout ==> Refuses(l, Before(l, events, j), events[j].at)
    ensures events[j].at >= events[i].at + l.recoveryTimeout
         && (forall k :: i < k < j && events[k].Ask? ==> events[k].at < events[i].at + l.recoveryTimeout)
         ==> !Refuses(l, Before(l, events, j), events[j].at) && Before(l, events, j + 1).phase.HALF_OPEN?
  {
    var s := Before(l, events, i + 1);
    StepAt(l, events, i);
    StepAt(l, events, j);
    assert s.openedAt == events[i].at;
    Between(l, events, i + 1, j);
    var late := events[i + 1..j];
    if forall k :: i < k < j && events[k].Ask? ==> events[k].at < events[i].at + l.recoveryTimeout {
      forall e | e in late && e.Ask? ensures !Elapsed(l, s, e.at) {
        var k :| 0 <= k < |late| && late[k] == e;
        assert events[i + 1 + k] == e;
      }
      WindowHolds(l, s, late);
    }
  }

  // ---- Half open ----

  /** Successes among the events. */
  function Successes(events: seq<Event>): nat {
    if events == [] then 0
    else (if events[0].Settle? && Succeeds(events[0].answer) then 1 else 0) + Successes(events[1..])
  }

  /**
   * A half-open breaker refuses nobody: until a request fails it admits every request, not one probe, and it closes
   * with the success that meets the threshold.
   */
  lemma {:induction false} HalfOpenAdmitsEveryone(l: Limits, s: State, events: seq<Event>, now: real)
    requires s.phase.HALF_OPEN? || (s.phase.CLOSED? && s.successes >= 1 && s.successes >= l.successThreshold)
    requires forall e :: e in events && e.Settle? ==> !Fails(e.answer)
    ensures var r := Run(l, s, events);
      && !Refuses(l, r, now)
      && (s.phase.HALF_OPEN? ==>
            (r.phase.CLOSED? <==> Successes(events) >= 1 && s.successes + Successes(events) >= l.successThreshold))
      && (s.phase.CLOSED? ==> r.phase.CLOSED?)
    decreases events
  {
    if events == [] {
    } else {
      assert events[0] in events;
      HalfOpenAdmitsEveryone(l, Next(l, s, events[0]), events[1..], now);
    }
  }
}
