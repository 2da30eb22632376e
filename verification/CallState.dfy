/**
 * One call's state: the transition table, the row, and the event log it can be replayed from.
 *
 * The row and its event are written in one transaction and the tracker follows only once that has committed, so the
 * three move together or not at all.
 */
module CallState {
  import opened Options

  datatype State = NEW | RINGING | ANSWERED | AI_CONNECTED | IN_PROGRESS | TRANSFERRING | HUMAN_AGENT
                 | COMPLETED | FAILED | TIMEOUT | CANCELLED | BUSY | NO_ANSWER

  const TERMINAL := {COMPLETED, FAILED, TIMEOUT, CANCELLED, BUSY, NO_ANSWER}

  /** The legal transitions; a state the table does not list has none. */
  function Allowed(from: State): set<State> {
    match from
    case NEW => {RINGING, FAILED, CANCELLED, BUSY}
    case RINGING => {ANSWERED, NO_ANSWER, BUSY, CANCELLED, FAILED, TIMEOUT}
    case ANSWERED => {AI_CONNECTED, FAILED, COMPLETED, TIMEOUT}
    case AI_CONNECTED => {IN_PROGRESS, FAILED, COMPLETED, TIMEOUT}
    case IN_PROGRESS => {TRANSFERRING, COMPLETED, FAILED, TIMEOUT}
    case TRANSFERRING => {HUMAN_AGENT, COMPLETED, FAILED, TIMEOUT}
    case HUMAN_AGENT => {COMPLETED, FAILED}
    case _ => {}
  }

  datatype Row = Row(state: State, hangupReason: Option<string>, failureDetail: Option<string>, endTime: Option<int>)

  datatype Event = StateChanged(from: State, to: State, at: int) | Other(kind: string, at: int)

  datatype Outcome = Moved | Unchanged | Illegal | NotSaved

  datatype Call = Call(state: State, row: Row, events: seq<Event>)

  function Coalesce<T>(given: Option<T>, stored: Option<T>): Option<T> {
    if given.Some? then given else stored
  }

  function OutcomeOf(from: State, to: State, saved: bool): Outcome {
    if from == to then Unchanged else if to !in Allowed(from) then Illegal else if saved then Moved else NotSaved
  }

  /** The row and its event are written in one transaction, and the tracker follows only once that has committed. */
  function Moving(c: Call, to: State, reason: Option<string>, detail: Option<string>, now: int): Call {
    Call(
      to,
      Row(to, Coalesce(reason, c.row.hangupReason), Coalesce(detail, c.row.failureDetail),
          if to in TERMINAL then Some(now) else c.row.endTime),
      c.events + [StateChanged(c.state, to, now)])
  }

  class CallStateTracker {
    var state: State
    var row: Row
    var events: seq<Event>

    function View(): Call
      reads this
    {
      Call(state, row, events)
    }

    constructor (initial: State, row: Row)
      ensures View() == Call(initial, row, [])
    {
      state, this.row, events := initial, row, [];
    }

    /** `saved` says whether the transaction commits. */
    method Transition(to: State, reason: Option<string>, detail: Option<string>, now: int, saved: bool)
      returns (outcome: Outcome)
      modifies this
      ensures outcome == OutcomeOf(old(state), to, saved)
      ensures View() == if outcome.Moved? then Moving(old(View()), to, reason, detail, now) else old(View())
    {
      var from := state;
      if from == to {
        return Unchanged;
      }
      var allowed := Allowed(from);
      if to !in allowed {
        return Illegal;
      }
      var terminal := to in TERMINAL;
      if !saved {
        return NotSaved;
      }
      row := row.(state := to, hangupReason := if reason.Some? then reason else row.hangupReason,
                  failureDetail := if detail.Some? then detail else row.failureDetail,
                  endTime := if terminal then Some(now) else row.endTime);
      events := events + [StateChanged(from, to, now)];
      state := to;
      return Moved;
    }

    method RecordEvent(kind: string, now: int, saved: bool)
      modifies this
      ensures View() == if saved then old(View()).(events := old(events) + [Other(kind, now)]) else old(View())
    {
      if saved { events := events + [Other(kind, now)]; }
    }

    /** A step of a run is one call. */
    method Perform(step: Step)
      modifies this
      ensures View() == Next(old(View()), step)
    {
      match step
      case Move(to, reason, detail, now, saved) => var _ := Transition(to, reason, detail, now, saved);
      case Record(kind, now, saved) => RecordEvent(kind, now, saved);
    }

    /** A run is its calls, one after another. */
    method PerformAll(steps: seq<Step>)
      modifies this
      ensures View() == Run(old(View()), steps)
    {
      for n := 0 to |steps|
        invariant Run(View(), steps[n..]) == Run(old(View()), steps)
      {
        assert steps[n..][1..] == steps[n + 1..];
        Perform(steps[n]);
      }
    }
  }

  // ---- Runs ----

  datatype Step = Move(to: State, reason: Option<string>, detail: Option<string>, now: int, saved: bool)
                | Record(kind: string, now: int, saved: bool)

  function Next(c: Call, step: Step): Call {
    match step
    case Move(to, reason, detail, now, saved) =>
      if OutcomeOf(c.state, to, saved).Moved? then Moving(c, to, reason, detail, now) else c
    case Record(kind, now, saved) => if saved then c.(events := c.events + [Other(kind, now)]) else c
  }

  function Run(c: Call, steps: seq<Step>): Call
    decreases steps
  {
    if steps == [] then c else Run(Next(c, steps[0]), steps[1..])
  }

  /** Where the last of the recorded state changes leads. */
  function Replay(from: State, events: seq<Event>): State {
    if events == [] then from
    else
      var n := |events| - 1;
      if events[n].StateChanged? then events[n].to else Replay(from, events[..n])
  }

  /** Each state change starts where the ones before it lead, and is legal. */
  ghost predicate LegalChain(from: State, events: seq<Event>) {
    forall i :: 0 <= i < |events| && events[i].StateChanged? ==>
      events[i].from == Replay(from, events[..i]) && events[i].to in Allowed(events[i].from)
  }

  lemma ChainExtends(from: State, events: seq<Event>, e: Event)
    requires LegalChain(from, events)
    requires e.StateChanged? ==> e.from == Replay(from, events) && e.to in Allowed(e.from)
    ensures LegalChain(from, events + [e])
    ensures Replay(from, events + [e]) == if e.StateChanged? then e.to else Replay(from, events)
  {
    var all := events + [e];
    assert all[..|events|] == events;
    forall i | 0 <= i < |all| && all[i].StateChanged?
      ensures all[i].from == Replay(from, all[..i]) && all[i].to in Allowed(all[i].from)
    {
      if i < |events| { assert all[..i] == events[..i]; }
    }
  }

  /** The times terminal states were entered. */
  function Endings(events: seq<Event>): seq<int> {
    if events == [] then []
    else
      var n := |events| - 1;
      if events[n].StateChanged? && events[n].to in TERMINAL then Endings(events[..n]) + [events[n].at]
      else Endings(events[..n])
  }

  /** State changes among the events. */
  function Changes(events: seq<Event>): nat {
    if events == [] then 0 else Changes(events[..|events| - 1]) + if events[|events| - 1].StateChanged? then 1 else 0
  }

  /** How far along a state is. */
  function Rank(s: State): nat {
    match s
    case NEW => 0
    case RINGING => 1
    case ANSWERED => 2
    case AI_CONNECTED => 3
    case IN_PROGRESS => 4
    case TRANSFERRING => 5
    case HUMAN_AGENT => 6
    case _ => 7
  }

  /** Every transition goes forward, and the terminal states are exactly those with no way out. */
  lemma TransitionsGoForward(from: State, to: State)
    ensures to in Allowed(from) ==> Rank(from) < Rank(to)
    ensures from in TERMINAL <==> Allowed(from) == {}
    ensures to in TERMINAL <==> Rank(to) == 7
  {
    assert COMPLETED in Allowed(HUMAN_AGENT) && FAILED in Allowed(NEW) && FAILED in Allowed(RINGING);
    assert FAILED in Allowed(ANSWERED) && FAILED in Allowed(AI_CONNECTED) && FAILED in Allowed(IN_PROGRESS);
    assert FAILED in Allowed(TRANSFERRING);
  }

  /**
   * The stages of an answered call follow one another and none is left out. A call can fail at every stage, complete
   * from the answer on, time out from the ringing until a human takes it, and be cancelled or found busy until the
   * answer; it goes unanswered only while it rings.
   */
  lemma WaysIn(from: State, to: State)
    ensures to in Allowed(from) <==>
      match to
      case NEW => false
      case RINGING => from == NEW
      case ANSWERED => from == RINGING
      case AI_CONNECTED => from == ANSWERED
      case IN_PROGRESS => from == AI_CONNECTED
      case TRANSFERRING => from == IN_PROGRESS
      case HUMAN_AGENT => from == TRANSFERRING
      case FAILED => from !in TERMINAL
      case COMPLETED => from in {ANSWERED, AI_CONNECTED, IN_PROGRESS, TRANSFERRING, HUMAN_AGENT}
      case TIMEOUT => from in {RINGING, ANSWERED, AI_CONNECTED, IN_PROGRESS, TRANSFERRING}
      case CANCELLED => from in {NEW, RINGING}
      case BUSY => from in {NEW, RINGING}
      case NO_ANSWER => from == RINGING
  {
  }

  ghost predicate Recorded(initial: State, stored: Row, c: Call) {
    && Replay(initial, c.events) == c.state && LegalChain(initial, c.events)
    && (if Changes(c.events) == 0 then c.state == initial && c.row.state == stored.state else c.row.state == c.state)
    && Rank(initial) + Changes(c.events) <= Rank(c.state)
    && (initial !in TERMINAL ==>
          && |Endings(c.events)| == (if c.state in TERMINAL then 1 else 0)
          && c.row.endTime == if c.state in TERMINAL then Some(Endings(c.events)[0]) else stored.endTime)
    && (initial in TERMINAL ==> Changes(c.events) == 0 && Endings(c.events) == [] && c.row.endTime == stored.endTime)
  }

  lemma OtherRecords(initial: State, stored: Row, c: Call, e: Event)
    requires Recorded(initial, stored, c) && e.Other?
    ensures Recorded(initial, stored, c.(events := c.events + [e]))
  {
    assert (c.events + [e])[..|c.events|] == c.events;
    ChainExtends(initial, c.events, e);
  }

  lemma MoveRecords(
    initial: State, stored: Row, c: Call, to: State, reason: Option<string>, detail: Option<string>, now: int)
    requires Recorded(initial, stored, c) && to in Allowed(c.state)
    requires Rank(c.state) < Rank(to) && c.state !in TERMINAL
    ensures Recorded(initial, stored, Moving(c, to, reason, detail, now))
  {
    var events := c.events + [StateChanged(c.state, to, now)];
    assert events[..|c.events|] == c.events;
    ChainExtends(initial, c.events, StateChanged(c.state, to, now));
    assert Changes(events) == Changes(c.events) + 1;
    assert Endings(events) == Endings(c.events) + if to in TERMINAL then [now] else [];
  }

  lemma NextRecords(initial: State, stored: Row, c: Call, step: Step)
    requires Recorded(initial, stored, c)
    ensures Recorded(initial, stored, Next(c, step))
  {
    match step
    case Record(kind, now, saved) => if saved { OtherRecords(initial, stored, c, Other(kind, now)); }
    case Move(to, reason, detail, now, saved) =>
      if OutcomeOf(c.state, to, saved).Moved? {
        TransitionsGoForward(c.state, to);
        MoveRecords(initial, stored, c, to, reason, detail, now);
      }
  }

  lemma {:induction false} RunRecords(initial: State, stored: Row, c: Call, steps: seq<Step>)
    requires Recorded(initial, stored, c)
    ensures Recorded(initial, stored, Run(c, steps))
    decreases steps
  {
    if steps == [] {
    } else {
      NextRecords(initial, stored, c, steps[0]);
      RunRecords(initial, stored, Next(c, steps[0]), steps[1..]);
    }
  }

  /**
   * Replaying the recorded state changes gives a connected, legal chain that ends in the tracker's state, which is the
   * row's as soon as there is one. Failed and illegal transitions leave no trace.
   */
  lemma ReplayReachesTheState(initial: State, stored: Row, steps: seq<Step>)
    ensures var c := Run(Call(initial, stored, []), steps);
      && Replay(initial, c.events) == c.state && LegalChain(initial, c.events)
      && (Changes(c.events) > 0 || stored.state == initial ==> c.row.state == c.state)
      && Changes(c.events) <= 7
  {
    RunRecords(initial, stored, Call(initial, stored, []), steps);
  }

  /** An end time is written once, when a terminal state is entered, and a terminal state is entered at most once. */
  lemma EndTimeMarksTheEnd(initial: State, stored: Row, steps: seq<Step>)
    requires initial !in TERMINAL && stored.endTime == None
    ensures var c := Run(Call(initial, stored, []), steps);
      && (c.row.endTime.Some? <==> c.state in TERMINAL)
      && (c.row.endTime.Some? ==> Endings(c.events) == [c.row.endTime.value])
      && (c.row.endTime.None? ==> Endings(c.events) == [])
  {
    RunRecords(initial, stored, Call(initial, stored, []), steps);
  }
}
