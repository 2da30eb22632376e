/**
 * Choosing where to hand a call, what to do when the human leg fails, and the dial loop between them.
 *
 * A plan is made from the trigger and the destinations tried so far. It names the configured queue or voicemail while
 * that has not been tried and hangs up otherwise, so that the loop dials at most two destinations, never one twice.
 */
module TransferFallback {
  import opened Options
  import opened TransferStatus

  datatype FallbackAction = SECONDARY_AGENT | PBX_QUEUE | VOICEMAIL | HANGUP

  datatype Destination = Destination(id: nat, name: string, target: string, whisperSummary: bool)

  datatype Fallback = Fallback(action: Option<FallbackAction>, destinationId: Option<nat>)

  // ---- Choosing a destination ----

  /** ASCII lower case. */
  function Lower(s: string): (r: string)
    ensures |r| == |s|
  {
    if s == "" then "" else [if 'A' <= s[0] <= 'Z' then (s[0] as int + 32) as char else s[0]] + Lower(s[1..])
  }

  predicate ContainsAt(s: string, t: string, i: nat) {
    i + |t| <= |s| && s[i..i + |t|] == t
  }

  predicate Contains(s: string, t: string) {
    exists i :: 0 <= i <= |s| && ContainsAt(s, t, i)
  }

  function FirstWhere(destinations: seq<Destination>, holds: Destination -> bool): Option<Destination> {
    if destinations == [] then None
    else if holds(destinations[0]) then Some(destinations[0])
    else FirstWhere(destinations[1..], holds)
  }

  /** By id, then by name, then by part of a name or target, then the first row. `wanted` is already trimmed. */
  function ResolveDestination(destinations: seq<Destination>, wanted: Option<string>, id: Option<nat>)
    : Option<Destination> {
    var byId := if id.Some? then FirstWhere(destinations, (d: Destination) => d.id == id.value) else None;
    if byId.Some? then byId
    else
      var named := wanted.Some? && wanted.value != "";
      var byName :=
        if named then FirstWhere(destinations, (d: Destination) => Lower(d.name) == Lower(wanted.value)) else None;
      if byName.Some? then byName
      else
        var byPart :=
          if named then
            FirstWhere(destinations, (d: Destination) =>
              Contains(Lower(d.name), Lower(wanted.value)) || Contains(Lower(d.target), Lower(wanted.value)))
          else None;
        if byPart.Some? then byPart else if destinations != [] then Some(destinations[0]) else None
  }

  lemma {:induction false} FirstWhereFinds(destinations: seq<Destination>, holds: Destination -> bool)
    ensures match FirstWhere(destinations, holds)
      case Some(d) => d in destinations && holds(d)
      case None => forall d :: d in destinations ==> !holds(d)
  {
    if destinations != [] && !holds(destinations[0]) {
      FirstWhereFinds(destinations[1..], holds);
      assert destinations == [destinations[0]] + destinations[1..];
    }
  }

  /** Something is always chosen when there is anything to choose; an id is honoured exactly when a row has it. */
  lemma ResolveDestinationFinds(destinations: seq<Destination>, wanted: Option<string>, id: Option<nat>)
    ensures var r := ResolveDestination(destinations, wanted, id);
      && (r.None? <==> destinations == [])
      && (r.Some? ==> r.value in destinations)
      && (id.Some? && (exists d :: d in destinations && d.id == id.value) ==> r.value.id == id.value)
      && (id.Some? && wanted.None? && destinations != [] && (forall d :: d in destinations ==> d.id != id.value) ==>
            r.value == destinations[0])
  {
    if id.Some? { FirstWhereFinds(destinations, (d: Destination) => d.id == id.value); }
    if wanted.Some? {
      FirstWhereFinds(destinations, (d: Destination) => Lower(d.name) == Lower(wanted.value));
      FirstWhereFinds(destinations, (d: Destination) =>
        Contains(Lower(d.name), Lower(wanted.value)) || Contains(Lower(d.target), Lower(wanted.value)));
    }
    assert destinations != [] ==> destinations[0] in destinations;
  }

  /** How well a row answers a name: the name itself, a part of its name or target, or not at all. */
  function Distance(d: Destination, wanted: string): nat {
    if Lower(d.name) == Lower(wanted) then 0
    else if Contains(Lower(d.name), Lower(wanted)) || Contains(Lower(d.target), Lower(wanted)) then 1
    else 2
  }

  lemma {:induction false} FirstWhereIsFirst(destinations: seq<Destination>, holds: Destination -> bool)
    returns (i: nat)
    ensures match FirstWhere(destinations, holds)
      case Some(d) => i < |destinations| && destinations[i] == d && holds(d)
                      && forall j :: 0 <= j < i ==> !holds(destinations[j])
      case None => i == |destinations| && forall j :: 0 <= j < i ==> !holds(destinations[j])
  {
    if destinations == [] {
      i := 0;
    } else if holds(destinations[0]) {
      i := 0;
    } else {
      i := FirstWhereIsFirst(destinations[1..], holds);
      i := i + 1;
    }
  }

  /** By name, the first of the rows that answer it best is chosen, so an unknown name falls to the first row of all. */
  lemma ResolvePicksTheBestMatch(destinations: seq<Destination>, wanted: string) returns (i: nat)
    requires destinations != [] && wanted != ""
    ensures i < |destinations| && ResolveDestination(destinations, Some(wanted), None) == Some(destinations[i])
    ensures forall j :: 0 <= j < |destinations| ==>
              Distance(destinations[i], wanted) <= Distance(destinations[j], wanted)
    ensures forall j :: 0 <= j < i ==> Distance(destinations[i], wanted) < Distance(destinations[j], wanted)
  {
    var named := (d: Destination) => Lower(d.name) == Lower(wanted);
    var partly := (d: Destination) =>
      Contains(Lower(d.name), Lower(wanted)) || Contains(Lower(d.target), Lower(wanted));
    i := FirstWhereIsFirst(destinations, named);
    if i == |destinations| {
      assert forall j :: 0 <= j < |destinations| ==> !named(destinations[j]);
      i := FirstWhereIsFirst(destinations, partly);
      if i == |destinations| {
        assert forall j :: 0 <= j < |destinations| ==> !partly(destinations[j]);
        i := 0;
      }
    }
  }

  // ---- The fallback plan ----

  datatype Plan = Plan(action: FallbackAction, destination: Option<Destination>, spoken: string, hangup: bool)

  function Apology(action: FallbackAction): string {
    match action
    case SECONDARY_AGENT => "I'm sorry, no one is available right now. A colleague will follow up. Goodbye."
    case PBX_QUEUE => "I'm transferring you to the queue. Please stay on the line."
    case VOICEMAIL => "No one is available. Please leave a message after the tone."
    case HANGUP => "I'm sorry, I could not reach a human agent. Goodbye."
  }

  function PlanFallback(
    status: Status, fallback: Option<Fallback>, destinations: seq<Destination>, tried: set<nat>): Option<Plan>
  {
    if status !in FALLBACK_TRIGGERS then None
    else
      var action := if fallback.Some? && fallback.value.action.Some? then fallback.value.action.value else HANGUP;
      var resolved :=
        if fallback.Some? && fallback.value.destinationId.Some? then
          ResolveDestination(destinations, None, fallback.value.destinationId)
        else None;
      var destination := if resolved.Some? && resolved.value.id in tried then None else resolved;
      var retry := action in {PBX_QUEUE, VOICEMAIL} && destination.Some?;
      Some(Plan(action, if retry then destination else None, Apology(action), !retry))
  }

  /** The queue or voicemail the configuration names, before asking whether it was tried. */
  function RetryTarget(fallback: Option<Fallback>, destinations: seq<Destination>): Option<Destination> {
    if && fallback.Some?
       && fallback.value.action in {Some(PBX_QUEUE), Some(VOICEMAIL)}
       && fallback.value.destinationId.Some?
    then ResolveDestination(destinations, None, fallback.value.destinationId)
    else None
  }

  /** A failed leg's plan hangs up exactly when there is no queue or voicemail left to try, and otherwise names it. */
  lemma PlanHangsUpIff(status: Status, fallback: Option<Fallback>, destinations: seq<Destination>, tried: set<nat>)
    requires status in FALLBACK_TRIGGERS
    ensures var p, target := PlanFallback(status, fallback, destinations, tried), RetryTarget(fallback, destinations);
      && p.Some?
      && (p.value.hangup <==> target.None? || target.value.id in tried)
      && p.value.destination == (if p.value.hangup then None else target)
      && p.value.spoken != ""
  {
  }

  /**
   * When the human leaves during the whisper only their own destination counts as tried. The caller is then hung up on
   * exactly when no other queue or voicemail is configured; otherwise the plan names one that nothing dials.
   */
  lemma LeavingHumanHangsUpIff(dest: Destination, fallback: Option<Fallback>, destinations: seq<Destination>)
    ensures var p := PlanFallback(AGENT_REJECTED, fallback, destinations, {dest.id});
      var target := RetryTarget(fallback, destinations);
      p.Some? && (p.value.hangup <==> target.None? || target.value.id == dest.id)
  {
    PlanHangsUpIff(AGENT_REJECTED, fallback, destinations, {dest.id});
  }

  /** A configuration where it does not: a voicemail besides the destination the human answered. */
  lemma LeavingHumanMaySkipTheHangup()
    ensures var desk, voicemail := Destination(1, "desk", "100", true), Destination(2, "voicemail", "900", false);
      PlanFallback(AGENT_REJECTED, Some(Fallback(Some(VOICEMAIL), Some(2))), [desk, voicemail], {1})
      == Some(Plan(VOICEMAIL, Some(voicemail), Apology(VOICEMAIL), false))
  {
    var desk, voicemail := Destination(1, "desk", "100", true), Destination(2, "voicemail", "900", false);
    ResolveDestinationFinds([desk, voicemail], None, Some(2));
    var r := ResolveDestination([desk, voicemail], None, Some(2));
    assert voicemail in [desk, voicemail] && voicemail.id == 2;
    assert r.value in [desk, voicemail] && r.value.id == 2;
    PlanHangsUpIff(AGENT_REJECTED, Some(Fallback(Some(VOICEMAIL), Some(2))), [desk, voicemail], {1});
  }

  // ---- The dial loop ----

  datatype DialOutcome = ANSWERED | NO_ANSWER | BUSY | REJECTED | DIAL_FAILED

  function DialToStatus(outcome: DialOutcome): Status
    requires outcome != ANSWERED
  {
    match outcome
    case NO_ANSWER => AGENT_NO_ANSWER
    case BUSY => AGENT_BUSY
    case REJECTED => AGENT_REJECTED
    case DIAL_FAILED => FAILED
  }

  datatype Ending = OnAnswered(destination: Destination) | Fail(status: Status, plan: Option<Plan>)

  /** The destinations dialled, given whether the first one answered. */
  function Dialled(
    first: Destination, answered: bool, fallback: Option<Fallback>, destinations: seq<Destination>): seq<Destination>
  {
    var target := RetryTarget(fallback, destinations);
    if !answered && target.Some? && target.value.id != first.id then [first, target.value] else [first]
  }

  /**
   * Dials until someone answers or the plan has nowhere left to go, for any sequence of outcomes. At most two
   * destinations are dialled, never the same one twice, and the loop ends in one answer or one failure that hangs up.
   */
  method DialLoop(first: Destination, fallback: Option<Fallback>, destinations: seq<Destination>,
                  outcome: nat -> DialOutcome)
    returns (dialled: seq<Destination>, ending: Ending)
    ensures dialled == Dialled(first, outcome(0) == ANSWERED, fallback, destinations)
    ensures |dialled| == 1 || (|dialled| == 2 && dialled[0].id != dialled[1].id)
    ensures match ending
      case OnAnswered(d) => outcome(|dialled| - 1) == ANSWERED && d == dialled[|dialled| - 1]
      case Fail(status, plan) =>
        && outcome(|dialled| - 1) != ANSWERED && status == DialToStatus(outcome(|dialled| - 1))
        && plan.Some? && plan.value.hangup && plan.value.destination == None
  {
    var tried: set<nat> := {};
    var current := first;
    dialled := [];
    ghost var target := RetryTarget(fallback, destinations);
    while true
      invariant |dialled| <= 1
      invariant tried == set d | d in dialled :: d.id
      invariant dialled == [] ==> current == first
      invariant |dialled| == 1 ==>
                  && dialled == [first] && target == Some(current) && current.id != first.id && outcome(0) != ANSWERED
      decreases 2 - |dialled|
    {
      var n := |dialled|;
      tried := tried + {current.id};
      dialled := dialled + [current];
      var result := outcome(n);
      if result == ANSWERED {
        return dialled, OnAnswered(current);
      }
      var trigger := DialToStatus(result);
      var plan := PlanFallback(trigger, fallback, destinations, tried);
      PlanHangsUpIff(trigger, fallback, destinations, tried);
      if plan.Some? && plan.value.destination.Some? {
        current := plan.value.destination.value;
        assert n == 0;
      } else {
        return dialled, Fail(trigger, plan);
      }
    }
  }
}
