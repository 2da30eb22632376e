/** Who is hung up on, and when exactly. */
module TransferHangups {
  // There is at most one hangup in any run, and for each way a transfer can fail it is said when there is one.

  import opened Options
  import opened TransferStatus
  import opened TransferFallback
  import opened TransferRun
  import opened TransferSafety
  import opened TransferLog
  import opened TransferGuarantees

  function HangUps(log: seq<Entry>): nat {
    if log == [] then 0 else HangUps(log[..|log| - 1]) + (if log[|log| - 1].HungUp? then 1 else 0)
  }

  lemma {:induction false} HangUpsAdd(log: seq<Entry>, more: seq<Entry>)
    ensures HangUps(log + more) == HangUps(log) + HangUps(more)
    decreases more
  {
    var all := log + more;
    if more == [] {
      assert all == log;
    } else {
      assert all[..|all| - 1] == log + more[..|more| - 1];
      HangUpsAdd(log, more[..|more| - 1]);
    }
  }

  // ---- At most one ----

  lemma HangUpsOfFew(entries: seq<Entry>)
    requires |entries| <= 2 && (|entries| == 2 ==> !entries[0].HungUp?)
    ensures HangUps(entries) == if HungUp in entries then 1 else 0
  {
    if |entries| == 2 { assert entries[..1] == [entries[0]] && entries == [entries[0], entries[1]]; }
    if |entries| == 1 { assert entries[..0] == []; }
  }

  lemma SpeakingHangsUp(c: Config, s: State, reply: Reply)
    ensures var o := RunOutcome(c, s, reply);
      HungUp in o.entries ==>
        s.run.Failing? && o.run.Ended? && s.run.failing.Speaking? && !reply.raises
        && (s.run.plan.None? || s.run.plan.value.hangup)
  {
    WhereEntriesComeFrom(c, s, reply);
  }

  lemma RunAddsHangups(c: Config, s: State, reply: Reply)
    ensures HangUps(RunNext(c, s, reply).log)
         == HangUps(s.log) + if HungUp in RunOutcome(c, s, reply).entries then 1 else 0
  {
    var o := RunOutcome(c, s, reply);
    RunLog(c, s, reply);
    HangUpsAdd(s.log, WriteEntries(o.write));
    HangUpsAdd(s.log + WriteEntries(o.write), o.entries);
    WhereEntriesComeFrom(c, s, reply);
    HangUpsOfFew(o.entries);
    HangUpsOfFew(WriteEntries(o.write));
  }

  /** A step of the run hangs up at most once, and only where it ends a failure. */
  lemma RunHangsUp(c: Config, s: State, reply: Reply)
    ensures var s1 := RunNext(c, s, reply); var more := HangUps(s1.log) - HangUps(s.log);
      && 0 <= more <= 1
      && (more == 1 ==> s.run.Failing? && s1.run.Ended?)
  {
    RunAddsHangups(c, s, reply);
    SpeakingHangsUp(c, s, reply);
  }

  lemma OthersDoNotHangUp(c: Config, s: State, e: Event)
    requires !e.RunStep?
    ensures HangUps(Next(c, s, e).log) == HangUps(s.log)
  {
    match e
    case Request(_) => HangUpsAdd(s.log, [WroteStatus(REQUESTED)]);
    case Abandon => HangUpsAdd(s.log, [WroteStatus(ABANDONED)]);
    case PlayStep(ended) =>
      if WritesFrame(s.audio, ended) {
        HangUpsAdd(s.log, [WhisperFrame(s.audio.whisper.sid.value, s.audio.permissions)]);
      }
    case _ =>
  }

  lemma {:induction false} HangupsStay(c: Config, s: State, events: seq<Event>)
    requires HangUps(s.log) <= if s.run.Ended? then 1 else 0
    ensures var r := RunAll(c, s, events); HangUps(r.log) <= if r.run.Ended? then 1 else 0
    decreases events
  {
    if events == [] {
    } else {
      if events[0].RunStep? { RunHangsUp(c, s, events[0].reply); } else { OthersDoNotHangUp(c, s, events[0]); }
      HangupsStay(c, Next(c, s, events[0]), events[1..]);
    }
  }

  /** In every run the caller is hung up on at most once, and then the run is over. */
  lemma AtMostOneHangup(c: Config, events: seq<Event>)
    ensures var r := RunAll(c, INITIAL, events); HangUps(r.log) <= if r.run.Ended? then 1 else 0
  {
    HangupsStay(c, INITIAL, events);
  }

  // ---- A failure runs to its end ----

  /** Nothing raises and nobody closes the transfer; the parties may leave, press keys and abandon as they like. */
  predicate Calm(events: seq<Event>) {
    forall e :: e in events ==> !e.Close? && (e.RunStep? ==> !e.reply.raises)
  }

  lemma FailingStep(c: Config, s: State, e: Event)
    requires s.run.Failing? && Calm([e])
    ensures var s1 := Next(c, s, e);
      || (s1.run.Failing? && s1.run.plan == s.run.plan && HangUps(s1.log) == HangUps(s.log))
      || (s1.run.Ended?
          && HangUps(s1.log) == HangUps(s.log) + if s.run.plan.Some? && !s.run.plan.value.hangup then 0 else 1)
  {
    assert e in [e];
    if e.RunStep? {
      RunAddsHangups(c, s, e.reply);
      SpeakingHangsUp(c, s, e.reply);
    } else {
      OthersDoNotHangUp(c, s, e);
    }
  }

  lemma EndedStep(c: Config, s: State, e: Event)
    requires s.run.Ended?
    ensures var s1 := Next(c, s, e); s1.run.Ended? && HangUps(s1.log) == HangUps(s.log)
  {
    if e.RunStep? { RunHangsUp(c, s, e.reply); } else { OthersDoNotHangUp(c, s, e); }
  }

  /** However the rest is interleaved, a failure that ends has hung up exactly when its plan wants it. */
  lemma {:induction false} FailureEnds(c: Config, s: State, events: seq<Event>, hangup: bool)
    requires Calm(events)
    requires s.run.Failing? ==> HangUps(s.log) == 0 && hangup == (s.run.plan.None? || s.run.plan.value.hangup)
    requires s.run.Ended? ==> HangUps(s.log) == if hangup then 1 else 0
    requires s.run.Failing? || s.run.Ended?
    ensures var r := RunAll(c, s, events);
      && (r.run.Failing? || r.run.Ended?)
      && (r.run.Ended? ==> HangUps(r.log) == if hangup then 1 else 0)
    decreases events
  {
    if events == [] {
    } else {
      var e := events[0];
      assert e in events && Calm([e]);
      if s.run.Ended? { EndedStep(c, s, e); } else { FailingStep(c, s, e); }
      FailureEnds(c, Next(c, s, e), events[1..], hangup);
    }
  }

  /** The steps a failure still takes at most. */
  function LeftToFail(at: FailingStep): nat {
    match at
    case WritingFailure(_) => 5
    case FailStopping(Begin) => 4
    case FailStopping(HoldUnpublished(_)) => 3
    case FailStopping(_) => 2
    case Speaking => 1
  }

  lemma {:induction false} FailureIsShort(c: Config, s: State, n: nat)
    requires s.run.Ended? || (s.run.Failing? && LeftToFail(s.run.failing) <= n)
    ensures RunAll(c, s, Undisturbed(n)).run.Ended? && Calm(Undisturbed(n))
    decreases n
  {
    if n == 0 {
    } else {
      FailureIsShort(c, RunNext(c, s, Reply(false, [], ANSWERED)), n - 1);
    }
  }

  /**
   * Whatever else happens meanwhile, the run that goes on from here ends with one hangup or with none, and left alone
   * it ends.
   */
  ghost predicate Ends(c: Config, s: State, after: seq<Event>, n: nat, hangup: bool) {
    && (var r := RunAll(c, s, after); r.run.Ended? ==> HangUps(r.log) == if hangup then 1 else 0)
    && (var r := RunAll(c, s, Undisturbed(n)); r.run.Ended? && HangUps(r.log) == if hangup then 1 else 0)
  }

  lemma FailedEnds(c: Config, s: State, after: seq<Event>, n: nat)
    requires s.run.Failing? && s.run.failing.WritingFailure? && HangUps(s.log) == 0 && Calm(after) && n >= 5
    ensures Ends(c, s, after, n, s.run.plan.None? || s.run.plan.value.hangup)
  {
    var hangup := s.run.plan.None? || s.run.plan.value.hangup;
    FailureEnds(c, s, after, hangup);
    FailureIsShort(c, s, n);
    FailureEnds(c, s, Undisturbed(n), hangup);
  }

  // ---- Each way to fail ----

  /**
   * A leg that nobody answers is followed by the configured queue or voicemail when that was not tried yet; otherwise
   * the caller is hung up on, exactly once.
   */
  lemma UnansweredIsHungUpOnIff(
    c: Config, before: seq<Event>, reply: Reply, after: seq<Event>, n: nat, fallback: Option<Fallback>,
    destinations: seq<Destination>)
    requires PlansBy(c, fallback, destinations) && !reply.raises && reply.outcome != ANSWERED && Calm(after) && n >= 5
    requires var s := RunAll(c, INITIAL, before); s.run.Placing? && s.run.placing.Ringing?
    ensures var s, target := RunAll(c, INITIAL, before), RetryTarget(fallback, destinations);
      var s1 := Next(c, s, RunStep(reply));
      if target.Some? && target.value.id !in s.tried then s1.run == Placing(Dialling(false), target.value)
      else Ends(c, s1, after, n, true)
  {
    var s := RunAll(c, INITIAL, before);
    AtMostOneHangup(c, before);
    RunHangsUp(c, s, reply);
    PlanHangsUpIff(DialToStatus(reply.outcome), fallback, destinations, Ids(s.tried));
    var s1 := Next(c, s, RunStep(reply));
    if s1.run.Failing? { FailedEnds(c, s1, after, n); }
  }

  /**
   * When the human leaves during the whisper without skipping it, the caller is hung up on exactly when no queue or
   * voicemail other than the human's own destination is configured.
   */
  lemma LeftDuringTheWhisperIsHungUpOnIff(
    c: Config, before: seq<Event>, reply: Reply, after: seq<Event>, n: nat, fallback: Option<Fallback>,
    destinations: seq<Destination>)
    requires PlansBy(c, fallback, destinations) && Calm(after) && n >= 5
    requires var s := RunAll(c, INITIAL, before); At(s.run, Whispering) && s.humanLeft && !s.skip
    ensures var s, target := RunAll(c, INITIAL, before), RetryTarget(fallback, destinations);
      Ends(c, Next(c, s, RunStep(reply)), after, n, target.None? || target.value.id == s.run.dest.id)
  {
    var s := RunAll(c, INITIAL, before);
    AtMostOneHangup(c, before);
    RunHangsUp(c, s, reply);
    LeavingHumanHangsUpIff(s.run.dest, fallback, destinations);
    FailedEnds(c, Next(c, s, RunStep(reply)), after, n);
  }

  /**
   * When a step raises before the transfer has failed, the caller is hung up on exactly when the configured queue or
   * voicemail was tried, or was about to be dialled, or there is none.
   */
  lemma RaisingIsHungUpOnIff(
    c: Config, before: seq<Event>, reply: Reply, after: seq<Event>, n: nat, fallback: Option<Fallback>,
    destinations: seq<Destination>)
    requires PlansBy(c, fallback, destinations) && reply.raises && Calm(after) && n >= 5
    requires var s := RunAll(c, INITIAL, before); CanRaise(s.run) && !s.run.Failing?
    ensures var s, target := RunAll(c, INITIAL, before), RetryTarget(fallback, destinations);
      var s1 := Next(c, s, RunStep(reply));
      && s1.run.Failing? && s1.run.handled
      && Ends(c, s1, after, n,
        target.None? || target.value.id in s.tried
        || (s.run.Placing? && s.run.placing.Dialling? && s.run.dest.id == target.value.id))
  {
    var s := RunAll(c, INITIAL, before);
    AtMostOneHangup(c, before);
    RunHangsUp(c, s, reply);
    PlanHangsUpIff(FAILED, fallback, destinations, Ids(TriedAfter(s)));
    FailedEnds(c, Next(c, s, RunStep(reply)), after, n);
  }

  /** A failure that raises is tried once more, as FAILED; when that raises too the run ends, with nothing shown. */
  lemma FailureIsRetriedOnce(c: Config, s: State, reply: Reply)
    requires s.run.Failing? && CanRaise(s.run) && reply.raises
    ensures var s1 := Next(c, s, RunStep(reply));
      && s1.log == s.log && s1.row == s.row && s1.audio == s.audio
      && if s.run.handled then s1.run.Ended?
         else s1.run.Failing? && s1.run.handled && s1.run.failing == WritingFailure(FAILED)
  {
  }

  /**
   * An abandonment after the last check makes the write of BRIDGED illegal, so the transfer fails with the legs already
   * joined: the line is hung up on exactly when the configured queue or voicemail was tried or there is none.
   */
  lemma AbandonedBridgeIsHungUpOnIff(
    c: Config, before: seq<Event>, reply: Reply, after: seq<Event>, n: nat, fallback: Option<Fallback>,
    destinations: seq<Destination>)
    requires PlansBy(c, fallback, destinations) && Calm(after) && n >= 5
    requires var s := RunAll(c, INITIAL, before); s.run == Bridging(WritingBridged) && s.row == ABANDONED
    ensures var s, target := RunAll(c, INITIAL, before), RetryTarget(fallback, destinations);
      var s1 := Next(c, s, RunStep(reply));
      s1.bridged && Ends(c, s1, after, n, target.None? || target.value.id in s.tried)
  {
    var s := RunAll(c, INITIAL, before);
    RowFollowsTheTable(c, before);
    AtMostOneHangup(c, before);
    RunHangsUp(c, s, reply);
    PlanHangsUpIff(FAILED, fallback, destinations, Ids(s.tried));
    FailedEnds(c, Next(c, s, RunStep(reply)), after, n);
  }

  // ---- What the row says of an unanswered call ----

  /** The status at each stage while nobody has abandoned. */
  function StatusAt(run: RunState): Option<Status> {
    match run
    case Idle => Some(NOT_REQUESTED)
    case Accepting(_) => Some(NOT_REQUESTED)
    case Requesting(_) => Some(REQUESTED)
    case Placing(Announcing, _) => Some(REQUESTED)
    case Placing(Dialling(first), _) => Some(if first then ANNOUNCING else DIALING_AGENT)
    case Placing(Ringing, _) => Some(DIALING_AGENT)
    case Placing(_, _) => Some(ANNOUNCING)
    case Briefing(at, _, _) =>
      Some(if at in {Answered, Summarising, PersistingSummary, EnteringWhisper} then DIALING_AGENT
           else WHISPERING_SUMMARY)
    case Bridging(_) => Some(WHISPERING_SUMMARY)
    case _ => None
  }

  predicate Staged(s: State) {
    !s.abandoned ==> StatusAt(s.run) in {None, Some(s.status)}
  }

  lemma PlacingStaysStaged(c: Config, s: State, reply: Reply)
    requires Staged(s) && s.run.Placing?
    ensures Staged(RunNext(c, s, reply))
  {
  }

  lemma RunStaysStaged(c: Config, s: State, reply: Reply)
    requires Staged(s)
    ensures Staged(RunNext(c, s, reply))
  {
    if s.run.Placing? { PlacingStaysStaged(c, s, reply); }
  }

  lemma OthersStayStaged(c: Config, s: State, e: Event)
    requires Staged(s) && !e.RunStep?
    ensures Staged(Next(c, s, e))
  {
  }

  lemma {:induction false} RunsStayStaged(c: Config, s: State, events: seq<Event>)
    requires Staged(s)
    ensures Staged(RunAll(c, s, events))
    decreases events
  {
    if events == [] {
    } else {
      var e := events[0];
      if e.RunStep? { RunStaysStaged(c, s, e.reply); } else { OthersStayStaged(c, s, e); }
      RunsStayStaged(c, Next(c, s, e), events[1..]);
    }
  }

  lemma {:induction false} WrittenFailureStays(c: Config, s: State, n: nat)
    requires s.run.Ended? || (s.run.Failing? && !s.run.failing.WritingFailure?)
    ensures RunAll(c, s, Undisturbed(n)).row == s.row
    decreases n
  {
    if n == 0 {
    } else {
      WrittenFailureStays(c, RunNext(c, s, Reply(false, [], ANSWERED)), n - 1);
    }
  }

  lemma FailureIsRecorded(c: Config, s: State, n: nat)
    requires s.run.Failing? && s.run.failing.WritingFailure? && Legal(s.status, s.run.failing.trigger) && n >= 1
    ensures RunAll(c, s, Undisturbed(n)).row == s.run.failing.trigger
  {
    var s1 := RunNext(c, s, Reply(false, [], ANSWERED));
    assert RunAll(c, s, Undisturbed(n)) == RunAll(c, s1, Undisturbed(n - 1));
    WrittenFailureStays(c, s1, n - 1);
  }

  /** A call that fails because nobody answered says why, when nobody has abandoned it. */
  lemma UnansweredIsRecorded(c: Config, before: seq<Event>, reply: Reply, n: nat)
    requires !reply.raises && reply.outcome != ANSWERED && n >= 1
    requires var s := RunAll(c, INITIAL, before);
      s.run.Placing? && s.run.placing.Ringing? && !s.abandoned && !Next(c, s, RunStep(reply)).run.Placing?
    ensures RunAll(c, Next(c, RunAll(c, INITIAL, before), RunStep(reply)), Undisturbed(n)).row ==
      match reply.outcome
      case NO_ANSWER => AGENT_NO_ANSWER
      case BUSY => AGENT_BUSY
      case REJECTED => AGENT_REJECTED
      case _ => FAILED
  {
    RunsStayStaged(c, INITIAL, before);
    FailureIsRecorded(c, Next(c, RunAll(c, INITIAL, before), RunStep(reply)), n);
  }

  // ---- An abandoned call is not hung up on ----

  /** Until it fails, an abandoned transfer is one whose row and memory say so. */
  predicate AbandonedInTime(s: State) {
    s.abandoned ==>
      && !s.run.Idle? && !s.run.Accepting?
      && (s.run.Requesting? || s.run.Placing? || s.run.Briefing? || s.run.Bridging? ==> s.status == ABANDONED)
  }

  lemma RunStaysAbandoned(c: Config, s: State, reply: Reply)
    requires AbandonedInTime(s) && Staged(s)
    ensures AbandonedInTime(RunNext(c, s, reply))
  {
  }

  lemma OthersStayAbandoned(c: Config, s: State, e: Event)
    requires AbandonedInTime(s) && Staged(s) && !e.RunStep?
    ensures AbandonedInTime(Next(c, s, e))
  {
  }

  lemma {:induction false} RunsStayAbandoned(c: Config, s: State, events: seq<Event>)
    requires AbandonedInTime(s) && Staged(s)
    ensures AbandonedInTime(RunAll(c, s, events))
    decreases events
  {
    if events == [] {
    } else {
      var e := events[0];
      if e.RunStep? {
        RunStaysStaged(c, s, e.reply);
        RunStaysAbandoned(c, s, e.reply);
      } else {
        OthersStayStaged(c, s, e);
        OthersStayAbandoned(c, s, e);
      }
      RunsStayAbandoned(c, Next(c, s, e), events[1..]);
    }
  }

  /**
   * A run that finds its caller gone, when the human answers or before it bridges, ends there and then: it says and
   * writes nothing, changes no track and hangs up on nobody.
   */
  lemma AbandonedRunEndsQuietly(c: Config, before: seq<Event>, reply: Reply)
    requires var s := RunAll(c, INITIAL, before); s.abandoned && (At(s.run, Answered) || At(s.run, Checking))
    requires !reply.raises
    ensures var s := RunAll(c, INITIAL, before); Next(c, s, RunStep(reply)) == s.(run := Ended)
  {
    RunsStayAbandoned(c, INITIAL, before);
  }

  // ---- A transfer ends in a bridge or a hangup ----

  /** While neither party has left, the status is that of the stage, and a failure is one that hangs up. */
  predicate InPlace(s: State) {
    && !s.run.Abandoning? && StatusAt(s.run) in {None, Some(s.status)}
    && (s.bridged ==> s.run.Ended?)
    && (s.run.Failing? ==> s.run.plan.None? || s.run.plan.value.hangup)
  }

  /** So far the run has hung up exactly when it ended without a bridge. */
  predicate Attended(s: State) {
    !s.abandoned && !s.humanLeft ==> InPlace(s) && HangUps(s.log) == if s.run.Ended? && !s.bridged then 1 else 0
  }

  lemma RingingKeepsPlace(c: Config, s: State, reply: Reply)
    requires InPlace(s) && s.run.Placing? && s.run.placing.Ringing? && !reply.raises && reply.outcome != ANSWERED
    requires var p := c.plan(DialToStatus(reply.outcome), Ids(s.tried));
      p.Some? && (p.value.destination.None? ==> p.value.hangup)
    ensures InPlace(RunNext(c, s, reply)) && !RunNext(c, s, reply).run.Ended?
  {
    assert RunOutcome(c, s, reply) == NotAnswered(c, s, reply.outcome);
  }

  lemma PlacingKeepsPlace(c: Config, s: State, reply: Reply)
    requires InPlace(s) && s.run.Placing? && !reply.raises && (s.run.placing.Ringing? ==> reply.outcome == ANSWERED)
    ensures InPlace(RunNext(c, s, reply)) && !RunNext(c, s, reply).run.Ended?
  {
  }

  lemma RunKeepsPlace(c: Config, s: State, reply: Reply)
    requires InPlace(s) && !s.run.Placing? && !s.abandoned && !s.humanLeft && !reply.raises
    ensures var s1 := RunNext(c, s, reply);
      && InPlace(s1)
      && (s1.run.Ended? && !s.run.Ended? && !s1.bridged ==>
            HungUp in RunOutcome(c, s, reply).entries && !s.bridged)
  {
  }

  lemma RunStaysInPlace(c: Config, s: State, reply: Reply, fallback: Option<Fallback>, destinations: seq<Destination>)
    requires PlansBy(c, fallback, destinations) && InPlace(s) && !s.abandoned && !s.humanLeft && !reply.raises
    ensures var s1 := RunNext(c, s, reply);
      && InPlace(s1)
      && (s1.run.Ended? && !s.run.Ended? && !s1.bridged ==> HungUp in RunOutcome(c, s, reply).entries && !s.bridged)
  {
    if !s.run.Placing? {
      RunKeepsPlace(c, s, reply);
    } else if s.run.placing.Ringing? && reply.outcome != ANSWERED {
      PlanHangsUpIff(DialToStatus(reply.outcome), fallback, destinations, Ids(s.tried));
      RingingKeepsPlace(c, s, reply);
    } else {
      PlacingKeepsPlace(c, s, reply);
    }
  }

  lemma RunStaysAttended(
    c: Config, s: State, reply: Reply, fallback: Option<Fallback>, destinations: seq<Destination>)
    requires PlansBy(c, fallback, destinations) && Attended(s) && !reply.raises
    ensures Attended(RunNext(c, s, reply))
  {
    var s1 := RunNext(c, s, reply);
    if !s1.abandoned && !s1.humanLeft {
      RunStaysInPlace(c, s, reply, fallback, destinations);
      RunAddsHangups(c, s, reply);
      SpeakingHangsUp(c, s, reply);
    }
  }

  lemma OthersStayAttended(c: Config, s: State, e: Event)
    requires Attended(s) && !e.RunStep? && !e.Close?
    ensures Attended(Next(c, s, e))
  {
    OthersDoNotHangUp(c, s, e);
  }

  lemma {:induction false} RunsStayAttended(
    c: Config, s: State, events: seq<Event>, fallback: Option<Fallback>, destinations: seq<Destination>)
    requires PlansBy(c, fallback, destinations) && Attended(s) && Calm(events)
    ensures Attended(RunAll(c, s, events))
    decreases events
  {
    if events == [] {
    } else {
      var e := events[0];
      if e.RunStep? { RunStaysAttended(c, s, e.reply, fallback, destinations); } else { OthersStayAttended(c, s, e); }
      RunsStayAttended(c, Next(c, s, e), events[1..], fallback, destinations);
    }
  }

  /**
   * A transfer in which nothing raises and neither party leaves ends in exactly one of two ways: the caller is bridged
   * to the human, or hung up on once.
   */
  lemma BridgedOrHungUp(c: Config, events: seq<Event>, fallback: Option<Fallback>, destinations: seq<Destination>)
    requires PlansBy(c, fallback, destinations) && Calm(events)
    requires var r := RunAll(c, INITIAL, events); r.run.Ended? && !r.abandoned && !r.humanLeft
    ensures var r := RunAll(c, INITIAL, events); HangUps(r.log) == if r.bridged then 0 else 1
  {
    RunsStayAttended(c, INITIAL, events, fallback, destinations);
  }
}
