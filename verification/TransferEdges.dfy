/** Runs that reach the edges of a transfer: who can hear an apology, and a caller bridged after hanging up. */
module TransferEdges {
  import opened Options
  import opened TransferStatus
  import opened TransferFallback
  import opened TransferRun
  import opened TransferSafety
  import opened TransferLog
  import opened TransferGuarantees

  // ---- Exactly when an apology is audible ----

  /** The step publishes the hold with a caller to name, or publishes the whisper. */
  predicate Restricts(s: State, e: Event) {
    && e.RunStep? && !e.reply.raises
    && (|| (s.run.Placing? && s.run.placing.PublishingHold? && CallerIdentity(e.reply.participants).Some?)
        || At(s.run, PublishingWhisper))
  }

  predicate RestrictedIn(c: Config, s: State, events: seq<Event>)
    decreases events
  {
    events != [] && (Restricts(s, events[0]) || RestrictedIn(c, Next(c, s, events[0]), events[1..]))
  }

  /** Everyone may hear the worker exactly when nothing has restricted it, or the bridge has opened it. */
  ghost predicate AudibleIff(s: State, restricted: bool) {
    s.audio.permissions.AllowAll? <==> Opened(s.log) || !restricted
  }

  lemma RunStaysAudibleIff(c: Config, s: State, reply: Reply, restricted: bool)
    requires Positioned(s) && AudibleIff(s, restricted)
    ensures AudibleIff(RunNext(c, s, reply), restricted || Restricts(s, RunStep(reply)))
  {
    var o := RunOutcome(c, s, reply);
    RunLog(c, s, reply);
    WhereEntriesComeFrom(c, s, reply);
    WhereRunsComeFrom(c, s, reply);
    OpenedExtends(s.log, WriteEntries(o.write));
    OpenedExtends(s.log + WriteEntries(o.write), o.entries);
  }

  lemma EventStaysAudibleIff(c: Config, s: State, e: Event, restricted: bool)
    requires !e.RunStep? && AudibleIff(s, restricted)
    ensures AudibleIff(Next(c, s, e), restricted)
  {
    match e
    case PlayStep(ended) =>
      if WritesFrame(s.audio, ended) {
        OpenedExtends(s.log, [WhisperFrame(s.audio.whisper.sid.value, s.audio.permissions)]);
      }
    case Request(_) => OpenedExtends(s.log, [WroteStatus(REQUESTED)]);
    case Abandon => OpenedExtends(s.log, [WroteStatus(ABANDONED)]);
    case _ =>
  }

  lemma {:induction false} RunsStayAudibleIff(c: Config, s: State, events: seq<Event>, restricted: bool)
    requires Safe(c, s) && AudibleIff(s, restricted)
    ensures AudibleIff(RunAll(c, s, events), restricted || RestrictedIn(c, s, events))
    decreases events
  {
    if events == [] {
    } else {
      var e := events[0];
      NextStaysSafe(c, s, e);
      if e.RunStep? {
        RunStaysAudibleIff(c, s, e.reply, restricted);
      } else {
        EventStaysAudibleIff(c, s, e, restricted);
      }
      RunsStayAudibleIff(c, Next(c, s, e), events[1..], restricted || Restricts(s, e));
    }
  }

  /** Before it speaks a failure has let go of the hold. */
  predicate Quietened(s: State) {
    s.run.Failing? ==>
      && s.run.failing != FailStopping(Stopped)
      && (s.run.failing.Speaking? ==> s.audio.hold.None?)
  }

  lemma NextStaysQuietened(c: Config, s: State, e: Event)
    requires Quietened(s)
    ensures Quietened(Next(c, s, e))
  {
    if e.RunStep? { RunStaysQuietened(c, s, e.reply); }
  }

  lemma RunStaysQuietened(c: Config, s: State, reply: Reply)
    requires Quietened(s)
    ensures Quietened(RunNext(c, s, reply))
  {
  }

  lemma {:induction false} RunsStayQuietened(c: Config, s: State, events: seq<Event>)
    requires Quietened(s)
    ensures Quietened(RunAll(c, s, events))
    decreases events
  {
    if events == [] {
    } else {
      NextStaysQuietened(c, s, events[0]);
      RunsStayQuietened(c, Next(c, s, events[0]), events[1..]);
    }
  }

  /**
   * In every run a failure that speaks publishes its apology on a new track, and anyone at all, the caller included,
   * may hear it exactly when no step before published the hold with a caller to name or the whisper, or the bridge had
   * been opened since.
   */
  lemma ApologyIsAudibleIff(c: Config, before: seq<Event>, reply: Reply, who: Identity)
    requires var s := RunAll(c, INITIAL, before); s.run.Failing? && s.run.failing.Speaking? && !reply.raises
    ensures var s := RunAll(c, INITIAL, before);
      var log := Next(c, s, RunStep(reply)).log;
      && |log| > |s.log| && log[|s.log|] == Apology(s.audio.nextSid, s.audio.permissions)
      && Next(c, s, RunStep(reply)).audio.hold == Some(Some(s.audio.nextSid))
      && (MaySubscribe(s.audio.permissions, who, s.audio.nextSid)
          <==> Opened(s.log) || !RestrictedIn(c, INITIAL, before))
  {
    var s := RunAll(c, INITIAL, before);
    EveryRunIsSafe(c, []);
    EveryRunIsSafe(c, before);
    RunsStayAudibleIff(c, INITIAL, before, false);
    RunsStayQuietened(c, INITIAL, before);
    RunLog(c, s, reply);
  }

  // ---- A run whose apology nobody hears ----

  function Steps(reply: Reply, n: nat): seq<Event> {
    if n == 0 then [] else [RunStep(reply)] + Steps(reply, n - 1)
  }

  lemma OneStepThenTheRest(c: Config, s: State, reply: Reply, n: nat)
    requires n > 0
    ensures RunAll(c, s, Steps(reply, n)) == RunAll(c, RunNext(c, s, reply), Steps(reply, n - 1))
  {
    assert Steps(reply, n)[1..] == Steps(reply, n - 1);
  }

  /** The caller is in the room, and the human does not answer. */
  const UNANSWERED := Reply(false, ["caller"], NO_ANSWER)

  /** A failed leg with nowhere else to go. */
  predicate NowhereToGo(c: Config, dest: Destination) {
    var plan := c.plan(AGENT_NO_ANSWER, {dest.id});
    plan.None? || plan.value.destination.None?
  }

  /** How many steps are left before such a transfer speaks its apology. */
  function LeftToSpeak(run: RunState): nat {
    match run
    case Accepting(_) => 11
    case Requesting(_) => 10
    case Placing(Announcing, _) => 9
    case Placing(Saying, _) => 8
    case Placing(StartingHold, _) => 7
    case Placing(PublishingHold, _) => 6
    case Placing(Dialling(_), _) => 5
    case Placing(Ringing, _) => 4
    case Failing(WritingFailure(_), _, _) => 3
    case Failing(FailStopping(Begin), _, _) => 2
    case Failing(FailStopping(_), _, _) => 1
    case _ => 0
  }

  predicate OnTheWayDown(s: State, dest: Destination) {
    !s.audio.whisperHeld && match s.run
    case Accepting(d) => d == dest && s.tried == [] && s.audio.hold.None?
    case Requesting(d) => d == dest && s.tried == [] && s.status == REQUESTED && s.audio.hold.None?
    case Placing(at, d) =>
      && d == dest && (at.Ringing? ==> s.tried == [dest.id]) && (!at.Ringing? ==> s.tried == [])
      && s.status == (if at.Announcing? then REQUESTED else if at.Ringing? then DIALING_AGENT else ANNOUNCING)
      && (at.PublishingHold? || at.Dialling? || at.Ringing? ==> s.audio.hold.Some?)
      && (at.Dialling? ==> at.first) && (at.Dialling? || at.Ringing? ==> s.audio.permissions.Only?)
    case Failing(at, _, _) =>
      && s.audio.permissions.Only? && (at.WritingFailure? || at == FailStopping(Begin) ==> s.audio.hold.Some?)
      && (at.FailStopping? ==> at.stop in {Begin, HoldUnpublished(false)})
    case _ => false
  }

  lemma RingingStepDown(c: Config, s: State, dest: Destination)
    requires OnTheWayDown(s, dest) && s.run.Placing? && s.run.placing.Ringing? && NowhereToGo(c, dest)
    ensures var r := RunNext(c, s, UNANSWERED); OnTheWayDown(r, dest) && LeftToSpeak(r.run) == 3
  {
    assert Ids(s.tried) == {dest.id};
  }

  lemma PlacingStepDown(c: Config, s: State, dest: Destination)
    requires OnTheWayDown(s, dest) && s.run.Placing? && !s.run.placing.Ringing?
    ensures var r := RunNext(c, s, UNANSWERED); OnTheWayDown(r, dest) && LeftToSpeak(r.run) == LeftToSpeak(s.run) - 1
  {
    assert CallerIdentity(["caller"]) == Some("caller");
  }

  lemma OtherStepDown(c: Config, s: State, dest: Destination)
    requires OnTheWayDown(s, dest) && LeftToSpeak(s.run) > 0 && !s.run.Placing?
    ensures var r := RunNext(c, s, UNANSWERED); OnTheWayDown(r, dest) && LeftToSpeak(r.run) == LeftToSpeak(s.run) - 1
  {
  }

  lemma StepDown(c: Config, s: State, dest: Destination)
    requires OnTheWayDown(s, dest) && LeftToSpeak(s.run) > 0 && NowhereToGo(c, dest)
    ensures var r := RunNext(c, s, UNANSWERED); OnTheWayDown(r, dest) && LeftToSpeak(r.run) == LeftToSpeak(s.run) - 1
  {
    if !s.run.Placing? { OtherStepDown(c, s, dest); }
    else if s.run.placing.Ringing? { RingingStepDown(c, s, dest); }
    else { PlacingStepDown(c, s, dest); }
  }

  lemma {:induction false} StepsDown(c: Config, s: State, dest: Destination, n: nat)
    requires OnTheWayDown(s, dest) && LeftToSpeak(s.run) >= n && NowhereToGo(c, dest)
    ensures var r := RunAll(c, s, Steps(UNANSWERED, n));
      OnTheWayDown(r, dest) && LeftToSpeak(r.run) == LeftToSpeak(s.run) - n
    decreases n
  {
    if n == 0 {
    } else {
      StepDown(c, s, dest);
      OneStepThenTheRest(c, s, UNANSWERED, n);
      StepsDown(c, RunNext(c, s, UNANSWERED), dest, n - 1);
    }
  }

  function UnansweredTransfer(dest: Destination): seq<Event> {
    [Request(dest)] + Steps(UNANSWERED, 11)
  }

  /**
   * A run, from the start, whose apology nobody hears: a caller is on the line, the human does not answer, and there is
   * nowhere else to go.
   */
  lemma UnansweredCallersHearNoApology(c: Config, dest: Destination, who: Identity)
    requires c.enabled && NowhereToGo(c, dest)
    ensures var s := RunAll(c, INITIAL, UnansweredTransfer(dest));
      var log := Next(c, s, RunStep(UNANSWERED)).log;
      && |log| > |s.log| && log[|s.log|] == Apology(s.audio.nextSid, s.audio.permissions)
      && !MaySubscribe(s.audio.permissions, who, s.audio.nextSid)
  {
    var before := UnansweredTransfer(dest);
    StepsDown(c, RequestNext(c, INITIAL, dest), dest, 11);
    ApologyIsAudibleIff(c, before, UNANSWERED, who);
    EveryRunIsSafe(c, []);
    RunsStayAudibleIff(c, INITIAL, before, false);
  }

  // ---- A run that reaches the bridge ----

  const ANSWERING := Reply(false, [], ANSWERED)

  /** How many steps are left before a transfer without a whisper begins to bridge. */
  function LeftToBridge(run: RunState): nat {
    match run
    case Accepting(_) => 13
    case Requesting(_) => 12
    case Placing(Announcing, _) => 11
    case Placing(Saying, _) => 10
    case Placing(StartingHold, _) => 9
    case Placing(PublishingHold, _) => 8
    case Placing(Dialling(_), _) => 7
    case Placing(Ringing, _) => 6
    case Briefing(Answered, _, _) => 5
    case Briefing(Summarising, _, _) => 4
    case Briefing(PersistingSummary, _, _) => 3
    case Briefing(EnteringWhisper, _, _) => 2
    case Briefing(_, _, _) => 1
    case _ => 0
  }

  predicate OnTheWayAcross(s: State, dest: Destination) {
    !s.abandoned && !s.bridged && match s.run
    case Accepting(d) => d == dest
    case Requesting(d) => d == dest && s.status == REQUESTED
    case Placing(at, d) =>
      && d == dest && (at.Dialling? ==> at.first)
      && s.status == (if at.Announcing? then REQUESTED else if at.Ringing? then DIALING_AGENT else ANNOUNCING)
    case Briefing(at, d, _) =>
      && d == dest && at in {Answered, Summarising, PersistingSummary, EnteringWhisper, Checking}
      && s.status == (if at.Checking? then WHISPERING_SUMMARY else DIALING_AGENT)
    case Bridging(at) => at == BridgeStopping(Begin) && s.status == WHISPERING_SUMMARY
    case _ => false
  }

  lemma StepAcross(c: Config, s: State, dest: Destination)
    requires OnTheWayAcross(s, dest) && LeftToBridge(s.run) > 0 && !dest.whisperSummary
    ensures var r := RunNext(c, s, ANSWERING); OnTheWayAcross(r, dest) && LeftToBridge(r.run) == LeftToBridge(s.run) - 1
  {
  }

  lemma {:induction false} StepsAcross(c: Config, s: State, dest: Destination, n: nat)
    requires OnTheWayAcross(s, dest) && LeftToBridge(s.run) >= n && !dest.whisperSummary
    ensures var r := RunAll(c, s, Steps(ANSWERING, n));
      OnTheWayAcross(r, dest) && LeftToBridge(r.run) == LeftToBridge(s.run) - n
    decreases n
  {
    if n == 0 {
    } else {
      StepAcross(c, s, dest);
      OneStepThenTheRest(c, s, ANSWERING, n);
      StepsAcross(c, RunNext(c, s, ANSWERING), dest, n - 1);
    }
  }

  function AnsweredTransfer(dest: Destination): seq<Event> {
    [Request(dest)] + Steps(ANSWERING, 13)
  }

  /** A run, from the start, that has just begun to bridge. */
  lemma AnsweredTransferBridges(c: Config, dest: Destination)
    requires c.enabled && !dest.whisperSummary
    ensures var s := RunAll(c, INITIAL, AnsweredTransfer(dest));
      s.run == Bridging(BridgeStopping(Begin)) && !s.bridged && s.status == WHISPERING_SUMMARY
  {
    StepsAcross(c, RequestNext(c, INITIAL, dest), dest, 13);
  }

  /** So a caller who hangs up at that moment is bridged to the human all the same, and the row says ABANDONED. */
  lemma CallerBridgedAfterHangingUp(c: Config, dest: Destination, n: nat)
    requires c.enabled && !dest.whisperSummary && n >= 6
    ensures var s := Next(c, RunAll(c, INITIAL, AnsweredTransfer(dest)), Abandon);
      && s.abandoned && s.row == ABANDONED
      && RunAll(c, s, Undisturbed(n)).bridged && RunAll(c, s, Undisturbed(n)).row == ABANDONED
  {
    AnsweredTransferBridges(c, dest);
    AbandonedTooLateIsBridged(c, AnsweredTransfer(dest), n);
  }

  // ---- A run that whispers ----

  /** How many steps are left before a transfer with a whisper waits for it to end. */
  function LeftToWhisper(run: RunState): nat {
    match run
    case Accepting(_) => 15
    case Requesting(_) => 14
    case Placing(Announcing, _) => 13
    case Placing(Saying, _) => 12
    case Placing(StartingHold, _) => 11
    case Placing(PublishingHold, _) => 10
    case Placing(Dialling(_), _) => 9
    case Placing(Ringing, _) => 8
    case Briefing(Answered, _, _) => 7
    case Briefing(Summarising, _, _) => 6
    case Briefing(PersistingSummary, _, _) => 5
    case Briefing(EnteringWhisper, _, _) => 4
    case Briefing(StartingWhisper, _, _) => 3
    case Briefing(PublishingWhisper, _, _) => 2
    case Briefing(SpawningPlay, _, _) => 1
    case _ => 0
  }

  predicate OnTheWayToWhisper(s: State, dest: Destination) {
    !s.abandoned && !s.bridged && !s.humanLeft && !s.skip && match s.run
    case Accepting(d) => d == dest
    case Requesting(d) => d == dest && s.status == REQUESTED
    case Placing(at, d) =>
      && d == dest && (at.Dialling? ==> at.first)
      && s.status == (if at.Announcing? then REQUESTED else if at.Ringing? then DIALING_AGENT else ANNOUNCING)
    case Briefing(at, d, _) =>
      && d == dest && !at.Checking?
      && s.status == (if at in {Answered, Summarising, PersistingSummary, EnteringWhisper} then DIALING_AGENT
                      else WHISPERING_SUMMARY)
      && (at.PublishingWhisper? || at.SpawningPlay? || at.Whispering? ==> s.audio.whisper.open)
      && (at.SpawningPlay? || at.Whispering? ==> s.audio.whisper.sid.Some?)
      && (at.Whispering? ==> s.audio.playing == Starting)
    case _ => false
  }

  lemma StepToWhisper(c: Config, s: State, dest: Destination)
    requires OnTheWayToWhisper(s, dest) && LeftToWhisper(s.run) > 0 && dest.whisperSummary
    ensures var r := RunNext(c, s, ANSWERING);
      OnTheWayToWhisper(r, dest) && LeftToWhisper(r.run) == LeftToWhisper(s.run) - 1
  {
  }

  lemma {:induction false} StepsToWhisper(c: Config, s: State, dest: Destination, n: nat)
    requires OnTheWayToWhisper(s, dest) && LeftToWhisper(s.run) >= n && dest.whisperSummary
    ensures var r := RunAll(c, s, Steps(ANSWERING, n));
      OnTheWayToWhisper(r, dest) && LeftToWhisper(r.run) == LeftToWhisper(s.run) - n
    decreases n
  {
    if n == 0 {
    } else {
      StepToWhisper(c, s, dest);
      OneStepThenTheRest(c, s, ANSWERING, n);
      StepsToWhisper(c, RunNext(c, s, ANSWERING), dest, n - 1);
    }
  }

  function WhisperedTransfer(dest: Destination): seq<Event> {
    [Request(dest)] + Steps(ANSWERING, 15)
  }

  /**
   * A run, from the start, that whispers: the player's second step writes a frame that the human and nobody else may
   * hear, and once the player has ended the caller is bridged.
   */
  lemma WhisperedTransferBridges(c: Config, dest: Destination, who: Identity, n: nat)
    requires c.enabled && dest.whisperSummary && n >= 8
    ensures var s := RunAll(c, INITIAL, WhisperedTransfer(dest));
      var heard := Next(c, Next(c, s, PlayStep(false)), PlayStep(false));
      var r := RunAll(c, Next(c, heard, PlayStep(true)), Undisturbed(n));
      && |heard.log| == |s.log| + 1 && heard.log[|s.log|].WhisperFrame?
      && (var frame := heard.log[|s.log|];
          MaySubscribe(frame.permissions, who, frame.sid) <==> who == HumanIdentity(c.callId))
      && r.bridged && r.row == BRIDGED
  {
    var before := WhisperedTransfer(dest);
    StepsToWhisper(c, RequestNext(c, INITIAL, dest), dest, 15);
    var s := RunAll(c, INITIAL, before);
    FrameIsHeard(c, before, who);
    var ended := PlayedOut(c, s);
    RunAppends(c, INITIAL, before, PlayStep(false));
    RunAppends(c, INITIAL, before + [PlayStep(false)], PlayStep(false));
    RunAppends(c, INITIAL, before + [PlayStep(false)] + [PlayStep(false)], PlayStep(true));
    EveryRunIsSafe(c, before + [PlayStep(false)] + [PlayStep(false)] + [PlayStep(true)]);
    WhisperEndsInBridge(c, ended, n);
    RunsStaySafe(c, ended, Undisturbed(n));
  }

  lemma PlayedOut(c: Config, s: State) returns (ended: State)
    requires At(s.run, Whispering)
    requires s.audio.playing == Starting && s.audio.whisper.open && s.audio.whisper.sid.Some?
    ensures var started := Next(c, s, PlayStep(false));
      var heard := Next(c, started, PlayStep(false));
      && ended == Next(c, heard, PlayStep(true))
      && heard.log == s.log + [WhisperFrame(started.audio.whisper.sid.value, started.audio.permissions)]
      && ended == s.(audio := ended.audio, log := heard.log) && ended.audio.playing == NotPlaying
  {
    ended := Next(c, Next(c, Next(c, s, PlayStep(false)), PlayStep(false)), PlayStep(true));
  }

  lemma FrameIsHeard(c: Config, before: seq<Event>, who: Identity)
    requires var s := RunAll(c, INITIAL, before);
      && At(s.run, Whispering) && !s.abandoned
      && s.audio.playing == Starting && s.audio.whisper.open && s.audio.whisper.sid.Some?
    ensures var s := RunAll(c, INITIAL, before); var s1 := Next(c, s, PlayStep(false));
      && WritesFrame(s1.audio, false)
      && (MaySubscribe(s1.audio.permissions, who, s1.audio.whisper.sid.value) <==> who == HumanIdentity(c.callId))
  {
    RunAppends(c, INITIAL, before, PlayStep(false));
    HumanHearsTheWhisper(c, before + [PlayStep(false)], false, who);
  }

  lemma {:induction false} RunAppends(c: Config, s: State, events: seq<Event>, e: Event)
    ensures RunAll(c, s, events + [e]) == Next(c, RunAll(c, s, events), e)
    decreases events
  {
    if events == [] {
      assert [e][1..] == [];
    } else {
      assert (events + [e])[0] == events[0] && (events + [e])[1..] == events[1..] + [e];
      RunAppends(c, Next(c, s, events[0]), events[1..], e);
    }
  }

  lemma WhisperEndsInBridge(c: Config, s: State, n: nat)
    requires At(s.run, Whispering) && s.audio.playing == NotPlaying && s.status == WHISPERING_SUMMARY && n >= 8
    requires !s.abandoned && !s.bridged && !s.humanLeft
    ensures var r := RunAll(c, s, Undisturbed(n)); r.bridged && r.status == BRIDGED
  {
    var reply := Reply(false, [], ANSWERED);
    var s1 := RunNext(c, s, reply);
    var s2 := RunNext(c, s1, reply);
    assert Undisturbed(n)[1..] == Undisturbed(n - 1) && Undisturbed(n - 1)[1..] == Undisturbed(n - 2);
    assert RunAll(c, s, Undisturbed(n)) == RunAll(c, s1, Undisturbed(n - 1)) == RunAll(c, s2, Undisturbed(n - 2));
    BridgeGoesOn(c, s2, n - 2);
  }

  // ---- Which abandonments are ignored ----

  lemma RunJoinsFirst(c: Config, s: State, reply: Reply)
    requires Logged(c, s) && (s.status == BRIDGED ==> s.bridged)
    ensures var s1 := RunNext(c, s, reply); s1.status == BRIDGED ==> s1.bridged
  {
    WhereWritesComeFrom(c, s, reply);
    RunWritesLegally(c, s, reply);
  }

  lemma OthersJoinNothing(c: Config, s: State, e: Event)
    requires !e.RunStep? && (s.status == BRIDGED ==> s.bridged)
    ensures var s1 := Next(c, s, e); s1.status == BRIDGED ==> s1.bridged
  {
  }

  /** The row says BRIDGED only when the legs have been joined. */
  lemma {:induction false} BridgedIsJoined(c: Config, s: State, events: seq<Event>)
    requires Safe(c, s) && (s.status == BRIDGED ==> s.bridged)
    ensures var r := RunAll(c, s, events); r.status == BRIDGED ==> r.bridged
    decreases events
  {
    if events == [] {
    } else {
      var e := events[0];
      NextStaysSafe(c, s, e);
      if e.RunStep? { RunJoinsFirst(c, s, e.reply); } else { OthersJoinNothing(c, s, e); }
      BridgedIsJoined(c, Next(c, s, e), events[1..]);
    }
  }

  /**
   * After any run, an abandonment does nothing at all exactly when the legs are joined, when there was one before that
   * was written, when no transfer was requested, or while the request is written and its write has not returned.
   */
  lemma AbandonIsIgnoredIff(c: Config, events: seq<Event>)
    ensures var s := RunAll(c, INITIAL, events);
      Next(c, s, Abandon) == s <==> s.bridged || s.row in {NOT_REQUESTED, ABANDONED} || s.run.Accepting?
  {
    var s := RunAll(c, INITIAL, events);
    EveryRunIsSafe(c, []);
    EveryRunIsSafe(c, events);
    BridgedIsJoined(c, INITIAL, events);
    assert |AbandonNext(s).stops| == |s.stops| <==> AbandonIgnored(s);
  }

  function EarlyHangup(dest: Destination): seq<Event> {
    [Request(dest), Abandon] + Steps(ANSWERING, 13)
  }

  /**
   * So a caller who hangs up while the request is being written is forgotten: the human is called and, when nothing
   * else interferes, bridged to the line.
   */
  lemma EarlyHangupIsBridged(c: Config, dest: Destination, n: nat)
    requires c.enabled && !dest.whisperSummary && n >= 6
    ensures var s := RunAll(c, INITIAL, EarlyHangup(dest)); var r := RunAll(c, s, Undisturbed(n));
      !s.abandoned && r.bridged && r.row == BRIDGED
  {
    var requested := RequestNext(c, INITIAL, dest);
    assert EarlyHangup(dest)[1..] == [Abandon] + Steps(ANSWERING, 13);
    assert EarlyHangup(dest)[1..][1..] == Steps(ANSWERING, 13);
    assert Next(c, requested, Abandon) == requested;
    assert RunAll(c, INITIAL, EarlyHangup(dest)) == RunAll(c, requested, Steps(ANSWERING, 13)) by {
      assert EarlyHangup(dest)[0] == Request(dest) && EarlyHangup(dest)[1..][0] == Abandon;
    }
    StepsAcross(c, requested, dest, 13);
    var s := RunAll(c, INITIAL, EarlyHangup(dest));
    BridgeGoesOn(c, s, n);
    EveryRunIsSafe(c, EarlyHangup(dest));
    RunsStaySafe(c, s, Undisturbed(n));
  }
}
