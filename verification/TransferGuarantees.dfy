/** What callers and humans can rely on in a warm transfer. */
module TransferGuarantees {
  // And where an abandonment or a failure comes too late for it.

  import opened Options
  import opened TransferStatus
  import opened TransferFallback
  import opened TransferRun
  import opened TransferSafety
  import opened TransferLog

  // ---- BRIDGED is the end of every stage ----

  lemma {:induction false} StatusesOfPrefix(log: seq<Entry>, k: nat)
    requires k <= |log|
    ensures Statuses(log[..k]) <= Statuses(log)
    decreases |log|
  {
    if k == |log| { assert log[..k] == log; }
    else {
      var rest := log[..|log| - 1];
      StatusesOfPrefix(rest, k);
      assert rest[..k] == log[..k];
    }
  }

  lemma {:induction false} StatusWasWritten(log: seq<Entry>, status: Status) returns (i: nat)
    requires status in Statuses(log) && status != NOT_REQUESTED
    ensures i < |log| && log[i] == WroteStatus(status)
    decreases |log|
  {
    var n := |log| - 1;
    if log[n] == WroteStatus(status) { i := n; }
    else {
      i := StatusWasWritten(log[..n], status);
    }
  }

  lemma WhisperBeforeBridged(log: seq<Entry>, k: nat) returns (whisper: nat)
    requires Path(Statuses(log)) && k < |log| && log[k] == WroteStatus(BRIDGED)
    ensures whisper < k && log[whisper] == WroteStatus(WHISPERING_SUMMARY)
  {
    var before := Statuses(log[..k]);
    assert Statuses(log[..k + 1]) == before + [BRIDGED] by {
      assert log[..k + 1] == log[..k] + [log[k]];
    }
    StatusesOfPrefix(log, k + 1);
    OnlyWayToBridged(before + [BRIDGED]);
    assert (before + [BRIDGED])[4] == before[4];
    whisper := StatusWasWritten(log[..k], WHISPERING_SUMMARY);
  }

  lemma JustifiedBridge(log: seq<Entry>, human: Identity, k: nat) returns (summary: nat, whisper: nat, opening: nat)
    requires Path(Statuses(log)) && Justified(log, human) && k < |log| && log[k] == WroteStatus(BRIDGED)
    ensures summary < whisper < k && opening < k
    ensures log[summary] == WroteSummary && log[whisper] == WroteStatus(WHISPERING_SUMMARY) && log[opening].OpenedToAll?
  {
    whisper := WhisperBeforeBridged(log, k);
    assert Justifies(log[..k], log[k], human) && Justifies(log[..whisper], log[whisper], human);
    opening :| 0 <= opening < k && log[..k][opening].OpenedToAll?;
    summary :| 0 <= summary < whisper && log[..whisper][summary] == WroteSummary;
  }

  /**
   * In every run a BRIDGED write comes after the summary was saved, after the whisper status was written, and after the
   * tracks were opened; the summary was saved before the whisper status.
   */
  lemma BridgedComesLast(c: Config, events: seq<Event>)
    ensures var log := RunAll(c, INITIAL, events).log;
      forall k :: 0 <= k < |log| && log[k] == WroteStatus(BRIDGED) ==>
        exists summary, whisper, opening ::
          && 0 <= summary < whisper < k && 0 <= opening < k
          && log[summary] == WroteSummary && log[whisper] == WroteStatus(WHISPERING_SUMMARY)
          && log[opening].OpenedToAll?
  {
    EveryRunIsSafe(c, events);
    var log := RunAll(c, INITIAL, events).log;
    forall k | 0 <= k < |log| && log[k] == WroteStatus(BRIDGED)
      ensures exists summary, whisper, opening ::
          && 0 <= summary < whisper < k && 0 <= opening < k
          && log[summary] == WroteSummary && log[whisper] == WroteStatus(WHISPERING_SUMMARY)
          && log[opening].OpenedToAll?
    {
      var summary, whisper, opening := JustifiedBridge(log, HumanIdentity(c.callId), k);
    }
  }

  // ---- Abandonment ----

  /** Abandoned before the last check: nothing can bridge any more. */
  ghost predicate Doomed(s: State) {
    s.abandoned && !s.bridged && !s.run.Bridging? && s.status != BRIDGED
  }

  lemma DoomedRun(c: Config, s: State, reply: Reply)
    requires Safe(c, s) && Doomed(s)
    ensures var s1 := RunNext(c, s, reply); Doomed(s1) && (Opened(s1.log) ==> Opened(s.log))
  {
    var o := RunOutcome(c, s, reply);
    WaysToBridge(c, s, reply);
    WhereWritesComeFrom(c, s, reply);
    WhereEntriesComeFrom(c, s, reply);
    RunLog(c, s, reply);
    OpenedExtends(s.log, WriteEntries(o.write));
    OpenedExtends(s.log + WriteEntries(o.write), o.entries);
  }

  lemma DoomedStep(c: Config, s: State, event: Event)
    requires Safe(c, s) && Doomed(s)
    ensures var s1 := Next(c, s, event); Doomed(s1) && (Opened(s1.log) ==> Opened(s.log))
  {
    match event
    case RunStep(reply) => DoomedRun(c, s, reply);
    case PlayStep(ended) =>
      if WritesFrame(s.audio, ended) {
        OpenedExtends(s.log, [WhisperFrame(s.audio.whisper.sid.value, s.audio.permissions)]);
      }
    case Request(dest) => OpenedExtends(s.log, [WroteStatus(REQUESTED)]);
    case Abandon => OpenedExtends(s.log, [WroteStatus(ABANDONED)]);
    case _ =>
  }

  lemma {:induction false} DoomedForever(c: Config, s: State, events: seq<Event>)
    requires Safe(c, s) && Doomed(s)
    ensures var r := RunAll(c, s, events); Doomed(r) && (Opened(r.log) ==> Opened(s.log))
    decreases events
  {
    if events == [] {
    } else {
      NextStaysSafe(c, s, events[0]);
      DoomedStep(c, s, events[0]);
      DoomedForever(c, Next(c, s, events[0]), events[1..]);
    }
  }

  /**
   * A caller who hangs up before the last check is never bridged, in any continuation: the legs are not joined, the row
   * never says BRIDGED, and the tracks are not opened to everyone.
   */
  lemma AbandonedInTimeNeverBridges(c: Config, before: seq<Event>, after: seq<Event>)
    requires var s := RunAll(c, INITIAL, before); !AbandonIgnored(s) && !s.run.Bridging?
    ensures var s := RunAll(c, INITIAL, before);
      var r := RunAll(c, Next(c, s, Abandon), after);
      !r.bridged && r.row != BRIDGED && (Opened(r.log) ==> Opened(s.log))
  {
    var s := RunAll(c, INITIAL, before);
    EveryRunIsSafe(c, before);
    var s1 := Next(c, s, Abandon);
    NextStaysSafe(c, s, Abandon);
    OpenedExtends(s.log, [WroteStatus(ABANDONED)]);
    DoomedForever(c, s1, after);
    RunsStaySafe(c, s1, after);
  }

  // ---- An abandonment after the last check ----

  /** The steps a bridge still takes at most, closing both tracks, opening, joining and writing. */
  function StepsToJoin(at: BridgingStep): nat {
    match at
    case BridgeStopping(Begin) => 6
    case BridgeStopping(HoldUnpublished(_)) => 5
    case BridgeStopping(_) => 4
    case OpeningTracks => 3
    case JoiningLegs => 2
    case WritingBridged => 1
  }

  function Undisturbed(n: nat): seq<Event> {
    if n == 0 then [] else [RunStep(Reply(false, [], ANSWERED))] + Undisturbed(n - 1)
  }

  lemma BridgeStep(c: Config, s: State)
    requires s.run.Bridging?
    ensures var s1 := RunNext(c, s, Reply(false, [], ANSWERED));
      && (s1.bridged || (s1.run.Bridging? && StepsToJoin(s1.run.bridging) < StepsToJoin(s.run.bridging)))
      && (s.status == ABANDONED ==> s1.status == ABANDONED)
      && (s.status == WHISPERING_SUMMARY && !s.bridged ==>
            s1.status == if s1.bridged then BRIDGED else WHISPERING_SUMMARY)
  {
  }

  lemma BridgedStays(c: Config, s: State, reply: Reply)
    requires s.bridged && !s.run.Accepting?
    ensures var s1 := RunNext(c, s, reply);
      && s1.bridged && !s1.run.Accepting?
      && (s.status in {ABANDONED, BRIDGED} ==> s1.status == s.status)
  {
    RunWritesLegally(c, s, reply);
  }

  /** A bridge that has begun is made, and the row says so unless it has been abandoned meanwhile. */
  lemma {:induction false} BridgeGoesOn(c: Config, s: State, n: nat)
    requires s.bridged || (s.run.Bridging? && StepsToJoin(s.run.bridging) <= n)
    requires !s.run.Accepting?
    requires s.status in {ABANDONED, if s.bridged then BRIDGED else WHISPERING_SUMMARY}
    ensures var r := RunAll(c, s, Undisturbed(n));
      r.bridged && r.status == if s.status == ABANDONED then ABANDONED else BRIDGED
    decreases n
  {
    if n == 0 {
    } else {
      if s.bridged { BridgedStays(c, s, Reply(false, [], ANSWERED)); } else { BridgeStep(c, s); }
      BridgeGoesOn(c, RunNext(c, s, Reply(false, [], ANSWERED)), n - 1);
    }
  }

  /**
   * A caller who hangs up once the bridge has begun is bridged all the same when nothing else interferes, and the row
   * says ABANDONED for good.
   */
  lemma AbandonedTooLateIsBridged(c: Config, before: seq<Event>, n: nat)
    requires var s := RunAll(c, INITIAL, before); s.run.Bridging? && !s.bridged && s.status == WHISPERING_SUMMARY
    requires n >= 6
    ensures var r := RunAll(c, Next(c, RunAll(c, INITIAL, before), Abandon), Undisturbed(n));
      r.bridged && r.row == ABANDONED
  {
    var s := RunAll(c, INITIAL, before);
    EveryRunIsSafe(c, before);
    NextStaysSafe(c, s, Abandon);
    BridgeGoesOn(c, Next(c, s, Abandon), n);
    RunsStaySafe(c, Next(c, s, Abandon), Undisturbed(n));
  }

  // ---- Destinations tried ----

  /** The planner is the fallback configuration's. */
  ghost predicate PlansBy(c: Config, fallback: Option<Fallback>, destinations: seq<Destination>) {
    forall trigger, tried :: c.plan(trigger, tried) == PlanFallback(trigger, fallback, destinations, tried)
  }

  /** All a run needs to know of such a planner: a failed leg is retried on one destination unless it was tried. */
  ghost predicate Retries(c: Config, target: Option<Destination>) {
    forall trigger, tried :: trigger in FALLBACK_TRIGGERS ==>
      c.plan(trigger, tried).Some? && c.plan(trigger, tried).value.destination
        == if target.Some? && target.value.id !in tried then target else None
  }

  predicate NothingTried(run: RunState) {
    || run.Idle? || run.Accepting? || run.Requesting?
    || (run.Placing? && !run.placing.Ringing? && run.placing != Dialling(false))
  }

  predicate TriedOnce(tried: seq<nat>, run: RunState, target: Option<Destination>) {
    && (NothingTried(run) ==> tried == [])
    && |tried| <= 2
    && (|tried| == 2 ==> target.Some? && tried[1] == target.value.id && tried[0] != tried[1])
    && (run.Placing? && run.placing == Dialling(false) ==>
          |tried| == 1 && target == Some(run.dest) && run.dest.id != tried[0])
    && (run.Placing? && run.placing.Ringing? ==> tried != [])
  }

  lemma RetryIsTheTarget(c: Config, s: State, outcome: DialOutcome, target: Option<Destination>)
    requires Retries(c, target) && outcome != ANSWERED
    requires TriedOnce(s.tried, s.run, target) && s.run.Placing? && s.run.placing.Ringing?
    ensures TriedOnce(s.tried, NotAnswered(c, s, outcome).run, target)
  {
    assert s.tried[0] in Ids(s.tried) && (|s.tried| == 2 ==> s.tried[1] in Ids(s.tried));
  }

  lemma RunTriesOnce(c: Config, s: State, reply: Reply, target: Option<Destination>)
    requires Retries(c, target) && TriedOnce(s.tried, s.run, target)
    ensures TriedOnce(RunNext(c, s, reply).tried, RunNext(c, s, reply).run, target)
  {
    if s.run.Placing? && s.run.placing.Ringing? && reply.outcome != ANSWERED {
      RetryIsTheTarget(c, s, reply.outcome, target);
    }
  }

  lemma NextTriesOnce(c: Config, s: State, event: Event, target: Option<Destination>)
    requires Retries(c, target) && TriedOnce(s.tried, s.run, target)
    ensures TriedOnce(Next(c, s, event).tried, Next(c, s, event).run, target)
  {
    if event.RunStep? { RunTriesOnce(c, s, event.reply, target); }
  }

  lemma {:induction false} RunsTryOnce(c: Config, s: State, events: seq<Event>, target: Option<Destination>)
    requires Retries(c, target) && OnTheTable(s) && TriedOnce(s.tried, s.run, target)
    ensures TriedOnce(RunAll(c, s, events).tried, RunAll(c, s, events).run, target)
    decreases events
  {
    if events == [] {
    } else {
      NextStaysOnTheTable(c, s, events[0]);
      NextTriesOnce(c, s, events[0], target);
      RunsTryOnce(c, Next(c, s, events[0]), events[1..], target);
    }
  }

  /** At most two destinations are tried, never the same one twice, and the second is the configured retry. */
  lemma NoDestinationIsTriedTwice(
    c: Config, events: seq<Event>, fallback: Option<Fallback>, destinations: seq<Destination>)
    requires PlansBy(c, fallback, destinations)
    ensures var tried, target := RunAll(c, INITIAL, events).tried, RetryTarget(fallback, destinations);
      |tried| <= 2 && (|tried| == 2 ==> tried[0] != tried[1] && target.Some? && target.value.id == tried[1])
  {
    assert Statuses([]) == [NOT_REQUESTED];
    RunsTryOnce(c, INITIAL, events, RetryTarget(fallback, destinations));
  }

  // ---- Who hears the apology ----

  ghost predicate Unheard(e: Entry) {
    e.Apology? ==> forall who :: !MaySubscribe(e.permissions, who, e.sid)
  }

  /** Every entry from `from` on is unheard, unless the tracks were opened to all before it. */
  ghost predicate UnheardSince(log: seq<Entry>, from: nat) {
    forall i :: from <= i < |log| ==> Opened(log[..i]) || Unheard(log[i])
  }

  /** Restricted permissions stay restricted until the bridge opens them, and grant nothing to later sids. */
  ghost predicate Restricted(s: State) {
    s.audio.permissions.AllowAll? ==> Opened(s.log)
  }

  lemma UnheardGrows(log: seq<Entry>, more: seq<Entry>, from: nat)
    requires UnheardSince(log, from) && (Opened(log) || forall e :: e in more ==> Unheard(e))
    ensures UnheardSince(log + more, from)
  {
    var l := log + more;
    forall i | from <= i < |l| ensures Opened(l[..i]) || Unheard(l[i]) {
      if i < |log| { assert l[..i] == log[..i]; }
      else {
        assert l[..i] == log + more[..i - |log|] && l[i] in more;
        OpenedExtends(log, more[..i - |log|]);
      }
    }
  }

  lemma RunStaysRestricted(c: Config, s: State, reply: Reply)
    requires Restricted(s)
    ensures Restricted(RunNext(c, s, reply))
  {
    var o := RunOutcome(c, s, reply);
    RunLog(c, s, reply);
    OpenedExtends(s.log, WriteEntries(o.write));
    OpenedExtends(s.log + WriteEntries(o.write), o.entries);
    if s.run == Bridging(OpeningTracks) && !reply.raises { assert o.entries[0].OpenedToAll?; }
  }

  lemma RunIsUnheard(c: Config, s: State, reply: Reply, from: nat)
    requires SidsAreIssued(s.audio) && Restricted(s) && UnheardSince(s.log, from)
    ensures UnheardSince(RunNext(c, s, reply).log, from)
  {
    var o := RunOutcome(c, s, reply);
    RunLog(c, s, reply);
    WhereEntriesComeFrom(c, s, reply);
    OpenedExtends(s.log, WriteEntries(o.write));
    UnheardGrows(s.log, WriteEntries(o.write), from);
    UnheardGrows(s.log + WriteEntries(o.write), o.entries, from);
  }

  lemma EventIsUnheard(c: Config, s: State, event: Event, from: nat)
    requires !event.RunStep? && Restricted(s) && UnheardSince(s.log, from)
    ensures var s1 := Next(c, s, event); Restricted(s1) && UnheardSince(s1.log, from)
  {
    match event
    case PlayStep(ended) =>
      if WritesFrame(s.audio, ended) {
        var e := WhisperFrame(s.audio.whisper.sid.value, s.audio.permissions);
        OpenedExtends(s.log, [e]);
        UnheardGrows(s.log, [e], from);
      }
    case Request(dest) =>
      OpenedExtends(s.log, [WroteStatus(REQUESTED)]);
      UnheardGrows(s.log, [WroteStatus(REQUESTED)], from);
    case Abandon => OpenedExtends(s.log, [WroteStatus(ABANDONED)]); UnheardGrows(s.log, [WroteStatus(ABANDONED)], from);
    case _ =>
  }

  lemma {:induction false} RunsAreUnheard(c: Config, s: State, events: seq<Event>, from: nat)
    requires Safe(c, s) && Restricted(s) && UnheardSince(s.log, from)
    ensures UnheardSince(RunAll(c, s, events).log, from)
    decreases events
  {
    if events == [] {
    } else {
      var s1 := Next(c, s, events[0]);
      NextStaysSafe(c, s, events[0]);
      if events[0].RunStep? { RunStaysRestricted(c, s, events[0].reply); RunIsUnheard(c, s, events[0].reply, from); }
      else { EventIsUnheard(c, s, events[0], from); }
      RunsAreUnheard(c, s1, events[1..], from);
    }
  }

  /**
   * Once the hold has restricted the worker's tracks, every apology spoken before the bridge opens them is published on
   * a track that nobody may hear, not even the caller it is for.
   */
  lemma RestrictedApologiesAreUnheard(c: Config, before: seq<Event>, after: seq<Event>)
    requires RunAll(c, INITIAL, before).audio.permissions.Only?
    ensures var s := RunAll(c, INITIAL, before);
      UnheardSince(RunAll(c, s, after).log, |s.log|)
  {
    EveryRunIsSafe(c, before);
    RunsAreUnheard(c, RunAll(c, INITIAL, before), after, |RunAll(c, INITIAL, before).log|);
  }

  // ---- The human hears the whisper ----

  /**
   * The human may hear the whisper from its publication until someone abandons; it is published only once until then.
   */
  predicate Audible(c: Config, s: State) {
    && (s.run.Briefing? && s.run.caller.Some? ==> !IsHumanAgent(s.run.caller.value))
    && ((At(s.run, SpawningPlay) || At(s.run, Whispering)) && !s.abandoned ==>
          && s.audio.whisper.sid.Some? && s.audio.playing != Publishing
          && MaySubscribe(s.audio.permissions, HumanIdentity(c.callId), s.audio.whisper.sid.value)
          && (s.run.caller.Some? && s.audio.hold.Some? && s.audio.hold.value.Some? ==>
                MaySubscribe(s.audio.permissions, s.run.caller.value, s.audio.hold.value.value)))
  }

  lemma RunStaysAudible(c: Config, s: State, reply: Reply)
    requires Isolated(c, s) && Closing(s) && Audible(c, s)
    ensures Audible(c, RunNext(c, s, reply))
  {
    WaysToWhisper(c, s, reply);
  }

  lemma EventStaysAudible(c: Config, s: State, event: Event)
    requires !event.RunStep? && Closing(s) && Audible(c, s)
    ensures Audible(c, Next(c, s, event))
  {
  }

  lemma {:induction false} RunsStayAudible(c: Config, s: State, events: seq<Event>)
    requires Safe(c, s) && Audible(c, s)
    ensures Audible(c, RunAll(c, s, events))
    decreases events
  {
    if events == [] {
    } else {
      var s1 := Next(c, s, events[0]);
      NextStaysSafe(c, s, events[0]);
      if events[0].RunStep? { RunStaysAudible(c, s, events[0].reply); } else { EventStaysAudible(c, s, events[0]); }
      RunsStayAudible(c, s1, events[1..]);
    }
  }

  /**
   * Meanwhile the caller, when one was known at the answer, may hear the hold that was published for them.
   */
  lemma CallerHearsTheHold(c: Config, events: seq<Event>)
    requires var s := RunAll(c, INITIAL, events);
      At(s.run, Whispering) && !s.abandoned && s.run.caller.Some? && s.audio.hold.Some? && s.audio.hold.value.Some?
    ensures var s := RunAll(c, INITIAL, events);
      MaySubscribe(s.audio.permissions, s.run.caller.value, s.audio.hold.value.value)
  {
    EveryRunIsSafe(c, []);
    RunsStayAudible(c, INITIAL, events);
  }

  /**
   * The hold is created, published under a new sid and, when a caller is in the room, from then on the one track that
   * anyone, namely the caller, may hear.
   */
  lemma HoldIsForTheCaller(c: Config, s: State, starting: Reply, publishing: Reply, who: Identity, sid: Sid)
    requires s.run.Placing? && s.run.placing.StartingHold? && !starting.raises && !publishing.raises
    ensures var started := RunNext(c, s, starting);
      var published := RunNext(c, started, publishing);
      && started.audio == s.audio.(hold := Some(None)) && published.run == Placing(Dialling(true), s.run.dest)
      && published.audio.hold == Some(Some(s.audio.nextSid)) && published.audio.nextSid > s.audio.nextSid
      && match CallerIdentity(publishing.participants)
         case Some(caller) =>
           MaySubscribe(published.audio.permissions, who, sid) <==> who == caller && sid == s.audio.nextSid
         case None => published.audio.permissions == s.audio.permissions
  {
  }

  /**
   * While the run whispers and nobody has abandoned, a frame is written to a track that the human, and only they, may
   * hear.
   */
  lemma HumanHearsTheWhisper(c: Config, events: seq<Event>, ended: bool, who: Identity)
    requires var s := RunAll(c, INITIAL, events); At(s.run, Whispering) && !s.abandoned && WritesFrame(s.audio, ended)
    ensures var a := RunAll(c, INITIAL, events).audio;
      MaySubscribe(a.permissions, who, a.whisper.sid.value) <==> who == HumanIdentity(c.callId)
  {
    EveryRunIsSafe(c, []);
    RunsStayAudible(c, INITIAL, events);
    EveryRunIsSafe(c, events);
  }
}
