/** What a transfer shows the world, in which order: summary, whisper, bridge, apology. */
module TransferLog {
  import opened Options
  import opened TransferStatus
  import opened TransferFallback
  import opened TransferRun
  import opened TransferSafety

  predicate Opened(log: seq<Entry>) {
    exists i :: 0 <= i < |log| && log[i].OpenedToAll?
  }

  predicate IsClosed(t: Track) {
    !t.open && t.sid.None?
  }

  /** What must hold, and have been shown before, whenever an entry is shown. */
  ghost predicate Justifies(before: seq<Entry>, e: Entry, human: Identity) {
    match e
    case WroteStatus(status) =>
      (status == WHISPERING_SUMMARY ==> WroteSummary in before) && (status == BRIDGED ==> Opened(before))
    case WroteSummary => true
    case WhisperFrame(sid, permissions) =>
      !Opened(before) && forall who :: who != human ==> !MaySubscribe(permissions, who, sid)
    case OpenedToAll(whisper) => IsClosed(whisper)
    case Apology(sid, permissions) => forall who :: MaySubscribe(permissions, who, sid) <==> permissions.AllowAll?
    case HungUp => true
  }

  ghost predicate Justified(log: seq<Entry>, human: Identity) {
    forall i :: 0 <= i < |log| ==> Justifies(log[..i], log[i], human)
  }

  lemma JustifiedExtends(log: seq<Entry>, e: Entry, human: Identity)
    requires Justified(log, human) && Justifies(log, e, human)
    ensures Justified(log + [e], human)
  {
    var l := log + [e];
    forall i | 0 <= i < |l| ensures Justifies(l[..i], l[i], human) {
      if i < |log| { assert l[..i] == log[..i]; } else { assert l[..i] == log; }
    }
  }

  predicate AfterOpening(run: RunState) {
    run == Bridging(JoiningLegs) || run == Bridging(WritingBridged)
  }

  /** What the position of the run says about the log. */
  ghost predicate Positioned(s: State) {
    && (At(s.run, EnteringWhisper) ==> WroteSummary in s.log)
    && (AfterOpening(s.run) ==> Opened(s.log))
    && (Opened(s.log) ==> s.audio.playing == NotPlaying && (AfterOpening(s.run) || s.run.Failing? || s.run.Ended?))
    && (s.run.Failing? && s.run.failing.WritingFailure? ==> s.run.failing.trigger in FALLBACK_TRIGGERS)
  }

  lemma WhereWritesComeFrom(c: Config, s: State, reply: Reply)
    requires s.run.Failing? && s.run.failing.WritingFailure? ==> s.run.failing.trigger in FALLBACK_TRIGGERS
    ensures var o := RunOutcome(c, s, reply);
      && (o.write == Advance(WHISPERING_SUMMARY) ==> At(s.run, EnteringWhisper))
      && (o.write == Advance(BRIDGED) ==> s.run == Bridging(WritingBridged))
      && (o.run.Failing? && o.run.failing.WritingFailure? ==> o.run.failing.trigger in FALLBACK_TRIGGERS)
  {
  }

  lemma WhereEntriesComeFrom(c: Config, s: State, reply: Reply)
    ensures var o := RunOutcome(c, s, reply);
      || o.entries == []
      || (o.entries == [WroteSummary] && At(s.run, PersistingSummary))
      || (o.entries == [OpenedToAll(s.audio.whisper)] && s.run == Bridging(OpeningTracks) && !reply.raises)
      || (o.entries == [HungUp] && s.run.Failing?)
      || (o.entries == [Apology(s.audio.nextSid, s.audio.permissions)] && s.run.Failing?)
      || (o.entries == [Apology(s.audio.nextSid, s.audio.permissions), HungUp] && s.run.Failing?)
  {
  }

  lemma WhereRunsComeFrom(c: Config, s: State, reply: Reply)
    ensures var o := RunOutcome(c, s, reply);
      && (At(o.run, EnteringWhisper) ==> o.entries == [WroteSummary])
      && (o.run == Bridging(JoiningLegs) ==> o.entries == [OpenedToAll(s.audio.whisper)])
      && (o.run == Bridging(WritingBridged) ==> s.run == Bridging(JoiningLegs))
      && (AfterOpening(s.run) || s.run.Failing? || s.run.Ended?
        ==> AfterOpening(o.run) || o.run.Failing? || o.run.Ended?)
      && (s.run == Bridging(OpeningTracks) && !reply.raises ==> o.run == Bridging(JoiningLegs))
  {
  }

  // ---- The whisper is closed before the tracks are opened ----

  predicate BeforeBridging(run: RunState) {
    run.Idle? || run.Accepting? || run.Requesting? || run.Placing? || run.Briefing?
  }

  predicate HoldsWhisper(run: RunState) {
    At(run, PublishingWhisper) || At(run, SpawningPlay) || At(run, Whispering)
  }

  /** Nothing but an abandonment or a close stops the tracks of a live run. */
  ghost predicate StopsAreCaused(s: State) {
    forall i :: 0 <= i < |s.stops| && s.stops[i] != Stopped ==> s.abandoned || s.run.Ended?
  }

  predicate Held(a: Audio, run: RunState) {
    (a.whisperHeld || IsClosed(a.whisper)) && (HoldsWhisper(run) ==> a.whisperHeld && a.whisper.open)
  }

  /** While bridging, whoever has let go of the whisper has left it closed. */
  ghost predicate LetGo(a: Audio, bridging: BridgingStep, stops: seq<Stop>) {
    && (a.whisperHeld || IsClosed(a.whisper))
    && (forall i :: 0 <= i < |stops| && stops[i] == HoldUnpublished(false) ==> IsClosed(a.whisper))
    && bridging != BridgeStopping(Stopped)
    && (bridging == BridgeStopping(HoldUnpublished(false)) || !bridging.BridgeStopping? ==> IsClosed(a.whisper))
  }

  ghost predicate Closing(s: State) {
    && StopsAreCaused(s)
    && (BeforeBridging(s.run) && !s.abandoned ==> Held(s.audio, s.run))
    && (s.run.Bridging? ==> s.audio.playing == NotPlaying && LetGo(s.audio, s.run.bridging, s.stops))
  }

  lemma BridgingCloses(c: Config, s: State, reply: Reply)
    requires Closing(s) && s.run.Bridging?
    ensures Closing(RunNext(c, s, reply))
  {
  }

  /** The run bridges only from its last check, and only unabandoned. */
  lemma WaysToBridge(c: Config, s: State, reply: Reply)
    requires !s.run.Bridging?
    ensures var o := RunOutcome(c, s, reply);
      && (o.run.Bridging? ==>
            At(s.run, Checking) && !s.abandoned && o.run == Bridging(BridgeStopping(Begin)) && !reply.raises)
      && (BeforeBridging(o.run) ==> BeforeBridging(s.run))
      && (s.run.Ended? ==> o.run.Ended?)
  {
  }

  lemma RunHolds(c: Config, s: State, reply: Reply)
    requires Isolated(c, s) && BeforeBridging(s.run) && Held(s.audio, s.run) && !s.abandoned
    ensures var s1 := RunNext(c, s, reply); BeforeBridging(s1.run) ==> Held(s1.audio, s1.run)
  {
  }

  lemma RunCloses(c: Config, s: State, reply: Reply)
    requires Isolated(c, s) && Closing(s)
    ensures Closing(RunNext(c, s, reply))
  {
    if s.run.Bridging? { BridgingCloses(c, s, reply); }
    else {
      WaysToBridge(c, s, reply);
      if BeforeBridging(s.run) && !s.abandoned { RunHolds(c, s, reply); }
    }
  }

  lemma CloseCloses(s: State)
    requires Closing(s)
    ensures Closing(CloseNext(s))
  {
  }

  lemma AbandonStepCloses(s: State, i: nat)
    requires Closing(s)
    ensures Closing(AbandonStepNext(s, i))
  {
  }

  lemma NextCloses(c: Config, s: State, event: Event)
    requires Isolated(c, s) && OnTheTable(s) && Closing(s)
    ensures Closing(Next(c, s, event))
  {
    match event
    case RunStep(reply) => RunCloses(c, s, reply);
    case AbandonStep(i) => AbandonStepCloses(s, i);
    case Close => CloseCloses(s);
    case _ =>
  }

  // ---- Every entry is justified ----

  lemma OpenedExtends(log: seq<Entry>, more: seq<Entry>)
    ensures Opened(log + more) <==> Opened(log) || Opened(more)
  {
    var l := log + more;
    if Opened(log) { var i :| 0 <= i < |log| && log[i].OpenedToAll?; assert l[i].OpenedToAll?; }
    if Opened(more) { var i :| 0 <= i < |more| && more[i].OpenedToAll?; assert l[|log| + i].OpenedToAll?; }
    if Opened(l) {
      var i :| 0 <= i < |l| && l[i].OpenedToAll?;
      if i >= |log| { assert more[i - |log|].OpenedToAll?; }
    }
  }

  /** A log that grows by a justified write and justified entries, in that order. */
  lemma JustifiedGrows(log: seq<Entry>, first: seq<Entry>, second: seq<Entry>, human: Identity)
    requires Justified(log, human) && |first| <= 1 && |second| <= 2
    requires first != [] ==> Justifies(log, first[0], human)
    requires |second| >= 1 ==> Justifies(log + first, second[0], human)
    requires |second| == 2 ==> Justifies(log + first + [second[0]], second[1], human)
    ensures Justified(log + first + second, human)
  {
    var l := log + first;
    if first != [] { JustifiedExtends(log, first[0], human); assert l == log + [first[0]]; } else { assert l == log; }
    if |second| == 0 { assert l + second == l; }
    else {
      JustifiedExtends(l, second[0], human);
      if |second| == 1 { assert l + second == l + [second[0]]; }
      else {
        JustifiedExtends(l + [second[0]], second[1], human);
        assert l + second == l + [second[0]] + [second[1]];
      }
    }
  }

  function WriteEntries(write: Write): seq<Entry> {
    if write.Advance? then [WroteStatus(write.to)] else []
  }

  lemma RunLog(c: Config, s: State, reply: Reply)
    ensures var o := RunOutcome(c, s, reply); RunNext(c, s, reply).log == s.log + WriteEntries(o.write) + o.entries
  {
    var o := RunOutcome(c, s, reply);
    assert s.log + [] == s.log;
  }

  lemma RunJustifies(c: Config, s: State, reply: Reply)
    requires Isolated(c, s) && Closing(s) && Positioned(s) && Justified(s.log, HumanIdentity(c.callId))
    ensures Justified(RunNext(c, s, reply).log, HumanIdentity(c.callId))
  {
    var human := HumanIdentity(c.callId);
    var o := RunOutcome(c, s, reply);
    WhereWritesComeFrom(c, s, reply);
    WhereEntriesComeFrom(c, s, reply);
    RunLog(c, s, reply);
    JustifiedGrows(s.log, WriteEntries(o.write), o.entries, human);
  }

  lemma RunPositions(c: Config, s: State, reply: Reply)
    requires Closing(s) && Positioned(s)
    ensures Positioned(RunNext(c, s, reply))
  {
    var o := RunOutcome(c, s, reply);
    WhereWritesComeFrom(c, s, reply);
    WhereEntriesComeFrom(c, s, reply);
    WhereRunsComeFrom(c, s, reply);
    RunLog(c, s, reply);
    OpenedExtends(s.log, WriteEntries(o.write));
    OpenedExtends(s.log + WriteEntries(o.write), o.entries);
  }

  ghost predicate Logged(c: Config, s: State) {
    Positioned(s) && Justified(s.log, HumanIdentity(c.callId))
  }

  lemma PlayIsLogged(c: Config, s: State, ended: bool)
    requires Isolated(c, s) && Logged(c, s)
    ensures Logged(c, PlayNext(s, ended))
  {
    if WritesFrame(s.audio, ended) {
      var e := WhisperFrame(s.audio.whisper.sid.value, s.audio.permissions);
      JustifiedExtends(s.log, e, HumanIdentity(c.callId));
      OpenedExtends(s.log, [e]);
    }
  }

  lemma WriteIsLogged(c: Config, s: State, to: Status)
    requires Logged(c, s) && to !in {WHISPERING_SUMMARY, BRIDGED}
    ensures Logged(c, s.(log := s.log + [WroteStatus(to)]))
  {
    JustifiedExtends(s.log, WroteStatus(to), HumanIdentity(c.callId));
    OpenedExtends(s.log, [WroteStatus(to)]);
  }

  lemma RequestIsLogged(c: Config, s: State, dest: Destination)
    requires Logged(c, s) && OnTheTable(s)
    ensures Logged(c, RequestNext(c, s, dest))
  {
    WriteIsLogged(c, s, REQUESTED);
  }

  lemma AbandonIsLogged(c: Config, s: State)
    requires Logged(c, s)
    ensures Logged(c, AbandonNext(s))
  {
    WriteIsLogged(c, s, ABANDONED);
  }

  lemma NextIsLogged(c: Config, s: State, event: Event)
    requires Isolated(c, s) && OnTheTable(s) && Closing(s) && Logged(c, s)
    ensures Logged(c, Next(c, s, event))
  {
    match event
    case Request(dest) => RequestIsLogged(c, s, dest);
    case RunStep(reply) => RunJustifies(c, s, reply); RunPositions(c, s, reply);
    case PlayStep(ended) => PlayIsLogged(c, s, ended);
    case Abandon => AbandonIsLogged(c, s);
    case _ =>
  }

  // ---- Every run ----

  ghost predicate Safe(c: Config, s: State) {
    Isolated(c, s) && OnTheTable(s) && Closing(s) && Logged(c, s)
  }

  lemma NextStaysSafe(c: Config, s: State, event: Event)
    requires Safe(c, s)
    ensures Safe(c, Next(c, s, event))
  {
    NextIsolates(c, s, event);
    NextStaysOnTheTable(c, s, event);
    NextCloses(c, s, event);
    NextIsLogged(c, s, event);
  }

  lemma {:induction false} RunsStaySafe(c: Config, s: State, events: seq<Event>)
    requires Safe(c, s)
    ensures Safe(c, RunAll(c, s, events))
    decreases events
  {
    if events == [] {
    } else {
      NextStaysSafe(c, s, events[0]);
      RunsStaySafe(c, Next(c, s, events[0]), events[1..]);
    }
  }

  lemma EveryRunIsSafe(c: Config, events: seq<Event>)
    ensures Safe(c, RunAll(c, INITIAL, events))
  {
    assert Statuses([]) == [NOT_REQUESTED];
    RunsStaySafe(c, INITIAL, events);
  }

  /**
   * Whatever the interleaving: nobody but the human may subscribe to a whisper track when a frame is written to it, the
   * tracks are opened to all only once the whisper is closed, and no whisper frame follows.
   */
  lemma WhisperReachesOnlyTheHuman(c: Config, events: seq<Event>)
    ensures var log := RunAll(c, INITIAL, events).log;
      && (forall e :: e in log && e.WhisperFrame? ==>
            forall who :: who != HumanIdentity(c.callId) ==> !MaySubscribe(e.permissions, who, e.sid))
      && (forall e :: e in log && e.OpenedToAll? ==> !e.whisper.open && e.whisper.sid.None?)
      && (forall i, j :: 0 <= i < j < |log| && log[i].OpenedToAll? ==> !log[j].WhisperFrame?)
  {
    EveryRunIsSafe(c, events);
    var log, human := RunAll(c, INITIAL, events).log, HumanIdentity(c.callId);
    forall i | 0 <= i < |log|
      ensures log[i].WhisperFrame? ==> !Opened(log[..i])
      ensures log[i].WhisperFrame? ==> forall who :: who != human ==> !MaySubscribe(log[i].permissions, who, log[i].sid)
      ensures log[i].OpenedToAll? ==> IsClosed(log[i].whisper)
    {
      assert Justifies(log[..i], log[i], human);
    }
    forall i, j | 0 <= i < j < |log| && log[i].OpenedToAll? ensures !log[j].WhisperFrame? {
      assert log[..j][i].OpenedToAll?;
    }
  }

  /**
   * The statuses written walk the table from NOT_REQUESTED to the row's, and the memory agrees with the row exactly
   * unless the request is written and has not returned.
   */
  lemma RowFollowsTheTable(c: Config, events: seq<Event>)
    ensures var s := RunAll(c, INITIAL, events);
      && (s.row == s.status <==> !s.run.Accepting?)
      && Path(Statuses(s.log)) && Statuses(s.log)[|Statuses(s.log)| - 1] == s.row
      && |Statuses(s.log)| <= 6
  {
    EveryRunIsSafe(c, events);
    OnlyWayToBridged(Statuses(RunAll(c, INITIAL, events).log));
  }
}
