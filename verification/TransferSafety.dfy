/** What holds in every run of a warm transfer, however its tasks and the room's events interleave. */
module TransferSafety {
  import opened Options
  import opened TransferStatus
  import opened TransferFallback
  import opened TransferRun

  // ---- Isolation of the whisper ----

  /** No explicit grant names a sid still to be issued. */
  ghost predicate GrantsBelow(p: Permissions, next: Sid) {
    p.Only? ==> forall who, sid :: who in p.grants && sid in p.grants[who] ==> sid < next
  }

  /** Every sid in use was issued, and no whisper sid is the hold's. */
  ghost predicate SidsAreIssued(a: Audio) {
    && (forall sid :: sid in a.whisperSids ==> sid < a.nextSid)
    && (a.hold.Some? && a.hold.value.Some? ==> a.hold.value.value < a.nextSid && a.hold.value.value !in a.whisperSids)
    && (a.whisper.sid.Some? ==> a.whisper.sid.value in a.whisperSids)
    && GrantsBelow(a.permissions, a.nextSid)
  }

  /** While a whisper may play, only the human may hear any whisper track, open or closed. */
  ghost predicate Guarded(a: Audio, human: Identity) {
    SidsAreIssued(a) && a.permissions.Only? && Sealed(a.permissions, human, a.whisperSids)
  }

  lemma StopGuards(a: Audio, stop: Stop, human: Identity)
    requires SidsAreIssued(a)
    ensures var a1 := StopAudio(a, stop); SidsAreIssued(a1) && (Guarded(a, human) ==> Guarded(a1, human))
  {
  }

  /**
   * A stop that nothing interrupts unpublishes the hold first and then the whisper, as it found them held, and lets go
   * of both; with neither held it does nothing and does not suspend.
   */
  lemma StopClosesBoth(a: Audio)
    ensures var first := StopAfter(a, Begin);
      if a.hold.None? && !a.whisperHeld then first == Stopped
      else
        var a1 := StopAudio(StopAudio(a, Begin), first);
        var second := StopAfter(a1, first);
        && first == HoldUnpublished(a.whisperHeld) && a1.hold in {None, Some(None)}
        && if !a.whisperHeld then second == Stopped && a1.hold.None? && !a1.whisperHeld
           else
             var a2 := StopAudio(a1, second);
             && second == WhisperUnpublished && a1.whisper.open == a.whisper.open && StopAfter(a2, second) == Stopped
             && a2.hold.None? && !a2.whisperHeld && !a2.whisper.open && a2.whisper.sid.None?
  {
  }

  lemma PlayGuards(a: Audio, ended: bool, human: Identity)
    requires SidsAreIssued(a)
    ensures SidsAreIssued(Played(a, ended))
    ensures Guarded(a, human) ==> Guarded(Played(a, ended), human)
  {
  }

  lemma WhisperGuards(a: Audio, human: Identity, caller: Option<Identity>)
    requires SidsAreIssued(a)
    ensures Guarded(WhisperPublished(a, human, caller), human)
  {
  }

  lemma HoldGuards(a: Audio, caller: Option<Identity>)
    requires SidsAreIssued(a)
    ensures SidsAreIssued(Spoken(a)) && SidsAreIssued(HoldPublished(a, caller))
  {
  }

  predicate At(run: RunState, briefing: BriefingStep) {
    run.Briefing? && run.briefing == briefing
  }

  predicate MayWhisper(a: Audio, run: RunState) {
    a.playing != NotPlaying || At(run, SpawningPlay) || At(run, Whispering)
  }

  /** Between publishing the whisper and the end of its player, the whisper is guarded. */
  ghost predicate IsolatedPair(a: Audio, run: RunState, human: Identity) {
    && SidsAreIssued(a)
    && (a.playing != NotPlaying ==> run.Ended? || At(run, Whispering))
    && (MayWhisper(a, run) ==> Guarded(a, human))
  }

  ghost predicate Isolated(c: Config, s: State) {
    IsolatedPair(s.audio, s.run, HumanIdentity(c.callId))
  }

  lemma RunKeepsSids(c: Config, s: State, reply: Reply)
    requires SidsAreIssued(s.audio)
    ensures SidsAreIssued(RunAudio(c, s, reply))
  {
    match s.run
    case Placing(at, _) => HoldGuards(s.audio, CallerIdentity(reply.participants));
    case Briefing(at, _, caller) => WhisperGuards(s.audio, HumanIdentity(c.callId), caller);
    case Bridging(at) => if at.BridgeStopping? { StopGuards(s.audio, at.stop, HumanIdentity(c.callId)); }
    case Failing(at, _, _) =>
      HoldGuards(s.audio, None);
      if at.FailStopping? { StopGuards(s.audio, at.stop, HumanIdentity(c.callId)); }
    case Abandoning(stop) => StopGuards(s.audio, stop, HumanIdentity(c.callId));
    case _ =>
  }

  /** The only ways into the whisper. */
  lemma WaysToWhisper(c: Config, s: State, reply: Reply)
    ensures var run := RunNext(c, s, reply).run;
      && (At(run, SpawningPlay) ==> At(s.run, PublishingWhisper) && !reply.raises)
      && (At(run, Whispering) ==>
            (At(s.run, SpawningPlay) && !reply.raises) || (At(s.run, Whispering) && !WhisperIsOver(s)))
  {
  }

  lemma PlayerAfterRun(c: Config, s: State, reply: Reply)
    requires s.audio.playing != NotPlaying ==> s.run.Ended? || At(s.run, Whispering)
    ensures var a, run := RunAudio(c, s, reply), RunNext(c, s, reply).run;
      a.playing != NotPlaying ==> run.Ended? || At(run, Whispering)
  {
  }

  /** The audio a guarded whisper can turn into. */
  lemma RunKeepsGuard(c: Config, s: State, reply: Reply)
    requires Guarded(s.audio, HumanIdentity(c.callId))
      && (s.run.Ended? || At(s.run, SpawningPlay) || At(s.run, Whispering))
    ensures Guarded(RunAudio(c, s, reply), HumanIdentity(c.callId))
  {
  }

  lemma RunIsolates(c: Config, s: State, reply: Reply)
    requires Isolated(c, s)
    ensures Isolated(c, RunNext(c, s, reply))
  {
    var human := HumanIdentity(c.callId);
    RunKeepsSids(c, s, reply);
    WaysToWhisper(c, s, reply);
    PlayerAfterRun(c, s, reply);
    if At(s.run, PublishingWhisper) { WhisperGuards(s.audio, human, s.run.caller); }
    if Guarded(s.audio, human) && (s.run.Ended? || At(s.run, SpawningPlay) || At(s.run, Whispering)) {
      RunKeepsGuard(c, s, reply);
    }
  }

  lemma EventIsolates(c: Config, s: State, dest: Destination, i: nat)
    requires Isolated(c, s)
    ensures Isolated(c, RequestNext(c, s, dest)) && Isolated(c, AbandonNext(s)) && Isolated(c, AbandonStepNext(s, i))
    ensures Isolated(c, CloseNext(s))
  {
    if i < |s.stops| { StopGuards(s.audio, s.stops[i], HumanIdentity(c.callId)); }
  }

  lemma NextIsolates(c: Config, s: State, event: Event)
    requires Isolated(c, s)
    ensures Isolated(c, Next(c, s, event))
  {
    match event
    case Request(dest) => EventIsolates(c, s, dest, 0);
    case RunStep(reply) => RunIsolates(c, s, reply);
    case PlayStep(ended) => PlayGuards(s.audio, ended, HumanIdentity(c.callId));
    case AbandonStep(i) => EventIsolates(c, s, Destination(0, "", "", false), i);
    case Abandon => EventIsolates(c, s, Destination(0, "", "", false), 0);
    case Close => EventIsolates(c, s, Destination(0, "", "", false), 0);
    case _ =>
  }

  // ---- The row ----

  function Statuses(log: seq<Entry>): (r: seq<Status>)
    ensures r != [] && r[0] == NOT_REQUESTED
  {
    if log == [] then [NOT_REQUESTED]
    else
      var e := log[|log| - 1];
      Statuses(log[..|log| - 1]) + if e.WroteStatus? then [e.status] else []
  }

  /**
   * The row is the last status written, the statuses written are a path of the table, and the memory agrees with the
   * row, except that it does not know of a request that is written and has not returned.
   */
  ghost predicate OnTheTable(s: State) {
    && s.row == (if s.run.Accepting? then REQUESTED else s.status)
    && Path(Statuses(s.log))
    && Statuses(s.log)[|Statuses(s.log)| - 1] == s.row
    && (s.run.Idle? || s.run.Accepting? <==> s.status == NOT_REQUESTED)
  }

  lemma WrittenStaysOnTheTable(s: State, write: Write)
    requires OnTheTable(s) && (write.Advance? ==> Legal(s.status, write.to))
    requires write == Return(REQUESTED) <==> s.run.Accepting?
    requires write.Return? ==> write.to == REQUESTED
    ensures var w := Written(s, write);
      && w.row == w.status
      && Path(Statuses(w.log))
      && Statuses(w.log)[|Statuses(w.log)| - 1] == w.status
  {
    if write.Advance? { StatusesOf(s.log, WroteStatus(write.to)); }
  }

  /** The entries a step shows besides a status write. */
  predicate Plain(entries: seq<Entry>) {
    |entries| <= 2 && forall e :: e in entries ==> !e.WroteStatus?
  }

  lemma StatusesOf(log: seq<Entry>, e: Entry)
    ensures Statuses(log + [e]) == Statuses(log) + if e.WroteStatus? then [e.status] else []
  {
    assert (log + [e])[..|log|] == log;
  }

  lemma PlainStatuses(log: seq<Entry>, entries: seq<Entry>)
    requires Plain(entries)
    ensures Statuses(log + entries) == Statuses(log)
  {
    if |entries| == 0 { assert log + entries == log; }
    else if |entries| == 1 { StatusesOf(log, entries[0]); assert log + entries == log + [entries[0]]; }
    else {
      StatusesOf(log, entries[0]);
      StatusesOf(log + [entries[0]], entries[1]);
      assert log + entries == log + [entries[0]] + [entries[1]];
    }
  }

  lemma RunWritesLegally(c: Config, s: State, reply: Reply)
    ensures var o := RunOutcome(c, s, reply);
      && (o.write.Advance? ==> Legal(s.status, o.write.to))
      && Plain(o.entries)
      && (o.run.Idle? <==> s.run.Idle?) && !o.run.Accepting?
      && (o.write == Return(REQUESTED) <==> s.run.Accepting?) && (o.write.Return? ==> o.write.to == REQUESTED)
      && (s.run.Idle? ==> o.write.NoWrite?)
  {
  }

  lemma RunStaysOnTheTable(c: Config, s: State, reply: Reply)
    requires OnTheTable(s)
    ensures OnTheTable(RunNext(c, s, reply))
  {
    var o := RunOutcome(c, s, reply);
    RunWritesLegally(c, s, reply);
    WrittenStaysOnTheTable(s, o.write);
    PlainStatuses(Written(s, o.write).log, o.entries);
  }

  lemma RequestStaysOnTheTable(c: Config, s: State, dest: Destination)
    requires OnTheTable(s)
    ensures OnTheTable(RequestNext(c, s, dest))
  {
    StatusesOf(s.log, WroteStatus(REQUESTED));
  }

  lemma AbandonStaysOnTheTable(s: State)
    requires OnTheTable(s)
    ensures OnTheTable(AbandonNext(s))
  {
    if !s.run.Accepting? { WrittenStaysOnTheTable(s, AbandonWrite(s)); }
  }

  lemma NextStaysOnTheTable(c: Config, s: State, event: Event)
    requires OnTheTable(s)
    ensures OnTheTable(Next(c, s, event))
  {
    match event
    case Request(dest) => RequestStaysOnTheTable(c, s, dest);
    case RunStep(reply) => RunStaysOnTheTable(c, s, reply);
    case PlayStep(ended) =>
    case Abandon => AbandonStaysOnTheTable(s);
    case _ =>
  }
}
