/** One warm transfer as concurrent tasks: the run, the whisper, the abandonments, and the room's events. */
module TransferRun {
  // Code between two suspension points is one step. Writes of the call row do not overlap, and but for the first one
  // they return at once.

  import opened Options
  import opened TransferStatus
  import opened TransferFallback

  type Identity = string
  type Sid = nat

  const HUMAN_PREFIX := "human-agent-"

  predicate IsHumanAgent(identity: Identity) {
    |HUMAN_PREFIX| <= |identity| && identity[..|HUMAN_PREFIX|] == HUMAN_PREFIX
  }

  function HumanIdentity(callId: string): (r: Identity)
    ensures IsHumanAgent(r)
  {
    HUMAN_PREFIX + callId
  }

  /** The first named participant that is not the human agent. */
  function CallerIdentity(participants: seq<Identity>): (r: Option<Identity>)
    ensures r.Some? ==> r.value in participants && r.value != "" && !IsHumanAgent(r.value)
    ensures r.None? ==> forall p :: p in participants ==> p == "" || IsHumanAgent(p)
  {
    if participants == [] then None
    else if participants[0] != "" && !IsHumanAgent(participants[0]) then Some(participants[0])
    else CallerIdentity(participants[1..])
  }

  /** It is the first such participant in the room's order. */
  lemma {:induction false} CallerIsFirst(participants: seq<Identity>) returns (i: nat)
    requires CallerIdentity(participants).Some?
    ensures i < |participants| && CallerIdentity(participants) == Some(participants[i])
    ensures forall j :: 0 <= j < i ==> participants[j] == "" || IsHumanAgent(participants[j])
  {
    if participants[0] != "" && !IsHumanAgent(participants[0]) {
      i := 0;
    } else {
      i := CallerIsFirst(participants[1..]);
      i := i + 1;
    }
  }

  // ---- Who may subscribe to the worker's own tracks ----

  datatype Permissions = AllowAll | Only(grants: map<Identity, set<Sid>>)

  predicate MaySubscribe(p: Permissions, who: Identity, sid: Sid) {
    p.AllowAll? || (who in p.grants && sid in p.grants[who])
  }

  /** Nobody but the human may hear any of these tracks. */
  ghost predicate Sealed(p: Permissions, human: Identity, sids: set<Sid>) {
    forall who, sid :: who != human && sid in sids ==> !MaySubscribe(p, who, sid)
  }

  // ---- State ----

  /** A published track: its source is open, its publication carries a sid, its generation outdates older writers. */
  datatype Track = Track(open: bool, sid: Option<Sid>, generation: nat)

  datatype Playing = NotPlaying | Starting | Publishing | Writing(generation: nat)

  /** Closing both tracks, suspension by suspension; `whisper` is the reference captured at the start. */
  datatype Stop = Begin | HoldUnpublished(whisper: bool) | WhisperUnpublished | Stopped

  /** Up to the answer. */
  datatype PlacingStep = Announcing | Saying | StartingHold | PublishingHold | Dialling(first: bool) | Ringing

  /** From the answer to the last look at the abandonment flag, which the original takes without suspending first. */
  datatype BriefingStep = Answered | Summarising | PersistingSummary | EnteringWhisper | StartingWhisper
                        | PublishingWhisper | SpawningPlay | Whispering | Checking

  datatype BridgingStep = BridgeStopping(stop: Stop) | OpeningTracks | JoiningLegs | WritingBridged

  datatype FailingStep = WritingFailure(trigger: Status) | FailStopping(stop: Stop) | Speaking

  datatype RunState =
    | Idle
    // The request is written and the write has not returned: memory still says NOT_REQUESTED.
    | Accepting(dest: Destination)
    | Requesting(dest: Destination)
    | Placing(placing: PlacingStep, dest: Destination)
    | Briefing(briefing: BriefingStep, dest: Destination, caller: Option<Identity>)
    | Bridging(bridging: BridgingStep)
    | Failing(failing: FailingStep, plan: Option<Plan>, handled: bool)
    | Abandoning(stop: Stop)
    | Ended

  datatype Entry =
    | WroteStatus(status: Status)
    | WroteSummary
    | WhisperFrame(sid: Sid, permissions: Permissions)
    | OpenedToAll(whisper: Track)
    | Apology(sid: Sid, permissions: Permissions)
    | HungUp

  /** `plan` is the fallback planner, whatever it plans: its arguments are the trigger and the destinations tried. */
  datatype Config = Config(callId: string, enabled: bool, plan: (Status, set<nat>) -> Option<Plan>)

  /** The worker's two tracks and who may hear them. A hold is absent, unpublished, or published under a sid. */
  datatype Audio = Audio(
    permissions: Permissions, nextSid: Sid, hold: Option<Option<Sid>>, whisperHeld: bool, whisper: Track,
    whisperSids: set<Sid>, playing: Playing)

  datatype State = State(
    status: Status, row: Status, run: RunState, tried: seq<nat>, abandoned: bool, humanLeft: bool, skip: bool,
    bridged: bool, audio: Audio, stops: seq<Stop>, log: seq<Entry>)

  const SILENCE := Audio(AllowAll, 0, None, false, Track(false, None, 0), {}, NotPlaying)

  const INITIAL := State(NOT_REQUESTED, NOT_REQUESTED, Idle, [], false, false, false, false, SILENCE, [], [])

  /** What the world answers to a step of the run. */
  datatype Reply = Reply(raises: bool, participants: seq<Identity>, outcome: DialOutcome)

  datatype Event =
    Request(dest: Destination) | RunStep(reply: Reply) | PlayStep(ended: bool) | Abandon | AbandonStep(i: nat)
                 | Close | Dtmf | HumanLeft

  function Ids(tried: seq<nat>): set<nat> {
    set id | id in tried
  }

  // ---- What steps do to the audio ----

  function StopAfter(a: Audio, stop: Stop): Stop {
    match stop
    // With no track to close nothing suspends.
    case Begin => if a.hold.None? && !a.whisperHeld then Stopped else HoldUnpublished(a.whisperHeld)
    case HoldUnpublished(whisper) => if whisper then WhisperUnpublished else Stopped
    case _ => Stopped
  }

  function StopAudio(a: Audio, stop: Stop): Audio {
    match stop
    case HoldUnpublished(whisper) =>
      if whisper then HoldClosed(a).(whisper := a.whisper.(generation := a.whisper.generation + 1))
      else a.(hold := None, whisperHeld := false)
    case WhisperUnpublished => a.(whisper := Closed(a.whisper), hold := None, whisperHeld := false)
    case _ => a
  }

  function HoldClosed(a: Audio): Audio {
    if a.hold.Some? then a.(hold := Some(None)) else a
  }

  function Closed(t: Track): Track {
    t.(open := false, sid := None)
  }

  /** Speaking to the caller creates and publishes a hold track when there is none. */
  function Spoken(a: Audio): Audio {
    if a.hold.Some? then a else a.(hold := Some(Some(a.nextSid)), nextSid := a.nextSid + 1)
  }

  /** The hold is published, and only the caller may hear the worker, when one is known. */
  function HoldPublished(a: Audio, caller: Option<Identity>): Audio {
    a.(hold := if a.hold.Some? then Some(Some(a.nextSid)) else None, nextSid := a.nextSid + 1,
       permissions := if caller.Some? then Only(map[caller.value := {a.nextSid}]) else a.permissions)
  }

  function Grants(human: Identity, whisperSid: Sid, caller: Option<Identity>, hold: Option<Option<Sid>>): Permissions {
    var forHuman: map<Identity, set<Sid>> := map[human := {whisperSid}];
    if caller.Some? && hold.Some? && hold.value.Some? then Only(forHuman[caller.value := {hold.value.value}])
    else Only(forHuman)
  }

  function WhisperStarted(a: Audio): Audio {
    a.(whisper := a.whisper.(open := true), whisperHeld := true)
  }

  function WhisperPublished(a: Audio, human: Identity, caller: Option<Identity>): Audio {
    a.(whisper := a.whisper.(sid := Some(a.nextSid)), whisperSids := a.whisperSids + {a.nextSid},
       permissions := Grants(human, a.nextSid, caller, a.hold), nextSid := a.nextSid + 1)
  }

  /** The player is cancelled and its generation outdated. */
  function Cut(a: Audio): Audio {
    a.(playing := NotPlaying, whisper := a.whisper.(generation := a.whisper.generation + 1))
  }

  /** A stop and a new generation, without suspension. */
  function Outdated(t: Track): Track {
    t.(generation := t.generation + 2)
  }

  function Played(a: Audio, ended: bool): Audio {
    match a.playing
    case NotPlaying => a
    case Starting =>
      if a.whisper.open then a.(whisper := Outdated(a.whisper), playing := Writing(a.whisper.generation + 2))
      else a.(whisper := a.whisper.(open := true), playing := Publishing)
    case Publishing =>
      a.(whisper := Outdated(a.whisper.(sid := Some(a.nextSid))), whisperSids := a.whisperSids + {a.nextSid},
         nextSid := a.nextSid + 1, playing := Writing(a.whisper.generation + 2))
    case Writing(generation) =>
      if ended || generation != a.whisper.generation then a.(playing := NotPlaying) else a
  }

  /** A frame is written while the source is open and the writer's generation is the current one. */
  predicate WritesFrame(a: Audio, ended: bool) {
    a.playing.Writing? && !ended && a.playing.generation == a.whisper.generation && a.whisper.open
      && a.whisper.sid.Some?
  }

  // ---- Steps of the run ----

  /**
   * What one step does to the call row and the memory: nothing, a legal move, columns under the status in memory, or
   * the return of a move already written.
   */
  datatype Write = NoWrite | Advance(to: Status) | Patch | Return(to: Status)

  /** Where a step leaves the run, what it writes, and what else it shows the world. */
  datatype Outcome = Outcome(run: RunState, write: Write, entries: seq<Entry>)

  function FailWith(c: Config, trigger: Status, tried: set<nat>, handled: bool): Outcome {
    Outcome(Failing(WritingFailure(trigger), c.plan(trigger, tried), handled), NoWrite, [])
  }

  /** The handler around the whole run. */
  function Raise(c: Config, s: State): Outcome {
    FailWith(c, FAILED, Ids(TriedAfter(s)), true)
  }

  /** A destination counts as tried before anything about dialling it can fail. */
  function TriedAfter(s: State): seq<nat> {
    if s.run.Placing? && s.run.placing.Dialling? then s.tried + [s.run.dest.id] else s.tried
  }

  /** An advance inside the run: an illegal one raises. */
  function Entered(c: Config, s: State, to: Status, run: RunState): Outcome {
    if Legal(s.status, to) then Outcome(run, Advance(to), []) else Raise(c, s)
  }

  function Continue(run: RunState): Outcome {
    Outcome(run, NoWrite, [])
  }

  /** Announcing, holding and dialling. */
  function PlacingNext(c: Config, s: State, at: PlacingStep, dest: Destination, reply: Reply): Outcome {
    match at
    case Announcing => Entered(c, s, ANNOUNCING, Placing(Saying, dest))
    case Saying => Continue(Placing(StartingHold, dest))
    case StartingHold => Continue(Placing(PublishingHold, dest))
    case PublishingHold => Continue(Placing(Dialling(true), dest))
    case Dialling(first) =>
      if first then Entered(c, s, DIALING_AGENT, Placing(Ringing, dest)) else Outcome(Placing(Ringing, dest), Patch, [])
    case Ringing =>
      if reply.outcome == ANSWERED then Continue(Briefing(Answered, dest, None)) else NotAnswered(c, s, reply.outcome)
  }

  /** On to the plan's destination, or to the failure. */
  function NotAnswered(c: Config, s: State, outcome: DialOutcome): Outcome
    requires outcome != ANSWERED
  {
    var plan := c.plan(DialToStatus(outcome), Ids(s.tried));
    if plan.Some? && plan.value.destination.Some? then Continue(Placing(Dialling(false), plan.value.destination.value))
    else FailWith(c, DialToStatus(outcome), Ids(s.tried), false)
  }

  const CAN_ABANDON := {REQUESTED, ANNOUNCING, DIALING_AGENT, WHISPERING_SUMMARY}

  predicate AbandonIgnored(s: State) {
    s.bridged || s.status in {BRIDGED, ABANDONED, NOT_REQUESTED}
  }

  /** The status an abandonment writes; an illegal one is swallowed. */
  function AbandonWrite(s: State): Write {
    if s.status in CAN_ABANDON && Legal(s.status, ABANDONED) then Advance(ABANDONED) else NoWrite
  }

  function AbandonNow(s: State): Outcome {
    if AbandonIgnored(s) then Continue(Ended) else Outcome(Abandoning(Begin), AbandonWrite(s), [])
  }

  /** From the answer to the end of the whisper. */
  function BriefingNext(
    c: Config, s: State, at: BriefingStep, dest: Destination, caller: Option<Identity>, reply: Reply): Outcome
  {
    match at
    case Answered =>
      if s.abandoned then AbandonNow(s) else Continue(Briefing(Summarising, dest, CallerIdentity(reply.participants)))
    case Summarising => Continue(Briefing(PersistingSummary, dest, caller))
    case PersistingSummary => Outcome(Briefing(EnteringWhisper, dest, caller), Patch, [WroteSummary])
    case EnteringWhisper =>
      Entered(c, s, WHISPERING_SUMMARY,
        Briefing(if dest.whisperSummary then StartingWhisper else Checking, dest, caller))
    case StartingWhisper => Continue(Briefing(PublishingWhisper, dest, caller))
    case PublishingWhisper => Continue(Briefing(SpawningPlay, dest, caller))
    case SpawningPlay => Continue(Briefing(Whispering, dest, caller))
    case Whispering =>
      if !WhisperIsOver(s) then Continue(s.run)
      // A human who left without skipping is a rejection.
      else if s.humanLeft && !s.skip then FailWith(c, AGENT_REJECTED, {dest.id}, false)
      else Continue(Briefing(Checking, dest, caller))
    case Checking => if s.abandoned then AbandonNow(s) else Continue(Bridging(BridgeStopping(Begin)))
  }

  /** The whisper has ended, was skipped, or either party is gone. */
  predicate WhisperIsOver(s: State) {
    s.audio.playing.NotPlaying? || s.skip || s.humanLeft || s.abandoned
  }

  function BridgingNext(c: Config, s: State, at: BridgingStep): Outcome {
    match at
    case BridgeStopping(stop) =>
      var stop1 := StopAfter(s.audio, stop);
      Continue(Bridging(if stop1.Stopped? then OpeningTracks else BridgeStopping(stop1)))
    case OpeningTracks => Outcome(Bridging(JoiningLegs), NoWrite, [OpenedToAll(s.audio.whisper)])
    case JoiningLegs => Continue(Bridging(WritingBridged))
    case WritingBridged => Entered(c, s, BRIDGED, Ended)
  }

  /**
   * The failure path: the status when it is legal, then silence, the apology, and the hangup when the plan wants one.
   */
  function FailingNext(s: State, at: FailingStep, plan: Option<Plan>, handled: bool): Outcome {
    match at
    case WritingFailure(trigger) =>
      Outcome(Failing(FailStopping(Begin), plan, handled),
              if Legal(s.status, trigger) then Advance(trigger) else NoWrite, [])
    case FailStopping(stop) =>
      var stop1 := StopAfter(s.audio, stop);
      Continue(Failing(if stop1.Stopped? then Speaking else FailStopping(stop1), plan, handled))
    case Speaking =>
      Outcome(Ended, NoWrite,
              (if s.audio.hold.Some? then [] else [Apology(s.audio.nextSid, s.audio.permissions)])
              + (if plan.None? || plan.value.hangup then [HungUp] else []))
  }

  /** Steps that can raise: all but closing tracks and waiting for the whisper to end, which catch what is thrown. */
  predicate CanRaise(run: RunState) {
    match run
    case Placing(_, _) => true
    case Briefing(at, _, _) => !at.Whispering?
    case Bridging(at) => !at.BridgeStopping?
    case Failing(at, _, _) => !at.FailStopping?
    case _ => false
  }

  function RunOutcome(c: Config, s: State, reply: Reply): Outcome {
    if reply.raises && CanRaise(s.run) then if s.run.Failing? && s.run.handled then Continue(Ended) else Raise(c, s)
    else
      match s.run
      case Idle => Continue(Idle)
      case Accepting(dest) => Outcome(Requesting(dest), Return(REQUESTED), [])
      // The status is written and the task does not exist yet.
      case Requesting(dest) => Continue(if reply.raises then Ended else Placing(Announcing, dest))
      case Placing(at, dest) => PlacingNext(c, s, at, dest, reply)
      case Briefing(at, dest, caller) => BriefingNext(c, s, at, dest, caller, reply)
      case Bridging(at) => BridgingNext(c, s, at)
      case Failing(at, plan, handled) => FailingNext(s, at, plan, handled)
      case Abandoning(stop) =>
        var stop1 := StopAfter(s.audio, stop);
        Continue(if stop1.Stopped? then Ended else Abandoning(stop1))
      case Ended => Continue(Ended)
  }

  /** What a step of the run does to the audio; a step that raises leaves it alone. */
  function RunAudio(c: Config, s: State, reply: Reply): Audio {
    if reply.raises && CanRaise(s.run) then s.audio
    else
      match s.run
      case Placing(at, _) => PlacingAudio(s.audio, at, CallerIdentity(reply.participants))
      case Briefing(at, _, caller) =>
        if at.Whispering? && !WhisperIsOver(s) then s.audio
        else BriefingAudio(s.audio, at, HumanIdentity(c.callId), caller)
      case Bridging(at) => BridgingAudio(s.audio, at)
      case Failing(at, _, _) => FailingAudio(s.audio, at)
      case Abandoning(stop) => StopAudio(s.audio, stop)
      case _ => s.audio
  }

  function PlacingAudio(a: Audio, at: PlacingStep, caller: Option<Identity>): Audio {
    match at
    case Saying => Spoken(a)
    case StartingHold => a.(hold := Some(None))
    case PublishingHold => HoldPublished(a, caller)
    case _ => a
  }

  function BriefingAudio(a: Audio, at: BriefingStep, human: Identity, caller: Option<Identity>): Audio {
    match at
    case StartingWhisper => WhisperStarted(a)
    case PublishingWhisper => WhisperPublished(a, human, caller)
    case SpawningPlay => a.(playing := Starting)
    case Whispering => Cut(a)
    case _ => a
  }

  function BridgingAudio(a: Audio, at: BridgingStep): Audio {
    match at
    case BridgeStopping(stop) => StopAudio(a, stop)
    case OpeningTracks => a.(permissions := AllowAll)
    case _ => a
  }

  function FailingAudio(a: Audio, at: FailingStep): Audio {
    match at
    case FailStopping(stop) => StopAudio(a, stop)
    case Speaking => Spoken(a)
    case _ => a
  }

  /** The row, the memory and the log move together, but for a move that was written before. */
  function Written(s: State, write: Write): State {
    match write
    case NoWrite => s
    case Advance(to) => s.(status := to, row := to, log := s.log + [WroteStatus(to)])
    case Patch => s.(row := s.status)
    case Return(to) => s.(status := to)
  }

  function RunNext(c: Config, s: State, reply: Reply): State {
    var o := RunOutcome(c, s, reply);
    var w := Written(s, o.write);
    // The legs are joined before the status is written.
    w.(run := o.run, tried := TriedAfter(s), bridged := s.bridged || s.run == Bridging(WritingBridged),
       audio := RunAudio(c, s, reply), log := w.log + o.entries)
  }

  // ---- Steps of the player ----

  function PlayNext(s: State, ended: bool): State {
    s.(audio := Played(s.audio, ended),
       log := if WritesFrame(s.audio, ended) then s.log + [WhisperFrame(s.audio.whisper.sid.value, s.audio.permissions)]
              else s.log)
  }

  // ---- The machine ----

  /** Up to the commit of the request. */
  function RequestNext(c: Config, s: State, dest: Destination): State {
    if !c.enabled || s.status != NOT_REQUESTED || !s.run.Idle? then s
    else s.(row := REQUESTED, log := s.log + [WroteStatus(REQUESTED)], run := Accepting(dest))
  }

  function AbandonNext(s: State): State {
    if AbandonIgnored(s) then s else Written(s, AbandonWrite(s)).(abandoned := true, stops := s.stops + [Begin])
  }

  function AbandonStepNext(s: State, i: nat): State {
    if i >= |s.stops| then s
    else s.(audio := StopAudio(s.audio, s.stops[i]), stops := s.stops[i := StopAfter(s.audio, s.stops[i])])
  }

  /** Before the task exists no track is held, so there is nothing to cancel or to stop. */
  function CloseNext(s: State): State {
    if s.run.Idle? || s.run.Accepting? || s.run.Requesting? then s else s.(run := Ended, stops := s.stops + [Begin])
  }

  function Next(c: Config, s: State, event: Event): State {
    match event
    case Request(dest) => RequestNext(c, s, dest)
    case RunStep(reply) => RunNext(c, s, reply)
    case PlayStep(ended) => PlayNext(s, ended)
    case Abandon => AbandonNext(s)
    case AbandonStep(i) => AbandonStepNext(s, i)
    case Close => CloseNext(s)
    case Dtmf => s.(skip := true)
    case HumanLeft => if s.bridged then s else s.(humanLeft := true)
  }

  function RunAll(c: Config, s: State, events: seq<Event>): State
    decreases events
  {
    if events == [] then s else RunAll(c, Next(c, s, events[0]), events[1..])
  }
}
