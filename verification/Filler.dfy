/** Filler phrases on their own track: a generation number is the whole cancellation protocol. */
module Filler {
  // Cancelled tasks are left schedulable, so nothing below relies on the event loop delivering a cancellation.

  import opened Options

  type Phrase = string
  type Sample = int
  type Clip = seq<Sample>

  /** A writer fetches its clip when it first runs. */
  datatype Writer = Waiting(phrase: Phrase) | Writing(phrase: Phrase, clip: Clip, at: nat)
                  | Done(phrase: Phrase, clip: Clip, at: nat)

  datatype Frame = Frame(generation: nat, sample: Sample)

  /** The timers and writers by generation, and the history of phrases chosen and frames written. */
  datatype State = State(
    generation: nat, timers: set<nat>, writers: map<nat, Writer>, last: Option<Phrase>, spoken: nat,
    clips: map<Phrase, Clip>, published: bool, chosen: seq<Phrase>, log: seq<Frame>)

  const INITIAL := State(0, {}, map[], None, 0, map[], false, [], [])

  datatype Event = Publish | Warm(phrase: Phrase, clip: Clip) | Arm | Stop | Close
                 | Timer(generation: nat, choice: nat) | Write(generation: nat)

  /** Phrases that can be played now: a clip is there and it is not the one played last. */
  function Ready(phrases: seq<Phrase>, clips: map<Phrase, Clip>, last: Option<Phrase>): (r: seq<Phrase>)
    ensures forall p :: p in r <==> p in phrases && p in clips && last != Some(p)
  {
    if phrases == [] then []
    else
      var rest := Ready(phrases[1..], clips, last);
      if phrases[0] in clips && last != Some(phrases[0]) then [phrases[0]] + rest else rest
  }

  function Stopped(s: State): State {
    s.(generation := s.generation + 1)
  }

  function Armed(s: State): State {
    s.(generation := s.generation + 2, timers := s.timers + {s.generation + 2})
  }

  /** The end of the delay: nothing when outdated or when no phrase is ready, else a writer for the phrase picked. */
  function Fired(phrases: seq<Phrase>, s: State, generation: nat, choice: nat): State {
    if generation !in s.timers then s
    else
      var s1 := s.(timers := s.timers - {generation});
      var ready := Ready(phrases, s.clips, s.last);
      if generation != s.generation || ready == [] then s1
      else
        var phrase := ready[choice % |ready|];
        s1.(last := Some(phrase), spoken := s.spoken + 1, chosen := s.chosen + [phrase],
            writers := s.writers[generation := Waiting(phrase)])
  }

  /** The clip a writer works on, once it runs. */
  function Begun(s: State, w: Writer): Writer {
    match w
    case Waiting(phrase) =>
      if !s.published then Done(phrase, [], 0)
      else Writing(phrase, if phrase in s.clips then s.clips[phrase] else [], 0)
    case _ => w
  }

  /** One frame, unless the writer is outdated or its clip has ended. */
  function Wrote(s: State, generation: nat): State {
    if generation !in s.writers then s
    else
      match Begun(s, s.writers[generation])
      case Writing(phrase, clip, at) =>
        if at >= |clip| || generation != s.generation then
          s.(writers := s.writers[generation := Done(phrase, clip, at)])
        else
          s.(writers := s.writers[generation := Writing(phrase, clip, at + 1)],
            log := s.log + [Frame(generation, clip[at])])
      case w => s.(writers := s.writers[generation := w])
  }

  class FillerTrack {
    const phrases: seq<Phrase>
    var generation: nat
    var timers: set<nat>
    var writers: map<nat, Writer>
    var last: Option<Phrase>
    var spoken: nat
    var clips: map<Phrase, Clip>
    var published: bool
    ghost var chosen: seq<Phrase>
    ghost var log: seq<Frame>

    ghost function View(): State
      reads this
    {
      State(generation, timers, writers, last, spoken, clips, published, chosen, log)
    }

    constructor (phrases: seq<Phrase>)
      ensures View() == INITIAL && this.phrases == phrases
    {
      this.phrases := phrases;
      generation, timers, writers, last, spoken, clips, published := 0, {}, map[], None, 0, map[], false;
      chosen, log := [], [];
    }

    method Stop()
      modifies this
      ensures View() == Stopped(old(View()))
    {
      generation := generation + 1;
    }

    method Arm()
      modifies this
      ensures View() == Armed(old(View()))
    {
      Stop();
      generation := generation + 1;
      timers := timers + {generation};
    }

    /** `choice` is the random draw. */
    method AfterDelay(mine: nat, choice: nat)
      requires mine in timers
      modifies this
      ensures View() == Fired(phrases, old(View()), mine, choice)
    {
      timers := timers - {mine};
      if mine != generation {
        return;
      }
      var ready := Ready(phrases, clips, last);
      if ready == [] {
        return;
      }
      var phrase := ready[choice % |ready|];
      last := Some(phrase);
      spoken := spoken + 1;
      chosen := chosen + [phrase];
      writers := writers[mine := Waiting(phrase)];
    }

    /** Runs a writer up to its next suspension; the frame given to the source, if any. */
    method Resume(mine: nat) returns (frame: Option<Sample>)
      requires mine in writers
      modifies this
      ensures View() == Wrote(old(View()), mine)
      ensures frame.Some? <==> View().log != old(View()).log
      ensures frame.Some? ==> View().log == old(View()).log + [Frame(mine, frame.value)]
    {
      var w := writers[mine];
      if w.Waiting? {
        var clip := if w.phrase in clips then clips[w.phrase] else [];
        w := if !published then Done(w.phrase, [], 0) else Writing(w.phrase, clip, 0);
      }
      if !w.Writing? {
        writers := writers[mine := w];
        return None;
      }
      if w.at >= |w.clip| || mine != generation {
        writers := writers[mine := Done(w.phrase, w.clip, w.at)];
        return None;
      }
      writers := writers[mine := Writing(w.phrase, w.clip, w.at + 1)];
      log := log + [Frame(mine, w.clip[w.at])];
      return Some(w.clip[w.at]);
    }
  }

  // ---- Runs ----

  function Next(phrases: seq<Phrase>, s: State, e: Event): State {
    match e
    case Publish => s.(published := true)
    case Warm(phrase, clip) => s.(clips := s.clips[phrase := clip])
    case Arm => Armed(s)
    case Stop => Stopped(s)
    case Close => Stopped(s).(published := false)
    case Timer(generation, choice) => Fired(phrases, s, generation, choice)
    case Write(generation) => Wrote(s, generation)
  }

  function Run(phrases: seq<Phrase>, s: State, events: seq<Event>): State
    decreases events
  {
    if events == [] then s else Run(phrases, Next(phrases, s, events[0]), events[1..])
  }

  // ---- What holds in every run ----

  function FramesOf(log: seq<Frame>, generation: nat): Clip {
    if log == [] then []
    else
      var n := |log| - 1;
      FramesOf(log[..n], generation) + if log[n].generation == generation then [log[n].sample] else []
  }

  lemma FramesOfAppended(log: seq<Frame>, f: Frame, generation: nat)
    ensures FramesOf(log + [f], generation)
            == FramesOf(log, generation) + if f.generation == generation then [f.sample] else []
  {
    assert (log + [f])[..|log|] == log;
  }

  /** What a writer has given to its source. */
  function Given(w: Writer): Clip {
    match w
    case Waiting(_) => []
    case Writing(_, clip, at) => if at <= |clip| then clip[..at] else clip
    case Done(_, clip, at) => if at <= |clip| then clip[..at] else clip
  }

  /** Every task belongs to a generation already issued, and no generation has both a timer and a writer. */
  ghost predicate TasksAreIssued(s: State) {
    && (forall g :: g in s.timers ==> g <= s.generation && g !in s.writers)
    && (forall g :: g in s.writers ==> g <= s.generation)
    && (forall i :: 0 <= i < |s.log| ==> s.log[i].generation in s.writers)
  }

  ghost predicate TagsOrdered(log: seq<Frame>) {
    forall i, j :: 0 <= i < j < |log| ==> log[i].generation <= log[j].generation
  }

  function GivenBy(writers: map<nat, Writer>, g: nat): Clip {
    if g in writers then Given(writers[g]) else []
  }

  /** The frames of a generation are what its one writer gave. */
  ghost predicate FramesAreGiven(s: State) {
    forall g :: FramesOf(s.log, g) == GivenBy(s.writers, g)
  }

  /** The phrases chosen, no two in a row the same. */
  ghost predicate Varied(phrases: seq<Phrase>, s: State) {
    && s.spoken == |s.chosen|
    && s.last == (if s.chosen == [] then None else Some(s.chosen[|s.chosen| - 1]))
    && (forall i :: 0 <= i < |s.chosen| ==> s.chosen[i] in phrases && s.chosen[i] in s.clips)
    && (forall i :: 0 <= i < |s.chosen| - 1 ==> s.chosen[i] != s.chosen[i + 1])
  }

  ghost predicate Valid(phrases: seq<Phrase>, s: State) {
    TasksAreIssued(s) && TagsOrdered(s.log) && FramesAreGiven(s) && Varied(phrases, s)
  }

  /** A resumed writer gives one sample more and shows it, or gives and shows nothing; the others do neither. */
  lemma WriterGives(s: State, generation: nat)
    ensures var r := Wrote(s, generation);
      || (r.log == s.log && forall g :: GivenBy(r.writers, g) == GivenBy(s.writers, g))
      || exists x ::
           && r.log == s.log + [Frame(generation, x)]
           && (forall g :: GivenBy(r.writers, g) == GivenBy(s.writers, g) + if g == generation then [x] else [])
  {
    if generation in s.writers {
      var r, w := Wrote(s, generation), Begun(s, s.writers[generation]);
      assert Given(w) == Given(s.writers[generation]);
      if w.Writing? && w.at < |w.clip| && generation == s.generation {
        var x := w.clip[w.at];
        assert w.clip[..w.at + 1] == w.clip[..w.at] + [x];
        forall g ensures GivenBy(r.writers, g) == GivenBy(s.writers, g) + if g == generation then [x] else [] {
        }
        assert r.log == s.log + [Frame(generation, x)];
      }
    }
  }

  lemma WroteKeepsFrames(s: State, generation: nat)
    requires FramesAreGiven(s)
    ensures FramesAreGiven(Wrote(s, generation))
  {
    var r := Wrote(s, generation);
    WriterGives(s, generation);
    if r.log != s.log {
      var x :| r.log == s.log + [Frame(generation, x)]
            && (forall g :: GivenBy(r.writers, g) == GivenBy(s.writers, g) + if g == generation then [x] else []);
      forall g ensures FramesOf(r.log, g) == GivenBy(r.writers, g) {
        FramesOfAppended(s.log, Frame(generation, x), g);
      }
    }
  }

  lemma WroteKeepsTasks(s: State, generation: nat)
    requires TasksAreIssued(s) && TagsOrdered(s.log)
    ensures TasksAreIssued(Wrote(s, generation)) && TagsOrdered(Wrote(s, generation).log)
  {
  }

  lemma FiredKeeps(phrases: seq<Phrase>, s: State, generation: nat, choice: nat)
    requires TasksAreIssued(s) && Varied(phrases, s)
    ensures var r := Fired(phrases, s, generation, choice); TasksAreIssued(r) && Varied(phrases, r)
  {
  }

  lemma FiredGives(phrases: seq<Phrase>, s: State, generation: nat, choice: nat)
    requires TasksAreIssued(s) && FramesAreGiven(s)
    ensures FramesAreGiven(Fired(phrases, s, generation, choice))
  {
    var r := Fired(phrases, s, generation, choice);
    assert forall g :: GivenBy(r.writers, g) == GivenBy(s.writers, g);
  }

  lemma NextKeeps(phrases: seq<Phrase>, s: State, e: Event)
    requires Valid(phrases, s)
    ensures Valid(phrases, Next(phrases, s, e))
  {
    match e
    case Timer(generation, choice) =>
      FiredKeeps(phrases, s, generation, choice);
      FiredGives(phrases, s, generation, choice);
    case Write(generation) =>
      WroteKeepsFrames(s, generation);
      WroteKeepsTasks(s, generation);
    case _ =>
  }

  lemma {:induction false} RunKeeps(phrases: seq<Phrase>, s: State, events: seq<Event>)
    requires Valid(phrases, s)
    ensures Valid(phrases, Run(phrases, s, events))
    decreases events
  {
    if events == [] {
    } else {
      NextKeeps(phrases, s, events[0]);
      RunKeeps(phrases, Next(phrases, s, events[0]), events[1..]);
    }
  }

  lemma EveryRunIsValid(phrases: seq<Phrase>, events: seq<Event>)
    ensures Valid(phrases, Run(phrases, INITIAL, events))
  {
    assert forall g :: FramesOf([], g) == [];
    RunKeeps(phrases, INITIAL, events);
  }

  /** The clips synthesised in a run, with their phrases. */
  function Warmed(events: seq<Event>): set<(Phrase, Clip)> {
    set e | e in events && e.Warm? :: (e.phrase, e.clip)
  }

  /** What is in memory was warmed, and a writer works on a phrase that was chosen and a clip that was warmed for it. */
  ghost predicate ClipsAreWarmed(s: State, warmed: set<(Phrase, Clip)>) {
    && (forall p :: p in s.clips ==> (p, s.clips[p]) in warmed)
    && (forall g :: g in s.writers ==>
          && s.writers[g].phrase in s.chosen
          && (!s.writers[g].Waiting? ==> s.writers[g].clip == [] || (s.writers[g].phrase, s.writers[g].clip) in warmed))
  }

  lemma NextKeepsClips(phrases: seq<Phrase>, s: State, e: Event, warmed: set<(Phrase, Clip)>)
    requires ClipsAreWarmed(s, warmed) && (e.Warm? ==> (e.phrase, e.clip) in warmed)
    ensures ClipsAreWarmed(Next(phrases, s, e), warmed)
  {
  }

  lemma {:induction false} RunKeepsClips(phrases: seq<Phrase>, s: State, events: seq<Event>,
                                         warmed: set<(Phrase, Clip)>)
    requires ClipsAreWarmed(s, warmed) && forall e :: e in events && e.Warm? ==> (e.phrase, e.clip) in warmed
    ensures ClipsAreWarmed(Run(phrases, s, events), warmed)
    decreases events
  {
    if events == [] {
    } else {
      assert events[0] in events;
      NextKeepsClips(phrases, s, events[0], warmed);
      RunKeepsClips(phrases, Next(phrases, s, events[0]), events[1..], warmed);
    }
  }

  /**
   * In every interleaving generation tags never decrease, and the frames of a generation are a prefix of one clip: one
   * that was synthesised in the run for a phrase that the run chose.
   */
  lemma FramesStayInGeneration(phrases: seq<Phrase>, events: seq<Event>, g: nat)
    ensures var r := Run(phrases, INITIAL, events);
      && TagsOrdered(r.log)
      && (FramesOf(r.log, g) != [] ==>
            exists phrase, clip :: phrase in r.chosen && (phrase, clip) in Warmed(events) && FramesOf(r.log, g) <= clip)
  {
    var r := Run(phrases, INITIAL, events);
    EveryRunIsValid(phrases, events);
    RunKeepsClips(phrases, INITIAL, events, Warmed(events));
    assert FramesOf(r.log, g) == GivenBy(r.writers, g);
    if FramesOf(r.log, g) != [] {
      var w := r.writers[g];
      assert w.phrase in r.chosen && (w.phrase, w.clip) in Warmed(events) && FramesOf(r.log, g) <= w.clip;
    }
  }

  /** Two phrases in a row always differ, every one had a clip, and the count is right. */
  lemma PhrasesVary(phrases: seq<Phrase>, events: seq<Event>)
    ensures Varied(phrases, Run(phrases, INITIAL, events))
  {
    EveryRunIsValid(phrases, events);
  }

  lemma TwoOfTheSame(chosen: seq<Phrase>, only: Phrase)
    requires forall i :: 0 <= i < |chosen| ==> chosen[i] == only
    ensures |chosen| > 1 ==> exists i :: 0 <= i < |chosen| - 1 && chosen[i] == chosen[i + 1]
  {
    if |chosen| > 1 { assert chosen[0] == chosen[0 + 1]; }
  }

  /** With a clip for a single phrase that phrase is played once in the whole call, however often a filler is armed. */
  lemma LoneClipPlaysOnce(phrases: seq<Phrase>, events: seq<Event>, only: Phrase)
    requires forall p :: p in Run(phrases, INITIAL, events).clips ==> p == only
    ensures Run(phrases, INITIAL, events).spoken <= 1
  {
    var r := Run(phrases, INITIAL, events);
    EveryRunIsValid(phrases, events);
    TwoOfTheSame(r.chosen, only);
  }

  // ---- An armed filler plays ----

  function Writes(generation: nat, n: nat): seq<Event> {
    if n == 0 then [] else [Write(generation)] + Writes(generation, n - 1)
  }

  lemma WriterStep(s: State, phrase: Phrase, clip: Clip, at: nat)
    requires s.generation in s.writers && s.writers[s.generation] == Writing(phrase, clip, at)
    ensures var s1 := Wrote(s, s.generation);
      && s1.generation == s.generation && s1.generation in s1.writers
      && s1.writers[s.generation]
         == if at < |clip| then Writing(phrase, clip, at + 1) else Done(phrase, clip, at)
  {
  }

  /** A writer under way: how far it is after n more resumptions. */
  lemma {:induction false} WriterGoesOn(phrases: seq<Phrase>, s: State, n: nat, phrase: Phrase, clip: Clip, at: nat)
    requires at <= |clip| && s.generation in s.writers && s.writers[s.generation] == Writing(phrase, clip, at)
    ensures var r := Run(phrases, s, Writes(s.generation, n));
      && s.generation in r.writers
      && r.writers[s.generation]
         == if at + n <= |clip| then Writing(phrase, clip, at + n) else Done(phrase, clip, |clip|)
    decreases n
  {
    if n == 0 {
    } else {
      WriterStep(s, phrase, clip, at);
      OneWrite(phrases, s, n);
      if at < |clip| {
        WriterGoesOn(phrases, Wrote(s, s.generation), n - 1, phrase, clip, at + 1);
      } else {
        WriterIsDone(phrases, Wrote(s, s.generation), n - 1);
      }
    }
  }

  lemma OneWrite(phrases: seq<Phrase>, s: State, n: nat)
    requires n > 0
    ensures Run(phrases, s, Writes(s.generation, n))
         == Run(phrases, Wrote(s, s.generation), Writes(s.generation, n - 1))
  {
    assert Writes(s.generation, n)[1..] == Writes(s.generation, n - 1);
  }

  lemma {:induction false} WriterIsDone(phrases: seq<Phrase>, s: State, n: nat)
    requires s.generation in s.writers && s.writers[s.generation].Done?
    ensures var r := Run(phrases, s, Writes(s.generation, n));
      s.generation in r.writers && r.writers[s.generation] == s.writers[s.generation]
    decreases n
  {
    if n == 0 {
    } else {
      OneWrite(phrases, s, n);
      WriterIsDone(phrases, Wrote(s, s.generation), n - 1);
    }
  }

  /**
   * A filler that is armed on a published track, with a clip in memory for some phrase other than the last, chooses one
   * such phrase when its timer ends, and left alone its writer gives that phrase's clip from the first frame to the
   * last.
   */
  lemma ArmedFillerPlays(phrases: seq<Phrase>, before: seq<Event>, phrase: Phrase, clip: Clip, choice: nat, n: nat)
    requires phrase in phrases && Run(phrases, INITIAL, before).last != Some(phrase)
    ensures var s := Run(phrases, INITIAL, before);
      var clips, g := s.clips[phrase := clip], s.generation + 2;
      var armed := Run(phrases, s, [Publish, Warm(phrase, clip), Arm, Timer(g, choice)]);
      var log := Run(phrases, armed, Writes(g, n)).log;
      exists p ::
        && p in phrases && p in clips && s.last != Some(p) && armed.chosen == s.chosen + [p]
        && FramesOf(log, g) == if n <= |clips[p]| then clips[p][..n] else clips[p]
  {
    var s := Run(phrases, INITIAL, before);
    EveryRunIsValid(phrases, before);
    RunKeeps(phrases, s, [Publish, Warm(phrase, clip), Arm, Timer(s.generation + 2, choice)]);
    var p := ArmedFires(phrases, s, phrase, clip, choice);
    FirstWrite(phrases, Run(phrases, s, [Publish, Warm(phrase, clip), Arm, Timer(s.generation + 2, choice)]), n, p);
  }

  lemma ArmedFires(phrases: seq<Phrase>, s: State, phrase: Phrase, clip: Clip, choice: nat) returns (p: Phrase)
    requires TasksAreIssued(s) && phrase in phrases && s.last != Some(phrase)
    ensures var armed := Run(phrases, s, [Publish, Warm(phrase, clip), Arm, Timer(s.generation + 2, choice)]);
      && p in phrases && p in armed.clips && s.last != Some(p)
      && armed.clips == s.clips[phrase := clip] && armed.chosen == s.chosen + [p]
      && armed.published && armed.generation == s.generation + 2
      && armed.generation in armed.writers && armed.writers[armed.generation] == Waiting(p)
  {
    FourSteps(phrases, s, Publish, Warm(phrase, clip), Arm, Timer(s.generation + 2, choice));
    var ready := Ready(phrases, s.clips[phrase := clip], s.last);
    assert phrase in ready;
    p := ready[choice % |ready|];
    assert p in ready;
  }

  lemma FourSteps(phrases: seq<Phrase>, s: State, a: Event, b: Event, c: Event, d: Event)
    ensures Run(phrases, s, [a, b, c, d])
         == Next(phrases, Next(phrases, Next(phrases, Next(phrases, s, a), b), c), d)
  {
    assert [a, b, c, d][1..] == [b, c, d] && [b, c, d][1..] == [c, d] && [c, d][1..] == [d] && [d][1..] == [];
    var s1 := Next(phrases, s, a);
    var s2 := Next(phrases, s1, b);
    assert Run(phrases, s1, [b, c, d]) == Run(phrases, s2, [c, d]);
    assert Run(phrases, Next(phrases, s2, c), [d]) == Next(phrases, Next(phrases, s2, c), d);
  }

  lemma FirstStep(s: State, p: Phrase)
    requires s.published && p in s.clips && s.generation in s.writers && s.writers[s.generation] == Waiting(p)
    ensures var s1, clip := Wrote(s, s.generation), s.clips[p];
      && s1.generation == s.generation && s1.generation in s1.writers
      && s1.writers[s.generation] == if clip == [] then Done(p, clip, 0) else Writing(p, clip, 1)
  {
  }

  lemma WriterEnds(phrases: seq<Phrase>, s: State, n: nat, p: Phrase)
    requires s.published && p in s.clips && s.generation in s.writers && s.writers[s.generation] == Waiting(p)
    ensures var r, clip := Run(phrases, s, Writes(s.generation, n)), s.clips[p];
      && s.generation in r.writers
      && r.writers[s.generation]
         == if n == 0 then Waiting(p) else if n <= |clip| then Writing(p, clip, n) else Done(p, clip, |clip|)
  {
    if n > 0 {
      OneWrite(phrases, s, n);
      FirstStep(s, p);
      if s.clips[p] == [] {
        WriterIsDone(phrases, Wrote(s, s.generation), n - 1);
      } else {
        WriterGoesOn(phrases, Wrote(s, s.generation), n - 1, p, s.clips[p], 1);
      }
    }
  }

  lemma FirstWrite(phrases: seq<Phrase>, s: State, n: nat, p: Phrase)
    requires Valid(phrases, s) && s.published && p in s.clips
    requires s.generation in s.writers && s.writers[s.generation] == Waiting(p)
    ensures FramesOf(Run(phrases, s, Writes(s.generation, n)).log, s.generation)
         == if n <= |s.clips[p]| then s.clips[p][..n] else s.clips[p]
  {
    var r := Run(phrases, s, Writes(s.generation, n));
    RunKeeps(phrases, s, Writes(s.generation, n));
    assert FramesOf(r.log, s.generation) == GivenBy(r.writers, s.generation);
    WriterEnds(phrases, s, n, p);
  }

  lemma {:induction false} ClosedWritesNothing(phrases: seq<Phrase>, s: State, events: seq<Event>)
    requires Valid(phrases, s) && !s.published && Publish !in events
    requires s.generation in s.writers ==> !s.writers[s.generation].Writing?
    ensures Run(phrases, s, events).log == s.log
    decreases events
  {
    if events == [] {
    } else {
      assert events[0] in events;
      NextKeeps(phrases, s, events[0]);
      ClosedWritesNothing(phrases, Next(phrases, s, events[0]), events[1..]);
    }
  }

  /** Once closed, a filler writes nothing until it is published again, however often it is armed. */
  lemma ClosedFillerIsSilent(phrases: seq<Phrase>, before: seq<Event>, after: seq<Event>)
    requires Publish !in after
    ensures var s := Run(phrases, INITIAL, before); Run(phrases, Next(phrases, s, Close), after).log == s.log
  {
    EveryRunIsValid(phrases, before);
    var s := Run(phrases, INITIAL, before);
    NextKeeps(phrases, s, Close);
    ClosedWritesNothing(phrases, Next(phrases, s, Close), after);
  }

  // ---- Stopping ----

  /** Every task is outdated. */
  ghost predicate Silenced(s: State) {
    (forall g :: g in s.timers ==> g < s.generation) && (forall g :: g in s.writers ==> g < s.generation)
  }

  lemma {:induction false} SilenceHolds(phrases: seq<Phrase>, s: State, events: seq<Event>)
    requires Silenced(s) && Arm !in events
    ensures var r := Run(phrases, s, events); Silenced(r) && r.log == s.log && r.chosen == s.chosen
    decreases events
  {
    if events == [] {
    } else {
      assert events[0] in events;
      SilenceHolds(phrases, Next(phrases, s, events[0]), events[1..]);
    }
  }

  /** After a stop no frame is written and no phrase is chosen until a later arm, whatever tasks are still scheduled. */
  lemma StopIsImmediate(phrases: seq<Phrase>, before: seq<Event>, after: seq<Event>)
    requires Arm !in after
    ensures var s := Run(phrases, INITIAL, before);
      var stopped, closed := Run(phrases, Next(phrases, s, Stop), after), Run(phrases, Next(phrases, s, Close), after);
      stopped.log == closed.log == s.log && stopped.chosen == closed.chosen == s.chosen
  {
    EveryRunIsValid(phrases, before);
    var s := Run(phrases, INITIAL, before);
    SilenceHolds(phrases, Next(phrases, s, Stop), after);
    SilenceHolds(phrases, Next(phrases, s, Close), after);
  }

  lemma OneTimerLess(s: set<nat>, x: nat)
    ensures |s - {x}| == |s| - if x in s then 1 else 0
    ensures |s + {x}| <= |s| + 1
  {
    if x !in s { assert s - {x} == s; }
  }

  lemma FiredSpends(phrases: seq<Phrase>, s: State, generation: nat, choice: nat)
    ensures var s1 := Fired(phrases, s, generation, choice); s1.spoken + |s1.timers| <= s.spoken + |s.timers|
  {
    OneTimerLess(s.timers, generation);
  }

  lemma PhraseStep(phrases: seq<Phrase>, s: State, e: Event)
    ensures var s1 := Next(phrases, s, e);
      s1.spoken + |s1.timers| <= s.spoken + |s.timers| + if e.Arm? then 1 else 0
  {
    match e
    case Arm => OneTimerLess(s.timers, s.generation + 2);
    case Timer(generation, choice) => FiredSpends(phrases, s, generation, choice);
    case _ =>
  }

  /** One phrase at most is played for each arm. */
  lemma {:induction false} OnePhrasePerArm(phrases: seq<Phrase>, s: State, events: seq<Event>)
    ensures var r := Run(phrases, s, events); 
      r.spoken + |r.timers| <= s.spoken + |s.timers| + multiset(events)[Arm]
    decreases events
  {
    if events == [] {
    } else {
      PhraseStep(phrases, s, events[0]);
      assert events == [events[0]] + events[1..];
      OnePhrasePerArm(phrases, Next(phrases, s, events[0]), events[1..]);
    }
  }
}
