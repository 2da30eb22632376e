/** The call observer: a bounded queue, batched flushes that can fail, and what becomes of every record offered. */
module Observer {
  import opened Options
  import opened Whitespace

  const QUEUE_LIMIT := 512
  const BATCH_SIZE := 50
  const TURNS_KEPT := 64

  datatype Item =
    | Segment(sequence: nat, speaker: string, text: string, isPrivate: bool)
    | Event(kind: string, payload: string)

  datatype Phase = Open | Closing | Closed

  /** Where the records not saved have gone. */
  datatype Ledger = Ledger(offered: multiset<Item>, dropped: multiset<Item>, lost: multiset<Item>,
                           discarded: multiset<Item>)

  /** The observer and the rows it has committed, in order; `overcounted` is history. */
  datatype State = State(
    phase: Phase, enabled: bool, row: bool, queue: seq<Item>, inflight: seq<Item>, saved: seq<Item>, sequence: nat,
    written: nat, overcounted: nat, ledger: Ledger)

  function Fresh(enabled: bool): State {
    State(Open, enabled, false, [], [], [], 0, 0, 0, Ledger(multiset{}, multiset{}, multiset{}, multiset{}))
  }

  // ---- Batches ----

  function Segments(items: seq<Item>): seq<Item> {
    if items == [] then []
    else
      var n := |items| - 1;
      if items[n].Segment? then Segments(items[..n]) + [items[n]] else Segments(items[..n])
  }

  function Events(items: seq<Item>): seq<Item> {
    if items == [] then []
    else
      var n := |items| - 1;
      if items[n].Event? then Events(items[..n]) + [items[n]] else Events(items[..n])
  }

  /** The sequence numbers of the segments among the items. */
  function Numbers(items: seq<Item>): seq<nat> {
    if items == [] then []
    else
      var n := |items| - 1;
      if items[n].Segment? then Numbers(items[..n]) + [items[n].sequence] else Numbers(items[..n])
  }

  function Number(x: Item): seq<nat> {
    if x.Segment? then [x.sequence] else []
  }

  lemma {:induction false} BatchSplits(items: seq<Item>)
    ensures multiset(items) == multiset(Segments(items)) + multiset(Events(items))
  {
    if items == [] {
    } else {
      var n := |items| - 1;
      BatchSplits(items[..n]);
      assert items == items[..n] + [items[n]];
    }
  }

  lemma {:induction false} SegmentsKeepNumbers(items: seq<Item>)
    ensures Numbers(Segments(items)) == Numbers(items) && |Numbers(items)| == |Segments(items)|
  {
    if items == [] {
    } else {
      var n := |items| - 1;
      SegmentsKeepNumbers(items[..n]);
    }
  }

  lemma {:induction false} EventsHaveNone(items: seq<Item>)
    ensures Numbers(Events(items)) == []
  {
    if items == [] {
    } else {
      var n := |items| - 1;
      EventsHaveNone(items[..n]);
    }
  }

  lemma OneMoreNumber(items: seq<Item>, x: Item)
    ensures Numbers(items + [x]) == Numbers(items) + Number(x)
  {
    assert (items + [x])[..|items|] == items;
  }

  lemma NumbersAppendOne(a: seq<Item>, front: seq<Item>, x: Item)
    requires Numbers(a + front) == Numbers(a) + Numbers(front)
    ensures Numbers(a + (front + [x])) == Numbers(a) + Numbers(front + [x])
  {
    calc {
      Numbers(a + (front + [x]));
    ==  { assert a + (front + [x]) == (a + front) + [x]; }
      Numbers((a + front) + [x]);
    ==  { OneMoreNumber(a + front, x); }
      Numbers(a) + Numbers(front) + Number(x);
    ==
      Numbers(a) + (Numbers(front) + Number(x));
    ==  { OneMoreNumber(front, x); }
      Numbers(a) + Numbers(front + [x]);
    }
  }

  lemma {:induction false} NumbersAppend(a: seq<Item>, b: seq<Item>)
    ensures Numbers(a + b) == Numbers(a) + Numbers(b)
  {
    if b == [] {
      assert a + b == a;
    } else {
      var n := |b| - 1;
      NumbersAppend(a, b[..n]);
      NumbersAppendOne(a, b[..n], b[n]);
      assert b == b[..n] + [b[n]];
    }
  }

  // ---- Steps ----

  /** A full queue drops the record and counts it. */
  function Enqueued(s: State, item: Item): State {
    var l := s.ledger.(offered := s.ledger.offered + multiset{item});
    if |s.queue| < QUEUE_LIMIT then s.(queue := s.queue + [item], ledger := l)
    else s.(ledger := l.(dropped := l.dropped + multiset{item}))
  }

  /** An utterance, already trimmed: nothing when transcription is off or nothing was said. */
  function Recorded(s: State, speaker: string, text: string, isPrivate: bool): State {
    if !s.enabled || text == "" then s
    else Enqueued(s.(sequence := s.sequence + 1), Segment(s.sequence + 1, speaker, text, isPrivate))
  }

  function Min(a: nat, b: nat): nat {
    if a <= b then a else b
  }

  /** One batch leaves the queue; a closing observer takes only one more. */
  function Taken(s: State): State {
    if s.inflight != [] || s.phase.Closed? then s
    else
      var n := Min(|s.queue|, BATCH_SIZE);
      s.(inflight := s.queue[..n], queue := s.queue[n..], phase := if s.phase.Closing? then Closed else s.phase)
  }

  /** How a flush ends. An error or a cancellation rolls back; it comes before or after the segments were counted. */
  datatype Outcome = Committed | FailedEarly | FailedLate

  function Settled(s: State, outcome: Outcome): State {
    if outcome.Committed? then SavedBatch(s, Segments(s.inflight), Events(s.inflight))
    else LostBatch(s, Segments(s.inflight), outcome.FailedLate?)
  }

  /** Segments have nowhere to go without a transcript row. */
  function SavedBatch(s: State, segments: seq<Item>, events: seq<Item>): State {
    if s.row then
      s.(inflight := [], saved := s.saved + (segments + events), written := s.written + |segments|)
    else
      s.(inflight := [], saved := s.saved + events,
         ledger := s.ledger.(discarded := s.ledger.discarded + multiset(segments)))
  }

  function LostBatch(s: State, segments: seq<Item>, late: bool): State {
    var counted := if late && s.row then |segments| else 0;
    s.(inflight := [], written := s.written + counted, overcounted := s.overcounted + counted,
       ledger := s.ledger.(lost := s.ledger.lost + multiset(s.inflight)))
  }

  /** The flusher is cancelled, with whatever it holds. */
  function ClosingFrom(s: State, late: bool): State {
    Settled(s, if late then FailedLate else FailedEarly).(phase := if s.phase.Open? then Closing else s.phase)
  }

  datatype Step = Start | Say(speaker: string, text: string, isPrivate: bool) | Report(kind: string, payload: string)
                | Take | Settle(outcome: Outcome) | Close(late: bool)

  function Next(s: State, step: Step): State {
    match step
    case Start => s.(row := s.enabled || s.row)
    case Say(speaker, text, isPrivate) => Recorded(s, speaker, text, isPrivate)
    case Report(kind, payload) => Enqueued(s, Event(kind, payload))
    case Take => Taken(s)
    case Settle(outcome) => Settled(s, outcome)
    case Close(late) => ClosingFrom(s, late)
  }

  function Run(s: State, steps: seq<Step>): State
    decreases steps
  {
    if steps == [] then s else Run(Next(s, steps[0]), steps[1..])
  }

  // ---- Conservation ----

  /** Every record offered is in exactly one place, as often as it was offered. */
  ghost predicate Conserved(s: State) {
    s.ledger.offered
    == multiset(s.queue) + multiset(s.inflight) + multiset(s.saved) + s.ledger.dropped + s.ledger.lost
      + s.ledger.discarded
  }

  lemma TakeConserves(s: State)
    requires Conserved(s)
    ensures Conserved(Taken(s))
  {
    var n := Min(|s.queue|, BATCH_SIZE);
    assert s.queue == s.queue[..n] + s.queue[n..];
  }

  lemma SettleConserves(s: State, outcome: Outcome)
    requires Conserved(s)
    ensures Conserved(Settled(s, outcome))
  {
    BatchSplits(s.inflight);
  }

  lemma EnqueueConserves(s: State, item: Item)
    requires Conserved(s)
    ensures Conserved(Enqueued(s, item))
  {
  }

  lemma NextConserves(s: State, step: Step)
    requires Conserved(s)
    ensures Conserved(Next(s, step))
  {
    match step
    case Start =>
    case Say(speaker, text, isPrivate) =>
      EnqueueConserves(s.(sequence := s.sequence + 1), Segment(s.sequence + 1, speaker, text, isPrivate));
    case Report(kind, payload) => EnqueueConserves(s, Event(kind, payload));
    case Take => TakeConserves(s);
    case Settle(outcome) => SettleConserves(s, outcome);
    case Close(late) => SettleConserves(s, if late then FailedLate else FailedEarly);
  }

  // ---- Order ----

  ghost predicate Increasing(n: seq<nat>, top: nat) {
    (forall i, j :: 0 <= i < j < |n| ==> n[i] < n[j]) && (forall i :: 0 <= i < |n| ==> n[i] <= top)
  }

  /** The segments saved, in flight and queued, in that order, carry strictly increasing numbers. */
  ghost predicate InOrder(s: State) {
    Increasing(Numbers(s.saved) + Numbers(s.inflight) + Numbers(s.queue), s.sequence)
  }

  lemma IncreasingAppends(a: seq<nat>, b: seq<nat>, x: nat, top: nat)
    requires Increasing(a + b, top) && top < x
    ensures Increasing(a + (b + [x]), x)
  {
    assert a + (b + [x]) == a + b + [x];
  }

  lemma EnqueuedNumbers(s: State, item: Item)
    ensures var r := Enqueued(s, item);
      && r.inflight == s.inflight && r.saved == s.saved
      && (Numbers(r.queue) == Numbers(s.queue)
          || (item.Segment? && Numbers(r.queue) == Numbers(s.queue) + [item.sequence]))
  {
    NumbersAppend(s.queue, [item]);
    assert Numbers([item]) == if item.Segment? then [item.sequence] else [];
  }

  lemma EnqueueStaysInOrder(s: State, item: Item, top: nat)
    requires Increasing(Numbers(s.saved) + Numbers(s.inflight) + Numbers(s.queue), top)
    requires s.sequence >= top && (item.Segment? ==> s.sequence == item.sequence > top)
    ensures InOrder(Enqueued(s, item))
  {
    EnqueuedNumbers(s, item);
    if item.Segment? {
      IncreasingAppends(Numbers(s.saved) + Numbers(s.inflight), Numbers(s.queue), item.sequence, top);
    }
  }

  lemma TakeStaysInOrder(s: State)
    requires InOrder(s)
    ensures InOrder(Taken(s))
  {
    var n := Min(|s.queue|, BATCH_SIZE);
    assert s.queue == s.queue[..n] + s.queue[n..];
    NumbersAppend(s.queue[..n], s.queue[n..]);
    var saved := Numbers(s.saved);
    assert saved + [] + (Numbers(s.queue[..n]) + Numbers(s.queue[n..]))
        == saved + Numbers(s.queue[..n]) + Numbers(s.queue[n..]);
  }

  lemma IncreasingWithout(a: seq<nat>, b: seq<nat>, c: seq<nat>, top: nat)
    requires Increasing(a + b + c, top)
    ensures Increasing(a + [] + c, top)
  {
    var all, rest := a + b + c, a + [] + c;
    forall i | 0 <= i < |rest| ensures rest[i] == all[if i < |a| then i else i + |b|] {
    }
  }

  lemma SettledNumbers(s: State, outcome: Outcome)
    ensures var r := Settled(s, outcome);
      && r.inflight == [] && r.queue == s.queue && r.sequence == s.sequence
      && Numbers(r.saved) == Numbers(s.saved) + if outcome.Committed? && s.row then Numbers(s.inflight) else []
  {
    var segments, events := Segments(s.inflight), Events(s.inflight);
    SegmentsKeepNumbers(s.inflight);
    EventsHaveNone(s.inflight);
    NumbersAppend(segments, events);
    NumbersAppend(s.saved, segments + events);
    NumbersAppend(s.saved, events);
  }

  /** Either the middle joins the first part, or it goes. */
  lemma IncreasingSettles(a: seq<nat>, b: seq<nat>, c: seq<nat>, top: nat)
    requires Increasing(a + b + c, top)
    ensures Increasing(a + b + [] + c, top) && Increasing(a + [] + [] + c, top)
  {
    IncreasingWithout(a, b, c, top);
    assert a + b + [] == a + b;
    assert a + [] + [] == a + [];
  }

  lemma SettleStaysInOrder(s: State, outcome: Outcome)
    requires InOrder(s)
    ensures InOrder(Settled(s, outcome))
  {
    SettledNumbers(s, outcome);
    IncreasingSettles(Numbers(s.saved), Numbers(s.inflight), Numbers(s.queue), s.sequence);
  }

  lemma SayStaysInOrder(s: State, speaker: string, text: string, isPrivate: bool)
    requires InOrder(s)
    ensures InOrder(Recorded(s, speaker, text, isPrivate))
  {
    EnqueueStaysInOrder(s.(sequence := s.sequence + 1), Segment(s.sequence + 1, speaker, text, isPrivate), s.sequence);
  }

  /** Only what is saved, in flight and queued, and the last number, matter to the order. */
  lemma OrderIsKept(s: State, r: State)
    requires InOrder(s) && r.sequence == s.sequence
    requires r.saved == s.saved && r.inflight == s.inflight && r.queue == s.queue
    ensures InOrder(r)
  {
  }

  lemma CloseStaysInOrder(s: State, late: bool)
    requires InOrder(s)
    ensures InOrder(ClosingFrom(s, late))
  {
    var settled := Settled(s, if late then FailedLate else FailedEarly);
    SettleStaysInOrder(s, if late then FailedLate else FailedEarly);
    OrderIsKept(settled, ClosingFrom(s, late));
  }

  lemma NextStaysInOrder(s: State, step: Step)
    requires InOrder(s)
    ensures InOrder(Next(s, step))
  {
    match step
    case Start => OrderIsKept(s, Next(s, step));
    case Say(speaker, text, isPrivate) => SayStaysInOrder(s, speaker, text, isPrivate);
    case Report(kind, payload) => EnqueueStaysInOrder(s, Event(kind, payload), s.sequence);
    case Take => TakeStaysInOrder(s);
    case Settle(outcome) => SettleStaysInOrder(s, outcome);
    case Close(late) => CloseStaysInOrder(s, late);
  }

  // ---- Counts ----

  /** Both bounds hold, and the counter is the rows saved plus what late failures counted and rolled back. */
  ghost predicate Tallied(s: State) {
    |s.queue| <= QUEUE_LIMIT && |s.inflight| <= BATCH_SIZE && s.written == |Numbers(s.saved)| + s.overcounted
  }

  lemma SettleTallies(s: State, outcome: Outcome)
    requires Tallied(s)
    ensures Tallied(Settled(s, outcome))
    ensures Settled(s, outcome).overcounted > s.overcounted <==>
            outcome.FailedLate? && s.row && Numbers(s.inflight) != []
  {
    SettledNumbers(s, outcome);
    SegmentsKeepNumbers(s.inflight);
  }

  lemma NextTallies(s: State, step: Step)
    requires Tallied(s)
    ensures Tallied(Next(s, step))
  {
    match step
    case Settle(outcome) => SettleTallies(s, outcome);
    case Close(late) => SettleTallies(s, if late then FailedLate else FailedEarly);
    case _ =>
  }

  // ---- Every run ----

  lemma {:induction false} RunKeeps(s: State, steps: seq<Step>)
    requires Conserved(s) && InOrder(s) && Tallied(s)
    ensures var r := Run(s, steps); Conserved(r) && InOrder(r) && Tallied(r)
    decreases steps
  {
    if steps == [] {
    } else {
      NextConserves(s, steps[0]);
      NextStaysInOrder(s, steps[0]);
      NextTallies(s, steps[0]);
      RunKeeps(Next(s, steps[0]), steps[1..]);
    }
  }

  /**
   * In every run the queue stays within its limit, every record offered is saved, queued, in flight, dropped, lost or
   * discarded exactly as often as it was offered, and the saved segments carry strictly increasing numbers.
   */
  lemma NothingIsLostSilently(enabled: bool, steps: seq<Step>)
    ensures var r := Run(Fresh(enabled), steps);
      && |r.queue| <= QUEUE_LIMIT
      && Conserved(r)
      && (forall i, j :: 0 <= i < j < |Numbers(r.saved)| ==> Numbers(r.saved)[i] < Numbers(r.saved)[j])
      && r.written == |Numbers(r.saved)| + r.overcounted
  {
    RunKeeps(Fresh(enabled), steps);
    var r := Run(Fresh(enabled), steps);
    var all := Numbers(r.saved) + Numbers(r.inflight) + Numbers(r.queue);
    forall i | 0 <= i < |Numbers(r.saved)| ensures Numbers(r.saved)[i] == all[i] {
    }
  }

  // ---- Flushing ----

  /** Batches taken and committed, n of them. */
  function Rounds(n: nat): seq<Step> {
    if n == 0 then [] else [Take, Settle(Committed)] + Rounds(n - 1)
  }

  lemma OneRound(s: State, n: nat) returns (s1: State)
    requires s.phase.Open? && s.inflight == [] && s.row && n > 0
    ensures Run(s, Rounds(n)) == Run(s1, Rounds(n - 1))
    ensures var k := Min(|s.queue|, BATCH_SIZE);
      && s1.phase.Open? && s1.inflight == [] && s1.row && s1.queue == s.queue[k..]
      && multiset(s1.saved) == multiset(s.saved) + multiset(s.queue[..k])
      && Numbers(s1.saved) == Numbers(s.saved) + Numbers(s.queue[..k])
  {
    var taken := Next(s, Take);
    s1 := Next(taken, Settle(Committed));
    var steps := [Take, Settle(Committed)] + Rounds(n - 1);
    assert steps[1..] == [Settle(Committed)] + Rounds(n - 1) && steps[1..][1..] == Rounds(n - 1);
    BatchSplits(taken.inflight);
    SettledNumbers(taken, Committed);
  }

  /**
   * While batches are taken and their commits succeed, whatever is queued is saved in the end, every segment in its
   * order.
   */
  lemma {:induction false} QueueIsSaved(s: State, n: nat)
    requires s.phase.Open? && s.inflight == [] && s.row && |s.queue| <= n * BATCH_SIZE
    ensures var r := Run(s, Rounds(n));
      && r.queue == [] && r.inflight == []
      && multiset(r.saved) == multiset(s.saved) + multiset(s.queue)
      && Numbers(r.saved) == Numbers(s.saved) + Numbers(s.queue)
    decreases n
  {
    if n == 0 {
    } else {
      var s1 := OneRound(s, n);
      QueueIsSaved(s1, n - 1);
      var k := Min(|s.queue|, BATCH_SIZE);
      QueueSplits(s.queue, k);
      Associative(Numbers(s.saved), Numbers(s.queue[..k]), Numbers(s.queue[k..]));
    }
  }

  lemma LastIsSaved(s: State, n: nat)
    requires s.phase.Open? && s.inflight == [] && s.row && 0 < |s.queue| <= n * BATCH_SIZE
    ensures s.queue[|s.queue| - 1] in Run(s, Rounds(n)).saved
  {
    QueueIsSaved(s, n);
    var last := s.queue[|s.queue| - 1];
    assert multiset(s.queue)[last] > 0;
    assert multiset(Run(s, Rounds(n)).saved)[last] > 0;
  }

  /** So an utterance or an event offered while there is room is saved, as it was offered. */
  lemma OfferedIsSaved(
    s: State, speaker: string, text: string, isPrivate: bool, kind: string, payload: string, n: nat)
    requires s.phase.Open? && s.inflight == [] && s.row && s.enabled && text != ""
    requires |s.queue| < QUEUE_LIMIT && |s.queue| < n * BATCH_SIZE
    ensures Segment(s.sequence + 1, speaker, text, isPrivate)
         in Run(Next(s, Say(speaker, text, isPrivate)), Rounds(n)).saved
    ensures Event(kind, payload) in Run(Next(s, Report(kind, payload)), Rounds(n)).saved
  {
    LastIsSaved(Next(s, Say(speaker, text, isPrivate)), n);
    LastIsSaved(Next(s, Report(kind, payload)), n);
  }

  lemma Associative(a: seq<nat>, b: seq<nat>, c: seq<nat>)
    ensures a + b + c == a + (b + c)
  {
  }

  lemma QueueSplits(queue: seq<Item>, k: nat)
    requires k <= |queue|
    ensures multiset(queue) == multiset(queue[..k]) + multiset(queue[k..])
    ensures Numbers(queue) == Numbers(queue[..k]) + Numbers(queue[k..])
  {
    assert queue == queue[..k] + queue[k..];
    NumbersAppend(queue[..k], queue[k..]);
  }

  // ---- Closing ----

  lemma {:induction false} ClosedNeverFlushes(s: State, steps: seq<Step>)
    requires s.phase.Closed? && s.inflight == []
    ensures var r := Run(s, steps); r.saved == s.saved && s.queue <= r.queue
    decreases steps
  {
    if steps == [] {
    } else {
      ClosedNeverFlushes(Next(s, steps[0]), steps[1..]);
    }
  }

  /** What a closing observer with nothing in flight may still save. */
  function Room(s: State): nat {
    match s.phase
    case Open => 0
    case Closing => BATCH_SIZE
    case Closed => |s.inflight|
  }

  lemma ClosingStep(s: State, step: Step)
    requires !s.phase.Open? && |s.inflight| <= BATCH_SIZE && (s.phase.Closing? ==> s.inflight == [])
    ensures var s1 := Next(s, step);
      && !s1.phase.Open? && |s1.inflight| <= BATCH_SIZE && (s1.phase.Closing? ==> s1.inflight == [])
      && |s1.saved| + Room(s1) <= |s.saved| + Room(s)
  {
    BatchSplits(s.inflight);
    assert |s.inflight| == |multiset(s.inflight)|;
    assert |Segments(s.inflight)| + |Events(s.inflight)|
        == |multiset(Segments(s.inflight)) + multiset(Events(s.inflight))|;
  }

  lemma {:induction false} ClosingRun(s: State, steps: seq<Step>)
    requires !s.phase.Open? && |s.inflight| <= BATCH_SIZE && (s.phase.Closing? ==> s.inflight == [])
    ensures |Run(s, steps).saved| <= |s.saved| + Room(s)
    decreases steps
  {
    if steps == [] {
    } else {
      ClosingStep(s, steps[0]);
      ClosingRun(Next(s, steps[0]), steps[1..]);
    }
  }

  /** What a queue keeps once it can lose one more batch from its front, or none. */
  ghost predicate Keeps(later: State, queue: seq<Item>) {
    || (later.phase.Closing? && later.inflight == [] && queue <= later.queue)
    || (later.phase.Closed? && (|queue| > BATCH_SIZE ==> queue[BATCH_SIZE..] <= later.queue))
  }

  lemma ClosingStepKeepsTheRest(s: State, step: Step, queue: seq<Item>)
    requires Keeps(s, queue)
    ensures Keeps(Next(s, step), queue)
  {
  }

  lemma {:induction false} ClosingKeepsTheRest(s: State, steps: seq<Step>, queue: seq<Item>)
    requires Keeps(s, queue)
    ensures Keeps(Run(s, steps), queue)
    decreases steps
  {
    if steps == [] {
    } else {
      ClosingStepKeepsTheRest(s, steps[0], queue);
      ClosingKeepsTheRest(Next(s, steps[0]), steps[1..], queue);
    }
  }

  /**
   * Whatever still happens after closing, in whatever order: at most one batch more is saved, and what was queued
   * beyond a batch stays queued for good.
   */
  lemma CloseLeavesTheRest(s: State, late: bool, steps: seq<Step>)
    requires s.phase.Open?
    ensures var closing := Next(s, Close(late));
      && closing.queue == s.queue && closing.saved == s.saved
      && |Run(closing, steps).saved| <= |s.saved| + BATCH_SIZE
      && (|s.queue| > BATCH_SIZE ==> Run(closing, steps).queue != [])
      && (|s.queue| > BATCH_SIZE ==>
            (s.queue[BATCH_SIZE..] <= Run(closing, steps).queue || s.queue <= Run(closing, steps).queue))
  {
    ClosingRun(Next(s, Close(late)), steps);
    ClosingKeepsTheRest(Next(s, Close(late)), steps, s.queue);
  }

  /** One batch is what an undisturbed close flushes. */
  lemma UndisturbedCloseFlushesOneBatch(s: State, late: bool, outcome: Outcome)
    requires s.phase.Open?
    ensures var closed := Next(Next(Next(s, Close(late)), Take), Settle(outcome));
      && closed.queue == s.queue[Min(|s.queue|, BATCH_SIZE)..]
      && (closed.queue == [] <==> |s.queue| <= BATCH_SIZE)
  {
  }

  // ---- The observer ----

  datatype Part = Text(text: string) | Image
  datatype Content = Parts(parts: seq<Part>) | Plain(text: string)

  function SpeakerFor(role: string): Option<string> {
    if role == "user" then Some("CALLER") else if role == "assistant" then Some("AI") else None
  }

  function Texts(parts: seq<Part>): seq<string> {
    if parts == [] then [] else (if parts[0].Text? then [parts[0].text] else []) + Texts(parts[1..])
  }

  function Joined(texts: seq<string>): string {
    if texts == [] then "" else if |texts| == 1 then texts[0] else texts[0] + " " + Joined(texts[1..])
  }

  function Utterance(content: Content): string {
    match content
    case Parts(parts) => Joined(Texts(parts))
    case Plain(text) => text
  }

  lemma {:induction false} JoinedAppends(texts: seq<string>, text: string)
    ensures Joined(texts + [text]) == if texts == [] then text else Joined(texts) + " " + text
  {
    if texts == [] {
    } else {
      assert (texts + [text])[1..] == texts[1..] + [text];
      JoinedAppends(texts[1..], text);
      if |texts| > 1 {
        assert texts[0] + " " + (Joined(texts[1..]) + " " + text) == texts[0] + " " + Joined(texts[1..]) + " " + text;
      }
    }
  }

  lemma {:induction false} TextsAppend(parts: seq<Part>, part: Part)
    ensures Texts(parts + [part]) == Texts(parts) + if part.Text? then [part.text] else []
  {
    if parts == [] {
    } else {
      assert (parts + [part])[1..] == parts[1..] + [part];
      TextsAppend(parts[1..], part);
    }
  }

  /** An utterance in parts is its texts, a space apart and in order; what is not text adds nothing. */
  lemma UtteranceJoinsTexts(parts: seq<Part>, text: string)
    ensures Utterance(Parts([])) == ""
    ensures Utterance(Parts(parts + [Image])) == Utterance(Parts(parts))
    ensures Utterance(Parts(parts + [Text(text)]))
         == if forall part :: part in parts ==> part.Image? then text else Utterance(Parts(parts)) + " " + text
  {
    TextsAppend(parts, Image);
    assert Texts(parts) + [] == Texts(parts);
    TextsAppend(parts, Text(text));
    JoinedAppends(Texts(parts), text);
    NoTextsIff(parts);
  }

  lemma {:induction false} NoTextsIff(parts: seq<Part>)
    ensures Texts(parts) == [] <==> forall part :: part in parts ==> part.Image?
  {
    if parts == [] {
    } else {
      NoTextsIff(parts[1..]);
      assert parts[0] in parts && forall part :: part in parts <==> part == parts[0] || part in parts[1..];
      assert Texts(parts) == (if parts[0].Text? then [parts[0].text] else []) + Texts(parts[1..]);
    }
  }

  class CallObserver {
    const transcriptionEnabled: bool
    var phase: Phase
    var hasRow: bool
    var queue: seq<Item>
    var sequence: nat
    var segmentsWritten: nat
    ghost var inflight: seq<Item>
    ghost var saved: seq<Item>
    ghost var overcounted: nat
    ghost var ledger: Ledger

    ghost function View(): State
      reads this
    {
      State(phase, transcriptionEnabled, hasRow, queue, inflight, saved, sequence, segmentsWritten, overcounted, ledger)
    }

    constructor (enabled: bool)
      ensures View() == Fresh(enabled)
    {
      transcriptionEnabled := enabled;
      phase, hasRow, queue, sequence, segmentsWritten := Open, false, [], 0, 0;
      inflight, saved, overcounted := [], [], 0;
      ledger := Ledger(multiset{}, multiset{}, multiset{}, multiset{});
    }

    /** The transcript row exists once the observer has started with transcription on. */
    method Start()
      modifies this`hasRow
      ensures View() == Next(old(View()), Step.Start)
    {
      if transcriptionEnabled { hasRow := true; }
    }

    method Enqueue(item: Item)
      modifies this
      ensures View() == Enqueued(old(View()), item)
    {
      ledger := ledger.(offered := ledger.offered + multiset{item});
      if |queue| < QUEUE_LIMIT {
        queue := queue + [item];
      } else {
        ledger := ledger.(dropped := ledger.dropped + multiset{item});
      }
    }

    method RecordSegment(speaker: string, text: string, isPrivate: bool)
      modifies this
      ensures View() == Recorded(old(View()), speaker, Strip(text), isPrivate)
    {
      if !transcriptionEnabled {
        return;
      }
      var cleaned := Strip(text);
      if cleaned == "" {
        return;
      }
      sequence := sequence + 1;
      Enqueue(Segment(sequence, speaker, cleaned, isPrivate));
    }

    /** Prompt scaffolding and tool plumbing are not utterances. */
    method OnConversationItem(role: string, content: Content)
      modifies this
      ensures View() ==
              if role == "user" then Recorded(old(View()), "CALLER", Strip(Utterance(content)), false)
              else if role == "assistant" then Recorded(old(View()), "AI", Strip(Utterance(content)), false)
              else old(View())
    {
      if !transcriptionEnabled {
        return;
      }
      var speaker := SpeakerFor(role);
      if speaker.None? {
        return;
      }
      var cleaned := Strip(Utterance(content));
      if cleaned == "" {
        return;
      }
      sequence := sequence + 1;
      Enqueue(Segment(sequence, speaker.value, cleaned, false));
    }

    method Pull() returns (segments: seq<Item>, events: seq<Item>)
      requires inflight == []
      modifies `queue, `inflight
      ensures var n := Min(|old(queue)|, BATCH_SIZE); inflight == old(queue)[..n] && queue == old(queue)[n..]
      ensures segments == Segments(inflight) && events == Events(inflight)
    {
      segments, events := [], [];
      ghost var all, n := queue, 0;
      while queue != [] && |segments| + |events| < BATCH_SIZE
        invariant n == |segments| + |events| <= BATCH_SIZE && n <= |all|
        invariant inflight == all[..n] && queue == all[n..]
        invariant segments == Segments(inflight) && events == Events(inflight)
        decreases |queue|
      {
        var item := queue[0];
        assert all[..n + 1] == all[..n] + [item] && all[n..][1..] == all[n + 1..];
        queue := queue[1..];
        inflight := inflight + [item];
        if item.Segment? { segments := segments + [item]; } else { events := events + [item]; }
        n := n + 1;
      }
    }

    /** The part of a drain before its first suspension. */
    method TakeBatch() returns (segments: seq<Item>, events: seq<Item>)
      requires inflight == [] && !phase.Closed?
      modifies this
      ensures View() == Taken(old(View()))
      ensures segments == Segments(inflight) && events == Events(inflight)
    {
      segments, events := Pull();
      phase := if phase.Closing? then Closed else phase;
    }

    /** The segments are counted when they are inserted, before the transaction ends. */
    method Count(segments: seq<Item>)
      modifies `segmentsWritten
      ensures segmentsWritten == old(segmentsWritten) + if hasRow then |segments| else 0
    {
      if segments != [] && hasRow {
        segmentsWritten := segmentsWritten + |segments|;
      }
    }

    /** The rest of a drain when the transaction commits. */
    method CommitBatch(segments: seq<Item>, events: seq<Item>)
      modifies this
      ensures View() == SavedBatch(old(View()), segments, events)
    {
      Count(segments);
      inflight := [];
      saved := saved + if hasRow then segments + events else events;
      if !hasRow { ledger := ledger.(discarded := ledger.discarded + multiset(segments)); }
    }

    /** The rest of a drain when the transaction fails or is cancelled, before or after the segments were counted. */
    method RollBackBatch(segments: seq<Item>, late: bool)
      modifies this
      ensures View() == LostBatch(old(View()), segments, late)
    {
      if late {
        Count(segments);
        overcounted := overcounted + if hasRow then |segments| else 0;
      }
      ledger := ledger.(lost := ledger.lost + multiset(inflight));
      inflight := [];
    }
  }

  // ---- Turns being measured ----

  /** The turns kept, by speech id, with the time each was created. */
  class Turns {
    var created: map<string, real>

    constructor ()
      ensures created == map[]
    {
      created := map[];
    }

    /** The turn of a speech id, made when there is none; making one more than the limit first evicts an oldest. */
    method TurnFor(speechId: string, now: real) returns (turn: Option<real>)
      requires |created| <= TURNS_KEPT + 1
      modifies this
      ensures |created| <= TURNS_KEPT + 1
      ensures turn == if speechId == "" then None
                      else if speechId in old(created) then Some(old(created)[speechId])
                      else Some(now)
      ensures speechId == "" || speechId in old(created) ==> created == old(created)
      ensures speechId != "" && speechId !in old(created) ==>
                if |old(created)| <= TURNS_KEPT then created == old(created)[speechId := now]
                else exists oldest ::
                  && oldest in old(created)
                  && (forall id :: id in old(created) ==> old(created)[oldest] <= old(created)[id])
                  && created == (old(created) - {oldest})[speechId := now]
    {
      if speechId == "" {
        return None;
      }
      if speechId in created {
        return Some(created[speechId]);
      }
      if |created| > TURNS_KEPT {
        var oldest := Oldest();
        created := created - {oldest};
      }
      created := created[speechId := now];
      return Some(now);
    }

    method Oldest() returns (oldest: string)
      requires |created| > 0
      ensures oldest in created && forall id :: id in created ==> created[oldest] <= created[id]
    {
      var rest := created.Keys;
      oldest :| oldest in rest;
      rest := rest - {oldest};
      while rest != {}
        invariant oldest in created && rest <= created.Keys
        invariant forall id :: id in created && id !in rest ==> created[oldest] <= created[id]
        decreases |rest|
      {
        var id :| id in rest;
        if created[id] < created[oldest] { oldest := id; }
        rest := rest - {id};
      }
    }
  }
}
