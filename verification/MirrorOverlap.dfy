/** Two tasks of one trunk that overlap: exactly when they leave an orphan behind. */
module MirrorOverlap {
  import opened Options
  import opened SipResources
  import opened MirrorJobs
  import opened MirrorTasks
  import opened MirrorOwnership
  import opened MirrorConvergence
  import opened MirrorOrphans
  import opened MirrorCrashes
  import opened MirrorPairs

  /** A task that will ask LiveKit for a new trunk: a repair, or any task of a row without an id. */
  predicate CreatesNew(task: TrunkTask, row: Row<TrunkConfig>) {
    task.repair || !Truthy(row.sync.resourceId)
  }

  predicate Theirs(e: Event, i: nat, j: nat) {
    e.TrunkStep? && e.i in {i, j}
  }

  /**
   * Neither of tasks i and j commits before the other has read the row, and LiveKit and the password store answer the
   * two as they should. No other task of their row steps or crashes; tasks of other rows do as they like.
   */
  predicate Overlap(m: Mirror, events: seq<Event>, i: nat, j: nat)
    requires i < |m.trunkTasks| && j < |m.trunkTasks|
    decreases events
  {
    events != [] ==>
      && Fresh(m, events[0])
      && (if Theirs(events[0], i, j) then
            && (m.trunkTasks[events[0].i].at.Pushed? ==>
                  !m.trunkTasks[i].at.Waiting? && !m.trunkTasks[j].at.Waiting?)
            && events[0].trunkReplies.password.Opened? && events[0].trunkReplies.creation.Ok?
            && DeletesHeld(m, events[0])
          else
            (events[0].TrunkStep? || events[0].TrunkCrash?) && events[0].i < |m.trunkTasks| ==>
              m.trunkTasks[events[0].i].id != m.trunkTasks[i].id)
      && Overlap(Next(m, events[0]), events[1..], i, j)
  }

  /** Some step of one of the two leaves something behind. */
  ghost predicate TheyLeaveAnOrphan(m: Mirror, events: seq<Event>, i: nat, j: nat)
    decreases events
  {
    && events != []
    && (|| (Theirs(events[0], i, j) && exists id :: StrayTrunk(Next(m, events[0]), id) && !StrayTrunk(m, id))
        || TheyLeaveAnOrphan(Next(m, events[0]), events[1..], i, j))
  }

  /** Two tasks of one trunk of which neither has called LiveKit: each is waiting or has just read the row. */
  ghost predicate Beginning(m: Mirror, i: nat, j: nat) {
    && i < |m.trunkTasks| && j < |m.trunkTasks| && i != j
    && m.trunkTasks[i].id == m.trunkTasks[j].id && m.trunkTasks[i].id in m.w.trunks
    && (m.trunkTasks[i].at.Waiting? || m.trunkTasks[i].at == Loaded(m.w.trunks[m.trunkTasks[i].id]))
    && (m.trunkTasks[j].at.Waiting? || m.trunkTasks[j].at == Loaded(m.w.trunks[m.trunkTasks[j].id]))
  }

  function TheTwo(m: Mirror, i: nat, j: nat, row: Row<TrunkConfig>): Two<TrunkConfig>
    requires i < |m.trunkTasks| && j < |m.trunkTasks|
  {
    Two(i, j, row, CreatesNew(m.trunkTasks[i], row), CreatesNew(m.trunkTasks[j], row))
  }

  predicate BothCreate(m: Mirror, i: nat, j: nat, row: Row<TrunkConfig>)
    requires i < |m.trunkTasks| && j < |m.trunkTasks|
  {
    CreatesNew(m.trunkTasks[i], row) && CreatesNew(m.trunkTasks[j], row)
  }

  ghost predicate Pair(m: Mirror, i: nat, j: nat, row: Row<TrunkConfig>, known: set<string>) {
    && Sound(m) && Owned(m, {}) && known <= m.w.store.issued && i < |m.trunkTasks| && j < |m.trunkTasks|
    && Paired(m.w.trunks, m.trunkTasks, m.w.store.trunks.Keys, known, TheTwo(m, i, j, row))
  }

  /** A step of one of the two brings it on its way. */
  lemma OwnStepMoves(w: World, task: TrunkTask, replies: TrunkReplies, row: Row<TrunkConfig>, known: set<string>)
    requires Consistent(w.trunks, task, w.store.issued) && NewId(w.store, replies.newId) && task.id in w.trunks
    requires known <= w.store.issued && w.store.trunks.Keys <= w.store.issued && IdsOf(row) <= known
    requires OnItsWay(task.at, row, CreatesNew(task, row), w.store.trunks.Keys, known) && task.id == row.id
    requires task.at.Waiting? ==> w.trunks[row.id] == row
    requires replies.password.Opened? && replies.creation.Ok?
    requires ClearsTrunk(task) && task.at.mine.sync.resourceId.value in w.store.trunks ==> replies.deletion.Ok?
    ensures var task' := task.(at := TrunkProgress(w, task, replies));
      && OnItsWay(task'.at, row, CreatesNew(task, row), StoreAfterTrunk(w, task, replies).trunks.Keys, known)
      && Commits(w.trunks, TrunksAfter(w, task), task, task', CreatesNew(task, row))
      && (task.at.Pushed? ==> StoreAfterTrunk(w, task, replies) == w.store)
  {
    if PushesTrunk(task) {
      TrunkPushCases(task.at.mine, AcceptedNumbers(w.numbers, task.id), task.at.input, w.store, replies);
    }
  }

  /** A step of the first of the two. */
  lemma FirstStepKeepsPair(m: Mirror, e: Event, i: nat, j: nat, row: Row<TrunkConfig>, known: set<string>)
    requires Pair(m, i, j, row, known) && Overlap(m, [e], i, j) && Theirs(e, i, j) && e.i == i
    ensures var m1 := Next(m, e); m1 != m ==>
      && |m1.trunkTasks| == |m.trunkTasks| && TheTwo(m1, i, j, row) == TheTwo(m, i, j, row)
      && Paired(m1.w.trunks, m1.trunkTasks, m1.w.store.trunks.Keys, known, TheTwo(m, i, j, row))
  {
    var task, m1, p := m.trunkTasks[i], Next(m, e), TheTwo(m, i, j, row);
    if m1 != m {
      assert Consistent(m.w.trunks, task, m.w.store.issued);
      TrunkStepSteps(m.w, task, e.trunkReplies);
      TrunkStepKeepsSides(m.w, task, e.trunkReplies);
      OwnStepMoves(m.w, task, e.trunkReplies, row, known);
      OwnStepKeepsPair(m.w.trunks, m1.w.trunks, m.trunkTasks, m1.trunkTasks[i], m.w.store.trunks.Keys,
                       m1.w.store.trunks.Keys, known, e.trunkReplies.newId, p);
    }
  }

  /** Any step of the run that is not one of theirs. */
  lemma OtherStepKeepsPair(m: Mirror, e: Event, i: nat, j: nat, row: Row<TrunkConfig>, known: set<string>)
    requires Pair(m, i, j, row, known) && Overlap(m, [e], i, j) && !Theirs(e, i, j)
    ensures var m1 := Next(m, e);
      && |m1.trunkTasks| >= |m.trunkTasks|
      && m1.trunkTasks[i] == m.trunkTasks[i] && m1.trunkTasks[j] == m.trunkTasks[j]
      && Paired(m1.w.trunks, m1.trunkTasks, m1.w.store.trunks.Keys, known, TheTwo(m, i, j, row))
  {
    var m1, p := Next(m, e), TheTwo(m, i, j, row);
    if e.TrunkStep? && e.i < |m.trunkTasks| && m1 != m {
      var task := m.trunkTasks[e.i];
      assert Consistent(m.w.trunks, task, m.w.store.issued);
      TrunkStepSteps(m.w, task, e.trunkReplies);
      TrunkStepKeepsSides(m.w, task, e.trunkReplies);
      OthersKeepPair(m.w.trunks, m1.w.trunks, m.trunkTasks, e.i, m1.trunkTasks[e.i], m.w.store.trunks.Keys,
                     m1.w.store.trunks.Keys, known, e.trunkReplies.newId, p);
    } else {
      if e.RuleStep? && e.i < |m.ruleTasks| { RuleStepKeepsSides(m.w, m.ruleTasks[e.i], e.ruleReplies); }
      EndingKeepsPair(m.w.trunks, m.trunkTasks, m1.trunkTasks, m.w.store.trunks.Keys, known, p);
    }
  }

  lemma NextKeepsPair(m: Mirror, e: Event, i: nat, j: nat, row: Row<TrunkConfig>, known: set<string>)
    requires Pair(m, i, j, row, known) && Overlap(m, [e], i, j)
    ensures Pair(Next(m, e), i, j, row, known) && TheTwo(Next(m, e), i, j, row) == TheTwo(m, i, j, row)
  {
    NextStaysSound(m, e);
    NextStaysOwned(m, e, {});
    NextIssuesMore(m, e);
    if !Theirs(e, i, j) {
      OtherStepKeepsPair(m, e, i, j, row, known);
    } else if e.i == i {
      FirstStepKeepsPair(m, e, i, j, row, known);
    } else {
      PairSwaps(m.w.trunks, m.trunkTasks, m.w.store.trunks.Keys, known, TheTwo(m, i, j, row));
      FirstStepKeepsPair(m, e, j, i, row, known);
      var m1 := Next(m, e);
      PairSwaps(m1.w.trunks, m1.trunkTasks, m1.w.store.trunks.Keys, known, TheTwo(m1, j, i, row));
    }
  }

  lemma NextIssuesMore(m: Mirror, e: Event)
    ensures m.w.store.issued <= Next(m, e).w.store.issued
  {
    if e.TrunkStep? && e.i < |m.trunkTasks| { TrunkStepKeepsSides(m.w, m.trunkTasks[e.i], e.trunkReplies); }
    if e.RuleStep? && e.i < |m.ruleTasks| { RuleStepKeepsSides(m.w, m.ruleTasks[e.i], e.ruleReplies); }
  }

  predicate IsOver(m: Mirror, i: nat) {
    i < |m.trunkTasks| && Over(m.trunkTasks[i].at)
  }

  predicate BothOver(m: Mirror, i: nat, j: nat) {
    IsOver(m, i) && IsOver(m, j)
  }

  /** The step that ends the pair, when both create: the commit of the second, which abandons what the first made. */
  lemma LastStepLeavesAnOrphan(m: Mirror, e: Event, i: nat, j: nat, row: Row<TrunkConfig>, known: set<string>)
    returns (id: string)
    requires Pair(m, i, j, row, known) && Overlap(m, [e], i, j) && BothCreate(m, i, j, row)
    requires !BothOver(m, i, j) && BothOver(Next(m, e), i, j) && Theirs(e, i, j) && e.i == i
    ensures id !in known && !StrayTrunk(m, id) && StrayTrunk(Next(m, e), id) && LostTrunk(Next(m, e), id)
  {
    var task, m1, p := m.trunkTasks[i], Next(m, e), TheTwo(m, i, j, row);
    assert Consistent(m.w.trunks, task, m.w.store.issued);
    assert m1.trunkTasks[j] == m.trunkTasks[j];
    TrunkStepSteps(m.w, task, e.trunkReplies);
    OwnStepMoves(m.w, task, e.trunkReplies, row, known);
    id := SecondCommitAbandons(m.w.trunks, m1.w.trunks, m.trunkTasks, m1.trunkTasks[i], m.w.store.trunks.Keys,
                               m1.w.store.trunks.Keys, known, e.trunkReplies.newId, p);
    assert id in IdsOf(m.w.trunks[row.id]);
    TrunkStrayAddedIff(m, i, e.trunkReplies, e.dependents, id);
  }

  lemma NoOrphanUnlessBothCreate(m: Mirror, e: Event, i: nat, j: nat, row: Row<TrunkConfig>, known: set<string>)
    requires Pair(m, i, j, row, known) && Overlap(m, [e], i, j) && Theirs(e, i, j) && !BothCreate(m, i, j, row)
    ensures forall id :: StrayTrunk(Next(m, e), id) ==> StrayTrunk(m, id)
  {
    var p := TheTwo(m, i, j, row);
    PairSwaps(m.w.trunks, m.trunkTasks, m.w.store.trunks.Keys, known, p);
    forall id | StrayTrunk(Next(m, e), id) && !StrayTrunk(m, id) ensures false {
      TrunkStrayAddedIff(m, e.i, e.trunkReplies, e.dependents, id);
      OneCreatesAbandonsNothing(m.w.trunks, m.trunkTasks, m.w.store.trunks.Keys, known,
                                if e.i == i then p else p.Swapped(), id);
    }
  }

  lemma {:induction false} OverlapIsFresh(m: Mirror, events: seq<Event>, i: nat, j: nat)
    requires i < |m.trunkTasks| && j < |m.trunkTasks| && Overlap(m, events, i, j)
    ensures AllFresh(m, events)
    decreases events
  {
    if events == [] {
    } else {
      OverlapIsFresh(Next(m, events[0]), events[1..], i, j);
    }
  }

  lemma {:induction false} NoOrphansUnlessBothCreate(m: Mirror, events: seq<Event>, i: nat, j: nat,
                                                     row: Row<TrunkConfig>, known: set<string>)
    requires Pair(m, i, j, row, known) && Overlap(m, events, i, j) && !BothCreate(m, i, j, row)
    ensures !TheyLeaveAnOrphan(m, events, i, j)
    decreases events
  {
    if events == [] {
    } else {
      var e := events[0];
      assert [e][1..] == [];
      if Theirs(e, i, j) { NoOrphanUnlessBothCreate(m, e, i, j, row, known); }
      NextKeepsPair(m, e, i, j, row, known);
      NoOrphansUnlessBothCreate(Next(m, e), events[1..], i, j, row, known);
    }
  }

  lemma {:induction false} AnOrphanWhenBothCreate(m: Mirror, events: seq<Event>, i: nat, j: nat, row: Row<TrunkConfig>,
                                                  known: set<string>) returns (id: string)
    requires Pair(m, i, j, row, known) && Overlap(m, events, i, j) && BothCreate(m, i, j, row)
    requires !BothOver(m, i, j) && BothOver(Run(m, events), i, j)
    ensures TheyLeaveAnOrphan(m, events, i, j) && id !in known && LostTrunk(Run(m, events), id)
    decreases events
  {
    var e, m1 := events[0], Next(m, events[0]);
    assert [e][1..] == [];
    NextKeepsPair(m, e, i, j, row, known);
    if !BothOver(m1, i, j) {
      id := AnOrphanWhenBothCreate(m1, events[1..], i, j, row, known);
    } else {
      if !Theirs(e, i, j) { OtherStepKeepsPair(m, e, i, j, row, known); }
      PairSwaps(m.w.trunks, m.trunkTasks, m.w.store.trunks.Keys, known, TheTwo(m, i, j, row));
      id := LastStepLeavesAnOrphan(m, e, e.i, if e.i == i then j else i, row, known);
      OverlapIsFresh(m1, events[1..], i, j);
      LostForGood(m1, events[1..], {}, id);
    }
  }

  lemma BeginningIsAPair(m: Mirror, i: nat, j: nat)
    requires Sound(m) && Owned(m, {}) && Beginning(m, i, j)
    ensures Pair(m, i, j, m.w.trunks[m.trunkTasks[i].id], m.w.store.issued)
  {
  }

  /**
   * After any run: exactly when two tasks of a trunk leave an orphan if each reads the row before the other commits and
   * LiveKit answers them as it should, whatever tasks of other rows do. It is when both ask for a new trunk, because
   * each is a repair or the row has no id; the orphan is then there for good.
   */
  lemma OverlapLeavesAnOrphanIff(m: Mirror, before: seq<Event>, events: seq<Event>, i: nat, j: nat)
    requires Sound(m) && NoTasks(m) && AllFresh(m, before) && Beginning(Run(m, before), i, j)
    requires Overlap(Run(m, before), events, i, j) && BothOver(Run(Run(m, before), events), i, j)
    ensures var b := Run(m, before);
      var both := BothCreate(b, i, j, b.w.trunks[b.trunkTasks[i].id]);
      && (TheyLeaveAnOrphan(b, events, i, j) <==> both)
      && (both ==> exists id :: id !in b.w.store.issued && StrayTrunk(Run(b, events), id))
  {
    var b := Run(m, before);
    var row, known := b.w.trunks[b.trunkTasks[i].id], b.w.store.issued;
    RunStaysOwned(m, before, {});
    BeginningIsAPair(b, i, j);
    if BothCreate(b, i, j, row) {
      var id := AnOrphanWhenBothCreate(b, events, i, j, row, known);
      LostIsStray(Run(b, events), id);
    } else {
      NoOrphansUnlessBothCreate(b, events, i, j, row, known);
    }
  }

  // ---- A trunk that is synced twice as it is created ----

  /** Two syncs of a trunk that LiveKit does not know yet create it twice whenever they overlap, and one is orphaned. */
  lemma TwoSyncsOfANewTrunkLeaveAnOrphan(m: Mirror, before: seq<Event>, events: seq<Event>, i: nat, j: nat)
    requires Sound(m) && NoTasks(m) && AllFresh(m, before) && Beginning(Run(m, before), i, j)
    requires Overlap(Run(m, before), events, i, j) && BothOver(Run(Run(m, before), events), i, j)
    requires var b := Run(m, before); !Truthy(b.w.trunks[b.trunkTasks[i].id].sync.resourceId)
    ensures exists id ::
              id !in Run(m, before).w.store.issued && StrayTrunk(Run(Run(m, before), events), id)
  {
    OverlapLeavesAnOrphanIff(m, before, events, i, j);
  }

  /** A new trunk, enqueued when it is created and again when a number is attached to it. */
  const NEW_TRUNK := Row(1, TrunkConfig(1, "office", [], None, None, false), Sync(None, PENDING, None, 0, None))
  const NEW_WORLD := World(map[1 := NEW_TRUNK], map[], [], Store(map[], map[], {}))
  const TWO_ENQUEUED := Mirror(NEW_WORLD, [Task(1, false, Waiting), Task(1, false, Waiting)], [])

  function Turn(i: nat, newId: string): Event {
    TrunkStep(i, TrunkReplies(Opened, Ok, Ok, Ok, newId, 0), [])
  }

  /** The second task reads the row while the first waits for LiveKit, and creates after the first has committed. */
  const TURNS := [Turn(0, "a"), Turn(0, "a"), Turn(1, "a"), Turn(0, "a"),
                  Turn(1, "b"), Turn(0, "b"), Turn(1, "b"), Turn(1, "c")]

  /** The task, not a repair, has come so far, and its copy has no id until LiveKit answers. */
  predicate CameTo(task: TrunkTask, steps: nat) {
    && task.id == 1 && !task.repair
    && match steps
       case 0 => task.at.Waiting?
       case 1 => task.at.Loaded? && task.at.loaded.sync.resourceId == None
       case 2 => task.at.Ready? && task.at.mine.sync.resourceId == None
       case 3 => task.at.Pushed?
       case _ => task.at.Finished?
  }

  /** The steps taken before turn k, when those turns are the last before each of the first four. */
  function Steps(k: nat, first: nat, second: nat, third: nat, fourth: nat): nat {
    if k <= first then 0 else if k <= second then 1 else if k <= third then 2 else if k <= fourth then 3 else 4
  }

  /** Where the tasks are before turn k, what LiveKit has handed out, and the row until the first commit. */
  predicate BeforeTurn(m: Mirror, k: nat) {
    && |m.trunkTasks| == 2 && 1 in m.w.trunks && (k <= 5 ==> m.w.trunks[1].sync.resourceId == None)
    && CameTo(m.trunkTasks[0], Steps(k, 0, 1, 3, 5)) && CameTo(m.trunkTasks[1], Steps(k, 2, 4, 6, 7))
    && m.w.store.issued == (if k <= 3 then {} else if k <= 6 then {"a"} else {"a", "b"})
  }

  lemma TaskTurn(w: World, task: TrunkTask, steps: nat, newId: string)
    requires steps < 4 && CameTo(task, steps) && 1 in w.trunks
    requires steps == 0 ==> w.trunks[1].sync.resourceId == None
    ensures var replies := Turn(0, newId).trunkReplies;
      && !ClearsTrunk(task) && CameTo(task.(at := TrunkProgress(w, task, replies)), steps + 1)
      && StoreAfterTrunk(w, task, replies).issued == w.store.issued + (if steps == 2 then {newId} else {})
    ensures 1 in TrunksAfter(w, task) && (steps < 3 ==> TrunksAfter(w, task) == w.trunks)
  {
  }

  lemma OneTurn(m: Mirror, k: nat)
    requires k < 8 && BeforeTurn(m, k)
    ensures Overlap(m, [TURNS[k]], 0, 1) && BeforeTurn(Next(m, TURNS[k]), k + 1)
  {
    var e, m1 := TURNS[k], Next(m, TURNS[k]);
    assert [e][1..] == [];
    TaskTurn(m.w, m.trunkTasks[e.i], if e.i == 0 then Steps(k, 0, 1, 3, 5) else Steps(k, 2, 4, 6, 7),
             e.trunkReplies.newId);
    assert m1.trunkTasks[1 - e.i] == m.trunkTasks[1 - e.i];
  }

  lemma {:induction false} AllTurns(m: Mirror, k: nat)
    requires k <= 8 && BeforeTurn(m, k)
    ensures Overlap(m, TURNS[k..], 0, 1) && BothOver(Run(m, TURNS[k..]), 0, 1)
    decreases 8 - k
  {
    if k == 8 {
      assert TURNS[k..] == [];
    } else {
      assert TURNS[k..][0] == TURNS[k] && TURNS[k..][1..] == TURNS[k + 1..];
      OneTurn(m, k);
      AllTurns(Next(m, TURNS[k]), k + 1);
    }
  }

  const ENQUEUES: seq<Event> := [EnqueueTrunk(1, false), EnqueueTrunk(1, false)]

  lemma TwoAreEnqueued()
    ensures Run(Mirror(NEW_WORLD, [], []), ENQUEUES) == TWO_ENQUEUED && AllFresh(Mirror(NEW_WORLD, [], []), ENQUEUES)
    ensures Sound(Mirror(NEW_WORLD, [], [])) && Beginning(TWO_ENQUEUED, 0, 1) && BeforeTurn(TWO_ENQUEUED, 0)
  {
    assert ENQUEUES[1..] == [EnqueueTrunk(1, false)] && ENQUEUES[1..][1..] == [];
  }

  /** From the moment the trunk exists: enqueued twice, it is created twice, and one of the two is orphaned. */
  lemma ANewTrunkIsOrphaned()
    ensures exists id :: StrayTrunk(Run(Run(Mirror(NEW_WORLD, [], []), ENQUEUES), TURNS[0..]), id)
  {
    TwoAreEnqueued();
    AllTurns(TWO_ENQUEUED, 0);
    TwoSyncsOfANewTrunkLeaveAnOrphan(Mirror(NEW_WORLD, [], []), ENQUEUES, TURNS[0..], 0, 1);
  }
}
