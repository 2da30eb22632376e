/** What keeps a repaired trunk in step with LiveKit, whatever the tasks of other rows do meanwhile. */
module MirrorSettling {
  // Between its commits a trunk is out of step only while a task of its own is on the way to name what is in step. The
  // invariant says so of every moment, before and after the first repair commits, and is kept by every step of every
  // task as long as no two tasks of the trunk are under way at once.

  import opened Options
  import opened SipResources
  import opened MirrorJobs
  import opened MirrorTasks
  import opened MirrorOwnership

  /** No two tasks of row k are under way at once. */
  ghost predicate Solo<C>(tasks: seq<Task<C>>, k: RowId) {
    forall i, j :: 0 <= i < j < |tasks| && tasks[i].id == tasks[j].id == k ==>
      !Active(tasks[i].at) || !Active(tasks[j].at)
  }

  /** A task under way still has the row it read. */
  ghost predicate Kept<C>(rows: map<RowId, Row<C>>, tasks: seq<Task<C>>, k: RowId) {
    && k in rows
    && forall i :: 0 <= i < |tasks| && tasks[i].id == k && Active(tasks[i].at) ==> tasks[i].at.loaded == rows[k]
  }

  // ---- A trunk ----

  /** LiveKit holds the id, with that configuration, password and the ACTIVE numbers, and it is this row's alone. */
  ghost predicate HeldAsTrunk(m: Mirror, k: RowId, config: TrunkConfig, id: Option<string>) {
    && Truthy(id) && id.value in m.w.store.trunks
    && TrunkCarries(m.w.store.trunks[id.value], k, config, AcceptedNumbers(m.w.numbers, k), config.password)
    && Private(m.w.trunks, m.trunkTasks, k, id.value)
  }

  /** The task has succeeded in repairing and only has to commit. */
  predicate Repaired(task: TrunkTask) {
    task.repair && task.at.Pushed? && task.at.mine.sync.status == SYNCED
  }

  /** A task of trunk k, before (`since` is false) or after the first repair of it has committed. */
  ghost predicate TrunkTaskOnTrack(m: Mirror, k: RowId, task: TrunkTask, since: bool)
    requires k in m.w.trunks
  {
    match task.at
    case Ready(loaded, mine, password) => mine == Pending(loaded) && password == loaded.config.password
    case Cleared(loaded, mine, password) =>
      task.repair && mine == WithoutId(Pending(loaded)) && password == loaded.config.password
    case Pushed(loaded, mine, _) =>
      since || Repaired(task) ==>
        && HeldAsTrunk(m, k, m.w.trunks[k].config, mine.sync.resourceId)
        && (mine.sync.resourceId != loaded.sync.resourceId ==> Repaired(task))
    case _ => true
  }

  ghost predicate TrunkOnTrack(m: Mirror, k: RowId, since: bool) {
    && Kept(m.w.trunks, m.trunkTasks, k)
    && (forall i :: 0 <= i < |m.trunkTasks| && m.trunkTasks[i].id == k ==>
          TrunkTaskOnTrack(m, k, m.trunkTasks[i], since))
    && (since ==>
          && Truthy(m.w.trunks[k].sync.resourceId)
          && (|| HeldAsTrunk(m, k, m.w.trunks[k].config, m.w.trunks[k].sync.resourceId)
              || exists i :: 0 <= i < |m.trunkTasks| && m.trunkTasks[i].id == k
                          && MidWay(m.trunkTasks[i].at)))
  }

  /** Tasks of these rows create what they ask for and reach their end; everything else may fail. */
  predicate Completes(m: Mirror, e: Event, trunks: set<RowId>, rules: set<RowId>) {
    match e
    case TrunkStep(i, replies, _) => i < |m.trunkTasks| && m.trunkTasks[i].id in trunks ==> replies.creation.Ok?
    case RuleStep(i, replies) => i < |m.ruleTasks| && m.ruleTasks[i].id in rules ==> replies.creation.Ok?
    case TrunkCrash(i) => i < |m.trunkTasks| ==> m.trunkTasks[i].id !in trunks
    case RuleCrash(i) => i < |m.ruleTasks| ==> m.ruleTasks[i].id !in rules
    case _ => true
  }

  /** A step of another row's task leaves what is held for this one. */
  lemma HeldTrunkOutlivesOthers(m: Mirror, i: nat, replies: TrunkReplies, dependents: seq<RowId>, k: RowId,
                                id: Option<string>)
    requires Sound(m) && i < |m.trunkTasks| && m.trunkTasks[i].id != k && NewId(m.w.store, replies.newId)
    requires k in m.w.trunks && HeldAsTrunk(m, k, m.w.trunks[k].config, id)
    ensures HeldAsTrunk(TrunkStepped(m, i, replies, dependents), k, m.w.trunks[k].config, id)
  {
    var task := m.trunkTasks[i];
    TrunkStepTouches(m.w, task, replies, id.value);
    TrunkStepNames(m.w, task, replies);
    TrunksAfterAreIssued(m.w, task);
    PrivateStays(m.w.trunks, TrunksAfter(m.w, task), m.trunkTasks, i, task.(at := TrunkProgress(m.w, task, replies)),
                 k, id.value, replies.newId);
  }

  /** The tasks of a row may do as they like with their own ids. */
  lemma OwnStepKeepsPrivate<C>(
    rows: map<RowId, Row<C>>, rows': map<RowId, Row<C>>, tasks: seq<Task<C>>, i: nat, task': Task<C>, id: string)
    requires i < |tasks| && task'.id == tasks[i].id && Private(rows, tasks, task'.id, id)
    requires rows'.Keys == rows.Keys && forall u :: u in rows && u != task'.id ==> rows'[u] == rows[u]
    ensures Private(rows', tasks[i := task'], task'.id, id)
  {
  }

  /** Reading the row, the password or nothing at all leaves LiveKit and the row alone. */
  lemma ReadingKeepsHeld(m: Mirror, i: nat, replies: TrunkReplies, dependents: seq<RowId>, id: Option<string>)
    requires i < |m.trunkTasks| && m.trunkTasks[i].id in m.w.trunks
    requires !ClearsTrunk(m.trunkTasks[i]) && !PushesTrunk(m.trunkTasks[i])
    requires HeldAsTrunk(m, m.trunkTasks[i].id, m.w.trunks[m.trunkTasks[i].id].config, id)
    ensures HeldAsTrunk(TrunkStepped(m, i, replies, dependents), m.trunkTasks[i].id,
                        m.w.trunks[m.trunkTasks[i].id].config, id)
  {
    var task := m.trunkTasks[i];
    OwnStepKeepsPrivate(m.w.trunks, TrunksAfter(m.w, task), m.trunkTasks, i,
                        task.(at := TrunkProgress(m.w, task, replies)), id.value);
  }

  /** What a push leaves the task with is held, if it created or if what it updates was held. */
  lemma PushHolds(m: Mirror, i: nat, replies: TrunkReplies, dependents: seq<RowId>)
    requires Sound(m) && i < |m.trunkTasks| && PushesTrunk(m.trunkTasks[i]) && NewId(m.w.store, replies.newId)
    requires m.trunkTasks[i].id in m.w.trunks && m.trunkTasks[i].at.input == m.trunkTasks[i].at.mine.config.password
    requires var task := m.trunkTasks[i];
      if Truthy(task.at.mine.sync.resourceId) then
        HeldAsTrunk(m, task.id, m.w.trunks[task.id].config, task.at.mine.sync.resourceId)
      else replies.creation.Ok?
    ensures var task, m1 := m.trunkTasks[i], TrunkStepped(m, i, replies, dependents);
      HeldAsTrunk(m1, task.id, m.w.trunks[task.id].config, m1.trunkTasks[i].at.mine.sync.resourceId)
  {
    var w, task, m1 := m.w, m.trunkTasks[i], TrunkStepped(m, i, replies, dependents);
    var numbers := AcceptedNumbers(w.numbers, task.id);
    assert Consistent(w.trunks, task, w.store.issued);
    TrunkPushCases(task.at.mine, numbers, task.at.input, w.store, replies);
    var id := m1.trunkTasks[i].at.mine.sync.resourceId;
    OwnStepKeepsPrivate(w.trunks, m1.w.trunks, m.trunkTasks, i, m1.trunkTasks[i], id.value);
  }

  /** A step of a task of trunk k. */
  lemma OwnTaskStaysOnTrack(m: Mirror, i: nat, replies: TrunkReplies, dependents: seq<RowId>, since: bool)
    requires Sound(m) && i < |m.trunkTasks| && NewId(m.w.store, replies.newId) && replies.creation.Ok?
    requires Solo(m.trunkTasks, m.trunkTasks[i].id) && TrunkOnTrack(m, m.trunkTasks[i].id, since)
    ensures var k, m1 := m.trunkTasks[i].id, TrunkStepped(m, i, replies, dependents);
      TrunkTaskOnTrack(m1, k, m1.trunkTasks[i], since)
  {
    var k, task := m.trunkTasks[i].id, m.trunkTasks[i];
    assert Consistent(m.w.trunks, task, m.w.store.issued);
    if PushesTrunk(task) {
      TrunkPushCases(task.at.mine, AcceptedNumbers(m.w.numbers, k), task.at.input, m.w.store, replies);
      if task.at.Cleared? || since || task.repair { PushHolds(m, i, replies, dependents); }
    } else if task.at.Loaded? && since {
      ReadingKeepsHeld(m, i, replies, dependents, m.w.trunks[k].sync.resourceId);
    }
  }

  predicate MidWay(at: Progress<TrunkConfig>) {
    at.Cleared? || at.Pushed?
  }

  /** The step commits a repair of trunk k that has succeeded. */
  predicate CommitsRepair(m: Mirror, e: Event, k: RowId) {
    e.TrunkStep? && e.i < |m.trunkTasks| && m.trunkTasks[e.i].id == k && Repaired(m.trunkTasks[e.i])
  }

  lemma CommitWritesMine(m: Mirror, i: nat, replies: TrunkReplies, dependents: seq<RowId>)
    requires i < |m.trunkTasks| && m.trunkTasks[i].at.Pushed? && Kept(m.w.trunks, m.trunkTasks, m.trunkTasks[i].id)
    ensures var task, m1 := m.trunkTasks[i], TrunkStepped(m, i, replies, dependents);
      task.id in m1.w.trunks && m1.w.trunks[task.id].sync == task.at.mine.sync
  {
    var task := m.trunkTasks[i];
  }

  /** After an own step the row in the database is held, or its task is past the point of clearing it. */
  lemma OwnStepLeavesRowHeld(m: Mirror, i: nat, replies: TrunkReplies, dependents: seq<RowId>, since: bool)
    requires Sound(m) && i < |m.trunkTasks| && Solo(m.trunkTasks, m.trunkTasks[i].id)
    requires TrunkOnTrack(m, m.trunkTasks[i].id, since) && (since || Repaired(m.trunkTasks[i]))
    ensures var k, m1 := m.trunkTasks[i].id, TrunkStepped(m, i, replies, dependents);
      && k in m1.w.trunks && Truthy(m1.w.trunks[k].sync.resourceId)
      && (|| HeldAsTrunk(m1, k, m1.w.trunks[k].config, m1.w.trunks[k].sync.resourceId)
          || exists j :: 0 <= j < |m1.trunkTasks| && m1.trunkTasks[j].id == k && MidWay(m1.trunkTasks[j].at))
  {
    var k, task, m1 := m.trunkTasks[i].id, m.trunkTasks[i], TrunkStepped(m, i, replies, dependents);
    TrunksAfterAreIssued(m.w, task);
    if task.at.Pushed? {
      CommitWritesMine(m, i, replies, dependents);
      ReadingKeepsHeld(m, i, replies, dependents, task.at.mine.sync.resourceId);
    } else if PushesTrunk(task) || ClearsTrunk(task) {
      assert m1.trunkTasks[i].id == k && MidWay(m1.trunkTasks[i].at);
    } else if HeldAsTrunk(m, k, m.w.trunks[k].config, m.w.trunks[k].sync.resourceId) {
      ReadingKeepsHeld(m, i, replies, dependents, m.w.trunks[k].sync.resourceId);
    } else {
      var j :| 0 <= j < |m.trunkTasks| && m.trunkTasks[j].id == k && MidWay(m.trunkTasks[j].at);
      assert j != i && m1.trunkTasks[j] == m.trunkTasks[j];
    }
  }

  /** What happens to another task of the same row: nothing, since only one of them is under way. */
  lemma IdleTaskStaysOnTrack(m: Mirror, i: nat, j: nat, replies: TrunkReplies, dependents: seq<RowId>, since: bool)
    requires i < |m.trunkTasks| && j < |m.trunkTasks| && i != j && m.trunkTasks[i].id == m.trunkTasks[j].id
    requires Solo(m.trunkTasks, m.trunkTasks[i].id) && Kept(m.w.trunks, m.trunkTasks, m.trunkTasks[i].id)
    requires TrunkTaskOnTrack(m, m.trunkTasks[i].id, m.trunkTasks[j], since)
    ensures var k, m1 := m.trunkTasks[i].id, TrunkStepped(m, i, replies, dependents);
      && k in m1.w.trunks && m1.trunkTasks[j] == m.trunkTasks[j]
      && TrunkTaskOnTrack(m1, k, m.trunkTasks[j], since || Repaired(m.trunkTasks[i]))
      && (Active(m.trunkTasks[j].at) ==> m.trunkTasks[j].at.loaded == m1.w.trunks[k])
  {
    var other := m.trunkTasks[j];
    if other.at.Pushed? && (since || Repaired(other)) {
      ReadingKeepsHeld(m, i, replies, dependents, other.at.mine.sync.resourceId);
    }
  }

  lemma OwnStepStaysOnTrack(m: Mirror, i: nat, replies: TrunkReplies, dependents: seq<RowId>, since: bool)
    requires Sound(m) && i < |m.trunkTasks| && NewId(m.w.store, replies.newId) && replies.creation.Ok?
    requires Solo(m.trunkTasks, m.trunkTasks[i].id) && TrunkOnTrack(m, m.trunkTasks[i].id, since)
    ensures TrunkOnTrack(TrunkStepped(m, i, replies, dependents), m.trunkTasks[i].id,
      since || Repaired(m.trunkTasks[i]))
  {
    var k, task, m1 := m.trunkTasks[i].id, m.trunkTasks[i], TrunkStepped(m, i, replies, dependents);
    var since' := since || Repaired(task);
    OwnTaskStaysOnTrack(m, i, replies, dependents, since);
    if since' { OwnStepLeavesRowHeld(m, i, replies, dependents, since); }
    forall j | 0 <= j < |m1.trunkTasks| && m1.trunkTasks[j].id == k
      ensures TrunkTaskOnTrack(m1, k, m1.trunkTasks[j], since')
      ensures Active(m1.trunkTasks[j].at) ==> m1.trunkTasks[j].at.loaded == m1.w.trunks[k]
    {
      if j != i { IdleTaskStaysOnTrack(m, i, j, replies, dependents, since); }
    }
  }

  lemma TaskOutlivesOthers(m: Mirror, i: nat, j: nat, replies: TrunkReplies, dependents: seq<RowId>, since: bool)
    requires Sound(m) && i < |m.trunkTasks| && j < |m.trunkTasks| && m.trunkTasks[i].id != m.trunkTasks[j].id
    requires NewId(m.w.store, replies.newId) && m.trunkTasks[j].id in m.w.trunks
    requires TrunkTaskOnTrack(m, m.trunkTasks[j].id, m.trunkTasks[j], since)
    ensures var k, m1 := m.trunkTasks[j].id, TrunkStepped(m, i, replies, dependents);
      k in m1.w.trunks && TrunkTaskOnTrack(m1, k, m.trunkTasks[j], since)
  {
    var task := m.trunkTasks[j];
    if task.at.Pushed? && (since || Repaired(task)) {
      HeldTrunkOutlivesOthers(m, i, replies, dependents, task.id, task.at.mine.sync.resourceId);
    }
  }

  /** A step of a task of another trunk. */
  lemma OtherStepStaysOnTrack(m: Mirror, i: nat, replies: TrunkReplies, dependents: seq<RowId>, k: RowId, since: bool)
    requires Sound(m) && i < |m.trunkTasks| && m.trunkTasks[i].id != k && NewId(m.w.store, replies.newId)
    requires TrunkOnTrack(m, k, since)
    ensures TrunkOnTrack(TrunkStepped(m, i, replies, dependents), k, since)
  {
    var m1 := TrunkStepped(m, i, replies, dependents);
    forall j | 0 <= j < |m1.trunkTasks| && m1.trunkTasks[j].id == k
      ensures TrunkTaskOnTrack(m1, k, m1.trunkTasks[j], since)
    {
      assert m1.trunkTasks[j] == m.trunkTasks[j];
      TaskOutlivesOthers(m, i, j, replies, dependents, since);
    }
    if HeldAsTrunk(m, k, m.w.trunks[k].config, m.w.trunks[k].sync.resourceId) {
      HeldTrunkOutlivesOthers(m, i, replies, dependents, k, m.w.trunks[k].sync.resourceId);
    } else if since {
      var j :| 0 <= j < |m.trunkTasks| && m.trunkTasks[j].id == k && MidWay(m.trunkTasks[j].at);
      assert m1.trunkTasks[j] == m.trunkTasks[j];
    }
  }

  /** The trunks, trunk k's tasks and what LiveKit holds stay, but for tasks enqueued; tasks of others may end. */
  predicate TrunksOnlyEnqueue(m: Mirror, m1: Mirror, k: RowId) {
    && m1.w.trunks == m.w.trunks && m1.w.numbers == m.w.numbers && m1.w.store.trunks == m.w.store.trunks
    && |m1.trunkTasks| >= |m.trunkTasks|
    && (forall j :: 0 <= j < |m1.trunkTasks| ==>
          if j < |m.trunkTasks| then KeptOrEnded(m.trunkTasks[j], m1.trunkTasks[j], k)
          else m1.trunkTasks[j].at.Waiting?)
  }

  /** The task is as it was, or it is another row's and has ended. */
  predicate KeptOrEnded<C(==)>(before: Task<C>, after: Task<C>, k: RowId) {
    after == before || (before.id != k && after == before.(at := Finished))
  }

  lemma EnqueueingStaysOnTrack(m: Mirror, m1: Mirror, k: RowId, since: bool)
    requires TrunksOnlyEnqueue(m, m1, k) && TrunkOnTrack(m, k, since)
    ensures TrunkOnTrack(m1, k, since)
  {
    forall j | 0 <= j < |m1.trunkTasks| && m1.trunkTasks[j].id == k
      ensures TrunkTaskOnTrack(m1, k, m1.trunkTasks[j], since)
      ensures Active(m1.trunkTasks[j].at) ==> m1.trunkTasks[j].at.loaded == m1.w.trunks[k]
    {
      if j < |m.trunkTasks| {
        var task := m.trunkTasks[j];
        assert m1.trunkTasks[j] == task;
      }
    }
    if since && !HeldAsTrunk(m, k, m.w.trunks[k].config, m.w.trunks[k].sync.resourceId) {
      var j :| 0 <= j < |m.trunkTasks| && m.trunkTasks[j].id == k && MidWay(m.trunkTasks[j].at);
      assert m1.trunkTasks[j] == m.trunkTasks[j];
    }
  }

  /** A step of a rule's task, a task enqueued, and a task that crashes. */
  lemma OtherEventsStayOnTrack(m: Mirror, e: Event, k: RowId, since: bool)
    requires !e.TrunkStep? && Completes(m, e, {k}, {}) && TrunkOnTrack(m, k, since)
    ensures TrunkOnTrack(Next(m, e), k, since)
  {
    if e.RuleStep? && e.i < |m.ruleTasks| { RuleStepKeepsSides(m.w, m.ruleTasks[e.i], e.ruleReplies); }
    EnqueueingStaysOnTrack(m, Next(m, e), k, since);
  }

  /** A repaired trunk stays repaired, and a repair that commits makes one, whatever other tasks do. */
  lemma TrunkStaysOnTrack(m: Mirror, e: Event, k: RowId, since: bool)
    requires Sound(m) && Fresh(m, e) && Completes(m, e, {k}, {}) && Solo(m.trunkTasks, k) && TrunkOnTrack(m, k, since)
    ensures TrunkOnTrack(Next(m, e), k, since || CommitsRepair(m, e, k))
  {
    match e
    case TrunkStep(i, replies, dependents) =>
      if i < |m.trunkTasks| {
        if m.trunkTasks[i].id == k { OwnStepStaysOnTrack(m, i, replies, dependents, since); }
        else { OtherStepStaysOnTrack(m, i, replies, dependents, k, since); }
      }
    case _ => OtherEventsStayOnTrack(m, e, k, since);
  }
}
