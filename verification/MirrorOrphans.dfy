/** What LiveKit holds and nobody names: when a step leaves something behind, and which runs leave nothing. */
module MirrorOrphans {
  import opened Options
  import opened SipResources
  import opened MirrorJobs
  import opened MirrorDrift
  import opened MirrorTasks
  import opened MirrorOwnership
  import opened MirrorSettling
  import opened MirrorConvergence

  /** The id a task is about to write to its row. */
  function WillName<C>(at: Progress<C>): set<string> {
    if at.Pushed? && at.mine.sync.resourceId != at.loaded.sync.resourceId then IdsOf(at.mine) else {}
  }

  ghost predicate Named<C>(rows: map<RowId, Row<C>>, tasks: seq<Task<C>>, id: string) {
    || (exists k :: k in rows && id in IdsOf(rows[k]))
    || (exists i :: 0 <= i < |tasks| && id in WillName(tasks[i].at))
  }

  ghost predicate StrayTrunk(m: Mirror, id: string) {
    id in m.w.store.trunks && !Named(m.w.trunks, m.trunkTasks, id)
  }

  ghost predicate StrayRule(m: Mirror, id: string) {
    id in m.w.store.rules && !Named(m.w.rules, m.ruleTasks, id)
  }

  /** The commit of task i replaces the id its row has in the database, and nobody else names that. */
  ghost predicate Abandons<C>(rows: map<RowId, Row<C>>, tasks: seq<Task<C>>, i: nat, id: string)
    requires i < |tasks|
  {
    var task := tasks[i];
    && task.at.Pushed? && task.id in rows && id in IdsOf(rows[task.id])
    && task.at.mine.sync.resourceId != task.at.loaded.sync.resourceId && id !in IdsOf(task.at.mine)
    && (forall k :: k in rows && k != task.id ==> id !in IdsOf(rows[k]))
    && (forall j :: 0 <= j < |tasks| && j != i ==> id !in WillName(tasks[j].at))
  }

  /** A step whose task commits: the id is named afterwards exactly if it was before and is not abandoned. */
  lemma CommitNamesIff<C>(
    rows: map<RowId, Row<C>>, rows': map<RowId, Row<C>>, tasks: seq<Task<C>>, i: nat, task': Task<C>, flushed: bool,
    id: string)
    requires i < |tasks| && tasks[i].at.Pushed? && tasks[i].id in rows && WillName(task'.at) == {}
    requires rows' == rows[tasks[i].id := Merged(rows[tasks[i].id], tasks[i].at.loaded, tasks[i].at.mine, flushed)]
    ensures Named(rows', tasks[i := task'], id) <==> Named(rows, tasks, id) && !Abandons(rows, tasks, i, id)
  {
    var k, after := tasks[i].id, tasks[i := task'];
    assert IdsOf(rows'[k]) == if tasks[i].at.mine.sync.resourceId != tasks[i].at.loaded.sync.resourceId
                              then IdsOf(tasks[i].at.mine) else IdsOf(rows[k]);
    if u :| u in rows && u != k && id in IdsOf(rows[u]) {
      assert u in rows' && rows'[u] == rows[u];
    } else if j :| 0 <= j < |tasks| && j != i && id in WillName(tasks[j].at) {
      assert after[j] == tasks[j];
    } else {
      assert forall j :: 0 <= j < |after| && j != i ==> after[j] == tasks[j];
      assert forall u :: u in rows && u != k ==> rows'[u] == rows[u];
      assert Named(rows', after, id) <==> id in IdsOf(rows'[k]);
      assert Named(rows, tasks, id) <==> id in IdsOf(rows[k]) || id in WillName(tasks[i].at);
    }
  }

  /** Any other step leaves the rows, and only adds names. */
  lemma OtherStepsKeepNames<C>(rows: map<RowId, Row<C>>, tasks: seq<Task<C>>, i: nat, task': Task<C>, id: string)
    requires i < |tasks| && !tasks[i].at.Pushed?
    ensures Named(rows, tasks[i := task'], id) <==> Named(rows, tasks, id) || id in WillName(task'.at)
  {
    var after := tasks[i := task'];
    if u :| u in rows && id in IdsOf(rows[u]) {
    } else if j :| 0 <= j < |tasks| && id in WillName(tasks[j].at) {
      assert after[j] == tasks[j];
    } else if id in WillName(task'.at) {
      assert after[i] == task';
    } else {
      assert forall j :: 0 <= j < |after| ==> after[j] == if j == i then task' else tasks[j];
    }
  }

  /**
   * Exactly when a step leaves a trunk behind in LiveKit: it commits a new id over one that the database has for the
   * row, that LiveKit still holds and that nobody else names. Deletions that fail and tasks that overlap both come to
   * this.
   */
  lemma TrunkStrayAddedIff(m: Mirror, i: nat, replies: TrunkReplies, dependents: seq<RowId>, id: string)
    requires Sound(m) && i < |m.trunkTasks| && NewId(m.w.store, replies.newId) && !StrayTrunk(m, id)
    ensures StrayTrunk(TrunkStepped(m, i, replies, dependents), id)
       <==> id in m.w.store.trunks && Abandons(m.w.trunks, m.trunkTasks, i, id)
  {
    var w, task, m1 := m.w, m.trunkTasks[i], TrunkStepped(m, i, replies, dependents);
    assert Consistent(w.trunks, task, w.store.issued);
    if task.at.Pushed? {
      CommitNamesIff(w.trunks, m1.w.trunks, m.trunkTasks, i, m1.trunkTasks[i], true, id);
    } else {
      OtherStepsKeepNames(w.trunks, m.trunkTasks, i, task.(at := TrunkProgress(w, task, replies)), id);
      TrunkStepHolds(w, task, replies, id);
    }
  }

  /** A step that does not commit holds nothing more than before, but for what it is about to name. */
  lemma TrunkStepHolds(w: World, task: TrunkTask, replies: TrunkReplies, id: string)
    requires Consistent(w.trunks, task, w.store.issued) && NewId(w.store, replies.newId)
    ensures id in StoreAfterTrunk(w, task, replies).trunks ==>
              id in w.store.trunks || id in WillName(TrunkProgress(w, task, replies))
  {
    if PushesTrunk(task) {
      TrunkPushCases(task.at.mine, AcceptedNumbers(w.numbers, task.id), task.at.input, w.store, replies);
    }
  }

  /** The same for rules. */
  lemma RuleStrayAddedIff(m: Mirror, i: nat, replies: RuleReplies, id: string)
    requires Sound(m) && i < |m.ruleTasks| && NewId(m.w.store, replies.newId) && !StrayRule(m, id)
    ensures StrayRule(RuleStepped(m, i, replies), id)
       <==> id in m.w.store.rules && Abandons(m.w.rules, m.ruleTasks, i, id)
  {
    var w, task, m1 := m.w, m.ruleTasks[i], RuleStepped(m, i, replies);
    assert Consistent(w.rules, task, w.store.issued);
    if task.at.Pushed? {
      CommitNamesIff(w.rules, m1.w.rules, m.ruleTasks, i, m1.ruleTasks[i], task.at.loaded.config.individual, id);
    } else {
      OtherStepsKeepNames(w.rules, m.ruleTasks, i, task.(at := RuleProgress(w, task, replies)), id);
    }
  }

  // ---- Runs that leave nothing behind ----

  /** A deletion fails only when there is nothing to delete. */
  predicate DeletesHeld(m: Mirror, e: Event) {
    match e
    case TrunkStep(i, replies, _) =>
      (i < |m.trunkTasks| && ClearsTrunk(m.trunkTasks[i])
       && m.trunkTasks[i].at.mine.sync.resourceId.value in m.w.store.trunks) ==> replies.deletion.Ok?
    case RuleStep(i, replies) =>
      (i < |m.ruleTasks| && ClearsRule(m.ruleTasks[i])
       && m.ruleTasks[i].at.mine.sync.resourceId.value in m.w.store.rules) ==> replies.deletion.Ok?
    case _ => true
  }

  /**
   * No two tasks of one row overlap; creations, updates and passwords may fail, deletions only on what is not there,
   * and tasks may crash anywhere.
   */
  ghost predicate Serial(m: Mirror, events: seq<Event>)
    decreases events
  {
    && (forall k :: Solo(m.trunkTasks, k)) && (forall k :: Solo(m.ruleTasks, k))
    && (events != [] ==> Fresh(m, events[0]) && DeletesHeld(m, events[0]) && Serial(Next(m, events[0]), events[1..]))
  }

  /** The task's row is as it was read, and what the task has let go of is gone. */
  ghost predicate Tidy<C>(rows: map<RowId, Row<C>>, held: set<string>, task: Task<C>) {
    && (Active(task.at) ==> task.id in rows && task.at.loaded == rows[task.id])
    && (task.at.Ready? ==> task.at.mine.sync.resourceId == task.at.loaded.sync.resourceId)
    && ((task.at.Cleared? || task.at.Pushed?) && task.at.mine.sync.resourceId != task.at.loaded.sync.resourceId ==>
          IdsOf(task.at.loaded) !! held)
    && (task.at.Cleared? ==> task.at.mine.sync.resourceId == None && IdsOf(task.at.loaded) !! held)
  }

  ghost predicate AllTidy(m: Mirror) {
    && (forall i :: 0 <= i < |m.trunkTasks| ==> Tidy(m.w.trunks, m.w.store.trunks.Keys, m.trunkTasks[i]))
    && (forall i :: 0 <= i < |m.ruleTasks| ==> Tidy(m.w.rules, m.w.store.rules.Keys, m.ruleTasks[i]))
  }

  /** A task that does not step stays tidy, unless it is under way on a row that another task commits. */
  lemma StaysTidy<C>(
    rows: map<RowId, Row<C>>, rows': map<RowId, Row<C>>, held: set<string>, held': set<string>, issued: set<string>,
    newId: string, task: Task<C>)
    requires Tidy(rows, held, task) && Consistent(rows, task, issued) && held' <= held + {newId} && newId !in issued
    requires Active(task.at) ==> task.id in rows' && rows'[task.id] == rows[task.id]
    ensures Tidy(rows', held', task)
  {
  }

  lemma TrunkStepStaysTidy(m: Mirror, i: nat, replies: TrunkReplies, dependents: seq<RowId>)
    requires Sound(m) && AllTidy(m) && i < |m.trunkTasks| && NewId(m.w.store, replies.newId)
    requires DeletesHeld(m, TrunkStep(i, replies, dependents)) && Solo(m.trunkTasks, m.trunkTasks[i].id)
    ensures AllTidy(TrunkStepped(m, i, replies, dependents))
  {
    var task, m1 := m.trunkTasks[i], TrunkStepped(m, i, replies, dependents);
    TrunkStepKeepsSides(m.w, task, replies);
    forall j | 0 <= j < |m1.trunkTasks| ensures Tidy(m1.w.trunks, m1.w.store.trunks.Keys, m1.trunkTasks[j]) {
      if j != i {
        assert m1.trunkTasks[j] == m.trunkTasks[j];
        StaysTidy(m.w.trunks, m1.w.trunks, m.w.store.trunks.Keys, m1.w.store.trunks.Keys, m.w.store.issued,
                  replies.newId, m.trunkTasks[j]);
      }
    }
    forall j | 0 <= j < |m1.ruleTasks| ensures Tidy(m1.w.rules, m1.w.store.rules.Keys, m1.ruleTasks[j]) {
      if j < |m.ruleTasks| { assert m1.ruleTasks[j] == m.ruleTasks[j]; }
    }
  }

  lemma RuleStepStaysTidy(m: Mirror, i: nat, replies: RuleReplies)
    requires Sound(m) && AllTidy(m) && i < |m.ruleTasks| && NewId(m.w.store, replies.newId)
    requires DeletesHeld(m, RuleStep(i, replies)) && Solo(m.ruleTasks, m.ruleTasks[i].id)
    ensures AllTidy(RuleStepped(m, i, replies))
  {
    var task, m1 := m.ruleTasks[i], RuleStepped(m, i, replies);
    RuleStepKeepsSides(m.w, task, replies);
    forall j | 0 <= j < |m1.ruleTasks| ensures Tidy(m1.w.rules, m1.w.store.rules.Keys, m1.ruleTasks[j]) {
      if j != i {
        assert m1.ruleTasks[j] == m.ruleTasks[j];
        StaysTidy(m.w.rules, m1.w.rules, m.w.store.rules.Keys, m1.w.store.rules.Keys, m.w.store.issued, replies.newId,
                  m.ruleTasks[j]);
      }
    }
  }

  lemma NextStaysTidy(m: Mirror, e: Event)
    requires Sound(m) && AllTidy(m) && Fresh(m, e) && DeletesHeld(m, e)
    requires (forall k :: Solo(m.trunkTasks, k)) && (forall k :: Solo(m.ruleTasks, k))
    ensures AllTidy(Next(m, e))
  {
    match e
    case TrunkStep(i, replies, dependents) =>
      if i < |m.trunkTasks| { TrunkStepStaysTidy(m, i, replies, dependents); }
    case RuleStep(i, replies) => if i < |m.ruleTasks| { RuleStepStaysTidy(m, i, replies); }
    case EnqueueTrunk(_, _) =>
      assert forall j :: 0 <= j < |m.trunkTasks| ==> Next(m, e).trunkTasks[j] == m.trunkTasks[j];
    case EnqueueRule(_) => assert forall j :: 0 <= j < |m.ruleTasks| ==> Next(m, e).ruleTasks[j] == m.ruleTasks[j];
    case TrunkCrash(_) =>
    case RuleCrash(_) =>
  }

  /** The task crashes after LiveKit has answered with a new id and before it has committed that. */
  predicate Strands<C>(tasks: seq<Task<C>>, i: nat) {
    i < |tasks| && WillName(tasks[i].at) != {}
  }

  predicate StrandsTrunk(m: Mirror, e: Event) {
    e.TrunkCrash? && Strands(m.trunkTasks, e.i)
  }

  predicate StrandsRule(m: Mirror, e: Event) {
    e.RuleCrash? && Strands(m.ruleTasks, e.i)
  }

  /** Any other crash takes no name away. */
  lemma CrashKeepsNames<C>(rows: map<RowId, Row<C>>, tasks: seq<Task<C>>, i: nat, id: string)
    requires !Strands(tasks, i)
    ensures Named(rows, Crashed(tasks, i), id) <==> Named(rows, tasks, id)
  {
    if i < |tasks| {
      assert forall j :: 0 <= j < |tasks| && j != i ==> Crashed(tasks, i)[j] == tasks[j];
      if j :| 0 <= j < |tasks| && id in WillName(tasks[j].at) { assert Crashed(tasks, i)[j] == tasks[j]; }
    }
  }

  /** A tidy task abandons nothing, since what its row still names is gone, unless it strands what it has made. */
  lemma TidyStepAddsNoStray(m: Mirror, e: Event, id: string)
    requires Sound(m) && AllTidy(m) && Fresh(m, e)
    ensures !StrandsTrunk(m, e) && StrayTrunk(Next(m, e), id) ==> StrayTrunk(m, id)
    ensures !StrandsRule(m, e) && StrayRule(Next(m, e), id) ==> StrayRule(m, id)
  {
    match e
    case TrunkStep(i, replies, dependents) =>
      if i < |m.trunkTasks| {
        if !StrayTrunk(m, id) { TrunkStrayAddedIff(m, i, replies, dependents, id); }
        TrunkStepKeepsSides(m.w, m.trunkTasks[i], replies);
        EnqueueingAddsNoName(m.w.rules, m.ruleTasks, Next(m, e).ruleTasks, id);
      }
    case RuleStep(i, replies) =>
      if i < |m.ruleTasks| {
        if !StrayRule(m, id) { RuleStrayAddedIff(m, i, replies, id); }
        RuleStepKeepsSides(m.w, m.ruleTasks[i], replies);
      }
    case EnqueueTrunk(_, _) => EnqueueingAddsNoName(m.w.trunks, m.trunkTasks, Next(m, e).trunkTasks, id);
    case EnqueueRule(_) => EnqueueingAddsNoName(m.w.rules, m.ruleTasks, Next(m, e).ruleTasks, id);
    case TrunkCrash(i) => if !StrandsTrunk(m, e) { CrashKeepsNames(m.w.trunks, m.trunkTasks, i, id); }
    case RuleCrash(i) => if !StrandsRule(m, e) { CrashKeepsNames(m.w.rules, m.ruleTasks, i, id); }
  }

  lemma EnqueueingAddsNoName<C>(rows: map<RowId, Row<C>>, tasks: seq<Task<C>>, more: seq<Task<C>>, id: string)
    requires |more| >= |tasks|
    requires forall j :: 0 <= j < |more| ==> if j < |tasks| then more[j] == tasks[j] else more[j].at.Waiting?
    ensures Named(rows, more, id) <==> Named(rows, tasks, id)
  {
    if j :| 0 <= j < |tasks| && id in WillName(tasks[j].at) { assert more[j] == tasks[j]; }
  }

  /** Some trunk task of the run is stranded. */
  predicate TrunkStranded(m: Mirror, events: seq<Event>)
    decreases events
  {
    events != [] && (StrandsTrunk(m, events[0]) || TrunkStranded(Next(m, events[0]), events[1..]))
  }

  predicate RuleStranded(m: Mirror, events: seq<Event>)
    decreases events
  {
    events != [] && (StrandsRule(m, events[0]) || RuleStranded(Next(m, events[0]), events[1..]))
  }

  lemma {:induction false} SerialRunsAddNoStray(m: Mirror, events: seq<Event>, id: string)
    requires Sound(m) && AllTidy(m) && Serial(m, events)
    ensures !TrunkStranded(m, events) && StrayTrunk(Run(m, events), id) ==> StrayTrunk(m, id)
    ensures !RuleStranded(m, events) && StrayRule(Run(m, events), id) ==> StrayRule(m, id)
    decreases events
  {
    if events == [] {
    } else {
      NextStaysSound(m, events[0]);
      NextStaysTidy(m, events[0]);
      TidyStepAddsNoStray(m, events[0], id);
      SerialRunsAddNoStray(Next(m, events[0]), events[1..], id);
    }
  }

  // ---- Orphans, as the drift check finds them ----

  function TrunkOrphanIds(w: World): set<string> {
    set id | id in w.store.trunks && (forall t :: t in w.trunks ==> id !in IdsOf(w.trunks[t]))
  }

  function RuleOrphanIds(w: World): set<string> {
    set id | id in w.store.rules && (forall r :: r in w.rules ==> id !in IdsOf(w.rules[r]))
  }

  /** No task is about to commit. */
  predicate NoneCommitting(m: Mirror) {
    && (forall i :: 0 <= i < |m.trunkTasks| ==> !m.trunkTasks[i].at.Pushed?)
    && (forall i :: 0 <= i < |m.ruleTasks| ==> !m.ruleTasks[i].at.Pushed?)
  }

  /**
   * While no two tasks of one row overlap and deletions fail only on absent ids, no run adds an orphan unless a task
   * is stranded in it.
   */
  lemma NoNewOrphans(m: Mirror, events: seq<Event>)
    requires Sound(m) && NoTasks(m) && Serial(m, events) && NoneCommitting(Run(m, events))
    ensures !TrunkStranded(m, events) ==> TrunkOrphanIds(Run(m, events).w) <= TrunkOrphanIds(m.w)
    ensures !RuleStranded(m, events) ==> RuleOrphanIds(Run(m, events).w) <= RuleOrphanIds(m.w)
  {
    forall id | !TrunkStranded(m, events) && id in TrunkOrphanIds(Run(m, events).w) ensures id in TrunkOrphanIds(m.w) {
      SerialRunsAddNoStray(m, events, id);
    }
    forall id | !RuleStranded(m, events) && id in RuleOrphanIds(Run(m, events).w) ensures id in RuleOrphanIds(m.w) {
      SerialRunsAddNoStray(m, events, id);
    }
  }

  ghost predicate OrphanFound(findings: seq<Finding>, id: string) {
    exists f :: f in findings && f.kind == ORPHAN && f.resourceId == id
  }

  /** A drift check finds an orphan for exactly the ids LiveKit holds and no row names. */
  lemma CheckFindsOrphansIff(w: World, check: DriftCheck, id: string)
    requires check.Of(w)
    ensures OrphanFound(check.TrunkFindings(), id) <==> id in TrunkOrphanIds(w)
    ensures OrphanFound(check.RuleFindings(), id) <==> id in RuleOrphanIds(w)
  {
    TrunkOrphansIff(check.trunkSnapshots, NamedIds(check.trunkRows), id);
    RuleOrphansIff(check.ruleSnapshots, NamedIds(check.ruleRows), id);
    RowFindingsAreNoOrphans(check, |check.trunkRows|, |check.ruleRows|);
    assert check.trunkRows[..|check.trunkRows|] == check.trunkRows
      && check.ruleRows[..|check.ruleRows|] == check.ruleRows;
    assert id in w.store.trunks ==> SnapTrunk(id, w.store.trunks[id]).id == id;
    assert id in w.store.rules ==> SnapRule(id, w.store.rules[id]).id == id;
    NamedIdsAreRows(check.trunkRows, w.trunks, id);
    NamedIdsAreRows(check.ruleRows, w.rules, id);
  }

  lemma NamedIdsAreRows<C>(rows: seq<Row<C>>, m: map<RowId, Row<C>>, id: string)
    requires RowsOf(rows, m)
    ensures id in NamedIds(rows) <==> exists k :: k in m && id in IdsOf(m[k])
  {
    if id in NamedIds(rows) {
      var row :| row in rows && Truthy(row.sync.resourceId) && row.sync.resourceId.value == id;
      assert row.id in m && id in IdsOf(m[row.id]);
    }
    if k :| k in m && id in IdsOf(m[k]) { assert m[k] in rows; }
  }

  lemma {:induction false} RowFindingsAreNoOrphans(check: DriftCheck, n: nat, k: nat)
    requires n <= |check.trunkRows| && k <= |check.ruleRows|
    ensures forall f :: f in TrunkRowFindings(check.trunkRows[..n], check.numbersByTrunk, check.trunkSnapshots) ==>
              f.kind != ORPHAN
    ensures forall f :: f in RuleRowFindings(check.ruleRows[..k], check.idsByRule, check.ruleSnapshots) ==>
              f.kind != ORPHAN
    decreases n + k
  {
    if n > 0 {
      RowFindingsAreNoOrphans(check, n - 1, k);
      assert check.trunkRows[..n][..n - 1] == check.trunkRows[..n - 1];
    }
    if k > 0 {
      RowFindingsAreNoOrphans(check, n, k - 1);
      assert check.ruleRows[..k][..k - 1] == check.ruleRows[..k - 1];
    }
  }

  /** So a drift check after such a run finds no orphan that a check before it did not find. */
  lemma NoNewOrphanFindings(m: Mirror, events: seq<Event>, before: DriftCheck, after: DriftCheck, id: string)
    requires Sound(m) && NoTasks(m) && Serial(m, events) && NoneCommitting(Run(m, events))
    requires before.Of(m.w) && after.Of(Run(m, events).w)
    ensures !TrunkStranded(m, events) && OrphanFound(after.TrunkFindings(), id) ==>
              OrphanFound(before.TrunkFindings(), id)
    ensures !RuleStranded(m, events) && OrphanFound(after.RuleFindings(), id) ==>
              OrphanFound(before.RuleFindings(), id)
  {
    NoNewOrphans(m, events);
    CheckFindsOrphansIff(m.w, before, id);
    CheckFindsOrphansIff(Run(m, events).w, after, id);
  }

  /**
   * A repair whose deletion raises on a held id leaves that id behind exactly when no other row names it, even if
   * nothing interrupts it.
   */
  lemma FailedDeletionOrphansIff(m: Mirror, t: RowId, replies: TrunkReplies)
    requires Sound(m) && t in m.w.trunks && NewId(m.w.store, replies.newId)
    requires replies.password.Opened? && replies.creation.Ok? && replies.deletion.Raised?
    requires Truthy(m.w.trunks[t].sync.resourceId) && m.w.trunks[t].sync.resourceId.value in m.w.store.trunks
    ensures m.w.trunks[t].sync.resourceId.value in TrunkOrphanIds(TrunkJobAlone(m.w, t, true, replies))
       <==> forall u :: u in m.w.trunks && u != t ==> m.w.trunks[u].sync.resourceId != m.w.trunks[t].sync.resourceId
  {
    var w' := TrunkJobAlone(m.w, t, true, replies);
    var stale := m.w.trunks[t].sync.resourceId;
    assert w'.trunks[t].sync.resourceId == Some(replies.newId) && stale != Some(replies.newId);
    assert forall u :: u in m.w.trunks && u != t ==> w'.trunks[u] == m.w.trunks[u];
    assert stale.value in w'.store.trunks;
  }
}
