/** Tasks that crash: exactly when one leaves an orphan behind, and for good. */
module MirrorCrashes {
  import opened Options
  import opened SipResources
  import opened MirrorJobs
  import opened MirrorTasks
  import opened MirrorOwnership
  import opened MirrorConvergence
  import opened MirrorOrphans

  // ---- What a task has made and not committed is its own ----

  /** Before it calls LiveKit to create or update, a task's copy has the id it read, or none when that was cleared. */
  predicate Orderly<C>(at: Progress<C>) {
    && (at.Ready? ==> at.mine.sync.resourceId == at.loaded.sync.resourceId)
    && (at.Cleared? ==> at.mine.sync.resourceId == None)
  }

  /** LiveKit holds the id, handed it out after `known`, and nobody but task i names it. */
  ghost predicate OnlyTasks<C>(
    rows: map<RowId, Row<C>>, tasks: seq<Task<C>>, held: set<string>, known: set<string>, i: nat, id: string)
  {
    && id in held && id !in known
    && (forall k :: k in rows ==> id !in IdsOf(rows[k]))
    && (forall j :: 0 <= j < |tasks| && j != i ==> id !in Names(tasks[j].at))
  }

  ghost predicate SideOwned<C>(
    rows: map<RowId, Row<C>>, tasks: seq<Task<C>>, held: set<string>, known: set<string>)
  {
    && (forall i :: 0 <= i < |tasks| ==> Orderly(tasks[i].at))
    && (forall i, id :: 0 <= i < |tasks| && id in WillName(tasks[i].at) ==> OnlyTasks(rows, tasks, held, known, i, id))
  }

  ghost predicate Owned(m: Mirror, known: set<string>) {
    && SideOwned(m.w.trunks, m.trunkTasks, m.w.store.trunks.Keys, known)
    && SideOwned(m.w.rules, m.ruleTasks, m.w.store.rules.Keys, known)
  }

  /** What a step of task i may do: take up its row's id or a new one, rewrite its row, and let go of its own ids. */
  ghost predicate SideSteps<C>(
    rows: map<RowId, Row<C>>, rows': map<RowId, Row<C>>, task: Task<C>, task': Task<C>, held: set<string>,
    held': set<string>, newId: string)
  {
    && Orderly(task'.at) && Names(task'.at) <= Names(task.at) + RowIds(rows, task.id) + {newId}
    && rows'.Keys == rows.Keys
    && (forall k :: k in rows ==>
          if k == task.id then IdsOf(rows'[k]) <= IdsOf(rows[k]) + Names(task.at) else rows'[k] == rows[k])
    && (forall id :: id in held && id !in Names(task.at) ==> id in held')
    && (forall id :: id in WillName(task'.at) ==> id == newId && id in held' && rows' == rows)
  }

  lemma SideStaysOwned<C>(
    rows: map<RowId, Row<C>>, rows': map<RowId, Row<C>>, tasks: seq<Task<C>>, i: nat, task': Task<C>,
    held: set<string>, held': set<string>, known: set<string>, issued: set<string>, newId: string)
    requires SideSound(rows, tasks, held, issued) && known <= issued && newId !in issued
    requires SideOwned(rows, tasks, held, known) && i < |tasks|
    requires SideSteps(rows, rows', tasks[i], task', held, held', newId)
    ensures SideOwned(rows', tasks[i := task'], held', known)
  {
    var after := tasks[i := task'];
    forall j, id | 0 <= j < |after| && id in WillName(after[j].at)
      ensures OnlyTasks(rows', after, held', known, j, id)
    {
      if j == i {
        forall u | 0 <= u < |after| && u != i ensures id !in Names(after[u].at) {
          assert after[u] == tasks[u] && Consistent(rows, tasks[u], issued);
        }
      } else {
        assert after[j] == tasks[j] && OnlyTasks(rows, tasks, held, known, j, id);
        OthersLeaveItAlone(rows, rows', tasks, i, task', held, held', known, issued, newId, j, id);
      }
    }
  }

  /** What another task has made and not committed. */
  lemma OthersLeaveItAlone<C>(
    rows: map<RowId, Row<C>>, rows': map<RowId, Row<C>>, tasks: seq<Task<C>>, i: nat, task': Task<C>,
    held: set<string>, held': set<string>, known: set<string>, issued: set<string>, newId: string, j: nat, id: string)
    requires held <= issued && newId !in issued && i < |tasks| && j != i && OnlyTasks(rows, tasks, held, known, j, id)
    requires SideSteps(rows, rows', tasks[i], task', held, held', newId)
    ensures OnlyTasks(rows', tasks[i := task'], held', known, j, id)
  {
    var after := tasks[i := task'];
    assert id !in Names(task'.at);
    forall u | 0 <= u < |after| && u != j ensures id !in Names(after[u].at) {
      if u != i { assert after[u] == tasks[u]; }
    }
  }

  lemma TrunkStepSteps(w: World, task: TrunkTask, replies: TrunkReplies)
    requires Consistent(w.trunks, task, w.store.issued) && Orderly(task.at) && NewId(w.store, replies.newId)
    requires w.store.trunks.Keys <= w.store.issued
    ensures SideSteps(w.trunks, TrunksAfter(w, task), task, task.(at := TrunkProgress(w, task, replies)),
                      w.store.trunks.Keys, StoreAfterTrunk(w, task, replies).trunks.Keys, replies.newId)
  {
    TrunkStepNames(w, task, replies);
    forall id | id in w.store.trunks && id !in Names(task.at) ensures id in StoreAfterTrunk(w, task, replies).trunks {
      TrunkStepTouches(w, task, replies, id);
    }
    if PushesTrunk(task) {
      TrunkPushCases(task.at.mine, AcceptedNumbers(w.numbers, task.id), task.at.input, w.store, replies);
    }
  }

  lemma RuleStepSteps(w: World, task: RuleTask, replies: RuleReplies)
    requires Consistent(w.rules, task, w.store.issued) && Orderly(task.at) && NewId(w.store, replies.newId)
    requires w.store.rules.Keys <= w.store.issued
    ensures SideSteps(w.rules, RulesAfter(w, task), task, task.(at := RuleProgress(w, task, replies)),
                      w.store.rules.Keys, StoreAfterRule(w, task, replies).rules.Keys, replies.newId)
  {
    RuleStepNames(w, task, replies);
    forall id | id in w.store.rules && id !in Names(task.at) ensures id in StoreAfterRule(w, task, replies).rules {
      RuleStepTouches(w, task, replies, id);
    }
  }

  /** Tasks enqueued or crashed name nothing. */
  lemma EndingStaysOwned<C>(
    rows: map<RowId, Row<C>>, tasks: seq<Task<C>>, after: seq<Task<C>>, held: set<string>, known: set<string>)
    requires SideOwned(rows, tasks, held, known) && |after| >= |tasks|
    requires forall j :: 0 <= j < |after| ==>
      || after[j].at.Waiting? || after[j].at.Finished?
      || (j < |tasks| && after[j] == tasks[j])
    ensures SideOwned(rows, after, held, known)
  {
    forall i, id | 0 <= i < |after| && id in WillName(after[i].at) ensures OnlyTasks(rows, after, held, known, i, id) {
      assert OnlyTasks(rows, tasks, held, known, i, id);
    }
  }

  lemma TrunkStepStaysOwned(m: Mirror, i: nat, replies: TrunkReplies, dependents: seq<RowId>, known: set<string>)
    requires Sound(m) && Owned(m, known) && known <= m.w.store.issued
    requires i < |m.trunkTasks| && NewId(m.w.store, replies.newId)
    ensures Owned(TrunkStepped(m, i, replies, dependents), known)
  {
    var task, m1 := m.trunkTasks[i], TrunkStepped(m, i, replies, dependents);
    if m1 != m {
      TrunkStepSteps(m.w, task, replies);
      TrunkStepKeepsSides(m.w, task, replies);
      SideStaysOwned(m.w.trunks, m1.w.trunks, m.trunkTasks, i, m1.trunkTasks[i], m.w.store.trunks.Keys,
                     m1.w.store.trunks.Keys, known, m.w.store.issued, replies.newId);
      EndingStaysOwned(m.w.rules, m.ruleTasks, m1.ruleTasks, m.w.store.rules.Keys, known);
    }
  }

  lemma RuleStepStaysOwned(m: Mirror, i: nat, replies: RuleReplies, known: set<string>)
    requires Sound(m) && Owned(m, known) && known <= m.w.store.issued
    requires i < |m.ruleTasks| && NewId(m.w.store, replies.newId)
    ensures Owned(RuleStepped(m, i, replies), known)
  {
    var task, m1 := m.ruleTasks[i], RuleStepped(m, i, replies);
    RuleStepSteps(m.w, task, replies);
    RuleStepKeepsSides(m.w, task, replies);
    SideStaysOwned(m.w.rules, m1.w.rules, m.ruleTasks, i, m1.ruleTasks[i], m.w.store.rules.Keys,
                   m1.w.store.rules.Keys, known, m.w.store.issued, replies.newId);
  }

  /** In any interleaving, what a task has made and not committed is its own. */
  lemma NextStaysOwned(m: Mirror, e: Event, known: set<string>)
    requires Sound(m) && Owned(m, known) && known <= m.w.store.issued && Fresh(m, e)
    ensures Owned(Next(m, e), known) && known <= Next(m, e).w.store.issued
  {
    var m1 := Next(m, e);
    match e
    case TrunkStep(i, replies, dependents) =>
      if i < |m.trunkTasks| {
        TrunkStepStaysOwned(m, i, replies, dependents, known);
        TrunkStepKeepsSides(m.w, m.trunkTasks[i], replies);
      }
    case RuleStep(i, replies) =>
      if i < |m.ruleTasks| {
        RuleStepStaysOwned(m, i, replies, known);
        RuleStepKeepsSides(m.w, m.ruleTasks[i], replies);
      }
    case _ =>
      EndingStaysOwned(m.w.trunks, m.trunkTasks, m1.trunkTasks, m.w.store.trunks.Keys, known);
      EndingStaysOwned(m.w.rules, m.ruleTasks, m1.ruleTasks, m.w.store.rules.Keys, known);
  }

  // ---- Crashes ----

  /** LiveKit holds the id and nobody names it, not even a task that has read it or let go of it. */
  ghost predicate Lost<C>(rows: map<RowId, Row<C>>, tasks: seq<Task<C>>, held: set<string>, id: string) {
    && id in held
    && (forall k :: k in rows ==> id !in IdsOf(rows[k]))
    && (forall j :: 0 <= j < |tasks| ==> id !in Names(tasks[j].at))
  }

  ghost predicate LostTrunk(m: Mirror, id: string) {
    Lost(m.w.trunks, m.trunkTasks, m.w.store.trunks.Keys, id)
  }

  ghost predicate LostRule(m: Mirror, id: string) {
    Lost(m.w.rules, m.ruleTasks, m.w.store.rules.Keys, id)
  }

  lemma CrashLoses<C>(
    rows: map<RowId, Row<C>>, tasks: seq<Task<C>>, held: set<string>, known: set<string>, i: nat) returns (id: string)
    requires SideOwned(rows, tasks, held, known) && Strands(tasks, i)
    ensures id !in known && id in WillName(tasks[i].at) && Lost(rows, Crashed(tasks, i), held, id)
  {
    id :| id in WillName(tasks[i].at);
    assert OnlyTasks(rows, tasks, held, known, i, id);
    forall j | 0 <= j < |Crashed(tasks, i)| ensures id !in Names(Crashed(tasks, i)[j].at) {
      if j != i { assert Crashed(tasks, i)[j] == tasks[j]; }
    }
  }

  lemma SideStaysLost<C>(
    rows: map<RowId, Row<C>>, rows': map<RowId, Row<C>>, tasks: seq<Task<C>>, i: nat, task': Task<C>,
    held: set<string>, held': set<string>, issued: set<string>, newId: string, id: string)
    requires Lost(rows, tasks, held, id) && held <= issued && newId !in issued && i < |tasks|
    requires SideSteps(rows, rows', tasks[i], task', held, held', newId)
    ensures Lost(rows', tasks[i := task'], held', id)
  {
    assert id !in Names(task'.at);
  }

  lemma TrunkStepStaysLost(
    m: Mirror, i: nat, replies: TrunkReplies, dependents: seq<RowId>, known: set<string>, id: string)
    requires Sound(m) && Owned(m, known) && i < |m.trunkTasks| && NewId(m.w.store, replies.newId) && LostTrunk(m, id)
    ensures LostTrunk(TrunkStepped(m, i, replies, dependents), id)
  {
    var m1 := TrunkStepped(m, i, replies, dependents);
    if m1 != m {
      TrunkStepSteps(m.w, m.trunkTasks[i], replies);
      SideStaysLost(m.w.trunks, m1.w.trunks, m.trunkTasks, i, m1.trunkTasks[i], m.w.store.trunks.Keys,
                    m1.w.store.trunks.Keys, m.w.store.issued, replies.newId, id);
    }
  }

  lemma RuleStepStaysLost(m: Mirror, i: nat, replies: RuleReplies, known: set<string>, id: string)
    requires Sound(m) && Owned(m, known) && i < |m.ruleTasks| && NewId(m.w.store, replies.newId) && LostRule(m, id)
    ensures LostRule(RuleStepped(m, i, replies), id)
  {
    var m1 := RuleStepped(m, i, replies);
    RuleStepSteps(m.w, m.ruleTasks[i], replies);
    SideStaysLost(m.w.rules, m1.w.rules, m.ruleTasks, i, m1.ruleTasks[i], m.w.store.rules.Keys,
                  m1.w.store.rules.Keys, m.w.store.issued, replies.newId, id);
  }

  lemma NextStaysLost(m: Mirror, e: Event, known: set<string>, id: string)
    requires Sound(m) && Owned(m, known) && Fresh(m, e)
    ensures LostTrunk(m, id) ==> LostTrunk(Next(m, e), id)
    ensures LostRule(m, id) ==> LostRule(Next(m, e), id)
  {
    match e
    case TrunkStep(i, replies, dependents) =>
      if i < |m.trunkTasks| {
        if LostTrunk(m, id) { TrunkStepStaysLost(m, i, replies, dependents, known, id); }
        TrunkStepKeepsSides(m.w, m.trunkTasks[i], replies);
      }
    case RuleStep(i, replies) =>
      if i < |m.ruleTasks| {
        if LostRule(m, id) { RuleStepStaysLost(m, i, replies, known, id); }
        RuleStepKeepsSides(m.w, m.ruleTasks[i], replies);
      }
    case _ =>
  }

  /** LiveKit never hands out an id twice in the run; anything else may happen. */
  predicate AllFresh(m: Mirror, events: seq<Event>)
    decreases events
  {
    events != [] ==> Fresh(m, events[0]) && AllFresh(Next(m, events[0]), events[1..])
  }

  lemma {:induction false} RunStaysOwned(m: Mirror, events: seq<Event>, known: set<string>)
    requires Sound(m) && Owned(m, known) && known <= m.w.store.issued && AllFresh(m, events)
    ensures Sound(Run(m, events)) && Owned(Run(m, events), known)
    decreases events
  {
    if events == [] {
    } else {
      NextStaysSound(m, events[0]);
      NextStaysOwned(m, events[0], known);
      RunStaysOwned(Next(m, events[0]), events[1..], known);
    }
  }

  /**
   * After any run, with any overlaps and failures: a crash of a task leaves something behind in LiveKit exactly when
   * the task has had an answer with a new id and has not committed it.
   */
  lemma CrashLeavesAnOrphanIff(m: Mirror, events: seq<Event>, i: nat)
    requires Sound(m) && NoTasks(m) && AllFresh(m, events)
    ensures var r := Run(m, events);
      && ((exists id :: StrayTrunk(Next(r, TrunkCrash(i)), id) && !StrayTrunk(r, id)) <==> Strands(r.trunkTasks, i))
      && ((exists id :: StrayRule(Next(r, RuleCrash(i)), id) && !StrayRule(r, id)) <==> Strands(r.ruleTasks, i))
  {
    var r := Run(m, events);
    RunStaysOwned(m, events, {});
    if Strands(r.trunkTasks, i) {
      var id := CrashLoses(r.w.trunks, r.trunkTasks, r.w.store.trunks.Keys, {}, i);
      LostIsStray(Next(r, TrunkCrash(i)), id);
    }
    if Strands(r.ruleTasks, i) {
      var id := CrashLoses(r.w.rules, r.ruleTasks, r.w.store.rules.Keys, {}, i);
      LostIsStray(Next(r, RuleCrash(i)), id);
    }
    forall id ensures !Strands(r.trunkTasks, i) && StrayTrunk(Next(r, TrunkCrash(i)), id) ==> StrayTrunk(r, id)
      ensures !Strands(r.ruleTasks, i) && StrayRule(Next(r, RuleCrash(i)), id) ==> StrayRule(r, id)
    {
      if !Strands(r.trunkTasks, i) { CrashKeepsNames(r.w.trunks, r.trunkTasks, i, id); }
      if !Strands(r.ruleTasks, i) { CrashKeepsNames(r.w.rules, r.ruleTasks, i, id); }
    }
  }

  lemma LostIsStray(m: Mirror, id: string)
    ensures LostTrunk(m, id) ==> StrayTrunk(m, id)
    ensures LostRule(m, id) ==> StrayRule(m, id)
  {
    assert forall i :: 0 <= i < |m.trunkTasks| ==> WillName(m.trunkTasks[i].at) <= Names(m.trunkTasks[i].at);
    assert forall i :: 0 <= i < |m.ruleTasks| ==> WillName(m.ruleTasks[i].at) <= Names(m.ruleTasks[i].at);
  }

  // ---- Runs ----

  lemma {:induction false} LostForGood(m: Mirror, events: seq<Event>, known: set<string>, id: string)
    requires Sound(m) && Owned(m, known) && known <= m.w.store.issued && AllFresh(m, events)
    ensures LostTrunk(m, id) ==> LostTrunk(Run(m, events), id)
    ensures LostRule(m, id) ==> LostRule(Run(m, events), id)
    decreases events
  {
    if events == [] {
    } else {
      NextStaysSound(m, events[0]);
      NextStaysOwned(m, events[0], known);
      NextStaysLost(m, events[0], known, id);
      LostForGood(Next(m, events[0]), events[1..], known, id);
    }
  }

  lemma {:induction false} StrandedTrunkIsLost(m: Mirror, events: seq<Event>, known: set<string>) returns (id: string)
    requires Sound(m) && Owned(m, known) && known <= m.w.store.issued && AllFresh(m, events)
    requires TrunkStranded(m, events)
    ensures id !in known && LostTrunk(Run(m, events), id)
    decreases events
  {
    var e, m1 := events[0], Next(m, events[0]);
    NextStaysSound(m, e);
    NextStaysOwned(m, e, known);
    if StrandsTrunk(m, e) {
      id := CrashLoses(m.w.trunks, m.trunkTasks, m.w.store.trunks.Keys, known, e.i);
      LostForGood(m1, events[1..], known, id);
    } else {
      id := StrandedTrunkIsLost(m1, events[1..], known);
    }
  }

  lemma {:induction false} StrandedRuleIsLost(m: Mirror, events: seq<Event>, known: set<string>) returns (id: string)
    requires Sound(m) && Owned(m, known) && known <= m.w.store.issued && AllFresh(m, events)
    requires RuleStranded(m, events)
    ensures id !in known && LostRule(Run(m, events), id)
    decreases events
  {
    var e, m1 := events[0], Next(m, events[0]);
    NextStaysSound(m, e);
    NextStaysOwned(m, e, known);
    if StrandsRule(m, e) {
      id := CrashLoses(m.w.rules, m.ruleTasks, m.w.store.rules.Keys, known, e.i);
      LostForGood(m1, events[1..], known, id);
    } else {
      id := StrandedRuleIsLost(m1, events[1..], known);
    }
  }

  lemma {:induction false} SerialIsFresh(m: Mirror, events: seq<Event>)
    requires Serial(m, events)
    ensures AllFresh(m, events)
    decreases events
  {
    if events == [] {
    } else {
      SerialIsFresh(Next(m, events[0]), events[1..]);
    }
  }

  /**
   * While no two tasks of one row overlap and deletions fail only on absent ids, a run adds an orphan exactly when a
   * task is stranded in it, whatever else fails or crashes.
   */
  lemma NewOrphansIff(m: Mirror, events: seq<Event>)
    requires Sound(m) && NoTasks(m) && Serial(m, events) && NoneCommitting(Run(m, events))
    ensures !(TrunkOrphanIds(Run(m, events).w) <= TrunkOrphanIds(m.w)) <==> TrunkStranded(m, events)
    ensures !(RuleOrphanIds(Run(m, events).w) <= RuleOrphanIds(m.w)) <==> RuleStranded(m, events)
  {
    var known := m.w.store.issued;
    NoNewOrphans(m, events);
    SerialIsFresh(m, events);
    if TrunkStranded(m, events) {
      var id := StrandedTrunkIsLost(m, events, known);
      assert id in TrunkOrphanIds(Run(m, events).w) && id !in m.w.store.trunks;
    }
    if RuleStranded(m, events) {
      var id := StrandedRuleIsLost(m, events, known);
      assert id in RuleOrphanIds(Run(m, events).w) && id !in m.w.store.rules;
    }
  }
}
