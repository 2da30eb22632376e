/** Which rows and tasks name which LiveKit ids, and what keeps an id to one row. */
module MirrorOwnership {
  // A task names what it has read, and what LiveKit answers it; a row names what a task has committed. So nobody ever
  // names an id that LiveKit has not handed out, and an id that one row alone names stays with that row, whatever the
  // tasks of other rows do. The arguments about settling, orphans and overlaps all rest on this.

  import opened Options
  import opened SipResources
  import opened MirrorJobs
  import opened MirrorTasks

  function IdsOf<C>(row: Row<C>): set<string> {
    if Truthy(row.sync.resourceId) then {row.sync.resourceId.value} else {}
  }

  /** The ids a task may still pass to LiveKit or commit. */
  function Names<C>(at: Progress<C>): set<string> {
    match at
    case Loaded(loaded) => IdsOf(loaded)
    case Ready(loaded, mine, _) => IdsOf(loaded) + IdsOf(mine)
    case Cleared(loaded, mine, _) => IdsOf(loaded) + IdsOf(mine)
    case Pushed(loaded, mine, _) => IdsOf(loaded) + IdsOf(mine)
    case _ => {}
  }

  function Mine<C>(at: Progress<C>): Row<C>
    requires Active(at)
  {
    match at
    case Loaded(loaded) => loaded
    case Ready(_, mine, _) => mine
    case Cleared(_, mine, _) => mine
    case Pushed(_, mine, _) => mine
  }

  /** A task works on copies of its row, and names only ids LiveKit has handed out. */
  ghost predicate Consistent<C>(rows: map<RowId, Row<C>>, task: Task<C>, issued: set<string>) {
    && Names(task.at) <= issued
    && (Active(task.at) ==>
          && task.id in rows
          && task.at.loaded.id == Mine(task.at).id == task.id
          && task.at.loaded.config == Mine(task.at).config == rows[task.id].config)
  }

  ghost predicate SideSound<C>(rows: map<RowId, Row<C>>, tasks: seq<Task<C>>, held: set<string>, issued: set<string>) {
    && "" !in issued && held <= issued
    && (forall k :: k in rows ==> rows[k].id == k && IdsOf(rows[k]) <= issued)
    && (forall i :: 0 <= i < |tasks| ==> Consistent(rows, tasks[i], issued))
  }

  /** Every id held, named by a row or named by a task is one LiveKit handed out, and none of those is empty. */
  ghost predicate Sound(m: Mirror) {
    && SideSound(m.w.trunks, m.trunkTasks, m.w.store.trunks.Keys, m.w.store.issued)
    && SideSound(m.w.rules, m.ruleTasks, m.w.store.rules.Keys, m.w.store.issued)
  }

  predicate NewId(store: Store, id: string) {
    id != "" && id !in store.issued
  }

  /** LiveKit never hands out an id twice. */
  predicate Fresh(m: Mirror, e: Event) {
    match e
    case TrunkStep(_, replies, _) => NewId(m.w.store, replies.newId)
    case RuleStep(_, replies) => NewId(m.w.store, replies.newId)
    case _ => true
  }

  // ---- Steps name nothing but what they had, what they loaded, and the new id ----

  /** The three things a push can do: be refused, update what is held, or create. */
  lemma TrunkPushCases(
    row: Row<TrunkConfig>, numbers: seq<string>, password: Option<string>, store: Store, replies: TrunkReplies)
    ensures var (r, s) := TrunkPushed(row, numbers, password, store, replies);
      && r.id == row.id && r.config == row.config
      && (|| (s == store && r.sync.resourceId == row.sync.resourceId && r.sync.status == FAILED)
          || (&& Truthy(row.sync.resourceId) && row.sync.resourceId.value in store.trunks && replies.update.Ok?
              && r.sync.resourceId == row.sync.resourceId && r.sync.status == SYNCED
              && s == UpdateTrunk(store, row.sync.resourceId.value, TrunkInfoFor(row, numbers, password)))
          || (&& !Truthy(row.sync.resourceId) && replies.creation.Ok?
              && r.sync.resourceId == Some(replies.newId) && r.sync.status == SYNCED
              && s == CreateTrunk(store, replies.newId, TrunkInfoFor(row, numbers, password))))
  {
  }

  function RowIds<C>(rows: map<RowId, Row<C>>, k: RowId): set<string> {
    if k in rows then IdsOf(rows[k]) else {}
  }

  lemma TrunkStepNames(w: World, task: TrunkTask, replies: TrunkReplies)
    ensures Names(TrunkProgress(w, task, replies)) <= Names(task.at) + RowIds(w.trunks, task.id) + {replies.newId}
  {
    if PushesTrunk(task) {
      TrunkPushCases(task.at.mine, AcceptedNumbers(w.numbers, task.id), task.at.input, w.store, replies);
    }
  }

  /** A task names the new id only if it has been handed out. */
  lemma TrunkStepIssues(w: World, task: TrunkTask, replies: TrunkReplies)
    requires replies.newId !in Names(task.at) + RowIds(w.trunks, task.id)
    requires replies.newId in Names(TrunkProgress(w, task, replies))
    ensures replies.newId in StoreAfterTrunk(w, task, replies).issued
  {
    if PushesTrunk(task) {
      TrunkPushCases(task.at.mine, AcceptedNumbers(w.numbers, task.id), task.at.input, w.store, replies);
    }
  }

  lemma RuleStepNames(w: World, task: RuleTask, replies: RuleReplies)
    ensures Names(RuleProgress(w, task, replies)) <= Names(task.at) + RowIds(w.rules, task.id) + {replies.newId}
  {
  }

  /** A step touches no trunk in LiveKit but one the task names and the one it creates. */
  lemma TrunkStepTouches(w: World, task: TrunkTask, replies: TrunkReplies, id: string)
    requires id !in Names(task.at) && id != replies.newId
    ensures var held := StoreAfterTrunk(w, task, replies).trunks;
      (id in held <==> id in w.store.trunks) && (id in held ==> held[id] == w.store.trunks[id])
  {
    if PushesTrunk(task) {
      TrunkPushCases(task.at.mine, AcceptedNumbers(w.numbers, task.id), task.at.input, w.store, replies);
    }
  }

  lemma RuleStepTouches(w: World, task: RuleTask, replies: RuleReplies, id: string)
    requires id !in Names(task.at) && id != replies.newId
    ensures var held := StoreAfterRule(w, task, replies).rules;
      (id in held <==> id in w.store.rules) && (id in held ==> held[id] == w.store.rules[id])
  {
  }

  lemma TrunkStepKeepsSides(w: World, task: TrunkTask, replies: TrunkReplies)
    ensures var s := StoreAfterTrunk(w, task, replies);
      && s.rules == w.store.rules
      && ((s.issued == w.store.issued && s.trunks.Keys <= w.store.trunks.Keys)
          || (s.issued == w.store.issued + {replies.newId} && s.trunks.Keys == w.store.trunks.Keys + {replies.newId}))
  {
    if PushesTrunk(task) {
      TrunkPushCases(task.at.mine, AcceptedNumbers(w.numbers, task.id), task.at.input, w.store, replies);
    }
  }

  lemma RuleStepKeepsSides(w: World, task: RuleTask, replies: RuleReplies)
    ensures var s := StoreAfterRule(w, task, replies);
      && s.trunks == w.store.trunks
      && ((s.issued == w.store.issued && s.rules.Keys <= w.store.rules.Keys)
          || (s.issued == w.store.issued + {replies.newId} && s.rules.Keys == w.store.rules.Keys + {replies.newId}))
  {
  }

  // ---- Soundness ----

  lemma SideSoundGrows<C>(
    rows: map<RowId, Row<C>>, tasks: seq<Task<C>>, held: set<string>, issued: set<string>, more: set<string>)
    requires SideSound(rows, tasks, held, issued) && issued <= more && "" !in more
    ensures SideSound(rows, tasks, held, more)
  {
  }

  lemma TrunkTaskStaysConsistent(w: World, task: TrunkTask, replies: TrunkReplies)
    requires Consistent(w.trunks, task, w.store.issued) && NewId(w.store, replies.newId)
    requires forall k :: k in w.trunks ==> w.trunks[k].id == k && IdsOf(w.trunks[k]) <= w.store.issued
    ensures Consistent(TrunksAfter(w, task), task.(at := TrunkProgress(w, task, replies)),
                       StoreAfterTrunk(w, task, replies).issued)
  {
    TrunkStepNames(w, task, replies);
    TrunkStepKeepsSides(w, task, replies);
    if replies.newId in Names(TrunkProgress(w, task, replies)) { TrunkStepIssues(w, task, replies); }
    if PushesTrunk(task) {
      TrunkPushCases(task.at.mine, AcceptedNumbers(w.numbers, task.id), task.at.input, w.store, replies);
    }
  }

  lemma RuleTaskStaysConsistent(w: World, task: RuleTask, replies: RuleReplies)
    requires Consistent(w.rules, task, w.store.issued) && NewId(w.store, replies.newId)
    requires forall k :: k in w.rules ==> w.rules[k].id == k && IdsOf(w.rules[k]) <= w.store.issued
    ensures Consistent(RulesAfter(w, task), task.(at := RuleProgress(w, task, replies)),
                       StoreAfterRule(w, task, replies).issued)
  {
    RuleStepNames(w, task, replies);
    RuleStepKeepsSides(w, task, replies);
  }

  lemma TrunksAfterAreIssued(w: World, task: TrunkTask)
    requires Consistent(w.trunks, task, w.store.issued)
    requires forall k :: k in w.trunks ==> w.trunks[k].id == k && IdsOf(w.trunks[k]) <= w.store.issued
    ensures var rows := TrunksAfter(w, task); rows.Keys == w.trunks.Keys && forall k :: k in rows ==>
      rows[k].id == k && rows[k].config == w.trunks[k].config && IdsOf(rows[k]) <= w.store.issued
  {
  }

  lemma TrunkStepStaysSound(m: Mirror, i: nat, replies: TrunkReplies, dependents: seq<RowId>)
    requires Sound(m) && i < |m.trunkTasks| && NewId(m.w.store, replies.newId)
    ensures Sound(TrunkStepped(m, i, replies, dependents))
  {
    var w, task := m.w, m.trunkTasks[i];
    var s := StoreAfterTrunk(w, task, replies);
    TrunkTaskStaysConsistent(w, task, replies);
    TrunkStepKeepsSides(w, task, replies);
    TrunksAfterAreIssued(w, task);
    SideSoundGrows(w.rules, m.ruleTasks, s.rules.Keys, w.store.issued, s.issued);
    SideSoundGrows(w.rules, m.ruleTasks + WaitingFor(dependents), s.rules.Keys, w.store.issued, s.issued);
  }

  lemma RuleStepStaysSound(m: Mirror, i: nat, replies: RuleReplies)
    requires Sound(m) && i < |m.ruleTasks| && NewId(m.w.store, replies.newId)
    ensures Sound(RuleStepped(m, i, replies))
  {
    var w, task := m.w, m.ruleTasks[i];
    var s := StoreAfterRule(w, task, replies);
    RuleTaskStaysConsistent(w, task, replies);
    RuleStepKeepsSides(w, task, replies);
    SideSoundGrows(w.trunks, m.trunkTasks, s.trunks.Keys, w.store.issued, s.issued);
  }

  lemma NextStaysSound(m: Mirror, e: Event)
    requires Sound(m) && Fresh(m, e)
    ensures Sound(Next(m, e))
  {
    match e
    case TrunkStep(i, replies, dependents) =>
      if i < |m.trunkTasks| { TrunkStepStaysSound(m, i, replies, dependents); }
    case RuleStep(i, replies) => if i < |m.ruleTasks| { RuleStepStaysSound(m, i, replies); }
    case _ =>
  }

  // ---- An id of one row ----

  /** Only row k and its tasks name the id. */
  ghost predicate Private<C>(rows: map<RowId, Row<C>>, tasks: seq<Task<C>>, k: RowId, id: string) {
    && (forall u :: u in rows && u != k ==> id !in IdsOf(rows[u]))
    && (forall i :: 0 <= i < |tasks| && tasks[i].id != k ==> id !in Names(tasks[i].at))
  }

  /** A private id stays private: a task takes up nothing but its row's id and a new one. */
  lemma PrivateStays<C>(
    rows: map<RowId, Row<C>>, rows': map<RowId, Row<C>>, tasks: seq<Task<C>>, i: nat, task': Task<C>, k: RowId,
    id: string, newId: string)
    requires Private(rows, tasks, k, id) && i < |tasks| && task'.id == tasks[i].id && id != newId
    requires Names(task'.at) <= Names(tasks[i].at) + RowIds(rows, task'.id) + {newId}
    requires rows'.Keys == rows.Keys
    requires forall u :: u in rows ==>
      if u == task'.id then IdsOf(rows'[u]) <= IdsOf(rows[u]) + Names(tasks[i].at) else rows'[u] == rows[u]
    ensures Private(rows', tasks[i := task'], k, id)
  {
  }
}
