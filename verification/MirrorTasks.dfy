/** Sync and repair jobs as concurrent tasks. */
module MirrorTasks {
  // A task works on its own copy of a row, read when it starts, and is cut at the calls it waits for: the row, the
  // password or the trunk it reads, the deletion, the update or creation, and the commit.

  import opened Options
  import opened SipResources
  import opened MirrorJobs

  datatype World = World(
    trunks: map<RowId, Row<TrunkConfig>>, rules: map<RowId, Row<RuleConfig>>, numbers: seq<PhoneNumber>, store: Store)

  /**
   * How far a task is. `loaded` is the row as it was read, `mine` the task's copy of it now, `input` what was read
   * besides: a trunk's password, or the id of a rule's trunk.
   */
  datatype Progress<C> =
    | Waiting
    | Loaded(loaded: Row<C>)
    | Ready(loaded: Row<C>, mine: Row<C>, input: Option<string>)
    | Cleared(loaded: Row<C>, mine: Row<C>, input: Option<string>)
    | Pushed(loaded: Row<C>, mine: Row<C>, input: Option<string>)
    | Saved
    | Finished

  datatype Task<C> = Task(id: RowId, repair: bool, at: Progress<C>)

  type TrunkTask = Task<TrunkConfig>
  type RuleTask = Task<RuleConfig>

  /** The committed rows, what LiveKit holds, and every task ever enqueued. */
  datatype Mirror = Mirror(w: World, trunkTasks: seq<TrunkTask>, ruleTasks: seq<RuleTask>)

  datatype Event =
    | EnqueueTrunk(trunk: RowId, repair: bool)
    | EnqueueRule(rule: RowId)
    | TrunkStep(i: nat, trunkReplies: TrunkReplies, dependents: seq<RowId>)
    | RuleStep(i: nat, ruleReplies: RuleReplies)
    | TrunkCrash(i: nat)
    | RuleCrash(i: nat)

  predicate Active<C>(at: Progress<C>) {
    at.Loaded? || at.Ready? || at.Cleared? || at.Pushed?
  }

  /**
   * The commit writes the columns the task has changed since it read them and leaves the others as they are in the
   * database; the status was flushed on the way and is written again.
   */
  function Merged<C>(db: Row<C>, loaded: Row<C>, mine: Row<C>, flushed: bool): Row<C> {
    var (d, l, m) := (db.sync, loaded.sync, mine.sync);
    db.(sync := Sync(
          if m.resourceId != l.resourceId then m.resourceId else d.resourceId,
          if flushed || m.status != l.status then m.status else d.status,
          if m.error != l.error then m.error else d.error,
          if m.attempts != l.attempts then m.attempts else d.attempts,
          if m.lastSyncedAt != l.lastSyncedAt then m.lastSyncedAt else d.lastSyncedAt))
  }

  // ---- Trunk tasks ----

  predicate ClearsTrunk(task: TrunkTask) {
    task.at.Ready? && task.repair && Truthy(task.at.mine.sync.resourceId)
  }

  /** The call to LiveKit that creates or updates. */
  predicate PushesTrunk(task: TrunkTask) {
    task.at.Cleared? || (task.at.Ready? && !ClearsTrunk(task))
  }

  function PushedBy(w: World, task: TrunkTask, replies: TrunkReplies): (Row<TrunkConfig>, Store)
    requires PushesTrunk(task)
  {
    TrunkPushed(task.at.mine, AcceptedNumbers(w.numbers, task.id), task.at.input, w.store, replies)
  }

  function TrunkProgress(w: World, task: TrunkTask, replies: TrunkReplies): Progress<TrunkConfig> {
    match task.at
    case Waiting => if task.id in w.trunks then Loaded(w.trunks[task.id]) else Finished
    case Loaded(loaded) =>
      if replies.password.CannotOpen? then Pushed(loaded, Failed(Pending(loaded), replies.password.message), None)
      else Ready(loaded, Pending(loaded), loaded.config.password)
    case Ready(loaded, mine, input) =>
      if ClearsTrunk(task) then Cleared(loaded, WithoutId(mine), input)
      else Pushed(loaded, PushedBy(w, task, replies).0, input)
    case Cleared(loaded, mine, input) => Pushed(loaded, PushedBy(w, task, replies).0, input)
    case Pushed(_, mine, _) => if task.repair && mine.sync.status == SYNCED then Saved else Finished
    case _ => Finished
  }

  function StoreAfterTrunk(w: World, task: TrunkTask, replies: TrunkReplies): Store {
    if ClearsTrunk(task) then StoreWithoutTrunk(task.at.mine, w.store, replies.deletion)
    else if PushesTrunk(task) then PushedBy(w, task, replies).1
    else w.store
  }

  function TrunksAfter(w: World, task: TrunkTask): map<RowId, Row<TrunkConfig>> {
    if task.at.Pushed? && task.id in w.trunks then
      w.trunks[task.id := Merged(w.trunks[task.id], task.at.loaded, task.at.mine, true)]
    else w.trunks
  }

  function RulesOf(w: World, trunk: RowId): set<RowId> {
    set r | r in w.rules && w.rules[r].config.sipTrunkId == Some(trunk)
  }

  function WaitingFor(rules: seq<RowId>): seq<RuleTask> {
    seq(|rules|, k requires 0 <= k < |rules| => Task(rules[k], false, Waiting))
  }

  /** After a repair that succeeded, a sync of every rule on the trunk, in the order the query returns them. */
  function TrunkStepped(m: Mirror, i: nat, replies: TrunkReplies, dependents: seq<RowId>): Mirror {
    if i >= |m.trunkTasks| then m
    else
      var task := m.trunkTasks[i];
      if task.at.Saved? && AsSet(dependents) != RulesOf(m.w, task.id) then m
      else
        Mirror(
          m.w.(trunks := TrunksAfter(m.w, task), store := StoreAfterTrunk(m.w, task, replies)),
          m.trunkTasks[i := task.(at := TrunkProgress(m.w, task, replies))],
          if task.at.Saved? then m.ruleTasks + WaitingFor(dependents) else m.ruleTasks)
  }

  // ---- Rule tasks ----

  function TrunkIdFor(rule: RuleConfig, trunks: map<RowId, Row<TrunkConfig>>): Option<string> {
    if rule.sipTrunkId.Some? && rule.sipTrunkId.value in trunks
       && Truthy(trunks[rule.sipTrunkId.value].sync.resourceId)
    then trunks[rule.sipTrunkId.value].sync.resourceId
    else None
  }

  predicate ClearsRule(task: RuleTask) {
    task.at.Ready? && Truthy(task.at.mine.sync.resourceId)
  }

  predicate PushesRule(task: RuleTask) {
    task.at.Cleared? || (task.at.Ready? && !ClearsRule(task))
  }

  function RulePushedBy(w: World, task: RuleTask, replies: RuleReplies): (Row<RuleConfig>, Store)
    requires PushesRule(task)
  {
    RulePushed(task.at.mine, OrEmpty(task.at.input), w.store, replies)
  }

  function RuleProgress(w: World, task: RuleTask, replies: RuleReplies): Progress<RuleConfig> {
    match task.at
    case Waiting => if task.id in w.rules then Loaded(w.rules[task.id]) else Finished
    case Loaded(loaded) =>
      if !loaded.config.individual then Pushed(loaded, SharedRoomRefused(loaded), None)
      else if TrunkIdFor(loaded.config, w.trunks).None? then Pushed(loaded, TrunkMissing(Pending(loaded)), None)
      else Ready(loaded, Pending(loaded), TrunkIdFor(loaded.config, w.trunks))
    case Ready(loaded, mine, input) =>
      if ClearsRule(task) then Cleared(loaded, WithoutId(mine), input)
      else Pushed(loaded, RulePushedBy(w, task, replies).0, input)
    case Cleared(loaded, mine, input) => Pushed(loaded, RulePushedBy(w, task, replies).0, input)
    case _ => Finished
  }

  function StoreAfterRule(w: World, task: RuleTask, replies: RuleReplies): Store {
    if ClearsRule(task) then StoreWithoutRule(task.at.mine, w.store, replies.deletion)
    else if PushesRule(task) then RulePushedBy(w, task, replies).1
    else w.store
  }

  function RulesAfter(w: World, task: RuleTask): map<RowId, Row<RuleConfig>> {
    if task.at.Pushed? && task.id in w.rules then
      w.rules[task.id := Merged(w.rules[task.id], task.at.loaded, task.at.mine, task.at.loaded.config.individual)]
    else w.rules
  }

  function RuleStepped(m: Mirror, i: nat, replies: RuleReplies): Mirror {
    if i >= |m.ruleTasks| then m
    else
      var task := m.ruleTasks[i];
      m.(w := m.w.(rules := RulesAfter(m.w, task), store := StoreAfterRule(m.w, task, replies)),
         ruleTasks := m.ruleTasks[i := task.(at := RuleProgress(m.w, task, replies))])
  }

  // ---- Runs ----

  /** An exception nothing catches, such as a commit that fails: the task ends, and what it has not written is lost. */
  function Crashed<C>(tasks: seq<Task<C>>, i: nat): seq<Task<C>> {
    if i < |tasks| then tasks[i := tasks[i].(at := Finished)] else tasks
  }

  function Next(m: Mirror, e: Event): Mirror {
    match e
    case EnqueueTrunk(t, repair) => m.(trunkTasks := m.trunkTasks + [Task(t, repair, Waiting)])
    case EnqueueRule(r) => m.(ruleTasks := m.ruleTasks + [Task(r, false, Waiting)])
    case TrunkStep(i, replies, dependents) => TrunkStepped(m, i, replies, dependents)
    case RuleStep(i, replies) => RuleStepped(m, i, replies)
    case TrunkCrash(i) => m.(trunkTasks := Crashed(m.trunkTasks, i))
    case RuleCrash(i) => m.(ruleTasks := Crashed(m.ruleTasks, i))
  }

  function Run(m: Mirror, events: seq<Event>): Mirror
    decreases events
  {
    if events == [] then m else Run(Next(m, events[0]), events[1..])
  }
}
