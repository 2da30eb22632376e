/** Over any interleaving of sync and repair tasks: what converges, and what the next drift check then reports. */
module MirrorConvergence {
  import opened Options
  import opened SipResources
  import opened MirrorJobs
  import opened MirrorDrift
  import opened MirrorTasks
  import opened MirrorOwnership
  import opened MirrorSettling
  import opened MirrorRules

  // ---- Settled rows ----

  /** The trunk's id is its own, LiveKit holds it, and what is held is the row with its ACTIVE numbers and password. */
  ghost predicate TrunkSettled(w: World, t: RowId) {
    && t in w.trunks
    && Truthy(w.trunks[t].sync.resourceId)
    && TrunkAgrees(w.trunks[t], AcceptedNumbers(w.numbers, t), w.store.trunks)
    && TrunkCarries(w.store.trunks[w.trunks[t].sync.resourceId.value], t, w.trunks[t].config,
                    AcceptedNumbers(w.numbers, t), w.trunks[t].config.password)
    && (forall u :: u in w.trunks && u != t ==> w.trunks[u].sync.resourceId != w.trunks[t].sync.resourceId)
  }

  /** The rule's id is its own, LiveKit holds it, and it points at the trunk's current id. */
  ghost predicate RuleSettled(w: World, r: RowId) {
    && r in w.rules
    && Truthy(w.rules[r].sync.resourceId)
    && TrunkIdsFor(w.rules[r].config, w.trunks) != []
    && RuleAgrees(w.rules[r], TrunkIdsFor(w.rules[r].config, w.trunks), w.store.rules)
    && RuleCarries(w.store.rules[w.rules[r].sync.resourceId.value], r, w.rules[r].config,
                   TrunkIdsFor(w.rules[r].config, w.trunks))
    && (forall u :: u in w.rules && u != r ==> w.rules[u].sync.resourceId != w.rules[r].sync.resourceId)
  }

  // ---- One job alone ----

  /** A trunk job that nothing interrupts. */
  function TrunkJobAlone(w: World, t: RowId, repair: bool, replies: TrunkReplies): World
    requires t in w.trunks
  {
    var (row, store) := TrunkSync(w.trunks[t], AcceptedNumbers(w.numbers, t), w.store, repair, replies);
    w.(trunks := w.trunks[t := row], store := store)
  }

  function AttachedTrunk(w: World, rule: RowId): Option<Row<TrunkConfig>>
    requires rule in w.rules
  {
    var t := w.rules[rule].config.sipTrunkId;
    if t.Some? && t.value in w.trunks then Some(w.trunks[t.value]) else None
  }

  function RuleJobAlone(w: World, r: RowId, replies: RuleReplies): World
    requires r in w.rules
  {
    var (row, store) := RuleSync(w.rules[r], AttachedTrunk(w, r), w.store, replies);
    w.(rules := w.rules[r := row], store := store)
  }

  /** What is left of a task, with the same replies throughout. */
  function RestOf(w: World, task: TrunkTask, replies: TrunkReplies): (Row<TrunkConfig>, Store)
    requires task.id in w.trunks
  {
    var numbers := AcceptedNumbers(w.numbers, task.id);
    match task.at
    case Waiting => TrunkSync(w.trunks[task.id], numbers, w.store, task.repair, replies)
    case Loaded(loaded) => TrunkSync(loaded, numbers, w.store, task.repair, replies)
    case Ready(_, mine, input) =>
      if ClearsTrunk(task) then
        TrunkPushed(WithoutId(mine), numbers, input, StoreWithoutTrunk(mine, w.store, replies.deletion), replies)
      else TrunkPushed(mine, numbers, input, w.store, replies)
    case Cleared(_, mine, input) => TrunkPushed(mine, numbers, input, w.store, replies)
    case Pushed(_, mine, _) => (mine, w.store)
    case _ => (w.trunks[task.id], w.store)
  }

  function StepsLeft(at: Progress<TrunkConfig>): nat {
    match at
    case Waiting => 5
    case Loaded(_) => 4
    case Ready(_, _, _) => 3
    case Cleared(_, _, _) => 2
    case Pushed(_, _, _) => 1
    case _ => 0
  }

  /** The task is the only one to touch its row. */
  predicate Lone(m: Mirror, i: nat) {
    && i < |m.trunkTasks| && m.trunkTasks[i].id in m.w.trunks
    && (Active(m.trunkTasks[i].at) ==> m.trunkTasks[i].at.loaded == m.w.trunks[m.trunkTasks[i].id])
    && (m.trunkTasks[i].at.Ready? ==> m.trunkTasks[i].at.mine == Pending(m.trunkTasks[i].at.loaded))
  }

  lemma RestAfterPushing(w: World, task: TrunkTask, replies: TrunkReplies)
    requires task.id in w.trunks && PushesTrunk(task)
    ensures var w' := w.(store := StoreAfterTrunk(w, task, replies));
      RestOf(w', task.(at := TrunkProgress(w, task, replies)), replies) == RestOf(w, task, replies)
  {
  }

  /** Before the commit the row is left alone, so what is left to do comes to the same. */
  lemma RestStays(w: World, task: TrunkTask, replies: TrunkReplies)
    requires task.id in w.trunks && !task.at.Pushed?
    ensures var w' := w.(store := StoreAfterTrunk(w, task, replies));
      RestOf(w', task.(at := TrunkProgress(w, task, replies)), replies) == RestOf(w, task, replies)
  {
    match task.at
    case Ready(_, _, _) => if PushesTrunk(task) { RestAfterPushing(w, task, replies); }
    case Cleared(_, _, _) => RestAfterPushing(w, task, replies);
    case _ =>
  }

  lemma LoneStep(m: Mirror, i: nat, replies: TrunkReplies)
    requires Lone(m, i)
    ensures var m1 := TrunkStepped(m, i, replies, []);
      && Lone(m1, i) && m1.trunkTasks[i].id == m.trunkTasks[i].id
      && (StepsLeft(m.trunkTasks[i].at) > 0 ==> StepsLeft(m1.trunkTasks[i].at) < StepsLeft(m.trunkTasks[i].at))
      && (StepsLeft(m.trunkTasks[i].at) == 0 ==> StepsLeft(m1.trunkTasks[i].at) == 0)
  {
  }

  lemma LoneStepKeepsRest(m: Mirror, i: nat, replies: TrunkReplies)
    requires Lone(m, i)
    ensures var m1 := TrunkStepped(m, i, replies, []);
      && m1.trunkTasks[i].id in m1.w.trunks
      && RestOf(m1.w, m1.trunkTasks[i], replies).0.sync == RestOf(m.w, m.trunkTasks[i], replies).0.sync
      && RestOf(m1.w, m1.trunkTasks[i], replies).1 == RestOf(m.w, m.trunkTasks[i], replies).1
  {
    var task := m.trunkTasks[i];
    if !task.at.Pushed? { RestStays(m.w, task, replies); }
  }

  function Steps(i: nat, replies: TrunkReplies, n: nat): seq<Event> {
    if n == 0 then [] else [TrunkStep(i, replies, [])] + Steps(i, replies, n - 1)
  }

  lemma {:induction false} LoneSteps(m: Mirror, i: nat, replies: TrunkReplies, n: nat)
    requires Lone(m, i) && StepsLeft(m.trunkTasks[i].at) <= n
    ensures var r := Run(m, Steps(i, replies, n));
      && Lone(r, i) && StepsLeft(r.trunkTasks[i].at) == 0
      && r.trunkTasks[i].id == m.trunkTasks[i].id
      && r.w.trunks[m.trunkTasks[i].id].sync == RestOf(m.w, m.trunkTasks[i], replies).0.sync
      && r.w.store == RestOf(m.w, m.trunkTasks[i], replies).1
    decreases n
  {
    if n == 0 {
    } else {
      assert Steps(i, replies, n)[1..] == Steps(i, replies, n - 1);
      LoneStep(m, i, replies);
      LoneStepKeepsRest(m, i, replies);
      LoneSteps(TrunkStepped(m, i, replies, []), i, replies, n - 1);
    }
  }

  /** A task that nothing interrupts does to its row and to LiveKit what the whole job is specified to do. */
  lemma UninterruptedTaskIsTheJob(m: Mirror, i: nat, replies: TrunkReplies, n: nat)
    requires i < |m.trunkTasks| && m.trunkTasks[i].at.Waiting? && m.trunkTasks[i].id in m.w.trunks && n >= 5
    ensures var t, r := m.trunkTasks[i].id, Run(m, Steps(i, replies, n)).w;
      var alone := TrunkJobAlone(m.w, t, m.trunkTasks[i].repair, replies);
      t in r.trunks && r.trunks[t].sync == alone.trunks[t].sync && r.store == alone.store
  {
    LoneSteps(m, i, replies, n);
  }

  predicate NoTasks(m: Mirror) {
    m.trunkTasks == [] && m.ruleTasks == []
  }

  lemma RepairCreates(row: Row<TrunkConfig>, numbers: seq<string>, store: Store, replies: TrunkReplies)
    requires replies.password.Opened? && replies.creation.Ok?
    ensures var (r, s) := TrunkSync(row, numbers, store, true, replies);
      && r.config == row.config && r.sync.resourceId == Some(replies.newId) && r.sync.status == SYNCED
      && replies.newId in s.trunks
      && TrunkCarries(s.trunks[replies.newId], row.id, row.config, numbers, row.config.password)
  {
  }

  /** Repairing a trunk settles it, whatever state it was in, unless the password cannot be opened or creating fails. */
  lemma RepairSettles(m: Mirror, t: RowId, replies: TrunkReplies)
    requires Sound(m) && t in m.w.trunks && NewId(m.w.store, replies.newId)
    requires replies.password.Opened? && replies.creation.Ok?
    ensures var w' := TrunkJobAlone(m.w, t, true, replies); TrunkSettled(w', t) && w'.trunks[t].sync.status == SYNCED
  {
    var numbers := AcceptedNumbers(m.w.numbers, t);
    RepairCreates(m.w.trunks[t], numbers, m.w.store, replies);
    var held := TrunkJobAlone(m.w, t, true, replies).store.trunks[replies.newId];
    CarriedTrunkMatches(replies.newId, held, t, m.w.trunks[t].config, numbers, m.w.trunks[t].config.password);
  }

  /** Syncing an INDIVIDUAL rule whose trunk names a resource settles the rule. */
  lemma RuleSyncSettles(m: Mirror, r: RowId, replies: RuleReplies)
    requires Sound(m) && r in m.w.rules && NewId(m.w.store, replies.newId)
    requires m.w.rules[r].config.individual && TrunkIdsFor(m.w.rules[r].config, m.w.trunks) != []
    requires replies.creation.Ok?
    ensures var w' := RuleJobAlone(m.w, r, replies); RuleSettled(w', r) && w'.rules[r].sync.status == SYNCED
  {
    var ids := TrunkIdsFor(m.w.rules[r].config, m.w.trunks);
    PushedRuleMatchesIff(replies.newId, m.w.rules[r], ids, ids);
  }

  /** A repair always breaks the trunk's settled rules: the id changes, so they are reported until synced again. */
  lemma RepairBreaksItsRules(m: Mirror, t: RowId, replies: TrunkReplies, r: RowId)
    requires Sound(m) && t in m.w.trunks && NewId(m.w.store, replies.newId)
    requires replies.password.Opened? && replies.creation.Ok?
    requires RuleSettled(m.w, r) && m.w.rules[r].config.sipTrunkId == Some(t)
    ensures var w' := TrunkJobAlone(m.w, t, true, replies);
      !RuleAgrees(w'.rules[r], TrunkIdsFor(w'.rules[r].config, w'.trunks), w'.store.rules)
  {
    var w, w' := m.w, TrunkJobAlone(m.w, t, true, replies);
    var before, after := TrunkIdsFor(w.rules[r].config, w.trunks), TrunkIdsFor(w'.rules[r].config, w'.trunks);
    assert before[0] in AsSet(before) && before[0] in w.store.issued;
    assert after == [replies.newId];
    assert AsSet(after) == {replies.newId};
    assert before[0] !in AsSet(after);
  }

  // ---- Runs ----

  /**
   * LiveKit hands out no id twice and creates what the tasks of these rows ask for, and no two tasks of one of these
   * rows are under way at once. Other rows' tasks may overlap and fail in any way.
   */
  ghost predicate Fair(m: Mirror, events: seq<Event>, trunks: set<RowId>, rules: set<RowId>)
    decreases events
  {
    && (forall t :: t in trunks ==> Solo(m.trunkTasks, t))
    && (forall r :: r in rules ==> Solo(m.ruleTasks, r))
    && (events != [] ==>
          && Fresh(m, events[0]) && Completes(m, events[0], trunks, rules)
          && Fair(Next(m, events[0]), events[1..], trunks, rules))
  }

  lemma {:induction false} FairForFewer(
    m: Mirror, events: seq<Event>, trunks: set<RowId>, rules: set<RowId>, t: RowId, r: RowId)
    requires Fair(m, events, trunks, rules) && t in trunks && r in rules
    ensures Fair(m, events, {t}, {r})
    decreases events
  {
    if events == [] {
    } else {
      FairForFewer(Next(m, events[0]), events[1..], trunks, rules, t, r);
    }
  }

  /** Some step of the run commits a repair of the trunk that has succeeded. */
  predicate RepairCommits(m: Mirror, events: seq<Event>, t: RowId)
    decreases events
  {
    events != [] && (CommitsRepair(m, events[0], t) || RepairCommits(Next(m, events[0]), events[1..], t))
  }

  /** No task of the row is under way or waiting. */
  predicate Done<C>(tasks: seq<Task<C>>, k: RowId) {
    forall i :: 0 <= i < |tasks| && tasks[i].id == k ==> tasks[i].at.Finished?
  }

  lemma {:induction false} TrunkOnTrackThroughout(m: Mirror, events: seq<Event>, t: RowId, since: bool)
    requires Sound(m) && Fair(m, events, {t}, {}) && TrunkOnTrack(m, t, since)
    ensures Sound(Run(m, events)) && TrunkOnTrack(Run(m, events), t, since || RepairCommits(m, events, t))
    decreases events
  {
    if events == [] {
    } else {
      assert t in {t};
      NextStaysSound(m, events[0]);
      TrunkStaysOnTrack(m, events[0], t, since);
      TrunkOnTrackThroughout(Next(m, events[0]), events[1..], t, since || CommitsRepair(m, events[0], t));
    }
  }

  /**
   * From any database and any LiveKit contents: once some repair of a trunk has committed, the trunk is settled
   * whenever none of its tasks is left, however the tasks of other rows overlap and fail.
   */
  lemma TrunkConverges(m: Mirror, events: seq<Event>, t: RowId)
    requires Sound(m) && NoTasks(m) && t in m.w.trunks && Fair(m, events, {t}, {}) && RepairCommits(m, events, t)
    requires Done(Run(m, events).trunkTasks, t)
    ensures TrunkSettled(Run(m, events).w, t)
  {
    TrunkOnTrackThroughout(m, events, t, false);
    TrackedTrunkIsSettled(Run(m, events), t);
  }

  /** The trunk, the rule, and the rule's being on its way to the trunk's id. */
  ghost predicate Linked(m: Mirror, t: RowId, r: RowId, since: bool) {
    && Sound(m) && r in m.w.rules && m.w.rules[r].config.sipTrunkId == Some(t)
    && TrunkOnTrack(m, t, since) && RuleOnTrack(m, r) && (since ==> Followed(m, r))
  }

  lemma NextStaysLinked(m: Mirror, e: Event, t: RowId, r: RowId, since: bool)
    requires Linked(m, t, r, since) && Fresh(m, e) && Completes(m, e, {t}, {r})
    requires Solo(m.trunkTasks, t) && Solo(m.ruleTasks, r)
    ensures Linked(Next(m, e), t, r, since || CommitsRepair(m, e, t))
  {
    NextStaysSound(m, e);
    NextKeepsRuleConfig(m, e, r);
    TrunkStaysOnTrack(m, e, t, since);
    RuleStaysOnTrack(m, e, r);
    if since { RuleStaysFollowed(m, e, r, t); }
    else if CommitsRepair(m, e, t) {
      RepairPutsRulesOnTheirWay(m, e, r, t);
    }
  }

  lemma {:induction false} LinkedThroughout(m: Mirror, events: seq<Event>, t: RowId, r: RowId, since: bool)
    requires Linked(m, t, r, since) && Fair(m, events, {t}, {r})
    ensures Linked(Run(m, events), t, r, since || RepairCommits(m, events, t))
    decreases events
  {
    if events == [] {
    } else {
      assert t in {t} && r in {r};
      NextStaysLinked(m, events[0], t, r, since);
      LinkedThroughout(Next(m, events[0]), events[1..], t, r, since || CommitsRepair(m, events[0], t));
    }
  }

  lemma TrackedTrunkIsSettled(m: Mirror, t: RowId)
    requires Sound(m) && TrunkOnTrack(m, t, true) && Done(m.trunkTasks, t)
    ensures TrunkSettled(m.w, t)
  {
    var id := m.w.trunks[t].sync.resourceId;
    assert HeldAsTrunk(m, t, m.w.trunks[t].config, id);
    CarriedTrunkMatches(id.value, m.w.store.trunks[id.value], t, m.w.trunks[t].config,
                        AcceptedNumbers(m.w.numbers, t), m.w.trunks[t].config.password);
  }

  lemma FollowedRuleIsSettled(m: Mirror, t: RowId, r: RowId)
    requires Linked(m, t, r, true) && Done(m.trunkTasks, t) && Done(m.ruleTasks, r)
    ensures RuleSettled(m.w, r)
  {
    var id, row := CurrentTrunkId(m, r), m.w.rules[r];
    assert HeldAsRule(m, r, row.config, row.sync.resourceId, id);
    assert TrunkIdsFor(row.config, m.w.trunks) == [id.value];
    var own := row.sync.resourceId.value;
    CarriedRuleMatches(own, m.w.store.rules[own], r, row.config, [id.value]);
  }

  lemma LinkedIsSettled(m: Mirror, t: RowId, r: RowId)
    requires Linked(m, t, r, true) && Done(m.trunkTasks, t) && Done(m.ruleTasks, r)
    ensures TrunkSettled(m.w, t) && RuleSettled(m.w, r)
  {
    TrackedTrunkIsSettled(m, t);
    FollowedRuleIsSettled(m, t, r);
  }

  /**
   * Convergence over any interleaving. From any database and any LiveKit contents, once a repair of trunk t has
   * committed, t and each of its INDIVIDUAL rules r are settled whenever none of their tasks is left: the syncs that
   * the repair enqueues bring the rule to the new id, even when they overlap other tasks of the trunk.
   */
  lemma ScheduleConverges(m: Mirror, events: seq<Event>, t: RowId, r: RowId)
    requires Sound(m) && NoTasks(m) && Fair(m, events, {t}, {r}) && RepairCommits(m, events, t)
    requires t in m.w.trunks && r in m.w.rules
    requires m.w.rules[r].config.individual && m.w.rules[r].config.sipTrunkId == Some(t)
    requires Done(Run(m, events).trunkTasks, t) && Done(Run(m, events).ruleTasks, r)
    ensures TrunkSettled(Run(m, events).w, t) && RuleSettled(Run(m, events).w, r)
  {
    LinkedThroughout(m, events, t, r, false);
    LinkedIsSettled(Run(m, events), t, r);
  }

  // ---- From settled rows to the drift report ----

  /** A settled trunk is free of findings exactly when every number attached to it is ACTIVE. */
  lemma SettledTrunkAgreesIff(w: World, t: RowId)
    requires TrunkSettled(w, t) && UniqueNumbers(w.numbers)
    ensures TrunkAgrees(w.trunks[t], NumbersWhere(w.numbers, t, false), w.store.trunks) <==> AllActive(w.numbers, t)
  {
    SentIsExpectedIff(w.numbers, t);
  }

  ghost predicate RowsKeyed(w: World) {
    && (forall t :: t in w.trunks ==> w.trunks[t].id == t)
    && (forall r :: r in w.rules ==> w.rules[r].id == r)
  }

  ghost predicate RowsOf<C>(rows: seq<Row<C>>, m: map<RowId, Row<C>>) {
    && (forall row :: row in rows ==> row.id in m && m[row.id] == row)
    && (forall id :: id in m ==> m[id] in rows)
  }

  /** What one drift check read: the rows, the two groupings it built, and the two listings LiveKit returned. */
  datatype DriftCheck = DriftCheck(
    trunkRows: seq<Row<TrunkConfig>>, ruleRows: seq<Row<RuleConfig>>, numbersByTrunk: map<RowId, seq<string>>,
    idsByRule: map<RowId, seq<string>>, trunkSnapshots: seq<TrunkSnapshot>, ruleSnapshots: seq<RuleSnapshot>)
  {
    function TrunkFindings(): seq<Finding> {
      TrunkRowFindings(trunkRows, numbersByTrunk, trunkSnapshots) + TrunkOrphans(trunkSnapshots, NamedIds(trunkRows))
    }

    function RuleFindings(): seq<Finding> {
      RuleRowFindings(ruleRows, idsByRule, ruleSnapshots) + RuleOrphans(ruleSnapshots, NamedIds(ruleRows))
    }

    ghost predicate Of(w: World) {
      && RowsOf(trunkRows, w.trunks) && RowsOf(ruleRows, w.rules) && DistinctRows(trunkRows) && DistinctRows(ruleRows)
      && ListsTrunks(trunkSnapshots, w.store.trunks) && ListsRules(ruleSnapshots, w.store.rules)
      && (forall t :: GetOrEmpty(numbersByTrunk, t) == NumbersWhere(w.numbers, t, false))
      && (forall r :: r in w.rules ==> GetOrEmpty(idsByRule, r) == TrunkIdsFor(w.rules[r].config, w.trunks))
    }
  }

  lemma {:induction false} OrphansNameNoRow(ts: seq<TrunkSnapshot>, rs: seq<RuleSnapshot>, ours: set<string>)
    ensures forall f :: f in TrunkOrphans(ts, ours) ==> f.kind == ORPHAN
    ensures forall f :: f in RuleOrphans(rs, ours) ==> f.kind == ORPHAN
    decreases |ts| + |rs|
  {
    if ts != [] { OrphansNameNoRow(ts[..|ts| - 1], rs, ours); }
    if rs != [] { OrphansNameNoRow(ts, rs[..|rs| - 1], ours); }
  }

  /** A drift check reports a row exactly when the row and LiveKit disagree. */
  lemma CheckReportsIff(w: World, check: DriftCheck)
    requires check.Of(w)
    ensures forall t :: t in w.trunks ==>
      (Reported(check.TrunkFindings(), w.trunks[t].id)
       <==> !TrunkAgrees(w.trunks[t], NumbersWhere(w.numbers, w.trunks[t].id, false), w.store.trunks))
    ensures RowsKeyed(w) ==> forall r :: r in w.rules ==>
      (Reported(check.RuleFindings(), r)
       <==> !RuleAgrees(w.rules[r], TrunkIdsFor(w.rules[r].config, w.trunks), w.store.rules))
  {
    OrphansNameNoRow(check.trunkSnapshots, check.ruleSnapshots, NamedIds(check.trunkRows));
    OrphansNameNoRow(check.trunkSnapshots, check.ruleSnapshots, NamedIds(check.ruleRows));
    forall t | t in w.trunks
      ensures Reported(check.TrunkFindings(), w.trunks[t].id)
              <==> !TrunkAgrees(w.trunks[t], NumbersWhere(w.numbers, w.trunks[t].id, false), w.store.trunks)
    {
      TrunkReportedIff(check.trunkRows, check.numbersByTrunk, check.trunkSnapshots, w.store.trunks, w.trunks[t]);
      assert Reported(check.TrunkFindings(), w.trunks[t].id)
        <==> Reported(TrunkRowFindings(check.trunkRows, check.numbersByTrunk, check.trunkSnapshots), w.trunks[t].id);
    }
    if RowsKeyed(w) {
      forall r | r in w.rules
        ensures Reported(check.RuleFindings(), r)
                <==> !RuleAgrees(w.rules[r], TrunkIdsFor(w.rules[r].config, w.trunks), w.store.rules)
      {
        RuleReportedIff(check.ruleRows, check.idsByRule, check.ruleSnapshots, w.store.rules, w.rules[r]);
        assert Reported(check.RuleFindings(), r)
          <==> Reported(RuleRowFindings(check.ruleRows, check.idsByRule, check.ruleSnapshots), r);
      }
    }
  }

  // ---- A repaired mirror has no drift ----

  ghost predicate SameConfiguration(w: World, w': World) {
    && w'.trunks.Keys == w.trunks.Keys && w'.rules.Keys == w.rules.Keys && w'.numbers == w.numbers
    && (forall r :: r in w.rules ==> w'.rules[r].config == w.rules[r].config)
  }

  lemma NextKeepsConfiguration(m: Mirror, e: Event)
    requires Sound(m)
    ensures SameConfiguration(m.w, Next(m, e).w)
  {
    if e.TrunkStep? && e.i < |m.trunkTasks| { TrunksAfterAreIssued(m.w, m.trunkTasks[e.i]); }
  }

  lemma {:induction false} RunKeepsConfiguration(
    m: Mirror, events: seq<Event>, trunks: set<RowId>, rules: set<RowId>)
    requires Sound(m) && Fair(m, events, trunks, rules)
    ensures Sound(Run(m, events)) && SameConfiguration(m.w, Run(m, events).w)
    decreases events
  {
    if events == [] {
    } else {
      NextStaysSound(m, events[0]);
      NextKeepsConfiguration(m, events[0]);
      RunKeepsConfiguration(Next(m, events[0]), events[1..], trunks, rules);
    }
  }

  /** INDIVIDUAL rules attached to a trunk. */
  function AttachedRules(w: World): set<RowId> {
    set r | r in w.rules && w.rules[r].config.individual && AttachedTrunk(w, r).Some?
  }

  lemma {:induction false} FairForTrunk(
    m: Mirror, events: seq<Event>, trunks: set<RowId>, rules: set<RowId>, t: RowId)
    requires Fair(m, events, trunks, rules) && t in trunks
    ensures Fair(m, events, {t}, {})
    decreases events
  {
    if events == [] {
    } else {
      FairForTrunk(Next(m, events[0]), events[1..], trunks, rules, t);
    }
  }

  lemma TrunkSettlesInFullRun(m: Mirror, events: seq<Event>, t: RowId)
    requires Sound(m) && NoTasks(m) && Fair(m, events, m.w.trunks.Keys, AttachedRules(m.w)) && t in m.w.trunks
    requires RepairCommits(m, events, t) && Done(Run(m, events).trunkTasks, t)
    ensures TrunkSettled(Run(m, events).w, t)
  {
    FairForTrunk(m, events, m.w.trunks.Keys, AttachedRules(m.w), t);
    TrunkConverges(m, events, t);
  }

  lemma RuleSettlesInFullRun(m: Mirror, events: seq<Event>, r: RowId)
    requires Sound(m) && NoTasks(m) && Fair(m, events, m.w.trunks.Keys, AttachedRules(m.w)) && r in AttachedRules(m.w)
    requires RepairCommits(m, events, m.w.rules[r].config.sipTrunkId.value)
    requires Done(Run(m, events).trunkTasks, m.w.rules[r].config.sipTrunkId.value)
    requires Done(Run(m, events).ruleTasks, r)
    ensures RuleSettled(Run(m, events).w, r)
  {
    var t := m.w.rules[r].config.sipTrunkId.value;
    FairForFewer(m, events, m.w.trunks.Keys, AttachedRules(m.w), t, r);
    ScheduleConverges(m, events, t, r);
  }

  /**
   * When every trunk has been repaired at some point and no task is left, the next drift check reports a trunk exactly
   * when some number attached to it is not ACTIVE, and reports no INDIVIDUAL rule attached to a trunk.
   */
  lemma RepairThenSyncLeavesNoDrift(m: Mirror, events: seq<Event>, check: DriftCheck)
    requires Sound(m) && NoTasks(m) && UniqueNumbers(m.w.numbers)
    requires Fair(m, events, m.w.trunks.Keys, AttachedRules(m.w))
    requires forall t :: t in m.w.trunks ==> RepairCommits(m, events, t) && Done(Run(m, events).trunkTasks, t)
    requires forall r :: r in AttachedRules(m.w) ==> Done(Run(m, events).ruleTasks, r)
    requires check.Of(Run(m, events).w)
    ensures forall t :: t in m.w.trunks ==> (Reported(check.TrunkFindings(), t) <==> !AllActive(m.w.numbers, t))
    ensures forall r :: r in AttachedRules(m.w) ==> !Reported(check.RuleFindings(), r)
  {
    RunKeepsConfiguration(m, events, m.w.trunks.Keys, AttachedRules(m.w));
    AllSettleInFullRun(m, events);
    SettledRowsAreUnreported(Run(m, events).w, m.w.trunks.Keys, AttachedRules(m.w), check);
  }

  lemma AllSettleInFullRun(m: Mirror, events: seq<Event>)
    requires Sound(m) && NoTasks(m) && Fair(m, events, m.w.trunks.Keys, AttachedRules(m.w))
    requires forall t :: t in m.w.trunks ==> RepairCommits(m, events, t) && Done(Run(m, events).trunkTasks, t)
    requires forall r :: r in AttachedRules(m.w) ==> Done(Run(m, events).ruleTasks, r)
    ensures forall t :: t in m.w.trunks ==> TrunkSettled(Run(m, events).w, t)
    ensures forall r :: r in AttachedRules(m.w) ==> RuleSettled(Run(m, events).w, r)
  {
    forall t | t in m.w.trunks ensures TrunkSettled(Run(m, events).w, t) { TrunkSettlesInFullRun(m, events, t); }
    forall r | r in AttachedRules(m.w) ensures RuleSettled(Run(m, events).w, r) { RuleSettlesInFullRun(m, events, r); }
  }

  lemma SettledRowsAreUnreported(w: World, trunks: set<RowId>, rules: set<RowId>, check: DriftCheck)
    requires check.Of(w) && RowsKeyed(w) && UniqueNumbers(w.numbers)
    requires (forall t :: t in trunks ==> TrunkSettled(w, t)) && (forall r :: r in rules ==> RuleSettled(w, r))
    ensures forall t :: t in trunks ==> (Reported(check.TrunkFindings(), t) <==> !AllActive(w.numbers, t))
    ensures forall r :: r in rules ==> !Reported(check.RuleFindings(), r)
  {
    CheckReportsIff(w, check);
    forall t | t in trunks ensures Reported(check.TrunkFindings(), t) <==> !AllActive(w.numbers, t) {
      SettledTrunkAgreesIff(w, t);
      assert w.trunks[t].id == t;
    }
  }

  /** The syncs one repair enqueues settle every INDIVIDUAL rule of the trunk, in whatever order they run. */
  lemma RepairAndItsDependentsSettle(m: Mirror, events: seq<Event>, t: RowId, rules: set<RowId>)
    requires Sound(m) && NoTasks(m) && t in m.w.trunks && Fair(m, events, {t}, rules) && RepairCommits(m, events, t)
    requires rules == set r | r in RulesOf(m.w, t) && m.w.rules[r].config.individual
    requires Done(Run(m, events).trunkTasks, t) && forall r :: r in rules ==> Done(Run(m, events).ruleTasks, r)
    ensures forall r :: r in rules ==> RuleSettled(Run(m, events).w, r)
  {
    forall r | r in rules ensures RuleSettled(Run(m, events).w, r) {
      FairForFewer(m, events, {t}, rules, t, r);
      ScheduleConverges(m, events, t, r);
    }
  }

  /** The statuses one drift check leaves on the rows that name a resource, when no id serves both tables. */
  lemma CheckMarksIff(w: World, check: DriftCheck, describe: Reason -> string, now: int)
    requires check.Of(w) && RowsKeyed(w) && w.trunks.Keys !! w.rules.Keys
    ensures var findings := check.TrunkFindings() + check.RuleFindings();
      && (forall t :: t in w.trunks && Truthy(w.trunks[t].sync.resourceId) ==>
            (Marked(w.trunks[t], findings, describe, now).sync.status == DRIFTED
             <==> !TrunkAgrees(w.trunks[t], NumbersWhere(w.numbers, t, false), w.store.trunks)))
      && (forall r :: r in w.rules && Truthy(w.rules[r].sync.resourceId) ==>
            (Marked(w.rules[r], findings, describe, now).sync.status == DRIFTED
             <==> !RuleAgrees(w.rules[r], TrunkIdsFor(w.rules[r].config, w.trunks), w.store.rules)))
  {
    var findings := check.TrunkFindings() + check.RuleFindings();
    CheckReportsIff(w, check);
    FindingsNameTheirRows(w, check);
    forall t | t in w.trunks && Truthy(w.trunks[t].sync.resourceId)
      ensures Marked(w.trunks[t], findings, describe, now).sync.status == DRIFTED
              <==> !TrunkAgrees(w.trunks[t], NumbersWhere(w.numbers, t, false), w.store.trunks)
    {
      MarkedDriftedIff(w.trunks[t], findings, describe, now);
      assert Reported(findings, t) <==> Reported(check.TrunkFindings(), t);
    }
    forall r | r in w.rules && Truthy(w.rules[r].sync.resourceId)
      ensures Marked(w.rules[r], findings, describe, now).sync.status == DRIFTED
              <==> !RuleAgrees(w.rules[r], TrunkIdsFor(w.rules[r].config, w.trunks), w.store.rules)
    {
      MarkedDriftedIff(w.rules[r], findings, describe, now);
      assert Reported(findings, r) <==> Reported(check.RuleFindings(), r);
    }
  }

  lemma {:induction false} RowFindingsNameRows(check: DriftCheck, n: nat, m: nat)
    requires n <= |check.trunkRows| && m <= |check.ruleRows|
    ensures forall f :: f in TrunkRowFindings(check.trunkRows[..n], check.numbersByTrunk, check.trunkSnapshots) ==>
              exists row :: row in check.trunkRows && f.rowId == Some(row.id)
    ensures forall f :: f in RuleRowFindings(check.ruleRows[..m], check.idsByRule, check.ruleSnapshots) ==>
              exists row :: row in check.ruleRows && f.rowId == Some(row.id)
    decreases n + m
  {
    if n > 0 {
      RowFindingsNameRows(check, n - 1, m);
      assert check.trunkRows[..n][..n - 1] == check.trunkRows[..n - 1];
      assert check.trunkRows[n - 1] in check.trunkRows;
    }
    if m > 0 {
      RowFindingsNameRows(check, n, m - 1);
      assert check.ruleRows[..m][..m - 1] == check.ruleRows[..m - 1];
      assert check.ruleRows[m - 1] in check.ruleRows;
    }
  }

  lemma FindingsNameTheirRows(w: World, check: DriftCheck)
    requires check.Of(w) && RowsKeyed(w)
    ensures forall f :: f in check.TrunkFindings() && f.kind != ORPHAN ==> f.rowId.Some? && f.rowId.value in w.trunks
    ensures forall f :: f in check.RuleFindings() && f.kind != ORPHAN ==> f.rowId.Some? && f.rowId.value in w.rules
  {
    OrphansNameNoRow(check.trunkSnapshots, check.ruleSnapshots, NamedIds(check.trunkRows));
    OrphansNameNoRow(check.trunkSnapshots, check.ruleSnapshots, NamedIds(check.ruleRows));
    RowFindingsNameRows(check, |check.trunkRows|, |check.ruleRows|);
    assert check.trunkRows[..|check.trunkRows|] == check.trunkRows
      && check.ruleRows[..|check.ruleRows|] == check.ruleRows;
  }
}
