/** What keeps a rule in step with its trunk once the trunk has been repaired. */
module MirrorRules {
  // A repair changes the trunk's id and so breaks its rules. From its commit on there is always something that puts a
  // rule right: the repair that is about to enqueue it, a task of its own that has yet to read the trunk or has read
  // the present id, or nothing at all when the rule is already on that id.

  import opened Options
  import opened SipResources
  import opened MirrorJobs
  import opened MirrorTasks
  import opened MirrorOwnership
  import opened MirrorSettling

  /** LiveKit holds the id, with that configuration on that trunk, and it is this row's alone. */
  ghost predicate HeldAsRule(m: Mirror, k: RowId, config: RuleConfig, id: Option<string>, trunkId: Option<string>) {
    && Truthy(id) && Truthy(trunkId) && id.value in m.w.store.rules
    && RuleCarries(m.w.store.rules[id.value], k, config, [trunkId.value])
    && Private(m.w.rules, m.ruleTasks, k, id.value)
  }

  ghost predicate RuleTaskOnTrack(m: Mirror, k: RowId, task: RuleTask)
    requires k in m.w.rules
  {
    match task.at
    case Ready(loaded, mine, input) => mine == Pending(loaded) && Truthy(input)
    case Cleared(loaded, mine, input) => mine == WithoutId(Pending(loaded)) && Truthy(input)
    case Pushed(loaded, mine, input) =>
      input.Some? ==>
        mine.sync.resourceId != loaded.sync.resourceId
        && HeldAsRule(m, k, m.w.rules[k].config, mine.sync.resourceId, input)
    case _ => true
  }

  ghost predicate RuleOnTrack(m: Mirror, k: RowId) {
    && Kept(m.w.rules, m.ruleTasks, k) && m.w.rules[k].config.individual
    && forall i :: 0 <= i < |m.ruleTasks| && m.ruleTasks[i].id == k ==> RuleTaskOnTrack(m, k, m.ruleTasks[i])
  }

  lemma HeldRuleOutlivesOthers(m: Mirror, i: nat, replies: RuleReplies, k: RowId, id: Option<string>,
                               trunkId: Option<string>)
    requires Sound(m) && i < |m.ruleTasks| && m.ruleTasks[i].id != k && NewId(m.w.store, replies.newId)
    requires k in m.w.rules && HeldAsRule(m, k, m.w.rules[k].config, id, trunkId)
    ensures HeldAsRule(RuleStepped(m, i, replies), k, m.w.rules[k].config, id, trunkId)
  {
    var task := m.ruleTasks[i];
    RuleStepTouches(m.w, task, replies, id.value);
    RuleStepNames(m.w, task, replies);
    PrivateStays(m.w.rules, RulesAfter(m.w, task), m.ruleTasks, i, task.(at := RuleProgress(m.w, task, replies)),
                 k, id.value, replies.newId);
  }

  lemma RulePushHolds(m: Mirror, i: nat, replies: RuleReplies)
    requires Sound(m) && i < |m.ruleTasks| && PushesRule(m.ruleTasks[i]) && NewId(m.w.store, replies.newId)
    requires m.ruleTasks[i].id in m.w.rules && replies.creation.Ok? && Truthy(m.ruleTasks[i].at.input)
    ensures var task, m1 := m.ruleTasks[i], RuleStepped(m, i, replies);
      && m1.ruleTasks[i].at.mine.sync.resourceId == Some(replies.newId)
      && HeldAsRule(m1, task.id, m.w.rules[task.id].config, Some(replies.newId), task.at.input)
  {
    var w, task, m1 := m.w, m.ruleTasks[i], RuleStepped(m, i, replies);
    assert Consistent(w.rules, task, w.store.issued);
    OwnStepKeepsPrivate(w.rules, m1.w.rules, m.ruleTasks, i, m1.ruleTasks[i], replies.newId);
  }

  lemma OwnRuleTaskStaysOnTrack(m: Mirror, i: nat, replies: RuleReplies)
    requires Sound(m) && i < |m.ruleTasks| && NewId(m.w.store, replies.newId) && replies.creation.Ok?
    requires RuleOnTrack(m, m.ruleTasks[i].id)
    ensures var k, m1 := m.ruleTasks[i].id, RuleStepped(m, i, replies); RuleTaskOnTrack(m1, k, m1.ruleTasks[i])
  {
    var k, task := m.ruleTasks[i].id, m.ruleTasks[i];
    assert Consistent(m.w.rules, task, m.w.store.issued);
    if PushesRule(task) { RulePushHolds(m, i, replies); }
  }

  lemma OwnRuleStepStaysOnTrack(m: Mirror, i: nat, replies: RuleReplies)
    requires Sound(m) && i < |m.ruleTasks| && NewId(m.w.store, replies.newId) && replies.creation.Ok?
    requires Solo(m.ruleTasks, m.ruleTasks[i].id) && RuleOnTrack(m, m.ruleTasks[i].id)
    ensures RuleOnTrack(RuleStepped(m, i, replies), m.ruleTasks[i].id)
  {
    var k, task, m1 := m.ruleTasks[i].id, m.ruleTasks[i], RuleStepped(m, i, replies);
    OwnRuleTaskStaysOnTrack(m, i, replies);
    forall j | 0 <= j < |m1.ruleTasks| && m1.ruleTasks[j].id == k
      ensures RuleTaskOnTrack(m1, k, m1.ruleTasks[j])
      ensures Active(m1.ruleTasks[j].at) ==> m1.ruleTasks[j].at.loaded == m1.w.rules[k]
    {
      if j != i {
        assert m1.ruleTasks[j] == m.ruleTasks[j];
      }
    }
  }

  lemma OtherRuleStepStaysOnTrack(m: Mirror, i: nat, replies: RuleReplies, k: RowId)
    requires Sound(m) && i < |m.ruleTasks| && m.ruleTasks[i].id != k && NewId(m.w.store, replies.newId)
    requires RuleOnTrack(m, k)
    ensures RuleOnTrack(RuleStepped(m, i, replies), k)
  {
    var m1 := RuleStepped(m, i, replies);
    forall j | 0 <= j < |m1.ruleTasks| && m1.ruleTasks[j].id == k ensures RuleTaskOnTrack(m1, k, m1.ruleTasks[j]) {
      assert m1.ruleTasks[j] == m.ruleTasks[j];
      if m.ruleTasks[j].at.Pushed? && m.ruleTasks[j].at.input.Some? {
        HeldRuleOutlivesOthers(m, i, replies, k, m.ruleTasks[j].at.mine.sync.resourceId, m.ruleTasks[j].at.input);
      }
    }
  }

  /** The rules, rule k's tasks and LiveKit's rules stay, but for tasks enqueued; tasks of others may end. */
  predicate OnlyEnqueues(m: Mirror, m1: Mirror, k: RowId) {
    && m1.w.rules == m.w.rules && m1.w.store.rules == m.w.store.rules
    && |m1.ruleTasks| >= |m.ruleTasks|
    && (forall j :: 0 <= j < |m1.ruleTasks| ==>
          if j < |m.ruleTasks| then KeptOrEnded(m.ruleTasks[j], m1.ruleTasks[j], k)
          else m1.ruleTasks[j].at.Waiting?)
  }

  /** Everything but a step or a crash of the rule's own tasks. */
  lemma OtherEventsOnlyEnqueue(m: Mirror, e: Event, k: RowId)
    requires !e.RuleStep? && Completes(m, e, {}, {k})
    ensures OnlyEnqueues(m, Next(m, e), k)
  {
    if e.TrunkStep? && e.i < |m.trunkTasks| { TrunkStepKeepsSides(m.w, m.trunkTasks[e.i], e.trunkReplies); }
  }

  lemma RuleStaysOnTrack(m: Mirror, e: Event, k: RowId)
    requires Sound(m) && Fresh(m, e) && Completes(m, e, {}, {k}) && Solo(m.ruleTasks, k) && RuleOnTrack(m, k)
    ensures RuleOnTrack(Next(m, e), k)
  {
    if e.RuleStep? {
      if e.i < |m.ruleTasks| {
        if m.ruleTasks[e.i].id == k { OwnRuleStepStaysOnTrack(m, e.i, e.ruleReplies); }
        else { OtherRuleStepStaysOnTrack(m, e.i, e.ruleReplies, k); }
      }
    } else {
      OtherEventsOnlyEnqueue(m, e, k);
    }
  }

  // ---- After a repair of the trunk ----

  function CurrentTrunkId(m: Mirror, k: RowId): Option<string>
    requires k in m.w.rules
  {
    TrunkIdFor(m.w.rules[k].config, m.w.trunks)
  }

  /** A task of the rule will still bring it to the trunk's present id. */
  predicate WillFollow(m: Mirror, k: RowId, task: RuleTask)
    requires k in m.w.rules
  {
    && task.id == k
    && (task.at.Waiting? || task.at.Loaded?
        || ((task.at.Ready? || task.at.Cleared? || task.at.Pushed?) && task.at.input == CurrentTrunkId(m, k)))
  }

  /** A repair of the rule's trunk has committed and is about to enqueue the rule. */
  predicate WillEnqueue(m: Mirror, k: RowId, task: TrunkTask)
    requires k in m.w.rules
  {
    m.w.rules[k].config.sipTrunkId == Some(task.id) && task.at.Saved?
  }

  /** The rule is on its trunk's present id, or something is on its way to put it there. */
  ghost predicate Followed(m: Mirror, k: RowId) {
    && k in m.w.rules && Truthy(CurrentTrunkId(m, k))
    && (|| (exists i :: 0 <= i < |m.trunkTasks| && WillEnqueue(m, k, m.trunkTasks[i]))
        || (exists i :: 0 <= i < |m.ruleTasks| && WillFollow(m, k, m.ruleTasks[i]))
        || (&& HeldAsRule(m, k, m.w.rules[k].config, m.w.rules[k].sync.resourceId, CurrentTrunkId(m, k))
            && forall i :: 0 <= i < |m.ruleTasks| && m.ruleTasks[i].id == k ==> !Active(m.ruleTasks[i].at)))
  }

  /** A step of the task that will follow. */
  lemma FollowingStepStaysFollowed(m: Mirror, i: nat, replies: RuleReplies)
    requires Sound(m) && i < |m.ruleTasks| && NewId(m.w.store, replies.newId) && replies.creation.Ok?
    requires Solo(m.ruleTasks, m.ruleTasks[i].id) && RuleOnTrack(m, m.ruleTasks[i].id)
    requires Truthy(CurrentTrunkId(m, m.ruleTasks[i].id)) && WillFollow(m, m.ruleTasks[i].id, m.ruleTasks[i])
    ensures Followed(RuleStepped(m, i, replies), m.ruleTasks[i].id)
  {
    var k, task, m1 := m.ruleTasks[i].id, m.ruleTasks[i], RuleStepped(m, i, replies);
    if task.at.Pushed? {
      assert Consistent(m.w.rules, task, m.w.store.issued);
      assert RuleTaskOnTrack(m, k, task);
      forall j | 0 <= j < |m1.ruleTasks| && m1.ruleTasks[j].id == k ensures !Active(m1.ruleTasks[j].at) {
        if j != i { assert m1.ruleTasks[j] == m.ruleTasks[j]; }
      }
    } else {
      assert Active(task.at) ==> Consistent(m.w.rules, task, m.w.store.issued);
      assert WillFollow(m1, k, m1.ruleTasks[i]);
    }
  }

  lemma RuleStepStaysFollowed(m: Mirror, i: nat, replies: RuleReplies, k: RowId)
    requires Sound(m) && i < |m.ruleTasks| && NewId(m.w.store, replies.newId)
    requires m.ruleTasks[i].id == k ==> replies.creation.Ok?
    requires Solo(m.ruleTasks, k) && RuleOnTrack(m, k) && Followed(m, k)
    ensures Followed(RuleStepped(m, i, replies), k)
  {
    var m1 := RuleStepped(m, i, replies);
    assert CurrentTrunkId(m1, k) == CurrentTrunkId(m, k);
    if j :| 0 <= j < |m.trunkTasks| && WillEnqueue(m, k, m.trunkTasks[j]) {
      assert WillEnqueue(m1, k, m1.trunkTasks[j]);
    } else if j :| 0 <= j < |m.ruleTasks| && WillFollow(m, k, m.ruleTasks[j]) {
      if j == i { FollowingStepStaysFollowed(m, i, replies); }
      else { assert m1.ruleTasks[j] == m.ruleTasks[j] && WillFollow(m1, k, m1.ruleTasks[j]); }
    } else {
      SettledRuleStepStaysFollowed(m, i, replies, k);
    }
  }

  /** Nothing is on its way and the rule is settled: a step changes nothing about it. */
  lemma SettledRuleStepStaysFollowed(m: Mirror, i: nat, replies: RuleReplies, k: RowId)
    requires Sound(m) && i < |m.ruleTasks| && NewId(m.w.store, replies.newId) && Followed(m, k)
    requires forall j :: 0 <= j < |m.trunkTasks| ==> !WillEnqueue(m, k, m.trunkTasks[j])
    requires forall j :: 0 <= j < |m.ruleTasks| ==> !WillFollow(m, k, m.ruleTasks[j])
    ensures Followed(RuleStepped(m, i, replies), k)
  {
    var m1 := RuleStepped(m, i, replies);
    if m.ruleTasks[i].id != k {
      HeldRuleOutlivesOthers(m, i, replies, k, m.w.rules[k].sync.resourceId, CurrentTrunkId(m, k));
    }
    forall j | 0 <= j < |m1.ruleTasks| && m1.ruleTasks[j].id == k ensures !Active(m1.ruleTasks[j].at) {
      if j != i { assert m1.ruleTasks[j] == m.ruleTasks[j]; }
    }
  }

  /** As long as the trunk's id stays, an event that only enqueues leaves the rule followed. */
  lemma EnqueueingStaysFollowed(m: Mirror, m1: Mirror, k: RowId)
    requires Followed(m, k) && OnlyEnqueues(m, m1, k) && CurrentTrunkId(m1, k) == CurrentTrunkId(m, k)
    requires forall i :: 0 <= i < |m.trunkTasks| && WillEnqueue(m, k, m.trunkTasks[i]) ==>
               i < |m1.trunkTasks| && m1.trunkTasks[i] == m.trunkTasks[i]
    ensures Followed(m1, k)
  {
    if i :| 0 <= i < |m.trunkTasks| && WillEnqueue(m, k, m.trunkTasks[i]) {
      assert WillEnqueue(m1, k, m1.trunkTasks[i]);
    } else if i :| 0 <= i < |m.ruleTasks| && WillFollow(m, k, m.ruleTasks[i]) {
      assert m1.ruleTasks[i] == m.ruleTasks[i] && WillFollow(m1, k, m1.ruleTasks[i]);
    } else {
      forall j | 0 <= j < |m1.ruleTasks| && m1.ruleTasks[j].id == k ensures !Active(m1.ruleTasks[j].at) {
        if j < |m.ruleTasks| { assert m1.ruleTasks[j] == m.ruleTasks[j]; }
      }
    }
  }

  /** A step of a task of the rule's own trunk: it keeps the trunk's id, or it has the rule enqueued. */
  lemma TrunkStepStaysFollowed(m: Mirror, i: nat, replies: TrunkReplies, dependents: seq<RowId>, k: RowId)
    requires i < |m.trunkTasks| && k in m.w.rules && m.w.rules[k].config.sipTrunkId == Some(m.trunkTasks[i].id)
    requires TrunkOnTrack(m, m.trunkTasks[i].id, true) && Followed(m, k)
    requires Truthy(CurrentTrunkId(TrunkStepped(m, i, replies, dependents), k))
    ensures Followed(TrunkStepped(m, i, replies, dependents), k)
  {
    var t, task, m1 := m.trunkTasks[i].id, m.trunkTasks[i], TrunkStepped(m, i, replies, dependents);
    TrunkStepKeepsSides(m.w, task, replies);
    if task.at.Saved? && AsSet(dependents) == RulesOf(m.w, t) {
      assert k in AsSet(dependents);
      var j :| 0 <= j < |dependents| && dependents[j] == k;
      assert m1.ruleTasks[|m.ruleTasks| + j] == Task(k, false, Waiting);
      assert WillFollow(m1, k, m1.ruleTasks[|m.ruleTasks| + j]);
    } else if Repaired(task) {
      assert WillEnqueue(m1, k, m1.trunkTasks[i]);
    } else {
      if task.at.Pushed? { CommitWritesMine(m, i, replies, dependents); }
      EnqueueingStaysFollowed(m, m1, k);
    }
  }

  /** A repair that commits puts the rule on its way. */
  lemma RepairPutsRulesOnTheirWay(m: Mirror, e: Event, k: RowId, t: RowId)
    requires CommitsRepair(m, e, t) && k in m.w.rules && m.w.rules[k].config.sipTrunkId == Some(t)
    requires Truthy(CurrentTrunkId(Next(m, e), k))
    ensures Followed(Next(m, e), k)
  {
    assert WillEnqueue(Next(m, e), k, Next(m, e).trunkTasks[e.i]);
  }

  lemma NextKeepsRuleConfig(m: Mirror, e: Event, k: RowId)
    requires Sound(m) && k in m.w.rules
    ensures k in Next(m, e).w.rules && Next(m, e).w.rules[k].config == m.w.rules[k].config
  {
  }

  /** Everything but a step of the rule's own tasks or its trunk's. */
  lemma OtherEventsStayFollowed(m: Mirror, e: Event, k: RowId, t: RowId)
    requires !e.RuleStep? && Completes(m, e, {t}, {k}) && Followed(m, k)
    requires e.TrunkStep? && e.i < |m.trunkTasks| ==> m.trunkTasks[e.i].id != t
    requires m.w.rules[k].config.sipTrunkId == Some(t)
    ensures Followed(Next(m, e), k)
  {
    OtherEventsOnlyEnqueue(m, e, k);
    EnqueueingStaysFollowed(m, Next(m, e), k);
  }

  /** Once its trunk has been repaired a rule is followed for good, whatever the tasks of other rows do. */
  lemma RuleStaysFollowed(m: Mirror, e: Event, k: RowId, t: RowId)
    requires Sound(m) && Fresh(m, e) && Completes(m, e, {t}, {k}) && Solo(m.trunkTasks, t) && Solo(m.ruleTasks, k)
    requires k in m.w.rules && m.w.rules[k].config.sipTrunkId == Some(t)
    requires TrunkOnTrack(m, t, true) && RuleOnTrack(m, k) && Followed(m, k)
    ensures Followed(Next(m, e), k)
  {
    TrunkStaysOnTrack(m, e, t, true);
    NextKeepsRuleConfig(m, e, k);
    if e.RuleStep? {
      if e.i < |m.ruleTasks| { RuleStepStaysFollowed(m, e.i, e.ruleReplies, k); }
    } else if e.TrunkStep? && e.i < |m.trunkTasks| && m.trunkTasks[e.i].id == t {
      TrunkStepStaysFollowed(m, e.i, e.trunkReplies, e.dependents, k);
    } else {
      OtherEventsStayFollowed(m, e, k, t);
    }
  }
}
