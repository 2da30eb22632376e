/** Two tasks of one dispatch rule that overlap: exactly when they leave an orphan behind. */
module MirrorRuleOverlap {
  import opened Options
  import opened SipResources
  import opened MirrorJobs
  import opened MirrorTasks
  import opened MirrorOwnership
  import opened MirrorConvergence
  import opened MirrorOrphans
  import opened MirrorCrashes
  import opened MirrorPairs
  import MirrorOverlap

  /** Every task of the rule creates anew: it is INDIVIDUAL, and its trunk names a resource. */
  predicate Recreated(w: World, config: RuleConfig) {
    config.individual && TrunkIdFor(config, w.trunks).Some?
  }

  predicate Theirs(e: Event, i: nat, j: nat) {
    e.RuleStep? && e.i in {i, j}
  }

  /**
   * Neither of tasks i and j commits before the other has read the row, LiveKit answers the two as it should, and the
   * rule's trunk does not gain or lose its id, though it may get another. No other task of the rule steps or crashes;
   * tasks of other rows, the trunk's among them, do as they like.
   */
  predicate Overlap(m: Mirror, events: seq<Event>, i: nat, j: nat, config: RuleConfig)
    requires i < |m.ruleTasks| && j < |m.ruleTasks|
    decreases events
  {
    events != [] ==>
      && Fresh(m, events[0]) && (Recreated(Next(m, events[0]).w, config) <==> Recreated(m.w, config))
      && (if Theirs(events[0], i, j) then
            && (m.ruleTasks[events[0].i].at.Pushed? ==> !m.ruleTasks[i].at.Waiting? && !m.ruleTasks[j].at.Waiting?)
            && events[0].ruleReplies.creation.Ok?
            && DeletesHeld(m, events[0])
          else
            (events[0].RuleStep? || events[0].RuleCrash?) && events[0].i < |m.ruleTasks| ==>
              m.ruleTasks[events[0].i].id != m.ruleTasks[i].id)
      && Overlap(Next(m, events[0]), events[1..], i, j, config)
  }

  /** Some step of one of the two leaves something behind. */
  ghost predicate TheyLeaveAnOrphan(m: Mirror, events: seq<Event>, i: nat, j: nat)
    decreases events
  {
    && events != []
    && (|| (Theirs(events[0], i, j) && exists id :: StrayRule(Next(m, events[0]), id) && !StrayRule(m, id))
        || TheyLeaveAnOrphan(Next(m, events[0]), events[1..], i, j))
  }

  /** Two tasks of one rule, neither of which has read the trunk: each is waiting or has just read the rule's row. */
  ghost predicate Beginning(m: Mirror, i: nat, j: nat) {
    && i < |m.ruleTasks| && j < |m.ruleTasks| && i != j
    && m.ruleTasks[i].id == m.ruleTasks[j].id && m.ruleTasks[i].id in m.w.rules
    && (m.ruleTasks[i].at.Waiting? || m.ruleTasks[i].at == Loaded(m.w.rules[m.ruleTasks[i].id]))
    && (m.ruleTasks[j].at.Waiting? || m.ruleTasks[j].at == Loaded(m.w.rules[m.ruleTasks[j].id]))
  }

  function TheTwo(m: Mirror, i: nat, j: nat, row: Row<RuleConfig>): Two<RuleConfig> {
    Two(i, j, row, Recreated(m.w, row.config), Recreated(m.w, row.config))
  }

  ghost predicate Pair(m: Mirror, i: nat, j: nat, row: Row<RuleConfig>, known: set<string>) {
    && Sound(m) && Owned(m, {}) && known <= m.w.store.issued && i < |m.ruleTasks| && j < |m.ruleTasks|
    && Paired(m.w.rules, m.ruleTasks, m.w.store.rules.Keys, known, TheTwo(m, i, j, row))
    && (m.ruleTasks[i].at.Ready? || m.ruleTasks[j].at.Ready? ==> Recreated(m.w, row.config))
  }

  /** A step of one of the two brings it on its way. */
  lemma OwnStepMoves(w: World, task: RuleTask, replies: RuleReplies, row: Row<RuleConfig>, known: set<string>)
    requires Consistent(w.rules, task, w.store.issued) && NewId(w.store, replies.newId) && task.id in w.rules
    requires known <= w.store.issued && w.store.rules.Keys <= w.store.issued && IdsOf(row) <= known
    requires OnItsWay(task.at, row, Recreated(w, row.config), w.store.rules.Keys, known) && task.id == row.id
    requires task.at.Waiting? ==> w.rules[row.id] == row
    requires (task.at.Ready? ==> Recreated(w, row.config)) && replies.creation.Ok?
    requires ClearsRule(task) && task.at.mine.sync.resourceId.value in w.store.rules ==> replies.deletion.Ok?
    ensures var task', creates := task.(at := RuleProgress(w, task, replies)), Recreated(w, row.config);
      && OnItsWay(task'.at, row, creates, StoreAfterRule(w, task, replies).rules.Keys, known)
      && Commits(w.rules, RulesAfter(w, task), task, task', creates) && (task'.at.Ready? ==> creates)
      && (task.at.Pushed? ==> StoreAfterRule(w, task, replies) == w.store)
  {
  }

  /** A step of the first of the two. */
  lemma FirstStepKeepsPair(m: Mirror, e: Event, i: nat, j: nat, row: Row<RuleConfig>, known: set<string>)
    requires Pair(m, i, j, row, known) && Overlap(m, [e], i, j, row.config) && Theirs(e, i, j) && e.i == i
    ensures var m1 := Next(m, e);
      && |m1.ruleTasks| == |m.ruleTasks| && m1.ruleTasks[j] == m.ruleTasks[j]
      && (m1.ruleTasks[i].at.Ready? ==> Recreated(m.w, row.config))
      && Paired(m1.w.rules, m1.ruleTasks, m1.w.store.rules.Keys, known, TheTwo(m, i, j, row))
  {
    var task, m1, p := m.ruleTasks[i], Next(m, e), TheTwo(m, i, j, row);
    assert Consistent(m.w.rules, task, m.w.store.issued);
    RuleStepSteps(m.w, task, e.ruleReplies);
    RuleStepKeepsSides(m.w, task, e.ruleReplies);
    OwnStepMoves(m.w, task, e.ruleReplies, row, known);
    OwnStepKeepsPair(m.w.rules, m1.w.rules, m.ruleTasks, m1.ruleTasks[i], m.w.store.rules.Keys,
                     m1.w.store.rules.Keys, known, e.ruleReplies.newId, p);
  }

  /** Any step of the run that is not one of theirs. */
  lemma OtherStepKeepsPair(m: Mirror, e: Event, i: nat, j: nat, row: Row<RuleConfig>, known: set<string>)
    requires Pair(m, i, j, row, known) && Overlap(m, [e], i, j, row.config) && !Theirs(e, i, j)
    ensures var m1 := Next(m, e);
      && |m1.ruleTasks| >= |m.ruleTasks|
      && m1.ruleTasks[i] == m.ruleTasks[i] && m1.ruleTasks[j] == m.ruleTasks[j]
      && Paired(m1.w.rules, m1.ruleTasks, m1.w.store.rules.Keys, known, TheTwo(m, i, j, row))
  {
    var m1, p := Next(m, e), TheTwo(m, i, j, row);
    if e.RuleStep? && e.i < |m.ruleTasks| {
      var task := m.ruleTasks[e.i];
      assert Consistent(m.w.rules, task, m.w.store.issued);
      RuleStepSteps(m.w, task, e.ruleReplies);
      RuleStepKeepsSides(m.w, task, e.ruleReplies);
      OthersKeepPair(m.w.rules, m1.w.rules, m.ruleTasks, e.i, m1.ruleTasks[e.i], m.w.store.rules.Keys,
                     m1.w.store.rules.Keys, known, e.ruleReplies.newId, p);
    } else {
      if e.TrunkStep? && e.i < |m.trunkTasks| { TrunkStepKeepsSides(m.w, m.trunkTasks[e.i], e.trunkReplies); }
      EndingKeepsPair(m.w.rules, m.ruleTasks, m1.ruleTasks, m.w.store.rules.Keys, known, p);
    }
  }

  lemma NextKeepsPair(m: Mirror, e: Event, i: nat, j: nat, row: Row<RuleConfig>, known: set<string>)
    requires Pair(m, i, j, row, known) && Overlap(m, [e], i, j, row.config)
    ensures Pair(Next(m, e), i, j, row, known)
  {
    NextStaysSound(m, e);
    NextStaysOwned(m, e, {});
    MirrorOverlap.NextIssuesMore(m, e);
    if !Theirs(e, i, j) {
      OtherStepKeepsPair(m, e, i, j, row, known);
    } else if e.i == i {
      FirstStepKeepsPair(m, e, i, j, row, known);
    } else {
      PairSwaps(m.w.rules, m.ruleTasks, m.w.store.rules.Keys, known, TheTwo(m, i, j, row));
      FirstStepKeepsPair(m, e, j, i, row, known);
      var m1 := Next(m, e);
      PairSwaps(m1.w.rules, m1.ruleTasks, m1.w.store.rules.Keys, known, TheTwo(m1, j, i, row));
    }
  }

  predicate BothOver(m: Mirror, i: nat, j: nat) {
    && i < |m.ruleTasks| && Over(m.ruleTasks[i].at)
    && j < |m.ruleTasks| && Over(m.ruleTasks[j].at)
  }

  /** The step that ends the pair: the commit of the second, which abandons what the first made. */
  lemma LastStepLeavesAnOrphan(m: Mirror, e: Event, i: nat, j: nat, row: Row<RuleConfig>, known: set<string>)
    returns (id: string)
    requires Pair(m, i, j, row, known) && Overlap(m, [e], i, j, row.config) && Recreated(m.w, row.config)
    requires !BothOver(m, i, j) && BothOver(Next(m, e), i, j) && Theirs(e, i, j) && e.i == i
    ensures id !in known && !StrayRule(m, id) && StrayRule(Next(m, e), id) && LostRule(Next(m, e), id)
  {
    var task, m1, p := m.ruleTasks[i], Next(m, e), TheTwo(m, i, j, row);
    assert Consistent(m.w.rules, task, m.w.store.issued);
    assert m1.ruleTasks[j] == m.ruleTasks[j];
    RuleStepSteps(m.w, task, e.ruleReplies);
    OwnStepMoves(m.w, task, e.ruleReplies, row, known);
    id := SecondCommitAbandons(m.w.rules, m1.w.rules, m.ruleTasks, m1.ruleTasks[i], m.w.store.rules.Keys,
                               m1.w.store.rules.Keys, known, e.ruleReplies.newId, p);
    assert id in IdsOf(m.w.rules[row.id]);
    RuleStrayAddedIff(m, i, e.ruleReplies, id);
  }

  lemma NoOrphanUnlessRecreated(m: Mirror, e: Event, i: nat, j: nat, row: Row<RuleConfig>, known: set<string>)
    requires Pair(m, i, j, row, known) && Overlap(m, [e], i, j, row.config) && Theirs(e, i, j)
    requires !Recreated(m.w, row.config)
    ensures forall id :: StrayRule(Next(m, e), id) ==> StrayRule(m, id)
  {
    var p := TheTwo(m, i, j, row);
    PairSwaps(m.w.rules, m.ruleTasks, m.w.store.rules.Keys, known, p);
    forall id | StrayRule(Next(m, e), id) && !StrayRule(m, id) ensures false {
      RuleStrayAddedIff(m, e.i, e.ruleReplies, id);
      OneCreatesAbandonsNothing(m.w.rules, m.ruleTasks, m.w.store.rules.Keys, known,
                                if e.i == i then p else p.Swapped(), id);
    }
  }

  lemma {:induction false} OverlapIsFresh(m: Mirror, events: seq<Event>, i: nat, j: nat, config: RuleConfig)
    requires i < |m.ruleTasks| && j < |m.ruleTasks| && Overlap(m, events, i, j, config)
    ensures AllFresh(m, events)
    decreases events
  {
    if events == [] {
    } else {
      OverlapIsFresh(Next(m, events[0]), events[1..], i, j, config);
    }
  }

  lemma {:induction false} NoOrphansUnlessRecreated(m: Mirror, events: seq<Event>, i: nat, j: nat,
                                                    row: Row<RuleConfig>, known: set<string>)
    requires Pair(m, i, j, row, known) && Overlap(m, events, i, j, row.config) && !Recreated(m.w, row.config)
    ensures !TheyLeaveAnOrphan(m, events, i, j)
    decreases events
  {
    if events == [] {
    } else {
      var e := events[0];
      assert [e][1..] == [];
      if Theirs(e, i, j) { NoOrphanUnlessRecreated(m, e, i, j, row, known); }
      NextKeepsPair(m, e, i, j, row, known);
      NoOrphansUnlessRecreated(Next(m, e), events[1..], i, j, row, known);
    }
  }

  lemma {:induction false} AnOrphanWhenRecreated(m: Mirror, events: seq<Event>, i: nat, j: nat, row: Row<RuleConfig>,
                                                 known: set<string>) returns (id: string)
    requires Pair(m, i, j, row, known) && Overlap(m, events, i, j, row.config) && Recreated(m.w, row.config)
    requires !BothOver(m, i, j) && BothOver(Run(m, events), i, j)
    ensures TheyLeaveAnOrphan(m, events, i, j) && id !in known && LostRule(Run(m, events), id)
    decreases events
  {
    var e, m1 := events[0], Next(m, events[0]);
    assert [e][1..] == [];
    NextKeepsPair(m, e, i, j, row, known);
    if !BothOver(m1, i, j) {
      id := AnOrphanWhenRecreated(m1, events[1..], i, j, row, known);
    } else {
      if !Theirs(e, i, j) { OtherStepKeepsPair(m, e, i, j, row, known); }
      PairSwaps(m.w.rules, m.ruleTasks, m.w.store.rules.Keys, known, TheTwo(m, i, j, row));
      id := LastStepLeavesAnOrphan(m, e, e.i, if e.i == i then j else i, row, known);
      OverlapIsFresh(m1, events[1..], i, j, row.config);
      LostForGood(m1, events[1..], {}, id);
    }
  }

  lemma BeginningIsAPair(m: Mirror, i: nat, j: nat)
    requires Sound(m) && Owned(m, {}) && Beginning(m, i, j)
    ensures Pair(m, i, j, m.w.rules[m.ruleTasks[i].id], m.w.store.issued)
  {
  }

  /**
   * After any run: exactly when two tasks of a rule leave an orphan if each reads the row before the other commits and
   * LiveKit answers them as it should, whatever tasks of other rows do. It is whenever the rule can be synced at all,
   * since every sync creates it anew; the orphan is then there for good.
   */
  lemma RuleOverlapLeavesAnOrphanIff(m: Mirror, before: seq<Event>, events: seq<Event>, i: nat, j: nat)
    requires Sound(m) && NoTasks(m) && AllFresh(m, before) && Beginning(Run(m, before), i, j)
    requires var b := Run(m, before); Overlap(b, events, i, j, b.w.rules[b.ruleTasks[i].id].config)
    requires BothOver(Run(Run(m, before), events), i, j)
    ensures var b := Run(m, before);
      var recreated := Recreated(b.w, b.w.rules[b.ruleTasks[i].id].config);
      && (TheyLeaveAnOrphan(b, events, i, j) <==> recreated)
      && (recreated ==> exists id :: id !in b.w.store.issued && StrayRule(Run(b, events), id))
  {
    var b := Run(m, before);
    var row, known := b.w.rules[b.ruleTasks[i].id], b.w.store.issued;
    RunStaysOwned(m, before, {});
    BeginningIsAPair(b, i, j);
    if Recreated(b.w, row.config) {
      var id := AnOrphanWhenRecreated(b, events, i, j, row, known);
      LostIsStray(Run(b, events), id);
    } else {
      NoOrphansUnlessRecreated(b, events, i, j, row, known);
    }
  }
}
