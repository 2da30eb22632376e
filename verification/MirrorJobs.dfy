/** Background synchronisation and repair: one row pushed from the database into LiveKit. */
module MirrorJobs {
  import opened Options
  import opened Ordering
  import opened SipResources

  const ERROR_LIMIT := 1000

  /** Whether the stored password, or its absence, could be read. */
  datatype Password = Opened | CannotOpen(message: string)

  /** How the outside world answers one trunk job. */
  datatype TrunkReplies = TrunkReplies(
    password: Password, deletion: Call, update: Call, creation: Call, newId: string, now: int)

  /** How the outside world answers one rule job. */
  datatype RuleReplies = RuleReplies(deletion: Call, creation: Call, newId: string, now: int)

  function Truncated(s: string): string {
    if |s| <= ERROR_LIMIT then s else s[..ERROR_LIMIT]
  }

  function NumbersWhere(numbers: seq<PhoneNumber>, trunk: RowId, activeOnly: bool): seq<string> {
    if numbers == [] then []
    else
      var last := numbers[|numbers| - 1];
      NumbersWhere(numbers[..|numbers| - 1], trunk, activeOnly)
      + (if last.sipTrunkId == Some(trunk) && (activeOnly ==> last.active) then [last.number] else [])
  }

  /** The ACTIVE numbers attached to a trunk, sorted. */
  function AcceptedNumbers(numbers: seq<PhoneNumber>, trunk: RowId): seq<string> {
    StableSort(LexLe, NumbersWhere(numbers, trunk, true))
  }

  function MarkFailed(sync: Sync, message: string): Sync {
    sync.(status := FAILED, error := Some(Truncated(message)), attempts := sync.attempts + 1)
  }

  function MarkSynced(sync: Sync, id: string, now: int): Sync {
    sync.(resourceId := Some(id), status := SYNCED, error := None, attempts := 0, lastSyncedAt := Some(now))
  }

  function Pending<C>(row: Row<C>): Row<C> {
    row.(sync := row.sync.(status := PENDING))
  }

  function Failed<C>(row: Row<C>, message: string): Row<C> {
    row.(sync := MarkFailed(row.sync, message))
  }

  function Synced<C>(row: Row<C>, id: string, now: int): Row<C> {
    row.(sync := MarkSynced(row.sync, id, now))
  }

  function WithoutId<C>(row: Row<C>): Row<C> {
    row.(sync := row.sync.(resourceId := None))
  }

  method FailRow<C>(row: MirroredRow<C>, message: string)
    modifies row
    ensures row.Value() == Failed(old(row.Value()), message)
  {
    row.syncStatus := FAILED;
    row.syncError := Some(Truncated(message));
    row.syncAttempts := row.syncAttempts + 1;
  }

  method SyncRow<C>(row: MirroredRow<C>, id: string, now: int)
    modifies row
    ensures row.Value() == Synced(old(row.Value()), id, now)
  {
    row.livekitResourceId := Some(id);
    row.syncStatus := SYNCED;
    row.lastSyncedAt := Some(now);
    row.syncError := None;
    row.syncAttempts := 0;
  }

  // ---- Trunks ----

  /** A repair deletes what the row names; a deletion that raises is only logged. */
  function StoreWithoutTrunk(row: Row<TrunkConfig>, store: Store, deletion: Call): Store {
    if deletion.Ok? && Truthy(row.sync.resourceId) then DeleteTrunk(store, row.sync.resourceId.value) else store
  }

  /** The call to LiveKit: an update in place when the row names something, a creation otherwise. */
  function TrunkPushed(
    row: Row<TrunkConfig>, numbers: seq<string>, password: Option<string>, store: Store, replies: TrunkReplies)
    : (Row<TrunkConfig>, Store)
  {
    var info := TrunkInfoFor(row, numbers, password);
    if Truthy(row.sync.resourceId) then
      var id := row.sync.resourceId.value;
      var answer := UpdateAnswer(store, id, replies.update);
      if answer.Raised? then (Failed(row, answer.message), store)
      else (Synced(row, id, replies.now), UpdateTrunk(store, id, info))
    else if replies.creation.Raised? then (Failed(row, replies.creation.message), store)
    else (Synced(row, replies.newId, replies.now), CreateTrunk(store, replies.newId, info))
  }

  /** What one trunk job makes of the row and of LiveKit when nothing else happens between its steps. */
  function TrunkSync(row: Row<TrunkConfig>, numbers: seq<string>, store: Store, repair: bool, replies: TrunkReplies)
    : (Row<TrunkConfig>, Store)
  {
    if replies.password.CannotOpen? then (Failed(Pending(row), replies.password.message), store)
    else if repair && Truthy(row.sync.resourceId) then
      TrunkPushed(WithoutId(Pending(row)), numbers, row.config.password,
                  StoreWithoutTrunk(row, store, replies.deletion), replies)
    else TrunkPushed(Pending(row), numbers, row.config.password, store, replies)
  }

  /** Up to the return of the deletion. */
  method ClearTrunk(server: LiveKitServer, trunk: MirroredRow<TrunkConfig>, deletion: Call)
    requires Truthy(trunk.livekitResourceId)
    modifies server, trunk
    ensures trunk.Value() == WithoutId(old(trunk.Value()))
    ensures server.Held() == StoreWithoutTrunk(old(trunk.Value()), old(server.Held()), deletion)
  {
    if deletion.Ok? {
      server.DeleteInboundTrunk(trunk.livekitResourceId.value);
    }
    trunk.livekitResourceId := None;
  }

  /** From there to the return of the update or the creation. */
  method PushTrunk(
    server: LiveKitServer, trunk: MirroredRow<TrunkConfig>, numbers: seq<string>, password: Option<string>,
    replies: TrunkReplies)
    modifies server, trunk
    ensures (trunk.Value(), server.Held())
         == TrunkPushed(old(trunk.Value()), numbers, password, old(server.Held()), replies)
    ensures trunk.syncStatus == SYNCED ==>
              && trunk.livekitResourceId.Some? && trunk.livekitResourceId.value in server.trunks
              && TrunkCarries(server.trunks[trunk.livekitResourceId.value], trunk.id, trunk.config, numbers, password)
  {
    var held: string;
    if Truthy(trunk.livekitResourceId) {
      var answer, snapshot := replies.update, None;
      if answer.Ok? {
        answer, snapshot := server.UpdateInboundTrunk(
          trunk.livekitResourceId.value, trunk.Value(), numbers, password);
      }
      if answer.Raised? {
        FailRow(trunk, answer.message);
        return;
      }
      held := snapshot.value.id;
    } else {
      if replies.creation.Raised? {
        FailRow(trunk, replies.creation.message);
        return;
      }
      var snapshot := server.CreateInboundTrunk(replies.newId, trunk.Value(), numbers, password);
      held := snapshot.id;
    }
    SyncRow(trunk, held, replies.now);
  }

  method ApplyTrunkSync(
    server: LiveKitServer, trunk: MirroredRow<TrunkConfig>, phoneNumbers: seq<PhoneNumber>, repair: bool,
    replies: TrunkReplies)
    modifies server, trunk
    ensures (trunk.Value(), server.Held())
         == TrunkSync(
              old(trunk.Value()), AcceptedNumbers(phoneNumbers, trunk.id), old(server.Held()), repair, replies)
    ensures trunk.syncStatus == SYNCED ==>
              && trunk.livekitResourceId.Some? && trunk.livekitResourceId.value in server.trunks
              && TrunkCarries(server.trunks[trunk.livekitResourceId.value], trunk.id, trunk.config,
                              AcceptedNumbers(phoneNumbers, trunk.id), trunk.config.password)
  {
    trunk.syncStatus := PENDING;
    var numbers := AcceptedNumbers(phoneNumbers, trunk.id);
    if replies.password.CannotOpen? {
      FailRow(trunk, replies.password.message);
      return;
    }
    if repair && Truthy(trunk.livekitResourceId) {
      ClearTrunk(server, trunk, replies.deletion);
    }
    PushTrunk(server, trunk, numbers, trunk.config.password, replies);
  }

  // ---- Dispatch rules ----

  const ONLY_INDIVIDUAL :=
    "only INDIVIDUAL rooms are supported - a shared room would mix callers (spec 22)"
  const NO_TRUNK := "no synced SIP trunk to attach the rule to"

  function SharedRoomRefused(row: Row<RuleConfig>): Row<RuleConfig> {
    row.(sync := row.sync.(status := FAILED, error := Some(ONLY_INDIVIDUAL)))
  }

  function TrunkMissing(row: Row<RuleConfig>): Row<RuleConfig> {
    row.(sync := row.sync.(status := FAILED, error := Some(NO_TRUNK), attempts := row.sync.attempts + 1))
  }

  /** A rule is always recreated: what it names is deleted first. */
  function StoreWithoutRule(row: Row<RuleConfig>, store: Store, deletion: Call): Store {
    if deletion.Ok? && Truthy(row.sync.resourceId) then DeleteRule(store, row.sync.resourceId.value) else store
  }

  function RulePushed(row: Row<RuleConfig>, trunkId: string, store: Store, replies: RuleReplies)
    : (Row<RuleConfig>, Store)
  {
    if replies.creation.Raised? then (Failed(row, replies.creation.message), store)
    else (Synced(row, replies.newId, replies.now), CreateRule(store, replies.newId, RuleInfoFor(row, [trunkId])))
  }

  /** What one rule job makes of the row and of LiveKit when nothing else happens between its steps. */
  function RuleSync(row: Row<RuleConfig>, trunk: Option<Row<TrunkConfig>>, store: Store, replies: RuleReplies)
    : (Row<RuleConfig>, Store)
  {
    if !row.config.individual then (SharedRoomRefused(row), store)
    else if trunk.None? || !Truthy(trunk.value.sync.resourceId) then (TrunkMissing(Pending(row)), store)
    else
      var trunkId := trunk.value.sync.resourceId.value;
      if Truthy(row.sync.resourceId) then
        RulePushed(WithoutId(Pending(row)), trunkId, StoreWithoutRule(row, store, replies.deletion), replies)
      else RulePushed(Pending(row), trunkId, store, replies)
  }

  /** Up to the return of the deletion. */
  method ClearRule(server: LiveKitServer, rule: MirroredRow<RuleConfig>, deletion: Call)
    requires Truthy(rule.livekitResourceId)
    modifies server, rule
    ensures rule.Value() == WithoutId(old(rule.Value()))
    ensures server.Held() == StoreWithoutRule(old(rule.Value()), old(server.Held()), deletion)
  {
    if deletion.Ok? {
      server.DeleteDispatchRule(rule.livekitResourceId.value);
    }
    rule.livekitResourceId := None;
  }

  /** From there to the return of the creation. */
  method PushRule(server: LiveKitServer, rule: MirroredRow<RuleConfig>, trunkId: string, replies: RuleReplies)
    modifies server, rule
    ensures (rule.Value(), server.Held()) == RulePushed(old(rule.Value()), trunkId, old(server.Held()), replies)
    ensures rule.syncStatus == SYNCED ==>
              && rule.livekitResourceId.Some? && rule.livekitResourceId.value in server.rules
              && RuleCarries(server.rules[rule.livekitResourceId.value], rule.id, rule.config, [trunkId])
  {
    if replies.creation.Raised? {
      FailRow(rule, replies.creation.message);
      return;
    }
    var snapshot := server.CreateDispatchRule(replies.newId, rule.Value(), [trunkId]);
    SyncRow(rule, snapshot.id, replies.now);
  }

  method ApplyDispatchRuleSync(
    server: LiveKitServer, rule: MirroredRow<RuleConfig>, trunk: MirroredRow?<TrunkConfig>, replies: RuleReplies)
    modifies server, rule
    ensures (rule.Value(), server.Held())
         == RuleSync(
              old(rule.Value()), if trunk == null then None else Some(old(trunk.Value())), old(server.Held()), replies)
    ensures rule.syncStatus == SYNCED ==>
              && trunk != null && Truthy(old(trunk.livekitResourceId))
              && rule.livekitResourceId.Some? && rule.livekitResourceId.value in server.rules
              && RuleCarries(server.rules[rule.livekitResourceId.value], rule.id, rule.config,
                             [old(trunk.livekitResourceId.value)])
  {
    if !rule.config.individual {
      rule.syncStatus := FAILED;
      rule.syncError := Some(ONLY_INDIVIDUAL);
      return;
    }
    rule.syncStatus := PENDING;
    var trunkIds: seq<string> := [];
    if trunk != null && Truthy(trunk.livekitResourceId) {
      trunkIds := trunkIds + [trunk.livekitResourceId.value];
    }
    if trunkIds == [] {
      rule.syncStatus := FAILED;
      rule.syncError := Some(NO_TRUNK);
      rule.syncAttempts := rule.syncAttempts + 1;
      return;
    }
    if Truthy(rule.livekitResourceId) {
      ClearRule(server, rule, replies.deletion);
    }
    PushRule(server, rule, trunkIds[0], replies);
  }

  // ---- Numbers ----

  lemma {:induction false} NumbersWhereMembers(numbers: seq<PhoneNumber>, trunk: RowId, activeOnly: bool)
    ensures forall s :: s in NumbersWhere(numbers, trunk, activeOnly) <==>
              exists n :: n in numbers && n.sipTrunkId == Some(trunk) && (activeOnly ==> n.active) && n.number == s
  {
    if numbers == [] {
    } else {
      NumbersWhereMembers(numbers[..|numbers| - 1], trunk, activeOnly);
      assert numbers == numbers[..|numbers| - 1] + [numbers[|numbers| - 1]];
    }
  }

  lemma AcceptedMembers(numbers: seq<PhoneNumber>, trunk: RowId)
    ensures AsSet(AcceptedNumbers(numbers, trunk)) == AsSet(NumbersWhere(numbers, trunk, true))
  {
    SameMultisetSameMembers(AcceptedNumbers(numbers, trunk), NumbersWhere(numbers, trunk, true));
  }

  /** No number appears in two rows (the table's unique constraint). */
  ghost predicate UniqueNumbers(numbers: seq<PhoneNumber>) {
    forall i, j :: 0 <= i < j < |numbers| ==> numbers[i].number != numbers[j].number
  }

  ghost predicate AllActive(numbers: seq<PhoneNumber>, trunk: RowId) {
    forall n :: n in numbers && n.sipTrunkId == Some(trunk) ==> n.active
  }

  /** The numbers a sync sends are the numbers the drift check expects exactly when every attached number is ACTIVE. */
  lemma SentIsExpectedIff(numbers: seq<PhoneNumber>, trunk: RowId)
    requires UniqueNumbers(numbers)
    ensures AsSet(AcceptedNumbers(numbers, trunk)) == AsSet(NumbersWhere(numbers, trunk, false))
            <==> AllActive(numbers, trunk)
  {
    AcceptedMembers(numbers, trunk);
    NumbersWhereMembers(numbers, trunk, true);
    NumbersWhereMembers(numbers, trunk, false);
    var sent, expected := NumbersWhere(numbers, trunk, true), NumbersWhere(numbers, trunk, false);
    if AllActive(numbers, trunk) {
      forall s ensures s in sent <==> s in expected {}
    }
    if AsSet(sent) == AsSet(expected) {
      forall n | n in numbers && n.sipTrunkId == Some(trunk) ensures n.active {
        assert n.number in expected && n.number in AsSet(expected);
        assert n.number in sent;
      }
    }
  }
}
