/**
 * The rows mirrored into LiveKit, the LiveKit store itself, and the field-by-field match between them.
 *
 * A trunk or a rule is pushed as a record built from its row and read back as a snapshot. The match compares what both
 * have: the name, the lists as sets, and the optional strings with the empty one counting as absent.
 */
module SipResources {
  import opened Options

  /** `x or None` on an optional string: the empty string counts as absent. */
  function OrNone(s: Option<string>): Option<string> {
    if s.Some? && s.value != "" then s else None
  }

  function OrEmpty(s: Option<string>): string {
    if s.Some? then s.value else ""
  }

  predicate Truthy(s: Option<string>) {
    s.Some? && s.value != ""
  }

  function AsSet<T>(s: seq<T>): set<T> {
    set x | x in s
  }

  // ---- Database rows ----

  type RowId = nat

  datatype SyncStatus = SYNCED | PENDING | FAILED | DRIFTED

  /** The columns every mirrored row carries. */
  datatype Sync = Sync(
    resourceId: Option<string>, status: SyncStatus, error: Option<string>, attempts: nat, lastSyncedAt: Option<int>)

  /** The password is the one stored for the trunk, as it reads once it has been opened. */
  datatype TrunkConfig = TrunkConfig(
    tenantId: RowId, name: string, allowedIps: seq<string>, authUsername: Option<string>, password: Option<string>,
    encryptionRequired: bool)

  datatype RuleConfig = RuleConfig(
    tenantId: RowId, name: string, sipTrunkId: Option<RowId>, individual: bool, roomPrefix: Option<string>,
    agentDispatchName: string, matchedNumbers: seq<string>)

  datatype Row<+C> = Row(id: RowId, config: C, sync: Sync)

  datatype PhoneNumber = PhoneNumber(number: string, sipTrunkId: Option<RowId>, active: bool)

  /** A row as the ORM holds it: its configuration is read, its sync columns are reassigned. */
  class MirroredRow<C> {
    const id: RowId
    const config: C
    var livekitResourceId: Option<string>
    var syncStatus: SyncStatus
    var syncError: Option<string>
    var syncAttempts: nat
    var lastSyncedAt: Option<int>

    constructor (id: RowId, config: C)
      ensures Value() == Row(id, config, Sync(None, PENDING, None, 0, None))
    {
      this.id, this.config := id, config;
      livekitResourceId, syncStatus, syncError, syncAttempts, lastSyncedAt := None, PENDING, None, 0, None;
    }

    function Value(): Row<C>
      reads this
    {
      Row(id, config, Sync(livekitResourceId, syncStatus, syncError, syncAttempts, lastSyncedAt))
    }
  }

  // ---- What LiveKit holds ----

  datatype TrunkInfo = TrunkInfo(
    name: string, owner: (RowId, RowId), numbers: seq<string>, allowedAddresses: seq<string>,
    authUsername: string, authPassword: string, encryptionRequired: bool)

  datatype RuleInfo = RuleInfo(
    name: string, owner: (RowId, RowId), trunkIds: seq<string>, roomPrefix: string,
    agentNames: seq<string>, inboundNumbers: seq<string>)

  /** `issued` is every id LiveKit has ever handed out, whether or not the resource still exists. */
  datatype Store = Store(trunks: map<string, TrunkInfo>, rules: map<string, RuleInfo>, issued: set<string>)

  function TrunkInfoFor(row: Row<TrunkConfig>, numbers: seq<string>, password: Option<string>): TrunkInfo {
    TrunkInfo(row.config.name, (row.config.tenantId, row.id), numbers, row.config.allowedIps,
              OrEmpty(row.config.authUsername), OrEmpty(password), row.config.encryptionRequired)
  }

  function RuleInfoFor(row: Row<RuleConfig>, trunkIds: seq<string>): RuleInfo {
    RuleInfo(row.config.name, (row.config.tenantId, row.id), trunkIds, OrEmpty(row.config.roomPrefix),
             [row.config.agentDispatchName], row.config.matchedNumbers)
  }

  /** The record is the row's, column by column; absent credentials are empty strings. */
  predicate TrunkCarries(
    info: TrunkInfo, id: RowId, config: TrunkConfig, numbers: seq<string>, password: Option<string>)
  {
    && info.name == config.name && info.owner == (config.tenantId, id)
    && info.numbers == numbers && info.allowedAddresses == config.allowedIps
    && info.authUsername == (if config.authUsername.Some? then config.authUsername.value else "")
    && info.authPassword == (if password.Some? then password.value else "")
    && info.encryptionRequired == config.encryptionRequired
  }

  predicate RuleCarries(info: RuleInfo, id: RowId, config: RuleConfig, trunkIds: seq<string>) {
    && info.name == config.name && info.owner == (config.tenantId, id) && info.trunkIds == trunkIds
    && info.roomPrefix == (if config.roomPrefix.Some? then config.roomPrefix.value else "")
    && info.agentNames == [config.agentDispatchName] && info.inboundNumbers == config.matchedNumbers
  }

  // ---- Calls into LiveKit: a call that raises leaves the store as it was ----

  datatype Call = Ok | Raised(message: string)

  class LiveKitServer {
    var trunks: map<string, TrunkInfo>
    var rules: map<string, RuleInfo>
    var issued: set<string>

    constructor ()
      ensures Held() == Store(map[], map[], {})
    {
      trunks, rules, issued := map[], map[], {};
    }

    function Held(): Store
      reads this
    {
      Store(trunks, rules, issued)
    }

    /** Builds the record from the row; what LiveKit answers reads back as the row with those numbers. */
    method CreateInboundTrunk(newId: string, trunk: Row<TrunkConfig>, numbers: seq<string>, password: Option<string>)
      returns (snapshot: TrunkSnapshot)
      modifies this
      ensures Held() == CreateTrunk(old(Held()), newId, TrunkInfoFor(trunk, numbers, password))
      ensures newId in trunks && TrunkCarries(trunks[newId], trunk.id, trunk.config, numbers, password)
      ensures snapshot == SnapTrunk(newId, Held().trunks[newId]) && TrunkMatches(snapshot, trunk.config, numbers)
    {
      var info := TrunkInfoFor(trunk, numbers, password);
      trunks := trunks[newId := info];
      issued := issued + {newId};
      PushedTrunkMatchesIff(newId, trunk, numbers, numbers, password);
      return SnapTrunk(newId, info);
    }

    /**
     * Replaces a trunk that is held, and answers with what reads back as the row with those numbers; an id that is not
     * held is refused and nothing changes.
     */
    method UpdateInboundTrunk(id: string, trunk: Row<TrunkConfig>, numbers: seq<string>, password: Option<string>)
      returns (answer: Call, snapshot: Option<TrunkSnapshot>)
      modifies this`trunks
      ensures answer == UpdateAnswer(old(Held()), id, Ok)
      ensures Held() == if answer.Ok? then UpdateTrunk(old(Held()), id, TrunkInfoFor(trunk, numbers, password))
                        else old(Held())
      ensures snapshot == if answer.Ok? then Some(SnapTrunk(id, Held().trunks[id])) else None
      ensures answer.Ok? ==>
                && id in trunks && TrunkCarries(trunks[id], trunk.id, trunk.config, numbers, password)
                && TrunkMatches(snapshot.value, trunk.config, numbers)
    {
      if id !in trunks {
        return Raised(NOT_HELD), None;
      }
      var info := TrunkInfoFor(trunk, numbers, password);
      trunks := trunks[id := info];
      PushedTrunkMatchesIff(id, trunk, numbers, numbers, password);
      return Ok, Some(SnapTrunk(id, info));
    }

    method DeleteInboundTrunk(id: string)
      modifies this`trunks
      ensures Held() == DeleteTrunk(old(Held()), id)
    {
      trunks := trunks - {id};
    }

    /** Builds the request from the row; what LiveKit answers reads back as the rule on those trunks. */
    method CreateDispatchRule(newId: string, rule: Row<RuleConfig>, trunkIds: seq<string>)
      returns (snapshot: RuleSnapshot)
      modifies this
      ensures Held() == CreateRule(old(Held()), newId, RuleInfoFor(rule, trunkIds))
      ensures newId in rules && RuleCarries(rules[newId], rule.id, rule.config, trunkIds)
      ensures snapshot == SnapRule(newId, Held().rules[newId]) && RuleMatches(snapshot, rule.config, trunkIds)
    {
      var info := RuleInfoFor(rule, trunkIds);
      rules := rules[newId := info];
      issued := issued + {newId};
      PushedRuleMatchesIff(newId, rule, trunkIds, trunkIds);
      return SnapRule(newId, info);
    }

    method DeleteDispatchRule(id: string)
      modifies this`rules
      ensures Held() == DeleteRule(old(Held()), id)
    {
      rules := rules - {id};
    }
  }

  const NOT_HELD := "not found"

  /** LiveKit refuses to update what it does not hold, whatever else it would have answered. */
  function UpdateAnswer(s: Store, id: string, reply: Call): Call {
    if reply.Raised? then reply else if id in s.trunks then Ok else Raised(NOT_HELD)
  }

  function UpdateTrunk(s: Store, id: string, info: TrunkInfo): Store {
    s.(trunks := s.trunks[id := info])
  }

  function CreateTrunk(s: Store, newId: string, info: TrunkInfo): Store {
    s.(trunks := s.trunks[newId := info], issued := s.issued + {newId})
  }

  function DeleteTrunk(s: Store, id: string): Store {
    s.(trunks := s.trunks - {id})
  }

  function CreateRule(s: Store, newId: string, info: RuleInfo): Store {
    s.(rules := s.rules[newId := info], issued := s.issued + {newId})
  }

  function DeleteRule(s: Store, id: string): Store {
    s.(rules := s.rules - {id})
  }

  // ---- Snapshots and matching ----

  datatype TrunkSnapshot = TrunkSnapshot(
    id: string, name: string, numbers: seq<string>, allowedAddresses: seq<string>, authUsername: Option<string>)

  datatype RuleSnapshot = RuleSnapshot(
    id: string, name: string, trunkIds: seq<string>, roomPrefix: Option<string>, agentNames: seq<string>,
    inboundNumbers: seq<string>)

  function SnapTrunk(id: string, info: TrunkInfo): TrunkSnapshot {
    TrunkSnapshot(id, info.name, info.numbers, info.allowedAddresses, OrNone(Some(info.authUsername)))
  }

  function SnapRule(id: string, info: RuleInfo): RuleSnapshot {
    RuleSnapshot(id, info.name, info.trunkIds, OrNone(Some(info.roomPrefix)), info.agentNames, info.inboundNumbers)
  }

  predicate TrunkMatches(snapshot: TrunkSnapshot, config: TrunkConfig, numbers: seq<string>) {
    && snapshot.name == config.name
    && AsSet(snapshot.numbers) == AsSet(numbers)
    && AsSet(snapshot.allowedAddresses) == AsSet(config.allowedIps)
    && OrNone(snapshot.authUsername) == OrNone(config.authUsername)
  }

  predicate RuleMatches(snapshot: RuleSnapshot, config: RuleConfig, trunkIds: seq<string>) {
    && snapshot.name == config.name
    && AsSet(snapshot.trunkIds) == AsSet(trunkIds)
    && OrNone(snapshot.roomPrefix) == OrNone(config.roomPrefix)
    && AsSet(snapshot.agentNames) == {config.agentDispatchName}
    && AsSet(snapshot.inboundNumbers) == AsSet(config.matchedNumbers)
  }

  /** The record built for a row is the one that carries it, and no other is. */
  lemma BuiltExactlyToCarry(
    trunk: TrunkInfo, t: Row<TrunkConfig>, numbers: seq<string>, password: Option<string>,
    rule: RuleInfo, r: Row<RuleConfig>, trunkIds: seq<string>)
    ensures TrunkCarries(trunk, t.id, t.config, numbers, password) <==> trunk == TrunkInfoFor(t, numbers, password)
    ensures RuleCarries(rule, r.id, r.config, trunkIds) <==> rule == RuleInfoFor(r, trunkIds)
  {
  }

  /** A record that carries a trunk's row reads back as a match. */
  lemma CarriedTrunkMatches(
    id: string, info: TrunkInfo, t: RowId, config: TrunkConfig, numbers: seq<string>, password: Option<string>)
    requires TrunkCarries(info, t, config, numbers, password)
    ensures TrunkMatches(SnapTrunk(id, info), config, numbers)
  {
  }

  lemma CarriedRuleMatches(id: string, info: RuleInfo, r: RowId, config: RuleConfig, trunkIds: seq<string>)
    requires RuleCarries(info, r, config, trunkIds)
    ensures RuleMatches(SnapRule(id, info), config, trunkIds)
  {
    assert AsSet([config.agentDispatchName]) == {config.agentDispatchName};
  }

  /** What was pushed for a trunk reads back as a match exactly when the numbers pushed are the numbers compared. */
  lemma PushedTrunkMatchesIff(
    id: string, row: Row<TrunkConfig>, pushed: seq<string>, compared: seq<string>, password: Option<string>)
    ensures TrunkMatches(SnapTrunk(id, TrunkInfoFor(row, pushed, password)), row.config, compared)
            <==> AsSet(pushed) == AsSet(compared)
  {
  }

  /** The same for a rule and the trunk ids it was pushed with. */
  lemma PushedRuleMatchesIff(id: string, row: Row<RuleConfig>, pushed: seq<string>, compared: seq<string>)
    ensures RuleMatches(SnapRule(id, RuleInfoFor(row, pushed)), row.config, compared)
            <==> AsSet(pushed) == AsSet(compared)
  {
    assert AsSet([row.config.agentDispatchName]) == {row.config.agentDispatchName};
  }
}
