/** Drift detection: the two-way comparison of the rows with what LiveKit lists, and the statuses it writes. */
module MirrorDrift {
  import opened Options
  import opened MirrorJobs
  import opened SipResources

  datatype Resource = SipTrunkResource | DispatchRuleResource

  datatype DriftKind = MISSING | MISMATCH | ORPHAN

  datatype Field = NameField | NumbersField | AddressesField | AuthField | TrunkIdsField | PrefixField | AgentsField

  datatype Reason = NotHeld(id: string) | Differs(fields: seq<Field>) | NoRowNames(id: string)

  datatype Finding = Finding(
    resource: Resource, kind: DriftKind, name: string, reason: Reason, rowId: Option<RowId>, tenantId: Option<RowId>,
    resourceId: string)

  // ---- Why two sides differ ----

  function When(differs: bool, field: Field): seq<Field> {
    if differs then [field] else []
  }

  function TrunkDifferences(s: TrunkSnapshot, c: TrunkConfig, numbers: seq<string>): seq<Field> {
    When(s.name != c.name, NameField)
    + When(AsSet(s.numbers) != AsSet(numbers), NumbersField)
    + When(AsSet(s.allowedAddresses) != AsSet(c.allowedIps), AddressesField)
    + When(OrNone(s.authUsername) != OrNone(c.authUsername), AuthField)
  }

  function RuleDifferences(s: RuleSnapshot, c: RuleConfig, trunkIds: seq<string>): seq<Field> {
    When(s.name != c.name, NameField)
    + When(AsSet(s.trunkIds) != AsSet(trunkIds), TrunkIdsField)
    + When(OrNone(s.roomPrefix) != OrNone(c.roomPrefix), PrefixField)
    + When(AsSet(s.agentNames) != {c.agentDispatchName}, AgentsField)
    + When(AsSet(s.inboundNumbers) != AsSet(c.matchedNumbers), NumbersField)
  }

  /** A mismatch always has a named reason: the "fields differ" default of both reason builders is never reached. */
  lemma MismatchIsExplained(
    ts: TrunkSnapshot, tc: TrunkConfig, numbers: seq<string>, rs: RuleSnapshot, rc: RuleConfig, trunkIds: seq<string>)
    ensures TrunkMatches(ts, tc, numbers) <==> TrunkDifferences(ts, tc, numbers) == []
    ensures RuleMatches(rs, rc, trunkIds) <==> RuleDifferences(rs, rc, trunkIds) == []
  {
    assert |TrunkDifferences(ts, tc, numbers)| == 0 <==> TrunkMatches(ts, tc, numbers);
    assert |RuleDifferences(rs, rc, trunkIds)| == 0 <==> RuleMatches(rs, rc, trunkIds);
  }

  // ---- One row, one snapshot ----

  /** The last snapshot with this id, as a dictionary built by a comprehension keeps it. */
  function LookupTrunk(snapshots: seq<TrunkSnapshot>, id: string): Option<TrunkSnapshot> {
    if snapshots == [] then None
    else
      var last := snapshots[|snapshots| - 1];
      if last.id == id then Some(last) else LookupTrunk(snapshots[..|snapshots| - 1], id)
  }

  function LookupRule(snapshots: seq<RuleSnapshot>, id: string): Option<RuleSnapshot> {
    if snapshots == [] then None
    else
      var last := snapshots[|snapshots| - 1];
      if last.id == id then Some(last) else LookupRule(snapshots[..|snapshots| - 1], id)
  }

  function GetOrEmpty(m: map<RowId, seq<string>>, id: RowId): seq<string> {
    if id in m then m[id] else []
  }

  function TrunkRowFinding(row: Row<TrunkConfig>, numbers: seq<string>, snapshots: seq<TrunkSnapshot>): seq<Finding> {
    if !Truthy(row.sync.resourceId) then []
    else
      var id := row.sync.resourceId.value;
      match LookupTrunk(snapshots, id)
      case None =>
        [Finding(SipTrunkResource, MISSING, row.config.name, NotHeld(id), Some(row.id), Some(row.config.tenantId), id)]
      case Some(snapshot) =>
        if TrunkMatches(snapshot, row.config, numbers) then []
        else
          [Finding(SipTrunkResource, MISMATCH, row.config.name,
                   Differs(TrunkDifferences(snapshot, row.config, numbers)), Some(row.id),
                   Some(row.config.tenantId), id)]
  }

  function RuleRowFinding(row: Row<RuleConfig>, trunkIds: seq<string>, snapshots: seq<RuleSnapshot>): seq<Finding> {
    if !Truthy(row.sync.resourceId) then []
    else
      var id := row.sync.resourceId.value;
      match LookupRule(snapshots, id)
      case None =>
        [Finding(DispatchRuleResource, MISSING, row.config.name, NotHeld(id), Some(row.id),
                 Some(row.config.tenantId), id)]
      case Some(snapshot) =>
        if RuleMatches(snapshot, row.config, trunkIds) then []
        else
          [Finding(DispatchRuleResource, MISMATCH, row.config.name,
                   Differs(RuleDifferences(snapshot, row.config, trunkIds)), Some(row.id),
                   Some(row.config.tenantId), id)]
  }

  function TrunkRowFindings(
    rows: seq<Row<TrunkConfig>>, numbersByTrunk: map<RowId, seq<string>>, snapshots: seq<TrunkSnapshot>): seq<Finding>
  {
    if rows == [] then []
    else
      var row := rows[|rows| - 1];
      TrunkRowFindings(rows[..|rows| - 1], numbersByTrunk, snapshots)
      + TrunkRowFinding(row, GetOrEmpty(numbersByTrunk, row.id), snapshots)
  }

  function RuleRowFindings(
    rows: seq<Row<RuleConfig>>, trunkIdsByRule: map<RowId, seq<string>>, snapshots: seq<RuleSnapshot>): seq<Finding>
  {
    if rows == [] then []
    else
      var row := rows[|rows| - 1];
      RuleRowFindings(rows[..|rows| - 1], trunkIdsByRule, snapshots)
      + RuleRowFinding(row, GetOrEmpty(trunkIdsByRule, row.id), snapshots)
  }

  function NamedIds<C(==)>(rows: seq<Row<C>>): set<string> {
    set row | row in rows && Truthy(row.sync.resourceId) :: row.sync.resourceId.value
  }

  function TrunkOrphans(snapshots: seq<TrunkSnapshot>, ours: set<string>): seq<Finding> {
    if snapshots == [] then []
    else
      var s := snapshots[|snapshots| - 1];
      TrunkOrphans(snapshots[..|snapshots| - 1], ours)
      + (if s.id in ours then [] else [Finding(SipTrunkResource, ORPHAN, s.name, NoRowNames(s.id), None, None, s.id)])
  }

  function RuleOrphans(snapshots: seq<RuleSnapshot>, ours: set<string>): seq<Finding> {
    if snapshots == [] then []
    else
      var s := snapshots[|snapshots| - 1];
      RuleOrphans(snapshots[..|snapshots| - 1], ours)
      + (if s.id in ours then []
        else [Finding(DispatchRuleResource, ORPHAN, s.name, NoRowNames(s.id), None, None, s.id)])
  }

  // ---- The comparison loops ----

  function Values<C>(rows: seq<MirroredRow<C>>): seq<Row<C>>
    reads set r | r in rows
  {
    seq(|rows|, i requires 0 <= i < |rows| reads set r | r in rows => rows[i].Value())
  }

  method CompareTrunks(
    rows: seq<MirroredRow<TrunkConfig>>, numbersByTrunk: map<RowId, seq<string>>, snapshots: seq<TrunkSnapshot>)
    returns (findings: seq<Finding>)
    ensures findings == TrunkRowFindings(Values(rows), numbersByTrunk, snapshots)
                        + TrunkOrphans(snapshots, NamedIds(Values(rows)))
  {
    var values := Values(rows);
    findings := [];
    for i := 0 to |rows|
      invariant findings == TrunkRowFindings(values[..i], numbersByTrunk, snapshots)
    {
      assert values[..i + 1][..i] == values[..i];
      var row := rows[i];
      if Truthy(row.livekitResourceId) {
        var id := row.livekitResourceId.value;
        var numbers := GetOrEmpty(numbersByTrunk, row.id);
        var snapshot := LookupTrunk(snapshots, id);
        if snapshot.None? {
          findings := findings + [Finding(SipTrunkResource, MISSING, row.config.name, NotHeld(id), Some(row.id),
                                          Some(row.config.tenantId), id)];
        } else if !TrunkMatches(snapshot.value, row.config, numbers) {
          findings := findings + [Finding(SipTrunkResource, MISMATCH, row.config.name,
                                          Differs(TrunkDifferences(snapshot.value, row.config, numbers)), Some(row.id),
                                          Some(row.config.tenantId), id)];
        }
      }
    }
    assert values[..|rows|] == values;
    var orphans := FindTrunkOrphans(snapshots, NamedIds(values));
    findings := findings + orphans;
  }

  method FindTrunkOrphans(snapshots: seq<TrunkSnapshot>, ours: set<string>) returns (findings: seq<Finding>)
    ensures findings == TrunkOrphans(snapshots, ours)
  {
    findings := [];
    for i := 0 to |snapshots|
      invariant findings == TrunkOrphans(snapshots[..i], ours)
    {
      assert snapshots[..i + 1][..i] == snapshots[..i];
      var s := snapshots[i];
      if s.id !in ours {
        findings := findings + [Finding(SipTrunkResource, ORPHAN, s.name, NoRowNames(s.id), None, None, s.id)];
      }
    }
    assert snapshots[..|snapshots|] == snapshots;
  }

  method CompareRules(
    rows: seq<MirroredRow<RuleConfig>>, trunkIdsByRule: map<RowId, seq<string>>, snapshots: seq<RuleSnapshot>)
    returns (findings: seq<Finding>)
    ensures findings == RuleRowFindings(Values(rows), trunkIdsByRule, snapshots)
                        + RuleOrphans(snapshots, NamedIds(Values(rows)))
  {
    var values := Values(rows);
    findings := [];
    for i := 0 to |rows|
      invariant findings == RuleRowFindings(values[..i], trunkIdsByRule, snapshots)
    {
      assert values[..i + 1][..i] == values[..i];
      var row := rows[i];
      if Truthy(row.livekitResourceId) {
        var id := row.livekitResourceId.value;
        var trunkIds := GetOrEmpty(trunkIdsByRule, row.id);
        var snapshot := LookupRule(snapshots, id);
        if snapshot.None? {
          findings := findings + [Finding(DispatchRuleResource, MISSING, row.config.name, NotHeld(id), Some(row.id),
                                          Some(row.config.tenantId), id)];
        } else if !RuleMatches(snapshot.value, row.config, trunkIds) {
          findings := findings + [Finding(DispatchRuleResource, MISMATCH, row.config.name,
                                          Differs(RuleDifferences(snapshot.value, row.config, trunkIds)), Some(row.id),
                                          Some(row.config.tenantId), id)];
        }
      }
    }
    assert values[..|rows|] == values;
    var orphans := FindRuleOrphans(snapshots, NamedIds(values));
    findings := findings + orphans;
  }

  method FindRuleOrphans(snapshots: seq<RuleSnapshot>, ours: set<string>) returns (findings: seq<Finding>)
    ensures findings == RuleOrphans(snapshots, ours)
  {
    findings := [];
    for i := 0 to |snapshots|
      invariant findings == RuleOrphans(snapshots[..i], ours)
    {
      assert snapshots[..i + 1][..i] == snapshots[..i];
      var s := snapshots[i];
      if s.id !in ours {
        findings := findings + [Finding(DispatchRuleResource, ORPHAN, s.name, NoRowNames(s.id), None, None, s.id)];
      }
    }
    assert snapshots[..|snapshots|] == snapshots;
  }

  // ---- The inputs of the comparison ----

  /** Every number attached to a trunk, whatever its status. */
  method NumbersByTrunk(numbers: seq<PhoneNumber>) returns (grouped: map<RowId, seq<string>>)
    ensures forall id :: GetOrEmpty(grouped, id) == NumbersWhere(numbers, id, false)
  {
    grouped := map[];
    for i := 0 to |numbers|
      invariant forall id :: GetOrEmpty(grouped, id) == NumbersWhere(numbers[..i], id, false)
    {
      assert numbers[..i + 1][..i] == numbers[..i];
      var n := numbers[i];
      if n.sipTrunkId.Some? {
        var id := n.sipTrunkId.value;
        grouped := grouped[id := GetOrEmpty(grouped, id) + [n.number]];
      }
    }
    assert numbers[..|numbers|] == numbers;
  }

  function TrunkIdsFor(rule: RuleConfig, trunks: map<RowId, Row<TrunkConfig>>): seq<string> {
    if rule.sipTrunkId.Some? && rule.sipTrunkId.value in trunks
       && Truthy(trunks[rule.sipTrunkId.value].sync.resourceId)
    then [trunks[rule.sipTrunkId.value].sync.resourceId.value]
    else []
  }

  method TrunkIdsByRule(rules: seq<Row<RuleConfig>>, trunks: map<RowId, Row<TrunkConfig>>)
    returns (mapped: map<RowId, seq<string>>)
    requires DistinctRows(rules)
    ensures forall r :: r in rules ==> r.id in mapped && mapped[r.id] == TrunkIdsFor(r.config, trunks)
  {
    mapped := map[];
    for i := 0 to |rules|
      invariant forall k :: 0 <= k < i ==>
                  rules[k].id in mapped && mapped[rules[k].id] == TrunkIdsFor(rules[k].config, trunks)
    {
      mapped := mapped[rules[i].id := TrunkIdsFor(rules[i].config, trunks)];
    }
  }

  // ---- Writing the statuses back ----

  /** The last finding about a row, as the dictionary keyed by row id keeps it. */
  function FindingFor(findings: seq<Finding>, id: RowId): Option<Finding> {
    if findings == [] then None
    else
      var f := findings[|findings| - 1];
      if f.rowId == Some(id) && f.kind != ORPHAN then Some(f) else FindingFor(findings[..|findings| - 1], id)
  }

  function Marked<C>(row: Row<C>, findings: seq<Finding>, describe: Reason -> string, now: int): Row<C> {
    if !Truthy(row.sync.resourceId) then row
    else
      match FindingFor(findings, row.id)
      case Some(f) => row.(sync := row.sync.(status := DRIFTED, error := Some(describe(f.reason))))
      case None => row.(sync := row.sync.(status := SYNCED, error := None, lastSyncedAt := Some(now)))
  }

  /** Marks every row in place; the reason's wording is left to `describe`. */
  method ApplyFindings<C>(
    rows: seq<MirroredRow<C>>, findings: seq<Finding>, describe: Reason -> string, now: int)
    requires forall i, j :: 0 <= i < j < |rows| ==> rows[i] != rows[j]
    modifies set r | r in rows
    ensures forall i :: 0 <= i < |rows| ==> rows[i].Value() == Marked(old(rows[i].Value()), findings, describe, now)
  {
    for i := 0 to |rows|
      invariant forall k :: 0 <= k < i ==> rows[k].Value() == Marked(old(rows[k].Value()), findings, describe, now)
      invariant forall k :: i <= k < |rows| ==> rows[k].Value() == old(rows[k].Value())
    {
      var row := rows[i];
      assert row.Value() == old(rows[i].Value());
      if Truthy(row.livekitResourceId) {
        var finding := FindingFor(findings, row.id);
        if finding.Some? {
          row.syncStatus := DRIFTED;
          row.syncError := Some(describe(finding.value.reason));
        } else {
          row.syncStatus := SYNCED;
          row.syncError := None;
          row.lastSyncedAt := Some(now);
        }
      }
    }
  }

  // ---- What a comparison reports ----

  /** The snapshots list the store: every held trunk once, nothing else. */
  ghost predicate ListsTrunks(snapshots: seq<TrunkSnapshot>, held: map<string, TrunkInfo>) {
    && (forall s :: s in snapshots ==> s.id in held && s == SnapTrunk(s.id, held[s.id]))
    && (forall id :: id in held ==> SnapTrunk(id, held[id]) in snapshots)
  }

  ghost predicate ListsRules(snapshots: seq<RuleSnapshot>, held: map<string, RuleInfo>) {
    && (forall s :: s in snapshots ==> s.id in held && s == SnapRule(s.id, held[s.id]))
    && (forall id :: id in held ==> SnapRule(id, held[id]) in snapshots)
  }

  lemma {:induction false} LookupTrunkFinds(snapshots: seq<TrunkSnapshot>, id: string)
    ensures match LookupTrunk(snapshots, id)
      case Some(s) => s in snapshots && s.id == id
      case None => forall s :: s in snapshots ==> s.id != id
  {
    if snapshots == [] {
    } else {
      LookupTrunkFinds(snapshots[..|snapshots| - 1], id);
      assert snapshots == snapshots[..|snapshots| - 1] + [snapshots[|snapshots| - 1]];
    }
  }

  lemma {:induction false} LookupRuleFinds(snapshots: seq<RuleSnapshot>, id: string)
    ensures match LookupRule(snapshots, id)
      case Some(s) => s in snapshots && s.id == id
      case None => forall s :: s in snapshots ==> s.id != id
  {
    if snapshots == [] {
    } else {
      LookupRuleFinds(snapshots[..|snapshots| - 1], id);
      assert snapshots == snapshots[..|snapshots| - 1] + [snapshots[|snapshots| - 1]];
    }
  }

  /** A trunk row agrees with LiveKit: it names nothing, or what it names is held and matches. */
  ghost predicate TrunkAgrees(row: Row<TrunkConfig>, numbers: seq<string>, held: map<string, TrunkInfo>) {
    Truthy(row.sync.resourceId) ==>
      var id := row.sync.resourceId.value;
      id in held && TrunkMatches(SnapTrunk(id, held[id]), row.config, numbers)
  }

  ghost predicate RuleAgrees(row: Row<RuleConfig>, trunkIds: seq<string>, held: map<string, RuleInfo>) {
    Truthy(row.sync.resourceId) ==>
      var id := row.sync.resourceId.value;
      id in held && RuleMatches(SnapRule(id, held[id]), row.config, trunkIds)
  }

  lemma TrunkRowReported(row: Row<TrunkConfig>, numbers: seq<string>, snapshots: seq<TrunkSnapshot>,
                         held: map<string, TrunkInfo>)
    requires ListsTrunks(snapshots, held)
    ensures TrunkRowFinding(row, numbers, snapshots) == [] <==> TrunkAgrees(row, numbers, held)
  {
    if Truthy(row.sync.resourceId) {
      var id := row.sync.resourceId.value;
      LookupTrunkFinds(snapshots, id);
      assert id in held ==> SnapTrunk(id, held[id]) in snapshots && SnapTrunk(id, held[id]).id == id;
    }
  }

  lemma RuleRowReported(row: Row<RuleConfig>, trunkIds: seq<string>, snapshots: seq<RuleSnapshot>,
                        held: map<string, RuleInfo>)
    requires ListsRules(snapshots, held)
    ensures RuleRowFinding(row, trunkIds, snapshots) == [] <==> RuleAgrees(row, trunkIds, held)
  {
    if Truthy(row.sync.resourceId) {
      var id := row.sync.resourceId.value;
      LookupRuleFinds(snapshots, id);
      assert id in held ==> SnapRule(id, held[id]) in snapshots && SnapRule(id, held[id]).id == id;
    }
  }

  lemma TrunkDifferencesSay(s: TrunkSnapshot, c: TrunkConfig, numbers: seq<string>)
    ensures var fields := TrunkDifferences(s, c, numbers);
      && (NameField in fields <==> s.name != c.name)
      && (NumbersField in fields <==> AsSet(s.numbers) != AsSet(numbers))
      && (AddressesField in fields <==> AsSet(s.allowedAddresses) != AsSet(c.allowedIps))
      && (AuthField in fields <==> OrNone(s.authUsername) != OrNone(c.authUsername))
  {
  }

  /**
   * A finding about a row says MISSING when LiveKit does not hold what the row names, and otherwise MISMATCH with
   * exactly the columns that differ; it carries the row's id, tenant and name and the id it names.
   */
  lemma TrunkFindingSays(row: Row<TrunkConfig>, numbers: seq<string>, snapshots: seq<TrunkSnapshot>,
                         held: map<string, TrunkInfo>, f: Finding)
    requires ListsTrunks(snapshots, held) && f in TrunkRowFinding(row, numbers, snapshots)
    ensures row.sync.resourceId == Some(f.resourceId) && f.resourceId != "" && f.rowId == Some(row.id)
    ensures f.tenantId == Some(row.config.tenantId) && f.name == row.config.name && f.resource == SipTrunkResource
    ensures if f.resourceId !in held then f.kind == MISSING && f.reason == NotHeld(f.resourceId)
            else
              && f.kind == MISMATCH && f.reason.Differs?
              && (var info, config := held[f.resourceId], row.config;
                  && (NameField in f.reason.fields <==> info.name != config.name)
                  && (NumbersField in f.reason.fields <==> AsSet(info.numbers) != AsSet(numbers))
                  && (AddressesField in f.reason.fields <==> AsSet(info.allowedAddresses) != AsSet(config.allowedIps))
                  && (AuthField in f.reason.fields <==>
                        info.authUsername != if config.authUsername.Some? then config.authUsername.value else ""))
  {
    LookupTrunkFinds(snapshots, f.resourceId);
    if f.resourceId in held {
      TrunkDifferencesSay(SnapTrunk(f.resourceId, held[f.resourceId]), row.config, numbers);
    }
  }

  lemma RuleDifferencesSay(s: RuleSnapshot, c: RuleConfig, trunkIds: seq<string>)
    ensures var fields := RuleDifferences(s, c, trunkIds);
      && (NameField in fields <==> s.name != c.name)
      && (TrunkIdsField in fields <==> AsSet(s.trunkIds) != AsSet(trunkIds))
      && (PrefixField in fields <==> OrNone(s.roomPrefix) != OrNone(c.roomPrefix))
      && (AgentsField in fields <==> AsSet(s.agentNames) != {c.agentDispatchName})
      && (NumbersField in fields <==> AsSet(s.inboundNumbers) != AsSet(c.matchedNumbers))
  {
  }

  lemma RuleFindingSays(row: Row<RuleConfig>, trunkIds: seq<string>, snapshots: seq<RuleSnapshot>,
                        held: map<string, RuleInfo>, f: Finding)
    requires ListsRules(snapshots, held) && f in RuleRowFinding(row, trunkIds, snapshots)
    ensures row.sync.resourceId == Some(f.resourceId) && f.resourceId != "" && f.rowId == Some(row.id)
    ensures f.tenantId == Some(row.config.tenantId) && f.name == row.config.name && f.resource == DispatchRuleResource
    ensures if f.resourceId !in held then f.kind == MISSING && f.reason == NotHeld(f.resourceId)
            else
              && f.kind == MISMATCH && f.reason.Differs?
              && (var info, config := held[f.resourceId], row.config;
                  && (NameField in f.reason.fields <==> info.name != config.name)
                  && (TrunkIdsField in f.reason.fields <==> AsSet(info.trunkIds) != AsSet(trunkIds))
                  && (PrefixField in f.reason.fields <==>
                        info.roomPrefix != if config.roomPrefix.Some? then config.roomPrefix.value else "")
                  && (AgentsField in f.reason.fields <==> AsSet(info.agentNames) != {config.agentDispatchName})
                  && (NumbersField in f.reason.fields <==> AsSet(info.inboundNumbers) != AsSet(config.matchedNumbers)))
  {
    LookupRuleFinds(snapshots, f.resourceId);
    if f.resourceId in held {
      RuleDifferencesSay(SnapRule(f.resourceId, held[f.resourceId]), row.config, trunkIds);
    }
  }

  /** An orphan is found for exactly the listed ids that no row names, and it names no row. */
  lemma {:induction false} TrunkOrphansIff(snapshots: seq<TrunkSnapshot>, ours: set<string>, id: string)
    ensures (exists f :: f in TrunkOrphans(snapshots, ours) && f.resourceId == id)
       <==> id !in ours && exists s :: s in snapshots && s.id == id
    ensures forall f :: f in TrunkOrphans(snapshots, ours) ==> f.kind == ORPHAN && f.rowId == None
  {
    if snapshots == [] {
    } else {
      var front, last := snapshots[..|snapshots| - 1], snapshots[|snapshots| - 1];
      TrunkOrphansIff(front, ours, id);
      assert snapshots == front + [last];
      var mine := Finding(SipTrunkResource, ORPHAN, last.name, NoRowNames(last.id), None, None, last.id);
      assert forall f :: f in TrunkOrphans(snapshots, ours)
                    <==> f in TrunkOrphans(front, ours) || (last.id !in ours && f == mine);
      assert mine.resourceId == last.id;
    }
  }

  lemma {:induction false} RuleOrphansIff(snapshots: seq<RuleSnapshot>, ours: set<string>, id: string)
    ensures (exists f :: f in RuleOrphans(snapshots, ours) && f.resourceId == id)
       <==> id !in ours && exists s :: s in snapshots && s.id == id
    ensures forall f :: f in RuleOrphans(snapshots, ours) ==> f.kind == ORPHAN && f.rowId == None
  {
    if snapshots == [] {
    } else {
      var front, last := snapshots[..|snapshots| - 1], snapshots[|snapshots| - 1];
      RuleOrphansIff(front, ours, id);
      assert snapshots == front + [last];
      var mine := Finding(DispatchRuleResource, ORPHAN, last.name, NoRowNames(last.id), None, None, last.id);
      assert forall f :: f in RuleOrphans(snapshots, ours)
                    <==> f in RuleOrphans(front, ours) || (last.id !in ours && f == mine);
      assert mine.resourceId == last.id;
    }
  }

  ghost predicate Reported(findings: seq<Finding>, id: RowId) {
    exists f :: f in findings && f.rowId == Some(id) && f.kind != ORPHAN
  }

  ghost predicate DistinctRows<C>(rows: seq<Row<C>>) {
    forall i, j :: 0 <= i < j < |rows| ==> rows[i].id != rows[j].id
  }

  lemma {:induction false} TrunkReportedIff(
    rows: seq<Row<TrunkConfig>>, numbersByTrunk: map<RowId, seq<string>>, snapshots: seq<TrunkSnapshot>,
    held: map<string, TrunkInfo>, row: Row<TrunkConfig>)
    requires ListsTrunks(snapshots, held) && DistinctRows(rows)
    ensures row in rows ==>
      (Reported(TrunkRowFindings(rows, numbersByTrunk, snapshots), row.id)
       <==> !TrunkAgrees(row, GetOrEmpty(numbersByTrunk, row.id), held))
    ensures (forall r :: r in rows ==> r.id != row.id) ==>
      !Reported(TrunkRowFindings(rows, numbersByTrunk, snapshots), row.id)
  {
    if rows == [] {
    } else {
      var front, last := rows[..|rows| - 1], rows[|rows| - 1];
      assert rows == front + [last];
      TrunkReportedIff(front, numbersByTrunk, snapshots, held, row);
      TrunkRowReported(last, GetOrEmpty(numbersByTrunk, last.id), snapshots, held);
      var mine := TrunkRowFinding(last, GetOrEmpty(numbersByTrunk, last.id), snapshots);
      assert TrunkRowFindings(rows, numbersByTrunk, snapshots) == TrunkRowFindings(front, numbersByTrunk, snapshots)
        + mine;
      assert mine != [] ==> mine[0] in mine && mine[0].rowId == Some(last.id) && mine[0].kind != ORPHAN;
      assert forall f :: f in mine ==> f.rowId == Some(last.id);
    }
  }

  lemma {:induction false} RuleReportedIff(
    rows: seq<Row<RuleConfig>>, trunkIdsByRule: map<RowId, seq<string>>, snapshots: seq<RuleSnapshot>,
    held: map<string, RuleInfo>, row: Row<RuleConfig>)
    requires ListsRules(snapshots, held) && DistinctRows(rows)
    ensures row in rows ==>
      (Reported(RuleRowFindings(rows, trunkIdsByRule, snapshots), row.id)
       <==> !RuleAgrees(row, GetOrEmpty(trunkIdsByRule, row.id), held))
    ensures (forall r :: r in rows ==> r.id != row.id) ==>
      !Reported(RuleRowFindings(rows, trunkIdsByRule, snapshots), row.id)
  {
    if rows == [] {
    } else {
      var front, last := rows[..|rows| - 1], rows[|rows| - 1];
      assert rows == front + [last];
      RuleReportedIff(front, trunkIdsByRule, snapshots, held, row);
      RuleRowReported(last, GetOrEmpty(trunkIdsByRule, last.id), snapshots, held);
      var mine := RuleRowFinding(last, GetOrEmpty(trunkIdsByRule, last.id), snapshots);
      assert RuleRowFindings(rows, trunkIdsByRule, snapshots) == RuleRowFindings(front, trunkIdsByRule, snapshots)
        + mine;
      assert mine != [] ==> mine[0] in mine && mine[0].rowId == Some(last.id) && mine[0].kind != ORPHAN;
      assert forall f :: f in mine ==> f.rowId == Some(last.id);
    }
  }

  lemma {:induction false} FindingForFinds(findings: seq<Finding>, id: RowId)
    ensures FindingFor(findings, id).Some? <==> Reported(findings, id)
    ensures FindingFor(findings, id).Some? ==> FindingFor(findings, id).value in findings
  {
    if findings == [] {
    } else {
      var front := findings[..|findings| - 1];
      FindingForFinds(front, id);
      assert findings == front + [findings[|findings| - 1]];
      assert forall f :: f in front ==> f in findings;
    }
  }

  /** A row that names a resource is left DRIFTED exactly when it was reported, and SYNCED with no error otherwise. */
  lemma MarkedDriftedIff<C>(row: Row<C>, findings: seq<Finding>, describe: Reason -> string, now: int)
    requires Truthy(row.sync.resourceId)
    ensures var after := Marked(row, findings, describe, now).sync;
      && (after.status == DRIFTED <==> Reported(findings, row.id))
      && (!Reported(findings, row.id) ==>
            after.status == SYNCED && after.error == None && after.lastSyncedAt == Some(now))
      && after.resourceId == row.sync.resourceId && after.attempts == row.sync.attempts
  {
    FindingForFinds(findings, row.id);
  }
}
