/** Call-time routing: which rule decides an inbound call, and what it decides. */
module Routing {
  import opened Options
  import opened Ordering

  type Uuid = string

  function OrElse<T>(a: Option<T>, b: Option<T>): Option<T> {
    if a.Some? then a else b
  }

  datatype FallbackAction = SECONDARY_AGENT | PBX_QUEUE | VOICEMAIL | HANGUP

  /** `conditions` maps a condition name to its value, or to null. */
  datatype Rule = Rule(
    id: Uuid, tenantId: Uuid, active: bool, name: string, priority: int, conditions: map<string, Option<string>>,
    agentId: Option<Uuid>, businessHoursId: Option<Uuid>, fallbackAction: Option<FallbackAction>,
    fallbackAgentId: Option<Uuid>, fallbackDestinationId: Option<Uuid>, closedAction: Option<FallbackAction>,
    closedDestinationId: Option<Uuid>)

  datatype Call = Call(did: string, callerNumber: Option<string>, pbxId: Option<Uuid>, sipTrunkId: Option<Uuid>)

  datatype RoutingDecision = RoutingDecision(
    agentId: Uuid, matchedRuleId: Uuid, ruleName: string, fallbackAgentId: Option<Uuid>,
    fallbackAction: Option<FallbackAction>, fallbackDestinationId: Option<Uuid>)

  datatype Outcome = NoRoute | Routed(decision: RoutingDecision) | ClosedError(ruleName: string)

  // ---- Conditions ----

  function Condition(conditions: map<string, Option<string>>, key: string): Option<string> {
    if key in conditions then conditions[key] else None
  }

  function NonNull(conditions: map<string, Option<string>>): set<string> {
    set key | key in conditions && conditions[key].Some?
  }

  function Specificity(conditions: map<string, Option<string>>): nat {
    |NonNull(conditions)|
  }

  predicate StartsWith(s: string, prefix: string) {
    |prefix| <= |s| && s[..|prefix|] == prefix
  }

  predicate Agrees(condition: Option<string>, actual: Option<string>) {
    condition.Some? ==> actual == condition
  }

  predicate Matches(conditions: map<string, Option<string>>, call: Call) {
    && Agrees(Condition(conditions, "pbx_id"), call.pbxId)
    && Agrees(Condition(conditions, "sip_trunk_id"), call.sipTrunkId)
    && Agrees(Condition(conditions, "did"), Some(call.did))
    && Agrees(Condition(conditions, "destination_number"), Some(call.did))
    && Agrees(Condition(conditions, "caller_number"), call.callerNumber)
    && (var prefix := Condition(conditions, "caller_number_prefix");
        prefix.Some? ==> StartsWith(if call.callerNumber.Some? then call.callerNumber.value else "", prefix.value))
  }

  // ---- Business hours ----

  datatype Day = MONDAY | TUESDAY | WEDNESDAY | THURSDAY | FRIDAY | SATURDAY | SUNDAY

  datatype Interval = Interval(day: Day, opensAt: int, closesAt: int)

  /** A holiday entry; `closed` is absent, or present and true or false once read as a boolean. */
  datatype Holiday = NotAnObject | Entry(date: Option<string>, closed: Option<bool>)

  datatype Schedule = Schedule(intervals: seq<Interval>, timezone: string, holidays: seq<Holiday>)

  datatype LocalTime = LocalTime(date: string, day: Day, time: int)

  /** The time zones the host knows, and the present moment in each. */
  type Clock = string -> Option<LocalTime>

  function HolidayToday(holidays: seq<Holiday>, today: string): Option<bool> {
    if holidays == [] then None
    else if holidays[0].Entry? && holidays[0].date == Some(today) then
      Some(if holidays[0].closed.Some? then holidays[0].closed.value else true)
    else HolidayToday(holidays[1..], today)
  }

  /** Open, closed, or None when the time zone is unknown. */
  function CheckOpenNow(schedule: Schedule, clock: Clock): Option<bool> {
    match clock(schedule.timezone)
    case None => None
    case Some(now) =>
      match HolidayToday(schedule.holidays, now.date)
      case Some(closed) => Some(!closed)
      case None =>
        Some(exists i :: i in schedule.intervals && i.day == now.day && i.opensAt <= now.time < i.closesAt)
  }

  datatype HoursRow = HoursRow(
    id: Uuid, timezone: Option<string>, holidays: seq<Holiday>, day: Option<Day>, opensAt: int, closesAt: int)

  function TimezoneOf(row: HoursRow): string {
    if row.timezone.Some? && row.timezone.value != "" then row.timezone.value else "UTC"
  }

  function IntervalsOf(rows: seq<HoursRow>, id: Uuid): seq<Interval> {
    if rows == [] then []
    else
      var last := rows[|rows| - 1];
      IntervalsOf(rows[..|rows| - 1], id)
      + (if last.id == id && last.day.Some? then [Interval(last.day.value, last.opensAt, last.closesAt)] else [])
  }

  function FirstRow(rows: seq<HoursRow>, id: Uuid): Option<HoursRow> {
    if rows == [] then None
    else
      var before := FirstRow(rows[..|rows| - 1], id);
      if before.Some? then before else if rows[|rows| - 1].id == id then Some(rows[|rows| - 1]) else None
  }

  /** Folds the joined rows into one schedule per id: every interval in order, the rest from the id's first row. */
  method LoadHoursMap(rows: seq<HoursRow>) returns (hours: map<Uuid, Schedule>)
    ensures forall id :: id in hours <==> FirstRow(rows, id).Some?
    ensures forall id :: id in hours ==>
              hours[id] == Schedule(IntervalsOf(rows, id), TimezoneOf(FirstRow(rows, id).value),
                FirstRow(rows, id).value.holidays)
    ensures forall id :: id in hours ==> hours[id].timezone != ""
  {
    hours := map[];
    for n := 0 to |rows|
      invariant forall id :: id in hours <==> FirstRow(rows[..n], id).Some?
      invariant forall id :: id !in hours ==> IntervalsOf(rows[..n], id) == []
      invariant forall id :: id in hours ==>
                  hours[id] == Schedule(IntervalsOf(rows[..n], id), TimezoneOf(FirstRow(rows[..n], id).value),
                                        FirstRow(rows[..n], id).value.holidays)
    {
      assert rows[..n + 1][..n] == rows[..n];
      var row := rows[n];
      if row.id !in hours {
        var zone := if row.timezone.Some? && row.timezone.value != "" then row.timezone.value else "UTC";
        hours := hours[row.id := Schedule([], zone, row.holidays)];
      }
      if row.day.Some? {
        var s := hours[row.id];
        hours := hours[row.id := s.(intervals := s.intervals + [Interval(row.day.value, row.opensAt, row.closesAt)])];
      }
    }
    assert rows[..|rows|] == rows;
  }

  /** The zone a schedule is read in: its own, or the tenant's when it has none. */
  function ZoneFor(schedule: Schedule, tenantTimezone: string): string {
    if schedule.timezone != "" then schedule.timezone else tenantTimezone
  }

  // ---- One rule ----

  predicate IsClosed(rule: Rule, hours: map<Uuid, Schedule>, tenantTimezone: string, clock: Clock) {
    && rule.businessHoursId.Some? && rule.businessHoursId.value in hours
    && (var s := hours[rule.businessHoursId.value];
        CheckOpenNow(s.(timezone := ZoneFor(s, tenantTimezone)), clock) == Some(false))
  }

  function WhenClosed(rule: Rule): Outcome {
    if rule.closedAction == Some(SECONDARY_AGENT) && rule.fallbackAgentId.Some? then
      Routed(RoutingDecision(rule.fallbackAgentId.value, rule.id, rule.name, None, None, None))
    else ClosedError(rule.name)
  }

  function WhenOpen(rule: Rule): Outcome
    requires rule.agentId.Some?
  {
    Routed(RoutingDecision(rule.agentId.value, rule.id, rule.name, rule.fallbackAgentId, rule.fallbackAction,
                           OrElse(rule.fallbackDestinationId, rule.closedDestinationId)))
  }

  /** A matching rule decides the call when it is closed or has an agent. */
  predicate Decides(rule: Rule, call: Call, hours: map<Uuid, Schedule>, tz: string, clock: Clock) {
    Matches(rule.conditions, call) && (IsClosed(rule, hours, tz, clock) || rule.agentId.Some?)
  }

  function Decision(rule: Rule, call: Call, hours: map<Uuid, Schedule>, tz: string, clock: Clock): Outcome
    requires Decides(rule, call, hours, tz, clock)
  {
    if IsClosed(rule, hours, tz, clock) then WhenClosed(rule) else WhenOpen(rule)
  }

  // ---- What conditions and schedules mean ----

  /** A rule with one condition matches the calls that condition is about, and one with an unknown condition all. */
  lemma OneConditionMatches(key: string, value: string, call: Call)
    ensures Matches(map[key := Some(value)], call) <==>
      match key
      case "pbx_id" => call.pbxId == Some(value)
      case "sip_trunk_id" => call.sipTrunkId == Some(value)
      case "did" => call.did == value
      case "destination_number" => call.did == value
      case "caller_number" => call.callerNumber == Some(value)
      case "caller_number_prefix" =>
        value == "" || (call.callerNumber.Some? && value <= call.callerNumber.value)
      case _ => true
  {
    var conditions := map[key := Some(value)];
    assert forall k :: Condition(conditions, k) == if k == key then Some(value) else None;
  }

  /** Conditions are judged one by one, and a null condition asks for nothing. */
  lemma ConditionsAreJudgedAlone(conditions: map<string, Option<string>>, call: Call)
    ensures Matches(conditions, call)
       <==> forall key :: key in conditions && conditions[key].Some? ==> Matches(map[key := conditions[key]], call)
  {
    forall key | key in conditions && conditions[key].Some?
      ensures Matches(map[key := conditions[key]], call) <==>
                match key
                case "pbx_id" => call.pbxId == conditions[key]
                case "sip_trunk_id" => call.sipTrunkId == conditions[key]
                case "did" => Some(call.did) == conditions[key]
                case "destination_number" => Some(call.did) == conditions[key]
                case "caller_number" => call.callerNumber == conditions[key]
                case "caller_number_prefix" =>
                  StartsWith(if call.callerNumber.Some? then call.callerNumber.value else "", conditions[key].value)
                case _ => true
    {
      OneConditionMatches(key, conditions[key].value, call);
    }
  }

  /** A rule is as specific as it has conditions that are not null. */
  lemma SpecificityCounts(conditions: map<string, Option<string>>, key: string, condition: Option<string>)
    requires key !in conditions
    ensures Specificity(map[]) == 0
    ensures Specificity(conditions[key := condition]) == Specificity(conditions) + if condition.Some? then 1 else 0
  {
    var before, after := NonNull(conditions), NonNull(conditions[key := condition]);
    assert forall k :: k in after <==> k in before || (k == key && condition.Some?);
    assert after == if condition.Some? then before + {key} else before;
  }

  lemma {:induction false} FirstEntryDecides(holidays: seq<Holiday>, today: string)
    ensures match HolidayToday(holidays, today)
      case None => forall h :: h in holidays && h.Entry? ==> h.date != Some(today)
      case Some(closed) =>
        exists i :: 0 <= i < |holidays| && holidays[i].Entry? && holidays[i].date == Some(today)
          && closed == (holidays[i].closed != Some(false))
          && forall j :: 0 <= j < i && holidays[j].Entry? ==> holidays[j].date != Some(today)
  {
    if holidays == [] {
    } else if holidays[0].Entry? && holidays[0].date == Some(today) {
      assert holidays[0].Entry?;
    } else {
      FirstEntryDecides(holidays[1..], today);
      assert forall i :: 0 <= i < |holidays| - 1 ==> holidays[1..][i] == holidays[i + 1];
    }
  }

  /**
   * A schedule is closed exactly when its time zone is known and either today's first holiday entry does not say it is
   * open, or there is no entry for today and the time lies before the opening or not before the closing of each of the
   * day's intervals.
   */
  lemma ClosedIff(schedule: Schedule, clock: Clock)
    ensures CheckOpenNow(schedule, clock) == Some(false) <==>
      && clock(schedule.timezone).Some?
      && var now := clock(schedule.timezone).value;
         || (exists i :: 0 <= i < |schedule.holidays|
              && schedule.holidays[i].Entry? && schedule.holidays[i].date == Some(now.date)
              && schedule.holidays[i].closed != Some(false)
              && forall j :: 0 <= j < i && schedule.holidays[j].Entry? ==> schedule.holidays[j].date != Some(now.date))
         || ((forall h :: h in schedule.holidays && h.Entry? ==> h.date != Some(now.date))
             && forall i :: i in schedule.intervals && i.day == now.day ==>
                  now.time < i.opensAt || i.closesAt <= now.time)
  {
    if clock(schedule.timezone).Some? {
      FirstEntryDecides(schedule.holidays, clock(schedule.timezone).value.date);
    }
  }

  // ---- The order of rules ----

  /** The Python sort key: priority, then most specific first. */
  predicate KeyLe(a: Rule, b: Rule) {
    a.priority < b.priority
    || (a.priority == b.priority && Specificity(a.conditions) >= Specificity(b.conditions))
  }

  /** A collation of names: a total order. */
  ghost predicate Collation(nameLe: (string, string) -> bool) {
    TotalPreorder(nameLe) && (forall x, y :: nameLe(x, y) && nameLe(y, x) ==> x == y)
  }

  /** The SQL order: priority, then name. */
  ghost predicate SqlLe(nameLe: (string, string) -> bool, a: Rule, b: Rule) {
    a.priority < b.priority || (a.priority == b.priority && nameLe(a.name, b.name))
  }

  /** Precedence: the lower priority number, then more conditions, then the name. */
  ghost predicate Precedes(nameLe: (string, string) -> bool, a: Rule, b: Rule) {
    var more, fewer := Specificity(a.conditions), Specificity(b.conditions);
    || a.priority < b.priority
    || (a.priority == b.priority && more > fewer)
    || (a.priority == b.priority && more == fewer && nameLe(a.name, b.name))
  }

  predicate Selected(rule: Rule, tenantId: Uuid, pinned: Option<Uuid>) {
    rule.active && rule.tenantId == tenantId && (pinned.Some? ==> rule.id == pinned.value)
  }

  /** An answer the database may give: the selected rows, each once, in SQL order. */
  ghost predicate SqlAnswer(
    fetched: seq<Rule>, table: seq<Rule>, tenantId: Uuid, pinned: Option<Uuid>, nameLe: (string, string) -> bool)
  {
    && (forall r :: r in fetched <==> r in table && Selected(r, tenantId, pinned))
    && (forall i, j :: 0 <= i < j < |fetched| ==> SqlLe(nameLe, fetched[i], fetched[j]))
  }

  /** Names are unique within a tenant, as the table's constraint has it. */
  ghost predicate UniqueNames(table: seq<Rule>) {
    forall a, b :: a in table && b in table && a.tenantId == b.tenantId && a.name == b.name ==> a == b
  }

  // ---- The evaluation loop ----

  method ResolveRoute(fetched: seq<Rule>, hours: map<Uuid, Schedule>, tenantTimezone: string, call: Call, clock: Clock)
    returns (outcome: Outcome)
    ensures outcome == FirstDecision(StableSort(KeyLe, fetched), call, hours, tenantTimezone, clock)
  {
    if fetched == [] {
      return NoRoute;
    }
    var rules := StableSort(KeyLe, fetched);
    for n := 0 to |rules|
      invariant FirstDecision(rules, call, hours, tenantTimezone, clock)
                == FirstDecision(rules[n..], call, hours, tenantTimezone, clock)
    {
      var rule := rules[n];
      assert rules[n..][1..] == rules[n + 1..];
      if Matches(rule.conditions, call) {
        if rule.businessHoursId.Some? {
          var openNow: Option<bool> := None;
          if rule.businessHoursId.value in hours {
            var s := hours[rule.businessHoursId.value];
            openNow := CheckOpenNow(if s.timezone != "" then s else s.(timezone := tenantTimezone), clock);
          }
          if openNow == Some(false) {
            if rule.closedAction == Some(SECONDARY_AGENT) && rule.fallbackAgentId.Some? {
              return Routed(RoutingDecision(rule.fallbackAgentId.value, rule.id, rule.name, None, None, None));
            }
            return ClosedError(rule.name);
          }
        }
        if rule.agentId.Some? {
          return Routed(RoutingDecision(rule.agentId.value, rule.id, rule.name, rule.fallbackAgentId,
                                        rule.fallbackAction,
                                        if rule.fallbackDestinationId.Some? then rule.fallbackDestinationId
                                        else rule.closedDestinationId));
        }
      }
    }
    return NoRoute;
  }

  function FirstDecision(rules: seq<Rule>, call: Call, hours: map<Uuid, Schedule>, tz: string, clock: Clock): Outcome {
    if rules == [] then NoRoute
    else if Decides(rules[0], call, hours, tz, clock) then Decision(rules[0], call, hours, tz, clock)
    else FirstDecision(rules[1..], call, hours, tz, clock)
  }

  // ---- The declarative reading ----

  function Members(rules: seq<Rule>): set<Rule> {
    set r | r in rules
  }

  /** The tenant's active rules, or the pinned one of them. */
  function Candidates(table: seq<Rule>, tenantId: Uuid, pinned: Option<Uuid>): set<Rule> {
    set r | r in table && r.active && r.tenantId == tenantId && pinned in {None, Some(r.id)}
  }

  /** The outcome is read off a least deciding rule, or there is none. */
  ghost predicate ChosenFrom(
    outcome: Outcome, rules: set<Rule>, nameLe: (string, string) -> bool, call: Call, hours: map<Uuid, Schedule>,
    tz: string, clock: Clock)
  {
    if forall r :: r in rules ==> !Decides(r, call, hours, tz, clock) then outcome == NoRoute
    else
      exists r ::
        IsLeastDeciding(r, rules, nameLe, call, hours, tz, clock) && outcome == Decision(r, call, hours, tz, clock)
  }

  ghost predicate IsLeastDeciding(
    r: Rule, rules: set<Rule>, nameLe: (string, string) -> bool, call: Call, hours: map<Uuid, Schedule>, tz: string,
    clock: Clock)
  {
    && r in rules && Decides(r, call, hours, tz, clock)
    && (forall q :: q in rules && Decides(q, call, hours, tz, clock) && q != r ==> Precedes(nameLe, r, q))
  }

  lemma {:induction false} FirstDecisionIsLeast(
    rules: seq<Rule>, nameLe: (string, string) -> bool, call: Call, hours: map<Uuid, Schedule>, tz: string,
      clock: Clock)
    requires forall i, j :: 0 <= i < j < |rules| ==> Precedes(nameLe, rules[i], rules[j])
    ensures ChosenFrom(FirstDecision(rules, call, hours, tz, clock), Members(rules), nameLe, call, hours, tz, clock)
  {
    var all := Members(rules);
    if rules != [] {
      assert rules == [rules[0]] + rules[1..];
      var rest := Members(rules[1..]);
      assert all == {rules[0]} + rest;
      if Decides(rules[0], call, hours, tz, clock) {
        assert IsLeastDeciding(rules[0], all, nameLe, call, hours, tz, clock);
      } else {
        FirstDecisionIsLeast(rules[1..], nameLe, call, hours, tz, clock);
        forall r | IsLeastDeciding(r, rest, nameLe, call, hours, tz, clock)
          ensures IsLeastDeciding(r, all, nameLe, call, hours, tz, clock)
        {}
      }
    }
  }

  lemma SortedByPrecedence(fetched: seq<Rule>, sorted: seq<Rule>, nameLe: (string, string) -> bool)
    requires forall i, j :: 0 <= i < j < |fetched| ==> SqlLe(nameLe, fetched[i], fetched[j])
    requires sorted == StableSort(KeyLe, fetched)
    ensures forall i, j :: 0 <= i < j < |sorted| ==> Precedes(nameLe, sorted[i], sorted[j])
  {
    var earlier := (a: Rule, b: Rule) =>
      a.priority < b.priority || (a.priority == b.priority && nameLe(a.name, b.name));
    StableSortIsStable(KeyLe, earlier, fetched);
  }

  lemma LeastDecidingUnique(
    a: Rule, b: Rule, rules: set<Rule>, nameLe: (string, string) -> bool, call: Call, hours: map<Uuid, Schedule>,
    tz: string, clock: Clock)
    requires Collation(nameLe) && (forall x, y :: x in rules && y in rules && x.name == y.name ==> x == y)
    requires IsLeastDeciding(a, rules, nameLe, call, hours, tz, clock)
    requires IsLeastDeciding(b, rules, nameLe, call, hours, tz, clock)
    ensures a == b
  {
    assert Precedes(nameLe, a, b) && Precedes(nameLe, b, a) ==> a.name == b.name;
  }

  /**
   * The rule that decides is the least, by priority, then specificity, then name, among the tenant's active rules that
   * match and are closed or have an agent; when there is none the caller falls back.
   */
  lemma RoutingIsDeclarative(
    fetched: seq<Rule>, table: seq<Rule>, tenantId: Uuid, pinned: Option<Uuid>, nameLe: (string, string) -> bool,
    call: Call, hours: map<Uuid, Schedule>, tz: string, clock: Clock)
    requires SqlAnswer(fetched, table, tenantId, pinned, nameLe)
    ensures ChosenFrom(FirstDecision(StableSort(KeyLe, fetched), call, hours, tz, clock),
                       Candidates(table, tenantId, pinned), nameLe, call, hours, tz, clock)
  {
    var sorted := StableSort(KeyLe, fetched);
    SortedByPrecedence(fetched, sorted, nameLe);
    FirstDecisionIsLeast(sorted, nameLe, call, hours, tz, clock);
    SameMultisetSameMembers(sorted, fetched);
    assert Members(sorted) == Candidates(table, tenantId, pinned);
  }

  lemma ChosenAgree(
    o: Outcome, o': Outcome, rules: set<Rule>, nameLe: (string, string) -> bool, call: Call, hours: map<Uuid, Schedule>,
    tz: string, clock: Clock)
    requires Collation(nameLe) && (forall x, y :: x in rules && y in rules && x.name == y.name ==> x == y)
    requires ChosenFrom(o, rules, nameLe, call, hours, tz, clock)
      && ChosenFrom(o', rules, nameLe, call, hours, tz, clock)
    ensures o == o'
  {
    if exists r :: r in rules && Decides(r, call, hours, tz, clock) {
      var a :| IsLeastDeciding(a, rules, nameLe, call, hours, tz, clock) && o == Decision(a, call, hours, tz, clock);
      var b :| IsLeastDeciding(b, rules, nameLe, call, hours, tz, clock) && o' == Decision(b, call, hours, tz, clock);
      LeastDecidingUnique(a, b, rules, nameLe, call, hours, tz, clock);
    }
  }

  lemma CandidatesAgree(table: seq<Rule>, table': seq<Rule>, tenantId: Uuid, pinned: Option<Uuid>)
    requires multiset(table) == multiset(table') && UniqueNames(table)
    ensures var rules := Candidates(table, tenantId, pinned);
      && rules == Candidates(table', tenantId, pinned)
      && forall x, y :: x in rules && y in rules && x.name == y.name ==> x == y
  {
    SameMultisetSameMembers(table, table');
  }

  /** With distinct names the outcome does not depend on how the table stores its rows. */
  lemma RoutingIgnoresStorageOrder(
    fetched: seq<Rule>, table: seq<Rule>, fetched': seq<Rule>, table': seq<Rule>, tenantId: Uuid, pinned: Option<Uuid>,
    nameLe: (string, string) -> bool, call: Call, hours: map<Uuid, Schedule>, tz: string, clock: Clock)
    requires SqlAnswer(fetched, table, tenantId, pinned, nameLe)
      && SqlAnswer(fetched', table', tenantId, pinned, nameLe)
    requires multiset(table) == multiset(table') && UniqueNames(table) && Collation(nameLe)
    ensures FirstDecision(StableSort(KeyLe, fetched), call, hours, tz, clock)
            == FirstDecision(StableSort(KeyLe, fetched'), call, hours, tz, clock)
  {
    RoutingIsDeclarative(fetched, table, tenantId, pinned, nameLe, call, hours, tz, clock);
    RoutingIsDeclarative(fetched', table', tenantId, pinned, nameLe, call, hours, tz, clock);
    CandidatesAgree(table, table', tenantId, pinned);
    var rules := Candidates(table, tenantId, pinned);
    ChosenAgree(FirstDecision(StableSort(KeyLe, fetched), call, hours, tz, clock),
                FirstDecision(StableSort(KeyLe, fetched'), call, hours, tz, clock), rules, nameLe,
                call, hours, tz, clock);
  }

  /** Schedules loaded from the database always carry a zone, so the tenant's own time zone never matters. */
  lemma TenantTimezoneIsNeverRead(rule: Rule, hours: map<Uuid, Schedule>, tz: string, tz': string, clock: Clock)
    requires forall id :: id in hours ==> hours[id].timezone != ""
    ensures IsClosed(rule, hours, tz, clock) == IsClosed(rule, hours, tz', clock)
  {
  }
}
