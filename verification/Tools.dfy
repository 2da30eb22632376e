/**
 * Dispatching granted tools within their call limits, and the requests an HTTP tool makes.
 *
 * The checks of an invocation come before its first suspension, so they are one step; the requests of an admitted call
 * come after it, and those of different calls are interleaved freely.
 */
module Tools {
  import opened Options

  datatype Json = Null | Text(text: string) | Other(encoded: string)

  type Arguments = map<string, Json>

  datatype Tool = Tool(builtin: bool, required: seq<string>, denied: Arguments, maxCalls: Option<int>, maxRetries: int)

  datatype Refusal = NotGranted | MissingArguments(names: seq<string>) | NotPermitted | LimitReached

  // ---- One HTTP execution ----

  /** What a request brings: a response, a timeout, another transport error, or an exception nobody catches here. */
  datatype Reply = Status(code: int) | TimedOut | TransportError | Crash

  datatype HttpResult = Success | ApiError(code: int) | GaveUp | Raised | NotSent

  function Attempts(tool: Tool): nat {
    1 + if tool.maxRetries > 0 then tool.maxRetries else 0
  }

  /** A server error or a transport error. */
  predicate Again(reply: Reply) {
    reply in {TimedOut, TransportError} || (reply.Status? && reply.code >= 500)
  }

  /** Only a server error or a transport error is retried, and only while attempts remain. */
  predicate Retried(reply: Reply, attempt: nat, attempts: nat) {
    attempt + 1 < attempts && match reply
    case Status(code) => code >= 500
    case TimedOut => true
    case TransportError => true
    case Crash => false
  }

  function ResultOf(reply: Reply): HttpResult {
    match reply
    case Status(code) => if code >= 400 then ApiError(code) else Success
    case Crash => Raised
    case _ => GaveUp
  }

  /** `sendable` is false when a placeholder has no value or the authentication cannot be built. */
  method ExecuteHttp(tool: Tool, sendable: bool, replies: nat -> Reply) returns (made: nat, result: HttpResult)
    ensures !sendable ==> made == 0 && result == NotSent
    ensures sendable ==>
              && 1 <= made <= Attempts(tool)
              && (forall k :: 0 <= k < made - 1 ==> Again(replies(k)))
              && (!Again(replies(made - 1)) || made == Attempts(tool))
              && result == ResultOf(replies(made - 1))
  {
    if !sendable {
      return 0, NotSent;
    }
    var attempts := 1 + if tool.maxRetries > 0 then tool.maxRetries else 0;
    made, result := 0, GaveUp;
    while made < attempts
      invariant made <= attempts
      invariant forall k :: 0 <= k < made - 1 ==> Again(replies(k))
      invariant made > 0 ==> result == GaveUp == ResultOf(replies(made - 1)) || made < attempts
      invariant 0 < made < attempts ==> Again(replies(made - 1))
    {
      var attempt := made;
      made := made + 1;
      match replies(attempt) {
        case TimedOut =>
        case TransportError =>
        case Crash => return made, Raised;
        case Status(code) =>
          if !(code >= 500 && attempt + 1 < attempts) {
            return made, if code >= 400 then ApiError(code) else Success;
          }
      }
    }
  }

  // ---- Admission ----

  function Missing(required: seq<string>, arguments: Arguments): seq<string> {
    if required == [] then []
    else
      var absent := required[0] !in arguments || arguments[required[0]] in {Null, Text("")};
      (if absent then [required[0]] else []) + Missing(required[1..], arguments)
  }

  predicate Denied(denied: Arguments, arguments: Arguments) {
    exists key :: key in denied && key in arguments && arguments[key] == denied[key]
  }

  function Used(counts: map<string, nat>, name: string): nat {
    if name in counts then counts[name] else 0
  }

  /** The checks in order; the first that fails refuses. */
  function Refused(tools: map<string, Tool>, counts: map<string, nat>, name: string, arguments: Arguments)
    : Option<Refusal> {
    if name !in tools then Some(NotGranted)
    else if Missing(tools[name].required, arguments) != [] then
      Some(MissingArguments(Missing(tools[name].required, arguments)))
    else if Denied(tools[name].denied, arguments) then Some(NotPermitted)
    else if tools[name].maxCalls.Some? && Used(counts, name) >= tools[name].maxCalls.value then Some(LimitReached)
    else None
  }

  lemma {:induction false} MissingNames(required: seq<string>, arguments: Arguments)
    ensures forall n :: n in Missing(required, arguments)
                   <==> n in required && (n !in arguments || arguments[n] == Null || arguments[n] == Text(""))
  {
    if required == [] {
    } else {
      MissingNames(required[1..], arguments);
      assert required == [required[0]] + required[1..];
    }
  }

  /** A call is admitted exactly when it is granted, complete, free of denied values, and within its limit. */
  lemma AdmittedIff(tools: map<string, Tool>, counts: map<string, nat>, name: string, arguments: Arguments)
    ensures Refused(tools, counts, name, arguments).None?
       <==> && name in tools
            && (forall n :: n in tools[name].required ==> n in arguments && arguments[n] !in {Null, Text("")})
            && (forall n :: n in tools[name].denied && n in arguments ==> arguments[n] != tools[name].denied[n])
            && (tools[name].maxCalls.Some? ==> Used(counts, name) < tools[name].maxCalls.value)
  {
    if name in tools {
      var tool := tools[name];
      MissingNames(tool.required, arguments);
      var missing := Missing(tool.required, arguments);
      assert missing != [] ==> missing[0] in missing;
    }
  }

  class ToolRuntime {
    const tools: map<string, Tool>
    var counts: map<string, nat>

    constructor (tools: map<string, Tool>)
      ensures this.tools == tools && counts == map[]
    {
      this.tools := tools;
      counts := map[];
    }

    /** The part of an invocation before its first suspension: a refusal, or one call of the budget spent. */
    method Admit(name: string, arguments: Arguments) returns (refusal: Option<Refusal>)
      modifies this
      ensures refusal == Refused(tools, old(counts), name, arguments)
      ensures counts == if refusal.Some? then old(counts) else old(counts)[name := Used(old(counts), name) + 1]
    {
      if name !in tools {
        return Some(NotGranted);
      }
      var tool := tools[name];
      var missing := Missing(tool.required, arguments);
      if missing != [] {
        return Some(MissingArguments(missing));
      }
      var keys := tool.denied.Keys;
      while keys != {}
        invariant keys <= tool.denied.Keys
        invariant forall key :: key in tool.denied && key !in keys ==>
                    key !in arguments || arguments[key] != tool.denied[key]
        decreases |keys|
      {
        var key :| key in keys;
        if key in arguments && arguments[key] == tool.denied[key] {
          return Some(NotPermitted);
        }
        keys := keys - {key};
      }
      var used := if name in counts then counts[name] else 0;
      if tool.maxCalls.Some? && used >= tool.maxCalls.value {
        return Some(LimitReached);
      }
      counts := counts[name := used + 1];
      return None;
    }
  }

  // ---- Interleaved invocations ----

  /** An admitted invocation: a builtin makes no requests, an HTTP tool has made `made` so far. */
  datatype Call = Call(name: string, made: nat, ended: bool)

  datatype State = State(counts: map<string, nat>, calls: seq<Call>, requests: seq<string>)

  const INITIAL := State(map[], [], [])

  datatype Event = Invoke(name: string, arguments: Arguments) | Request(i: nat, reply: Reply) | Finish(i: nat)

  /** `Request` is the next request of an HTTP call; `Finish` ends a builtin, or a call that could not be sent. */
  function Next(tools: map<string, Tool>, s: State, e: Event): State {
    match e
    case Invoke(name, arguments) =>
      if Refused(tools, s.counts, name, arguments).Some? then s
      else s.(counts := s.counts[name := Used(s.counts, name) + 1], calls := s.calls + [Call(name, 0, false)])
    case Request(i, reply) =>
      if i >= |s.calls| || s.calls[i].ended || s.calls[i].name !in tools || tools[s.calls[i].name].builtin then s
      else
        var call := s.calls[i];
        var ended := !Retried(reply, call.made, Attempts(tools[call.name]));
        s.(calls := s.calls[i := Call(call.name, call.made + 1, ended)], requests := s.requests + [call.name])
    case Finish(i) =>
      if i >= |s.calls| || s.calls[i].made > 0 then s else s.(calls := s.calls[i := s.calls[i].(ended := true)])
  }

  function Run(tools: map<string, Tool>, s: State, events: seq<Event>): State
    decreases events
  {
    if events == [] then s else Run(tools, Next(tools, s, events[0]), events[1..])
  }

  // ---- One call among the others ----

  /** The replies to the requests of call i from the k-th on, n of them. */
  function Replies(i: nat, replies: nat -> Reply, k: nat, n: nat): seq<Event>
    decreases n
  {
    if n == 0 then [] else [Request(i, replies(k))] + Replies(i, replies, k + 1, n - 1)
  }

  lemma {:induction false} EndedCallStays(tools: map<string, Tool>, s: State, i: nat, events: seq<Event>)
    requires i < |s.calls| && s.calls[i].ended
    ensures i < |Run(tools, s, events).calls| && Run(tools, s, events).calls[i] == s.calls[i]
    decreases events
  {
    if events == [] {
    } else {
      EndedCallStays(tools, Next(tools, s, events[0]), i, events[1..]);
    }
  }

  /** A call that is finished before its first request, as a builtin is, never makes any. */
  lemma FinishedCallMakesNone(tools: map<string, Tool>, s: State, i: nat, events: seq<Event>)
    requires i < |s.calls|
    ensures s.calls[i].made > 0 ==> Next(tools, s, Finish(i)) == s
    ensures s.calls[i].made == 0 ==>
      var r := Run(tools, Next(tools, s, Finish(i)), events);
      i < |r.calls| && r.calls[i] == Call(s.calls[i].name, 0, true)
  {
    if s.calls[i].made == 0 { EndedCallStays(tools, Next(tools, s, Finish(i)), i, events); }
  }

  lemma {:induction false} EndedCallAsksNothing(
    tools: map<string, Tool>, s: State, i: nat, replies: nat -> Reply, k: nat, n: nat)
    requires i < |s.calls| && s.calls[i].ended
    ensures Run(tools, s, Replies(i, replies, k, n)) == s
    decreases n
  {
    if n == 0 {
    } else {
      assert Replies(i, replies, k, n)[1..] == Replies(i, replies, k + 1, n - 1);
      EndedCallAsksNothing(tools, s, i, replies, k + 1, n - 1);
    }
  }

  lemma {:induction false} CallGoesOn(
    tools: map<string, Tool>, s: State, i: nat, replies: nat -> Reply, made: nat, n: nat)
    requires i < |s.calls| && s.calls[i].name in tools && !tools[s.calls[i].name].builtin
    requires !s.calls[i].ended && s.calls[i].made < made <= s.calls[i].made + n
    requires made <= Attempts(tools[s.calls[i].name])
    requires forall k :: 0 <= k < made - 1 ==> Again(replies(k))
    requires !Again(replies(made - 1)) || made == Attempts(tools[s.calls[i].name])
    ensures var k, name := s.calls[i].made, s.calls[i].name;
      Run(tools, s, Replies(i, replies, k, n))
      == s.(calls := s.calls[i := Call(name, made, true)], requests := s.requests + seq(made - k, _ => name))
    decreases n
  {
    var k, name := s.calls[i].made, s.calls[i].name;
    assert Replies(i, replies, k, n)[1..] == Replies(i, replies, k + 1, n - 1);
    var s1 := Next(tools, s, Request(i, replies(k)));
    assert [name] + seq(made - k - 1, _ => name) == seq(made - k, _ => name);
    if k + 1 == made {
      EndedCallAsksNothing(tools, s1, i, replies, k + 1, n - 1);
    } else {
      CallGoesOn(tools, s1, i, replies, made, n - 1);
      assert s.requests + [name] + seq(made - k - 1, _ => name) == s.requests + ([name] + seq(made - k - 1, _ => name));
    }
  }

  /**
   * An admitted HTTP call makes the requests that one execution makes of the same replies: it goes on after server and
   * transport errors while attempts remain, and ends with the first other reply or the last attempt.
   */
  lemma AdmittedCallMakesItsRequests(
    tools: map<string, Tool>, s: State, name: string, arguments: Arguments, replies: nat -> Reply, made: nat, n: nat)
    requires Refused(tools, s.counts, name, arguments).None? && !tools[name].builtin && n >= Attempts(tools[name])
    requires 1 <= made <= Attempts(tools[name]) && forall k :: 0 <= k < made - 1 ==> Again(replies(k))
    requires !Again(replies(made - 1)) || made == Attempts(tools[name])
    ensures var r := Run(tools, Next(tools, s, Invoke(name, arguments)), Replies(|s.calls|, replies, 0, n));
      && r.calls == s.calls + [Call(name, made, true)]
      && r.requests == s.requests + seq(made, _ => name)
      && r.counts == s.counts[name := Used(s.counts, name) + 1]
  {
    CallGoesOn(tools, Next(tools, s, Invoke(name, arguments)), |s.calls|, replies, made, n);
  }

  // ---- What is counted ----

  /** How often a name occurs. */
  function Occurrences(names: seq<string>, name: string): nat {
    multiset(names)[name]
  }

  /** Admitted calls of a tool, and the requests they have made. */
  function CallsOf(calls: seq<Call>, name: string): nat {
    if calls == [] then 0
    else CallsOf(calls[..|calls| - 1], name) + if calls[|calls| - 1].name == name then 1 else 0
  }

  function MadeBy(calls: seq<Call>, name: string): nat {
    if calls == [] then 0
    else MadeBy(calls[..|calls| - 1], name) + if calls[|calls| - 1].name == name then calls[|calls| - 1].made else 0
  }

  lemma {:induction false} UpdateCounts(calls: seq<Call>, i: nat, call: Call, name: string)
    requires i < |calls| && call.name == calls[i].name
    ensures CallsOf(calls[i := call], name) == CallsOf(calls, name)
    ensures MadeBy(calls[i := call], name)
         == MadeBy(calls, name) + if call.name == name then call.made - calls[i].made else 0
    decreases |calls|
  {
    var n := |calls| - 1;
    if i == n { assert calls[i := call][..n] == calls[..n]; }
    else {
      UpdateCounts(calls[..n], i, call, name);
      assert calls[i := call][..n] == calls[..n][i := call];
    }
  }

  lemma {:induction false} MadeIsBounded(calls: seq<Call>, name: string, most: nat)
    requires forall i :: 0 <= i < |calls| && calls[i].name == name ==> calls[i].made <= most
    ensures MadeBy(calls, name) <= CallsOf(calls, name) * most
  {
    if calls == [] {
    } else {
      var n := |calls| - 1;
      MadeIsBounded(calls[..n], name, most);
    }
  }

  /** Every call is of a granted tool and within its attempts, counted once, and its requests are logged. */
  ghost predicate Accounted(tools: map<string, Tool>, s: State, name: string) {
    && (forall i :: 0 <= i < |s.calls| ==>
          s.calls[i].name in tools && WithinAttempts(tools[s.calls[i].name], s.calls[i]))
    && CallsOf(s.calls, name) == Used(s.counts, name)
    && MadeBy(s.calls, name) == Occurrences(s.requests, name)
    && (name in tools && tools[name].maxCalls.Some? ==>
          Used(s.counts, name) <= if tools[name].maxCalls.value > 0 then tools[name].maxCalls.value else 0)
  }

  predicate WithinAttempts(tool: Tool, call: Call) {
    call.made <= Attempts(tool) && (!call.ended ==> call.made < Attempts(tool)) && (tool.builtin ==> call.made == 0)
  }

  lemma RequestAccounts(tools: map<string, Tool>, s: State, i: nat, reply: Reply, name: string)
    requires Accounted(tools, s, name)
    ensures Accounted(tools, Next(tools, s, Request(i, reply)), name)
  {
    if i < |s.calls| && !s.calls[i].ended && s.calls[i].name in tools && !tools[s.calls[i].name].builtin {
      var call := s.calls[i];
      UpdateCounts(s.calls, i, Call(call.name, call.made + 1, !Retried(reply, call.made, Attempts(tools[call.name]))),
        name);
    }
  }

  lemma FinishAccounts(tools: map<string, Tool>, s: State, i: nat, name: string)
    requires Accounted(tools, s, name)
    ensures Accounted(tools, Next(tools, s, Finish(i)), name)
  {
    if i < |s.calls| { UpdateCounts(s.calls, i, s.calls[i].(ended := true), name); }
  }

  lemma {:induction false} RunAccounts(tools: map<string, Tool>, s: State, events: seq<Event>, name: string)
    requires Accounted(tools, s, name)
    ensures Accounted(tools, Run(tools, s, events), name)
    decreases events
  {
    if events == [] {
    } else {
      match events[0] {
        case Invoke(called, arguments) =>
        case Request(i, reply) => RequestAccounts(tools, s, i, reply, name);
        case Finish(i) => FinishAccounts(tools, s, i, name);
      }
      RunAccounts(tools, Next(tools, s, events[0]), events[1..], name);
    }
  }

  /**
   * However invocations interleave, a tool limited to n calls makes at most n times one more than its retries requests
   * in a conversation.
   */
  lemma RequestsAreBounded(tools: map<string, Tool>, events: seq<Event>, name: string, limit: nat)
    requires name in tools && tools[name].maxCalls == Some(limit)
    ensures var s := Run(tools, INITIAL, events);
      && CallsOf(s.calls, name) == Used(s.counts, name) <= limit
      && Occurrences(s.requests, name) <= limit * Attempts(tools[name])
  {
    var s := Run(tools, INITIAL, events);
    RunAccounts(tools, INITIAL, events, name);
    MadeIsBounded(s.calls, name, Attempts(tools[name]));
    Scales(Used(s.counts, name), limit, Attempts(tools[name]));
  }

  /** A builtin makes no requests, and a tool that was not granted is never counted, run or requested. */
  lemma OthersMakeNoRequests(tools: map<string, Tool>, events: seq<Event>, name: string)
    requires name !in tools || tools[name].builtin
    ensures var s := Run(tools, INITIAL, events);
      Occurrences(s.requests, name) == 0 && (name !in tools ==> CallsOf(s.calls, name) == Used(s.counts, name) == 0)
  {
    var s := Run(tools, INITIAL, events);
    RunAccounts(tools, INITIAL, events, name);
    if name in tools { MadeIsBounded(s.calls, name, 0); } else { NoneOf(s.calls, name); }
  }

  lemma Scales(a: nat, b: nat, c: nat)
    requires a <= b
    ensures a * c <= b * c
  {
    assert (b - a) * c >= 0;
  }

  lemma {:induction false} NoneOf(calls: seq<Call>, name: string)
    requires forall i :: 0 <= i < |calls| ==> calls[i].name != name
    ensures CallsOf(calls, name) == 0 && MadeBy(calls, name) == 0
  {
    if calls == [] {
    } else {
      NoneOf(calls[..|calls| - 1], name);
    }
  }

  // ---- What spends the budget ----

  /** An invocation of the tool with everything right about it but perhaps the number of calls before it. */
  ghost predicate Eligible(tools: map<string, Tool>, name: string, e: Event) {
    && e.Invoke? && e.name == name && name in tools
    && (forall n :: n in tools[name].required ==> n in e.arguments && e.arguments[n] !in {Null, Text("")})
    && (forall n :: n in tools[name].denied && n in e.arguments ==> e.arguments[n] != tools[name].denied[n])
  }

  ghost function Eligibles(tools: map<string, Tool>, name: string, events: seq<Event>): nat {
    if events == [] then 0
    else (if Eligible(tools, name, events[0]) then 1 else 0) + Eligibles(tools, name, events[1..])
  }

  /** At most the limit, and never fewer than none. */
  function Within(limit: Option<int>, n: nat): nat {
    if limit.None? || n as int <= limit.value then n else if limit.value > 0 then limit.value else 0
  }

  lemma OneEventSpends(tools: map<string, Tool>, s: State, e: Event, name: string)
    requires name in tools && Used(s.counts, name) == Within(tools[name].maxCalls, Used(s.counts, name))
    ensures Used(Next(tools, s, e).counts, name)
         == Within(tools[name].maxCalls, Used(s.counts, name) + if Eligible(tools, name, e) then 1 else 0)
  {
    if e.Invoke? && e.name == name { AdmittedIff(tools, s.counts, name, e.arguments); }
  }

  lemma {:induction false} RunSpends(tools: map<string, Tool>, s: State, events: seq<Event>, name: string)
    requires name in tools && Used(s.counts, name) == Within(tools[name].maxCalls, Used(s.counts, name))
    ensures Used(Run(tools, s, events).counts, name)
         == Within(tools[name].maxCalls, Used(s.counts, name) + Eligibles(tools, name, events))
    decreases events
  {
    if events == [] {
    } else {
      OneEventSpends(tools, s, events[0], name);
      RunSpends(tools, Next(tools, s, events[0]), events[1..], name);
    }
  }

  /**
   * However invocations interleave, exactly the first n eligible ones of a tool limited to n calls are admitted, and
   * all of them when there is no limit: nothing that is refused uses up any of the budget.
   */
  lemma BudgetIsSpentByEligibleCalls(tools: map<string, Tool>, events: seq<Event>, name: string)
    requires name in tools
    ensures var s := Run(tools, INITIAL, events);
      CallsOf(s.calls, name) == Used(s.counts, name) == Within(tools[name].maxCalls, Eligibles(tools, name, events))
  {
    RunSpends(tools, INITIAL, events, name);
    RunAccounts(tools, INITIAL, events, name);
  }
}
