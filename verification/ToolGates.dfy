/**
 The gates around a tool call, outermost first: session budget, rate limit and human approval,
 then reasoning-before-action, then one action tool per turn, then the tool body. The protocol
 lets the calls of a turn overlap, as parallel tool calls do; a new model turn starts only when
 none is in flight. The middleware objects are proved to refine it call by call.
 */
module ToolGates {
  import opened Common
  import opened JobBudget
  import opened RateLimiter

  const REASONING_STEP := "reasoning_step"

  /** `validStep` tells whether the arguments validate as a reasoning step. */
  datatype ToolCall = ToolCall(name: string, validStep: bool)

  predicate IsAction(call: ToolCall) {
    call.name != REASONING_STEP
  }

  datatype BodyOutcome = Returns | RaisesBudget | RaisesOther

  /** What can be observed of a run. */
  datatype Event = TurnStarted | Reasoned | BodyStarted(call: ToolCall) | BodyReturned(call: ToolCall)

  datatype GateState = GateState(
    reasoningDone: bool,
    actionTools: nat,
    budgets: States,
    inFlight: seq<ToolCall>,
    peak: nat,
    log: seq<Event>)

  datatype Config = Config(sessionId: string, requireBeforeAction: bool)

  /** `admitted` stands for the verdict of the rate limiter and the human approval together. */
  datatype Op = NewTurn | Begin(call: ToolCall, admitted: bool) | End(index: nat, outcome: BodyOutcome)

  function StartBody(s: GateState, call: ToolCall): GateState {
    s.(inFlight := s.inFlight + [call], log := s.log + [BodyStarted(call)])
  }

  /** An inner refusal is an ordinary reply to the outer gate, which counts it. */
  function RefuseInside(c: Config, s: GateState): GateState {
    s.(budgets := CountCall(s.budgets, c.sessionId))
  }

  function Inner(c: Config, s: GateState, call: ToolCall): GateState {
    if !IsAction(call) then StartBody(s, call)
    else if c.requireBeforeAction && !s.reasoningDone then RefuseInside(c, s)
    else if s.actionTools >= 1 then RefuseInside(c, s)
    else StartBody(s.(actionTools := s.actionTools + 1), call)
  }

  /** The call leaves the gates: a valid reasoning step is recorded first, then the call is counted. */
  function Return(c: Config, s: GateState, call: ToolCall): GateState {
    var reasoned := !IsAction(call) && call.validStep;
    s.(reasoningDone := s.reasoningDone || reasoned,
       budgets := CountCall(s.budgets, c.sessionId),
       log := s.log + [BodyReturned(call)] + if reasoned then [Reasoned] else [])
  }

  function Step(c: Config, s: GateState, op: Op): GateState {
    match op
    case NewTurn =>
      if s.inFlight != [] then s
      else s.(reasoningDone := false, actionTools := 0, log := s.log + [TurnStarted])
    case Begin(call, admitted) =>
      if CallsExhausted(s.budgets, c.sessionId) || !admitted then s
      else Inner(c, s.(peak := if |s.inFlight| + 1 > s.peak then |s.inFlight| + 1 else s.peak), call)
    case End(i, outcome) =>
      if i >= |s.inFlight| then s
      else
        var t := s.(inFlight := RemoveAt(s.inFlight, i));
        if outcome.Returns? then Return(c, t, s.inFlight[i]) else t
  }

  function Run(c: Config, s: GateState, ops: seq<Op>): GateState {
    if ops == [] then s else Step(c, Run(c, s, ops[..|ops| - 1]), ops[|ops| - 1])
  }

  /** A session with a budget, before its first turn. */
  function Fresh(budgets: States): GateState {
    GateState(false, 0, budgets, [], 0, [])
  }

  // ---------------------------------------------------------------------------------------
  // Turn safety

  /** The events since the last model turn began. */
  function ThisTurn(log: seq<Event>): seq<Event> {
    if log == [] || log[|log| - 1] == TurnStarted then []
    else ThisTurn(log[..|log| - 1]) + [log[|log| - 1]]
  }

  predicate ActionStart(e: Event) {
    e.BodyStarted? && IsAction(e.call)
  }

  function ActionStarts(log: seq<Event>): nat {
    if log == [] then 0 else ActionStarts(log[..|log| - 1]) + if ActionStart(log[|log| - 1]) then 1 else 0
  }

  /** Whenever an action body starts, none started earlier in that turn, and
      a valid reasoning step was made in it if required. */
  predicate TurnsSafe(log: seq<Event>, requireReasoning: bool) {
    log == [] ||
    var front, last := log[..|log| - 1], log[|log| - 1];
    && TurnsSafe(front, requireReasoning)
    && (ActionStart(last) ==> ActionStarts(ThisTurn(front)) == 0 && (requireReasoning ==> Reasoned in ThisTurn(front)))
  }

  lemma ThisTurnAppend(log: seq<Event>, e: Event)
    ensures ThisTurn(log + [e]) == if e == TurnStarted then [] else ThisTurn(log) + [e]
    ensures ActionStarts(log + [e]) == ActionStarts(log) + if ActionStart(e) then 1 else 0
    ensures TurnsSafe(log + [e], true) <==>
      TurnsSafe(log, true) && (ActionStart(e) ==> ActionStarts(ThisTurn(log)) == 0 && Reasoned in ThisTurn(log))
    ensures TurnsSafe(log + [e], false) <==>
      TurnsSafe(log, false) && (ActionStart(e) ==> ActionStarts(ThisTurn(log)) == 0)
  {
    assert (log + [e])[..|log|] == log;
  }

  /** What the gates need to know of a log. */
  datatype Summary = Summary(safe: bool, actions: nat, reasoned: bool)

  function SummaryOf(log: seq<Event>, requireReasoning: bool): Summary {
    Summary(TurnsSafe(log, requireReasoning), ActionStarts(ThisTurn(log)), Reasoned in ThisTurn(log))
  }

  function Next(v: Summary, e: Event, requireReasoning: bool): Summary {
    if e == TurnStarted then Summary(v.safe, 0, false)
    else if ActionStart(e) then
      Summary(v.safe && v.actions == 0 && (requireReasoning ==> v.reasoned), v.actions + 1, v.reasoned)
    else Summary(v.safe, v.actions, v.reasoned || e == Reasoned)
  }

  lemma SummaryAppend(log: seq<Event>, e: Event, requireReasoning: bool)
    ensures SummaryOf(log + [e], requireReasoning) == Next(SummaryOf(log, requireReasoning), e, requireReasoning)
  {
    ThisTurnAppend(log, e);
    ThisTurnAppend(ThisTurn(log), e);
  }

  /** The session flags summarise the current turn. */
  ghost predicate TurnInv(c: Config, s: GateState) {
    SummaryOf(s.log, c.requireBeforeAction) == Summary(true, s.actionTools, s.reasoningDone) && s.actionTools <= 1
  }

  lemma BeginTurnInv(c: Config, s: GateState, call: ToolCall, admitted: bool)
    requires TurnInv(c, s)
    ensures TurnInv(c, Step(c, s, Begin(call, admitted)))
  {
    SummaryAppend(s.log, BodyStarted(call), c.requireBeforeAction);
  }

  lemma EndTurnInv(c: Config, s: GateState, i: nat, outcome: BodyOutcome)
    requires TurnInv(c, s)
    ensures TurnInv(c, Step(c, s, End(i, outcome)))
  {
    if i < |s.inFlight| && outcome.Returns? {
      var returned := s.log + [BodyReturned(s.inFlight[i])];
      SummaryAppend(s.log, BodyReturned(s.inFlight[i]), c.requireBeforeAction);
      SummaryAppend(returned, Reasoned, c.requireBeforeAction);
      assert returned + [] == returned;
    }
  }

  lemma StepTurnInv(c: Config, s: GateState, op: Op)
    requires TurnInv(c, s)
    ensures TurnInv(c, Step(c, s, op))
  {
    match op
    case NewTurn => SummaryAppend(s.log, TurnStarted, c.requireBeforeAction);
    case Begin(call, admitted) => BeginTurnInv(c, s, call, admitted);
    case End(i, outcome) => EndTurnInv(c, s, i, outcome);
  }

  /** On every run, however the calls of a turn overlap. */
  lemma {:induction false} TurnsAlwaysSafe(c: Config, budgets: States, ops: seq<Op>)
    ensures TurnInv(c, Run(c, Fresh(budgets), ops))
  {
    if ops != [] {
      TurnsAlwaysSafe(c, budgets, ops[..|ops| - 1]);
      StepTurnInv(c, Run(c, Fresh(budgets), ops[..|ops| - 1]), ops[|ops| - 1]);
    }
  }

  lemma {:induction false} QuietTurn(log: seq<Event>, i: nat)
    requires i < |log| && forall k :: i < k < |log| ==> log[k] != TurnStarted
    requires log[i] != TurnStarted
    ensures |ThisTurn(log)| >= |log| - i && ThisTurn(log)[|ThisTurn(log)| - (|log| - i)..] == log[i..]
  {
    if i < |log| - 1 {
      QuietTurn(log[..|log| - 1], i);
      assert log[i..] == log[..|log| - 1][i..] + [log[|log| - 1]];
    }
  }

  lemma {:induction false} StartsPositive(log: seq<Event>, i: nat)
    requires i < |log| && ActionStart(log[i])
    ensures ActionStarts(log) > 0
  {
    if i < |log| - 1 { StartsPositive(log[..|log| - 1], i); }
  }

  /** Read off positions: between two action bodies lies the start of a turn. */
  lemma {:induction false} ActionsApart(log: seq<Event>, requireReasoning: bool, i: nat, j: nat)
    requires TurnsSafe(log, requireReasoning) && i < j < |log| && ActionStart(log[i]) && ActionStart(log[j])
    ensures exists k :: i < k < j && log[k] == TurnStarted
  {
    if j < |log| - 1 {
      ActionsApart(log[..|log| - 1], requireReasoning, i, j);
    } else if forall k :: i < k < j ==> log[k] != TurnStarted {
      var front := log[..j];
      QuietTurn(front, i);
      var turn := ThisTurn(front);
      assert front[i..][0] == log[i];
      StartsPositive(turn, |turn| - (|front| - i));
      assert false;
    }
  }

  lemma {:induction false} InThisTurn(log: seq<Event>, e: Event)
    requires e in ThisTurn(log)
    ensures exists k :: 0 <= k < |log| && log[k] == e && TurnStarted !in log[k..]
  {
    var front, last := log[..|log| - 1], log[|log| - 1];
    if e == last {
      assert log[|log| - 1..] == [last];
    } else {
      InThisTurn(front, e);
      var k :| 0 <= k < |front| && front[k] == e && TurnStarted !in front[k..];
      assert log[k..] == front[k..] + [last];
    }
  }

  /** Read off positions: a valid reasoning step precedes every action body within its turn. */
  lemma {:induction false} ReasonedBeforeAction(log: seq<Event>, j: nat)
    requires TurnsSafe(log, true) && j < |log| && ActionStart(log[j])
    ensures exists k :: 0 <= k < j && log[k] == Reasoned && TurnStarted !in log[k..j]
  {
    if j < |log| - 1 {
      ReasonedBeforeAction(log[..|log| - 1], j);
      var k :| 0 <= k < j && log[..|log| - 1][k] == Reasoned && TurnStarted !in log[..|log| - 1][k..j];
      assert log[k..j] == log[..|log| - 1][k..j];
    } else {
      InThisTurn(log[..j], Reasoned);
      var k :| 0 <= k < j && log[..j][k] == Reasoned && TurnStarted !in log[..j][k..];
      assert log[k..j] == log[..j][k..];
    }
  }

  /** A call refused for missing reasoning leaves the turn's slot free. */
  lemma RefusalKeepsSlot(c: Config, s: GateState, call: ToolCall)
    requires IsAction(call) && c.requireBeforeAction && !s.reasoningDone
    ensures var t := Step(c, s, Begin(call, true));
            t.actionTools == s.actionTools && t.inFlight == s.inFlight && t.log == s.log
  {
  }

  // ---------------------------------------------------------------------------------------
  // Budget safety

  function Returned(log: seq<Event>): nat {
    if log == [] then 0 else Returned(log[..|log| - 1]) + if log[|log| - 1].BodyReturned? then 1 else 0
  }

  lemma ReturnedAppend(log: seq<Event>, e: Event)
    ensures Returned(log + [e]) == Returned(log) + if e.BodyReturned? then 1 else 0
  {
    assert (log + [e])[..|log|] == log;
  }

  function Overlap(peak: nat): nat {
    if peak == 0 then 0 else peak - 1
  }

  /** Counted calls stay within the maximum; bodies that returned uncounted are paid for by overlap. */
  ghost predicate BudgetInv(c: Config, s: GateState, maxCalls: int) {
    c.sessionId in s.budgets &&
    var b := s.budgets[c.sessionId];
    && b.maxToolCalls == maxCalls && |s.inFlight| <= s.peak
    && 0 <= b.toolCalls && (b.toolCalls > 0 ==> b.toolCalls <= maxCalls)
    && (b.toolCalls < maxCalls ==> Returned(s.log) <= b.toolCalls)
    && (b.toolCalls >= maxCalls ==> Returned(s.log) + |s.inFlight| <= b.toolCalls + Overlap(s.peak))
  }

  lemma StartBudgetInv(c: Config, s: GateState, maxCalls: int, call: ToolCall)
    requires BudgetInv(c, s, maxCalls) && !CallsExhausted(s.budgets, c.sessionId) && s.peak >= |s.inFlight| + 1
    ensures BudgetInv(c, StartBody(s, call), maxCalls)
  {
    ReturnedAppend(s.log, BodyStarted(call));
  }

  lemma RefuseBudgetInv(c: Config, s: GateState, maxCalls: int)
    requires BudgetInv(c, s, maxCalls) && !CallsExhausted(s.budgets, c.sessionId) && s.peak >= |s.inFlight| + 1
    ensures BudgetInv(c, RefuseInside(c, s), maxCalls)
  {
  }

  lemma BeginBudgetInv(c: Config, s: GateState, maxCalls: int, call: ToolCall, admitted: bool)
    requires BudgetInv(c, s, maxCalls)
    ensures BudgetInv(c, Step(c, s, Begin(call, admitted)), maxCalls)
  {
    if !CallsExhausted(s.budgets, c.sessionId) && admitted {
      var t := s.(peak := if |s.inFlight| + 1 > s.peak then |s.inFlight| + 1 else s.peak);
      assert BudgetInv(c, t, maxCalls);
      RefuseBudgetInv(c, t, maxCalls);
      StartBudgetInv(c, t, maxCalls, call);
      StartBudgetInv(c, t.(actionTools := t.actionTools + 1), maxCalls, call);
    }
  }

  lemma ReturnLog(c: Config, s: GateState, call: ToolCall)
    ensures Returned(Return(c, s, call).log) == Returned(s.log) + 1
  {
    var returned := s.log + [BodyReturned(call)];
    ReturnedAppend(s.log, BodyReturned(call));
    ReturnedAppend(returned, Reasoned);
    assert returned + [] == returned;
  }

  lemma EndBudgetInv(c: Config, s: GateState, maxCalls: int, i: nat, outcome: BodyOutcome)
    requires BudgetInv(c, s, maxCalls)
    ensures BudgetInv(c, Step(c, s, End(i, outcome)), maxCalls)
  {
    if i < |s.inFlight| {
      ReturnLog(c, s.(inFlight := RemoveAt(s.inFlight, i)), s.inFlight[i]);
    }
  }

  lemma StepBudgetInv(c: Config, s: GateState, maxCalls: int, op: Op)
    requires BudgetInv(c, s, maxCalls)
    ensures BudgetInv(c, Step(c, s, op), maxCalls)
  {
    match op
    case NewTurn => ReturnedAppend(s.log, TurnStarted);
    case Begin(call, admitted) => BeginBudgetInv(c, s, maxCalls, call, admitted);
    case End(i, outcome) => EndBudgetInv(c, s, maxCalls, i, outcome);
  }

  /** The session's budget as configured: nothing counted yet. */
  predicate Configured(c: Config, budgets: States, maxCalls: int) {
    c.sessionId in budgets && budgets[c.sessionId].toolCalls == 0 && budgets[c.sessionId].maxToolCalls == maxCalls
  }

  lemma {:induction false} RunBudgetInv(c: Config, budgets: States, maxCalls: int, ops: seq<Op>)
    requires Configured(c, budgets, maxCalls)
    ensures BudgetInv(c, Run(c, Fresh(budgets), ops), maxCalls)
  {
    if ops != [] {
      RunBudgetInv(c, budgets, maxCalls, ops[..|ops| - 1]);
      StepBudgetInv(c, Run(c, Fresh(budgets), ops[..|ops| - 1]), maxCalls, ops[|ops| - 1]);
    }
  }

  /** On every run: counted calls never pass the maximum, and bodies that returned exceed the counted
      calls by less than the largest number of calls that were in flight at once. */
  lemma BudgetNeverExceeded(c: Config, budgets: States, maxCalls: nat, ops: seq<Op>)
    requires Configured(c, budgets, maxCalls)
    ensures var s := Run(c, Fresh(budgets), ops);
            && c.sessionId in s.budgets
            && s.budgets[c.sessionId].toolCalls <= maxCalls
            && Returned(s.log) <= s.budgets[c.sessionId].toolCalls + Overlap(s.peak)
            && (s.peak <= 1 ==> Returned(s.log) <= s.budgets[c.sessionId].toolCalls)
  {
    RunBudgetInv(c, budgets, maxCalls, ops);
  }

  // ---------------------------------------------------------------------------------------
  // Action tools never overshoot

  /** Action bodies that returned. */
  function ActionsReturned(log: seq<Event>): nat {
    if log == [] then 0
    else
      var last := log[|log| - 1];
      ActionsReturned(log[..|log| - 1]) + if last.BodyReturned? && IsAction(last.call) then 1 else 0
  }

  lemma ActionsReturnedAppend(log: seq<Event>, e: Event)
    ensures ActionsReturned(log + [e]) == ActionsReturned(log) + if e.BodyReturned? && IsAction(e.call) then 1 else 0
  {
    assert (log + [e])[..|log|] == log;
  }

  function ActionsIn(calls: seq<ToolCall>): nat {
    if calls == [] then 0 else ActionsIn(calls[..|calls| - 1]) + if IsAction(calls[|calls| - 1]) then 1 else 0
  }

  lemma ActionsInLast(calls: seq<ToolCall>, call: ToolCall)
    ensures ActionsIn(calls + [call]) == ActionsIn(calls) + if IsAction(call) then 1 else 0
  {
    assert (calls + [call])[..|calls|] == calls;
  }

  lemma {:induction false} ActionsInRemoveAt(calls: seq<ToolCall>, i: nat)
    requires i < |calls|
    ensures ActionsIn(calls) == ActionsIn(RemoveAt(calls, i)) + if IsAction(calls[i]) then 1 else 0
  {
    var n := |calls| - 1;
    if i == n {
      assert RemoveAt(calls, i) == calls[..n];
    } else {
      ActionsInRemoveAt(calls[..n], i);
      assert RemoveAt(calls, i) == RemoveAt(calls[..n], i) + [calls[n]];
      ActionsInLast(RemoveAt(calls[..n], i), calls[n]);
    }
  }

  /** At most one action body is in flight, and one that is has a unit of the budget to be counted on. */
  ghost predicate ActionInv(c: Config, s: GateState, maxCalls: int) {
    c.sessionId in s.budgets &&
    var b := s.budgets[c.sessionId];
    && b.maxToolCalls == maxCalls && 0 <= b.toolCalls <= maxCalls
    && ActionsIn(s.inFlight) <= s.actionTools <= 1
    && ActionsReturned(s.log) <= b.toolCalls
    && ActionsReturned(s.log) + ActionsIn(s.inFlight) <= maxCalls
  }

  lemma BeginActionInv(c: Config, s: GateState, maxCalls: int, call: ToolCall, admitted: bool)
    requires ActionInv(c, s, maxCalls)
    ensures ActionInv(c, Step(c, s, Begin(call, admitted)), maxCalls)
  {
    ActionsReturnedAppend(s.log, BodyStarted(call));
    ActionsInLast(s.inFlight, call);
  }

  lemma ReturnActions(c: Config, s: GateState, call: ToolCall)
    ensures ActionsReturned(Return(c, s, call).log) == ActionsReturned(s.log) + if IsAction(call) then 1 else 0
  {
    var returned := s.log + [BodyReturned(call)];
    ActionsReturnedAppend(s.log, BodyReturned(call));
    ActionsReturnedAppend(returned, Reasoned);
    assert returned + [] == returned;
  }

  lemma EndActionInv(c: Config, s: GateState, maxCalls: int, i: nat, outcome: BodyOutcome)
    requires ActionInv(c, s, maxCalls)
    ensures ActionInv(c, Step(c, s, End(i, outcome)), maxCalls)
  {
    if i < |s.inFlight| {
      ActionsInRemoveAt(s.inFlight, i);
      ReturnActions(c, s.(inFlight := RemoveAt(s.inFlight, i)), s.inFlight[i]);
    }
  }

  lemma {:induction false} RunActionInv(c: Config, budgets: States, maxCalls: nat, ops: seq<Op>)
    requires Configured(c, budgets, maxCalls)
    ensures ActionInv(c, Run(c, Fresh(budgets), ops), maxCalls)
  {
    if ops != [] {
      var s := Run(c, Fresh(budgets), ops[..|ops| - 1]);
      RunActionInv(c, budgets, maxCalls, ops[..|ops| - 1]);
      match ops[|ops| - 1]
      case NewTurn => ActionsReturnedAppend(s.log, TurnStarted);
      case Begin(call, admitted) => BeginActionInv(c, s, maxCalls, call, admitted);
      case End(i, outcome) => EndActionInv(c, s, maxCalls, i, outcome);
    }
  }

  /** On every run, however calls overlap: action bodies that returned never exceed the counted calls. */
  lemma ActionsNeverOvershoot(c: Config, budgets: States, maxCalls: nat, ops: seq<Op>)
    requires Configured(c, budgets, maxCalls)
    ensures var s := Run(c, Fresh(budgets), ops);
            && c.sessionId in s.budgets
            && ActionsReturned(s.log) <= s.budgets[c.sessionId].toolCalls <= maxCalls
  {
    RunActionInv(c, budgets, maxCalls, ops);
  }

  // ---------------------------------------------------------------------------------------
  // Reasoning steps do

  const THOUGHT := ToolCall(REASONING_STEP, false)

  /** `open` reasoning calls are in flight and `returned` have returned, on a budget of `maxCalls`. */
  ghost predicate Wide(c: Config, s: GateState, maxCalls: nat, open: nat, returned: nat) {
    && c.sessionId in s.budgets && s.budgets[c.sessionId].maxToolCalls == maxCalls
    && s.budgets[c.sessionId].toolCalls == (if returned < maxCalls then returned else maxCalls)
    && |s.inFlight| == open && Returned(s.log) == returned
    && forall i :: 0 <= i < open ==> s.inFlight[i] == THOUGHT
  }

  lemma OpenOne(c: Config, s: GateState, maxCalls: nat, open: nat, returned: nat)
    requires Wide(c, s, maxCalls, open, returned) && returned < maxCalls
    ensures var t := Step(c, s, Begin(THOUGHT, true));
            Wide(c, t, maxCalls, open + 1, returned) && t.peak == if open + 1 > s.peak then open + 1 else s.peak
  {
    var t := Step(c, s, Begin(THOUGHT, true));
    assert t.inFlight == s.inFlight + [THOUGHT] && t.log == s.log + [BodyStarted(THOUGHT)] && t.budgets == s.budgets;
    ReturnedAppend(s.log, BodyStarted(THOUGHT));
  }

  lemma CloseOne(c: Config, s: GateState, maxCalls: nat, open: nat, returned: nat)
    requires Wide(c, s, maxCalls, open, returned) && open > 0
    ensures var t := Step(c, s, End(0, Returns));
            Wide(c, t, maxCalls, open - 1, returned + 1) && t.peak == s.peak
  {
    ReturnLog(c, s.(inFlight := RemoveAt(s.inFlight, 0)), THOUGHT);
  }

  lemma RunLast(c: Config, s: GateState, ops: seq<Op>, op: Op)
    ensures Run(c, s, ops + [op]) == Step(c, Run(c, s, ops), op)
  {
    assert (ops + [op])[..|ops|] == ops;
  }

  /** `n` reasoning calls one after the other. */
  lemma {:induction false} OneByOne(c: Config, budgets: States, maxCalls: nat, n: nat) returns (ops: seq<Op>)
    requires Configured(c, budgets, maxCalls) && n <= maxCalls
    ensures var s := Run(c, Fresh(budgets), ops); Wide(c, s, maxCalls, 0, n) && s.peak <= 1
  {
    ops := [];
    if n > 0 {
      var before := OneByOne(c, budgets, maxCalls, n - 1);
      var s := Run(c, Fresh(budgets), before);
      OpenOne(c, s, maxCalls, 0, n - 1);
      CloseOne(c, Step(c, s, Begin(THOUGHT, true)), maxCalls, 1, n - 1);
      RunLast(c, Fresh(budgets), before, Begin(THOUGHT, true));
      RunLast(c, Fresh(budgets), before + [Begin(THOUGHT, true)], End(0, Returns));
      ops := before + [Begin(THOUGHT, true)] + [End(0, Returns)];
    }
  }

  lemma {:induction false} OpenMany(c: Config, budgets: States, maxCalls: nat, before: seq<Op>, returned: nat, n: nat)
    returns (ops: seq<Op>)
    requires Wide(c, Run(c, Fresh(budgets), before), maxCalls, 0, returned) && returned < maxCalls && n >= 1
    requires Run(c, Fresh(budgets), before).peak <= 1
    ensures var s := Run(c, Fresh(budgets), ops); Wide(c, s, maxCalls, n, returned) && s.peak == n
  {
    var fewer := before;
    if n > 1 { fewer := OpenMany(c, budgets, maxCalls, before, returned, n - 1); }
    OpenOne(c, Run(c, Fresh(budgets), fewer), maxCalls, n - 1, returned);
    RunLast(c, Fresh(budgets), fewer, Begin(THOUGHT, true));
    ops := fewer + [Begin(THOUGHT, true)];
  }

  lemma {:induction false} CloseMany(c: Config, budgets: States, maxCalls: nat, before: seq<Op>, open: nat,
                                     returned: nat)
    returns (ops: seq<Op>)
    requires Wide(c, Run(c, Fresh(budgets), before), maxCalls, open, returned)
    ensures var s := Run(c, Fresh(budgets), ops);
            Wide(c, s, maxCalls, 0, open + returned) && s.peak == Run(c, Fresh(budgets), before).peak
    decreases open
  {
    ops := before;
    if open > 0 {
      CloseOne(c, Run(c, Fresh(budgets), before), maxCalls, open, returned);
      RunLast(c, Fresh(budgets), before, End(0, Returns));
      ops := CloseMany(c, budgets, maxCalls, before + [End(0, Returns)], open - 1, returned + 1);
    }
  }

  /**
   The bound is tight: whatever the positive budget and the width, some run on which at most `width`
   calls overlap has `width - 1` more bodies returned than the budget allows.
   */
  lemma OverlapOvershoots(c: Config, budgets: States, maxCalls: nat, width: nat) returns (ops: seq<Op>)
    requires Configured(c, budgets, maxCalls) && maxCalls >= 1 && width >= 1
    ensures var s := Run(c, Fresh(budgets), ops);
            && c.sessionId in s.budgets && s.budgets[c.sessionId].toolCalls == maxCalls
            && s.peak == width && Returned(s.log) == maxCalls + Overlap(width)
  {
    ops := OneByOne(c, budgets, maxCalls, maxCalls - 1);
    ops := OpenMany(c, budgets, maxCalls, ops, maxCalls - 1, width);
    ops := CloseMany(c, budgets, maxCalls, ops, width, maxCalls - 1);
  }

  // ---------------------------------------------------------------------------------------
  // The middleware objects, one call at a time

  /** A call that runs from the outer gate to its end before the next one begins. */
  function Whole(c: Config, s: GateState, call: ToolCall, admitted: bool, outcome: BodyOutcome): GateState {
    var t := Step(c, s, Begin(call, admitted));
    if |t.inFlight| > |s.inFlight| then Step(c, t, End(|s.inFlight|, outcome)) else t
  }

  /** One of the two inner gates refuses the call. */
  predicate Stopped(c: Config, s: GateState, call: ToolCall) {
    IsAction(call) && ((c.requireBeforeAction && !s.reasoningDone) || s.actionTools >= 1)
  }

  /** What an admitted call does when nothing else is in flight, spelled out case by case. */
  function Through(c: Config, s: GateState, call: ToolCall, outcome: BodyOutcome): GateState {
    var peak := if s.peak < 1 then 1 else s.peak;
    var counted := CountCall(s.budgets, c.sessionId);
    var reasoned := !IsAction(call) && call.validStep;
    var done := s.log + [BodyStarted(call)];
    if Stopped(c, s, call) then s.(peak := peak, budgets := counted)
    else if outcome.Returns? then
      GateState(s.reasoningDone || reasoned, s.actionTools + (if IsAction(call) then 1 else 0), counted, [], peak,
                done + [BodyReturned(call)] + if reasoned then [Reasoned] else [])
    else GateState(s.reasoningDone, s.actionTools + (if IsAction(call) then 1 else 0), s.budgets, [], peak, done)
  }

  /** It is the two protocol steps of a call that meets no other. */
  lemma WholeIsThrough(c: Config, s: GateState, call: ToolCall, outcome: BodyOutcome)
    requires s.inFlight == [] && !CallsExhausted(s.budgets, c.sessionId)
    ensures Whole(c, s, call, true, outcome) == Through(c, s, call, outcome)
  {
    var t := Step(c, s, Begin(call, true));
    if Stopped(c, s, call) {
      assert t.inFlight == [];
    } else {
      assert t.inFlight == [call] && RemoveAt(t.inFlight, 0) == [];
    }
  }

  datatype Why = OverBudget | RateLimited | NeedsApproval | NoReasoning | SlotUsed
  datatype Reply = ToolResult | Refused(why: Why) | Raises(outcome: BodyOutcome)

  class SgrSessionState {
    var reasoningDone: bool
    var actionToolsThisTurn: nat
    ghost var peak: nat
    ghost var log: seq<Event>

    constructor ()
      ensures !reasoningDone && actionToolsThisTurn == 0 && peak == 0 && log == []
    {
      reasoningDone, actionToolsThisTurn, peak, log := false, 0, 0, [];
    }

    method MarkReasoning()
      modifies this
      ensures reasoningDone && log == old(log) + [Reasoned]
      ensures actionToolsThisTurn == old(actionToolsThisTurn) && peak == old(peak)
    {
      reasoningDone := true;
      log := log + [Reasoned];
    }

    method ResetTurn()
      modifies this
      ensures !reasoningDone && actionToolsThisTurn == 0 && log == old(log) + [TurnStarted] && peak == old(peak)
    {
      reasoningDone := false;
      actionToolsThisTurn := 0;
      log := log + [TurnStarted];
    }
  }

  class SgrOneToolMiddleware {
    const session: SgrSessionState

    constructor (session: SgrSessionState)
      ensures this.session == session
    {
      this.session := session;
    }

    /** The innermost gate; `outcome` is what the tool body does. */
    method WrapToolCall(call: ToolCall, outcome: BodyOutcome) returns (r: Reply)
      modifies session
      ensures session.reasoningDone == old(session.reasoningDone) && session.peak == old(session.peak)
      ensures if IsAction(call) && old(session.actionToolsThisTurn) >= 1 then
          r == Refused(SlotUsed) && session.log == old(session.log) &&
          session.actionToolsThisTurn == old(session.actionToolsThisTurn)
        else
          && r == (if outcome.Returns? then ToolResult else Raises(outcome))
          && session.log == old(session.log) + [BodyStarted(call)] +
                             (if outcome.Returns? then [BodyReturned(call)] else [])
          && session.actionToolsThisTurn == old(session.actionToolsThisTurn) + if IsAction(call) then 1 else 0
    {
      if call.name != REASONING_STEP {
        if session.actionToolsThisTurn >= 1 {
          return Refused(SlotUsed);
        }
        session.actionToolsThisTurn := session.actionToolsThisTurn + 1;
      }
      session.log := session.log + [BodyStarted(call)];
      if !outcome.Returns? {
        return Raises(outcome);
      }
      session.log := session.log + [BodyReturned(call)];
      r := ToolResult;
    }
  }

  class SchemaGuidedReasoningMiddleware {
    const requireBeforeAction: bool
    const session: SgrSessionState
    const inner: SgrOneToolMiddleware

    constructor (requireBeforeAction: bool, session: SgrSessionState, inner: SgrOneToolMiddleware)
      ensures this.requireBeforeAction == requireBeforeAction && this.session == session && this.inner == inner
    {
      this.requireBeforeAction, this.session, this.inner := requireBeforeAction, session, inner;
    }

    method WrapModelCall()
      modifies session
      ensures !session.reasoningDone && session.actionToolsThisTurn == 0
      ensures session.log == old(session.log) + [TurnStarted] && session.peak == old(session.peak)
    {
      session.ResetTurn();
    }

    method WrapToolCall(call: ToolCall, outcome: BodyOutcome) returns (r: Reply)
      requires inner.session == session
      modifies session
      ensures session.peak == old(session.peak)
      ensures var reasoned := !IsAction(call) && call.validStep && outcome.Returns?;
        if IsAction(call) && ((requireBeforeAction && !old(session.reasoningDone)) ||
                           old(session.actionToolsThisTurn) >= 1) then
          && r == Refused(if requireBeforeAction && !old(session.reasoningDone) then NoReasoning else SlotUsed)
          && session.log == old(session.log) && session.reasoningDone == old(session.reasoningDone)
          && session.actionToolsThisTurn == old(session.actionToolsThisTurn)
        else
          && r == (if outcome.Returns? then ToolResult else Raises(outcome))
          && session.log == old(session.log) + [BodyStarted(call)] +
                             (if outcome.Returns? then [BodyReturned(call)] else [])
                                             + (if reasoned then [Reasoned] else [])
          && session.actionToolsThisTurn == old(session.actionToolsThisTurn) + (if IsAction(call) then 1 else 0)
          && session.reasoningDone == (old(session.reasoningDone) || reasoned)
    {
      if call.name == REASONING_STEP {
        r := inner.WrapToolCall(call, outcome);
        if r == ToolResult && call.validStep {
          session.MarkReasoning();
        }
        return;
      }
      if requireBeforeAction && !session.reasoningDone {
        return Refused(NoReasoning);
      }
      r := inner.WrapToolCall(call, outcome);
    }
  }

  /** The limiter's key for a tool of a session. */
  function KeyFor(sessionId: string, tool: string): string {
    sessionId + ":" + tool
  }

  /** What follows the last colon. */
  function AfterColon(key: string): string {
    if key == "" || key[|key| - 1] == ':' then "" else AfterColon(key[..|key| - 1]) + [key[|key| - 1]]
  }

  lemma {:induction false} ToolOfKey(s: string, t: string)
    requires ':' !in t
    ensures AfterColon(KeyFor(s, t)) == t
  {
    var key := KeyFor(s, t);
    if t == "" {
      assert key[|key| - 1] == ':';
    } else {
      assert key[..|key| - 1] == KeyFor(s, t[..|t| - 1]) && key[|key| - 1] == t[|t| - 1];
      ToolOfKey(s, t[..|t| - 1]);
    }
  }

  /** Sessions, which contain colons themselves, and tools never share a key as long as tool names contain none. */
  lemma KeysApart(s: string, t: string, s': string, t': string)
    requires ':' !in t && ':' !in t'
    ensures KeyFor(s, t) == KeyFor(s', t') <==> s == s' && t == t'
  {
    ToolOfKey(s, t);
    ToolOfKey(s', t');
    assert KeyFor(s, t)[..|KeyFor(s, t)| - |t| - 1] == s && KeyFor(s', t')[..|KeyFor(s', t')| - |t'| - 1] == s';
  }

  /** With a colon in a tool name they may. */
  lemma KeysCollide(a: string, b: string, c: string)
    ensures KeyFor(a, b + ":" + c) == KeyFor(a + ":" + b, c)
  {
    assert a + ":" + (b + ":" + c) == a + ":" + b + ":" + c;
  }

  /** How the human and the stage answer a risky call. */
  datatype Approval = Approval(risk: int, devStage: bool, approved: bool)

  class SecurityMiddleware {
    const sessionId: string
    const autoApproveThreshold: int
    const budgets: JobBudgetTracker
    const limiter: InMemoryRateLimiter
    const session: SgrSessionState
    const inner: SchemaGuidedReasoningMiddleware

    constructor (sessionId: string, threshold: int, requireBeforeAction: bool, budgets: JobBudgetTracker,
                 limiter: InMemoryRateLimiter)
      ensures this.sessionId == sessionId && autoApproveThreshold == threshold &&
              this.budgets == budgets && this.limiter == limiter
      ensures fresh(session) && Nested() && inner.requireBeforeAction == requireBeforeAction
      ensures Abs() == Fresh(budgets.states)
    {
      var s := new SgrSessionState();
      var one := new SgrOneToolMiddleware(s);
      var reasoning := new SchemaGuidedReasoningMiddleware(requireBeforeAction, s, one);
      this.sessionId, autoApproveThreshold, this.budgets, this.limiter := sessionId, threshold, budgets, limiter;
      session, inner := s, reasoning;
    }

    ghost predicate Nested() {
      inner.session == session && inner.inner.session == session
    }

    ghost function Settings(): Config {
      Config(sessionId, inner.requireBeforeAction)
    }

    /** The protocol state; between calls nothing is in flight. */
    ghost function Abs(): GateState
      reads session, budgets
    {
      GateState(session.reasoningDone, session.actionToolsThisTurn, budgets.states, [], session.peak, session.log)
    }

    function LimiterKey(call: ToolCall): string {
      KeyFor(sessionId, call.name)
    }

    /** The session's budget is used up. */
    ghost predicate Exhausted()
      reads budgets
    {
      sessionId in budgets.states && budgets.states[sessionId].toolCalls >= budgets.states[sessionId].maxToolCalls
    }

    /** The calls of this session and tool that the limiter admitted leave room for another one. */
    ghost predicate Within(call: ToolCall, now: real)
      reads limiter
    {
      var key := sessionId + ":" + call.name;
      var h := if key in limiter.admitted then limiter.admitted[key] else [];
      limiter.maxCalls > 0 && (|h| < limiter.maxCalls || h[|h| - limiter.maxCalls] < now - limiter.windowSeconds)
    }

    /** An action without the reasoning it needs, or a second one of the turn. */
    ghost predicate NotNow(call: ToolCall)
      reads session
    {
      call.name != "reasoning_step" &&
      ((inner.requireBeforeAction && !session.reasoningDone) || session.actionToolsThisTurn >= 1)
    }

    /** The session's counter, one more if the call counts. */
    ghost function Counted(states: States, counts: bool): States
      requires sessionId in states
    {
      states[sessionId := states[sessionId].(toolCalls := states[sessionId].toolCalls + if counts then 1 else 0)]
    }

    /** The three outer gates, in order; None when the call is let in. */
    method Admit(call: ToolCall, now: real, human: Approval) returns (refusal: Option<Why>)
      requires limiter.Valid() && limiter.clock <= now
      modifies limiter
      ensures limiter.Valid()
      ensures var approved := human.risk <= autoApproveThreshold || (!human.devStage && human.approved);
              refusal == if Exhausted() then Some(OverBudget)
                         else if !old(Within(call, now)) then Some(RateLimited)
                         else if !approved then Some(NeedsApproval) else None
      ensures var key := sessionId + ":" + call.name;
              limiter.admitted == if Exhausted() || !old(Within(call, now)) then old(limiter.admitted)
                                  else old(limiter.admitted)[key := HistoryOf(old(limiter.admitted), key) + [now]]
    {
      var ok := budgets.CheckToolCall(sessionId);
      if !ok { return Some(OverBudget); }
      var allowed := limiter.Allow(LimiterKey(call), now);
      if !allowed { return Some(RateLimited); }
      if human.risk > autoApproveThreshold {
        if human.devStage || !human.approved { return Some(NeedsApproval); }
      }
      return None;
    }

    /** Calls of other sessions and other tools leave what the limiter knows of a session and tool alone. */
    lemma OthersUntouched(histories: Histories, call: ToolCall, history: seq<real>, s: string, t: string)
      requires ':' !in t && ':' !in call.name && (s != sessionId || t != call.name)
      ensures HistoryOf(histories[sessionId + ":" + call.name := history], s + ":" + t) ==
        HistoryOf(histories, s + ":" + t)
    {
      KeysApart(s, t, sessionId, call.name);
    }

    method WrapToolCall(call: ToolCall, now: real, human: Approval, outcome: BodyOutcome) returns (r: Reply)
      requires Nested() && limiter.Valid() && limiter.clock <= now
      modifies session, budgets, limiter
      ensures limiter.Valid()
      ensures var approved := human.risk <= autoApproveThreshold || (!human.devStage && human.approved);
              Abs() == Whole(Settings(), old(Abs()), call, old(Within(call, now)) && approved, outcome)
      ensures var approved := human.risk <= autoApproveThreshold || (!human.devStage && human.approved);
              r == if old(Exhausted()) then Refused(OverBudget)
                   else if !old(Within(call, now)) then Refused(RateLimited)
                   else if !approved then Refused(NeedsApproval)
                   else if old(NotNow(call)) then
                     Refused(if inner.requireBeforeAction && !old(session.reasoningDone) then NoReasoning else SlotUsed)
                   else if outcome == Returns then ToolResult
                   else if outcome == RaisesBudget then Refused(OverBudget) else Raises(RaisesOther)
      ensures var approved := human.risk <= autoApproveThreshold || (!human.devStage && human.approved);
              var counts := !old(Exhausted()) && old(Within(call, now)) && approved
                            && (old(NotNow(call)) || outcome == Returns);
              budgets.states == if sessionId in old(budgets.states) then Counted(old(budgets.states), counts)
                                else old(budgets.states)
      ensures var approved := human.risk <= autoApproveThreshold || (!human.devStage && human.approved);
              var runs := !old(Exhausted()) && old(Within(call, now)) && approved && !old(NotNow(call));
              && session.actionToolsThisTurn == old(session.actionToolsThisTurn) +
                   (if runs && call.name != "reasoning_step" then 1 else 0)
              && session.reasoningDone == (old(session.reasoningDone) ||
                   (runs && call.name == "reasoning_step" && call.validStep && outcome == Returns))
      ensures var key := sessionId + ":" + call.name;
              limiter.admitted == if old(Exhausted()) || !old(Within(call, now)) then old(limiter.admitted)
                                  else old(limiter.admitted)[key := HistoryOf(old(limiter.admitted), key) + [now]]
    {
      var refusal := Admit(call, now, human);
      if refusal.Some? {
        return Refused(refusal.value);
      }
      WholeIsThrough(Settings(), old(Abs()), call, outcome);
      r := Handle(call, outcome);
    }

    /** The admitted call: the inner gates, then the count. */
    method Handle(call: ToolCall, outcome: BodyOutcome) returns (r: Reply)
      requires Nested() && !Exhausted()
      modifies session, budgets
      ensures Abs() == Through(Settings(), old(Abs()), call, outcome)
      ensures r == if old(NotNow(call)) then
                     Refused(if inner.requireBeforeAction && !old(session.reasoningDone) then NoReasoning else SlotUsed)
                   else if outcome == Returns then ToolResult
                   else if outcome == RaisesBudget then Refused(OverBudget) else Raises(RaisesOther)
      ensures budgets.states == if sessionId in old(budgets.states)
                                then Counted(old(budgets.states), old(NotNow(call)) || outcome == Returns)
                                else old(budgets.states)
      ensures session.actionToolsThisTurn == old(session.actionToolsThisTurn) +
        if !old(NotNow(call)) && call.name != "reasoning_step" then 1 else 0
      ensures session.reasoningDone == (old(session.reasoningDone) ||
        (call.name == "reasoning_step" && call.validStep && outcome == Returns))
    {
      session.peak := if session.peak < 1 then 1 else session.peak;
      r := inner.WrapToolCall(call, outcome);
      if r.Raises? {
        if r.outcome == RaisesBudget { r := Refused(OverBudget); }
        return;
      }
      var ok := budgets.RecordToolCall(sessionId);
      if !ok { r := Refused(OverBudget); }
    }

    method WrapModelCall()
      requires Nested()
      modifies session
      ensures Abs() == Step(Settings(), old(Abs()), NewTurn)
      ensures !session.reasoningDone && session.actionToolsThisTurn == 0
    {
      inner.WrapModelCall();
    }
  }
}
