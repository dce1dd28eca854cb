/** Per-session usage counters of worker jobs. */
module JobBudget {
  datatype JobBudgetState = JobBudgetState(
    maxTokens: int, maxCostUsd: real, maxToolCalls: int, tokensUsed: int, costUsd: real, toolCalls: int)

  type States = map<string, JobBudgetState>

  /** A session without a budget is never exhausted. */
  predicate CallsExhausted(states: States, sessionId: string) {
    sessionId in states && states[sessionId].toolCalls >= states[sessionId].maxToolCalls
  }

  /** The recorded call is counted only while the budget lasts. */
  function CountCall(states: States, sessionId: string): States {
    if sessionId !in states || CallsExhausted(states, sessionId) then states
    else states[sessionId := states[sessionId].(toolCalls := states[sessionId].toolCalls + 1)]
  }

  class JobBudgetTracker {
    var states: States
    var profileIds: map<string, string>

    constructor ()
      ensures states == map[] && profileIds == map[]
    {
      states, profileIds := map[], map[];
    }

    method Configure(sessionId: string, maxTokens: int, maxCostUsd: real, maxToolCalls: int, profileId: string)
      modifies this
      ensures states == old(states)[sessionId := JobBudgetState(maxTokens, maxCostUsd, maxToolCalls, 0, 0.0, 0)]
      ensures profileIds == old(profileIds)[sessionId := profileId]
    {
      states := states[sessionId := JobBudgetState(maxTokens, maxCostUsd, maxToolCalls, 0, 0.0, 0)];
      profileIds := profileIds[sessionId := profileId];
    }

    method Clear(sessionId: string)
      modifies this
      ensures states == old(states) - {sessionId} && profileIds == old(profileIds) - {sessionId}
    {
      states := states - {sessionId};
      profileIds := profileIds - {sessionId};
    }

    /** `ok` is false when the tracker raises JobBudgetExceeded. */
    method CheckToolCall(sessionId: string) returns (ok: bool)
      ensures ok <==> !CallsExhausted(states, sessionId)
      ensures !ok <==> sessionId in states && states[sessionId].toolCalls >= states[sessionId].maxToolCalls
    {
      if sessionId !in states { return true; }
      ok := states[sessionId].toolCalls < states[sessionId].maxToolCalls;
    }

    method RecordToolCall(sessionId: string) returns (ok: bool)
      modifies this`states
      ensures ok <==> !CallsExhausted(old(states), sessionId)
      ensures states == CountCall(old(states), sessionId)
      ensures states - {sessionId} == old(states) - {sessionId}
      ensures !ok || sessionId !in old(states) ==> states == old(states)
      ensures ok && sessionId in old(states) ==>
        && sessionId in states
        && var was := old(states)[sessionId];
           states[sessionId] == JobBudgetState(was.maxTokens, was.maxCostUsd, was.maxToolCalls,
                                               was.tokensUsed, was.costUsd, was.toolCalls + 1)
    {
      ok := CheckToolCall(sessionId);
      if ok && sessionId in states {
        var state := states[sessionId];
        states := states[sessionId := state.(toolCalls := state.toolCalls + 1)];
      }
    }
  }
}
