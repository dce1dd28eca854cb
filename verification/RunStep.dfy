/**
 One step of a run: the conductor loop, which the trace critic may send round again while the
 persisted rerun counter allows, and the plan and one-shot branches. What the agent returns and
 what the critic says is an oracle indexed by the number of agent runs so far.
 */
module RunStep {
  import opened Common

  datatype RunStatus = OPEN | IN_PROGRESS | AWAITING_USER | AWAITING_PLAN_APPROVAL | CLOSED
  datatype Mode = PLAN | ASK | AGENT | DEBUG

  /** What one agent run produced and what the critic would say about it, or that it raised. */
  datatype Turn = Turn(raises: bool, saysAwaitingUser: bool, enoughData: bool, shouldRerun: bool)

  /** The trace-critic settings, with every fallback already resolved. */
  datatype Policy = Policy(enabled: bool, everyNSteps: int, rerunMax: int, hitlOnExhausted: bool)

  datatype State = State(stepCount: nat, rerunCount: nat, status: RunStatus)

  predicate CriticPersona(persona: string) {
    persona == "conductor" || persona == "gaia_solver"
  }

  function Max(a: int, b: int): int {
    if a > b then a else b
  }

  /** The critic looks at a turn only every so many steps, and not when the agent has enough data. */
  predicate Sampled(p: Policy, persona: string, stepCount: nat, turn: Turn) {
    !turn.enoughData && p.enabled && CriticPersona(persona) && stepCount % Max(1, p.everyNSteps) == 0
  }

  datatype Ending = Waits | Continues | Raises

  /** How a conductor run ends: its counters, the number of agent runs, and whether it waits for the user. */
  datatype Outcome = Outcome(stepCount: nat, rerunCount: nat, runs: nat, ending: Ending)

  function EndingOf(awaitingUser: bool): Ending {
    if awaitingUser then Waits else Continues
  }

  /** The loop, from agent run number `i` on. */
  function Conduct(p: Policy, persona: string, turns: nat -> Turn, i: nat, stepCount: nat, rerunCount: nat): Outcome
    decreases p.rerunMax - rerunCount
  {
    var turn, steps := turns(i), stepCount + 1;
    if turn.raises then Outcome(stepCount, rerunCount, 1, Raises)
    else if Sampled(p, persona, steps, turn) && turn.shouldRerun then
      if rerunCount < p.rerunMax then
        var rest := Conduct(p, persona, turns, i + 1, steps, rerunCount + 1);
        rest.(runs := rest.runs + 1)
      else Outcome(steps, rerunCount, 1, EndingOf(turn.saysAwaitingUser || p.hitlOnExhausted))
    else Outcome(steps, rerunCount, 1, EndingOf(turn.saysAwaitingUser))
  }

  /** One step is counted for every agent run that returns. */
  function Uncounted(ending: Ending): nat {
    if ending.Raises? then 1 else 0
  }

  /** Every agent run but the first is paid for by one unit of the persisted counter, which stays within the limit. */
  lemma {:induction false} RunsAreAccounted(p: Policy, persona: string, turns: nat -> Turn, i: nat, stepCount: nat,
                                            rerunCount: nat)
    ensures var r := Conduct(p, persona, turns, i, stepCount, rerunCount);
            && r.runs == 1 + (r.rerunCount - rerunCount)
            && r.stepCount == stepCount + r.runs - Uncounted(r.ending)
            && rerunCount <= r.rerunCount <= Max(rerunCount, p.rerunMax)
            && r.runs <= 1 + Max(0, p.rerunMax - rerunCount)
    decreases p.rerunMax - rerunCount
  {
    var turn, steps := turns(i), stepCount + 1;
    if !turn.raises && Sampled(p, persona, steps, turn) && turn.shouldRerun && rerunCount < p.rerunMax {
      RunsAreAccounted(p, persona, turns, i + 1, steps, rerunCount + 1);
    }
  }

  lemma MulAtLeast(n: int, k: int)
    requires n > 0
    ensures k >= 1 ==> n * k >= n
    ensures k <= -1 ==> n * k <= -n
  {
  }

  /** Two consecutive step counts are not both multiples of an interval above one. */
  lemma ModStep(a: nat, n: int)
    requires n >= 2 && a % n == 0
    ensures (a + 1) % n != 0
  {
    var k := (a + 1) / n - a / n;
    assert a == n * (a / n);
    if (a + 1) % n == 0 {
      assert a + 1 == n * ((a + 1) / n);
      assert n * k == n * ((a + 1) / n) - n * (a / n) == 1;
      MulAtLeast(n, k);
    }
  }

  /** With a critic interval of at least two, one step never runs the agent more than twice. */
  lemma AtMostTwoRuns(p: Policy, persona: string, turns: nat -> Turn, i: nat, stepCount: nat, rerunCount: nat)
    requires p.everyNSteps >= 2
    ensures Conduct(p, persona, turns, i, stepCount, rerunCount).runs <= 2
  {
    var turn, steps := turns(i), stepCount + 1;
    if !turn.raises && Sampled(p, persona, steps, turn) && turn.shouldRerun && rerunCount < p.rerunMax {
      ModStep(steps, p.everyNSteps);
      assert !Sampled(p, persona, steps + 1, turns(i + 1));
    }
  }

  /** The last agent run of the step decides: the step raises exactly when that run does, and waits for the user exactly
      when it says so, or its sampled verdict asks for a rerun, the counter is used up and escalation is on. */
  lemma {:induction false} LastRunDecides(p: Policy, persona: string, turns: nat -> Turn, i: nat, stepCount: nat,
                                          rerunCount: nat)
    ensures var r := Conduct(p, persona, turns, i, stepCount, rerunCount);
            r.runs >= 1 &&
            var last := turns(i + r.runs - 1);
            var asksAgain := !last.enoughData && p.enabled && persona in {"conductor", "gaia_solver"}
                             && r.stepCount % (if p.everyNSteps > 1 then p.everyNSteps else 1) == 0 && last.shouldRerun;
            && (r.ending == Raises <==> last.raises)
            && (r.ending == Waits <==> !last.raises && (last.saysAwaitingUser || (asksAgain && p.hitlOnExhausted)))
            && (!last.raises && asksAgain ==> r.rerunCount >= p.rerunMax)
    decreases p.rerunMax - rerunCount
  {
    var turn, steps := turns(i), stepCount + 1;
    if !turn.raises && Sampled(p, persona, steps, turn) && turn.shouldRerun && rerunCount < p.rerunMax {
      LastRunDecides(p, persona, turns, i + 1, steps, rerunCount + 1);
    }
  }

  /** Every run before the last returned, was sampled and asked for a rerun. */
  lemma {:induction false} EarlierRunsAskedAgain(p: Policy, persona: string, turns: nat -> Turn, i: nat,
                                                 stepCount: nat, rerunCount: nat, k: nat)
    requires k + 1 < Conduct(p, persona, turns, i, stepCount, rerunCount).runs
    ensures var turn := turns(i + k);
            && !turn.raises && !turn.enoughData && turn.shouldRerun
            && p.enabled && persona in {"conductor", "gaia_solver"}
            && (stepCount + k + 1) % (if p.everyNSteps > 1 then p.everyNSteps else 1) == 0
    decreases k
  {
    if k > 0 {
      EarlierRunsAskedAgain(p, persona, turns, i + 1, stepCount + 1, rerunCount + 1, k - 1);
    }
  }

  // ---------------------------------------------------------------------------------------
  // Sequences of steps of one run

  /** One call of execute: which branch it takes, and the agent runs it would make. */
  datatype Request = Request(mode: Option<Mode>, stateful: bool, persona: string, turns: nat -> Turn)

  /** The state after a step and the agent runs it made. A step that raises keeps the counters it advanced in place. */
  function ExecuteStep(p: Policy, s: State, q: Request): (State, nat) {
    if q.mode == Some(PLAN) then (if q.turns(0).raises then s else s.(status := AWAITING_PLAN_APPROVAL), 1)
    else if q.stateful || CriticPersona(q.persona) then
      var r := Conduct(p, q.persona, q.turns, 0, s.stepCount, s.rerunCount);
      var status := match r.ending case Waits => AWAITING_USER case Continues => IN_PROGRESS case Raises => s.status;
      (State(r.stepCount, r.rerunCount, status), r.runs)
    else (if q.turns(0).raises then s else s.(status := IN_PROGRESS), 1)
  }

  function ExecuteAll(p: Policy, s: State, qs: seq<Request>): (State, nat) {
    if qs == [] then (s, 0)
    else
      var (t, runs) := ExecuteAll(p, s, qs[..|qs| - 1]);
      var (u, more) := ExecuteStep(p, t, qs[|qs| - 1]);
      (u, runs + more)
  }

  /** Over the whole life of a run: one agent run per step plus the reruns charged to the counter,
      which never passes the limit it started within. */
  lemma {:induction false} LifetimeAccounting(p: Policy, s: State, qs: seq<Request>)
    ensures var (t, runs) := ExecuteAll(p, s, qs);
            && runs == |qs| + (t.rerunCount - s.rerunCount)
            && s.rerunCount <= t.rerunCount <= Max(s.rerunCount, p.rerunMax)
            && runs <= |qs| + Max(0, p.rerunMax - s.rerunCount)
  {
    if qs != [] {
      var front, q := qs[..|qs| - 1], qs[|qs| - 1];
      LifetimeAccounting(p, s, front);
      var (t, _) := ExecuteAll(p, s, front);
      RunsAreAccounted(p, q.persona, q.turns, 0, t.stepCount, t.rerunCount);
    }
  }

  /** The use case, on the persisted run state. */
  class RunStepUseCase {
    const policy: Policy
    var stepCount: nat
    var traceRerunCount: nat
    var status: RunStatus
    /** How often the agent was run, over all steps. */
    ghost var agentRuns: nat

    constructor (policy: Policy)
      ensures this.policy == policy && stepCount == 0 && traceRerunCount == 0 && status == IN_PROGRESS && agentRuns == 0
    {
      this.policy := policy;
      stepCount, traceRerunCount, status, agentRuns := 0, 0, IN_PROGRESS, 0;
    }

    /** Tells how the last agent run ended. */
    method RunConductor(persona: string, turns: nat -> Turn, i: nat) returns (ending: Ending)
      modifies this
      ensures agentRuns > old(agentRuns) && status == old(status)
      ensures Outcome(stepCount, traceRerunCount, agentRuns - old(agentRuns), ending)
           == Conduct(policy, persona, turns, i, old(stepCount), old(traceRerunCount))
      decreases policy.rerunMax - traceRerunCount
    {
      var result := turns(i);
      agentRuns := agentRuns + 1;
      if result.raises { return Raises; }
      stepCount := stepCount + 1;
      ending := EndingOf(result.saysAwaitingUser);
      var due := CriticPersona(persona) && stepCount % Max(1, policy.everyNSteps) == 0;
      if !result.enoughData && policy.enabled && due {
        if result.shouldRerun {
          if traceRerunCount < policy.rerunMax {
            traceRerunCount := traceRerunCount + 1;
            ending := RunConductor(persona, turns, i + 1);
            return;
          }
          if policy.hitlOnExhausted {
            ending := Waits;
          }
        }
      }
    }

    method Execute(q: Request)
      modifies this
      ensures (State(stepCount, traceRerunCount, status), agentRuns - old(agentRuns))
           == ExecuteStep(policy, old(State(stepCount, traceRerunCount, status)), q)
      ensures var runs := agentRuns - old(agentRuns);
        runs >= 1 &&
        var last := q.turns(runs - 1);
        var returned := !last.raises;
        var conductor := q.mode != Some(PLAN) && (q.stateful || q.persona in {"conductor", "gaia_solver"});
        var asksAgain := !last.enoughData && policy.enabled && q.persona in {"conductor", "gaia_solver"}
                         && stepCount % (if policy.everyNSteps > 1 then policy.everyNSteps else 1) == 0
                         && last.shouldRerun;
        var waits := last.saysAwaitingUser || (asksAgain && policy.hitlOnExhausted);
        && (last.raises ==> status == old(status))
        && (returned && q.mode == Some(PLAN) ==> status == AWAITING_PLAN_APPROVAL)
        && (returned && conductor ==> status == if waits then AWAITING_USER else IN_PROGRESS)
        && (returned && q.mode != Some(PLAN) && !conductor ==> status == IN_PROGRESS)
        && (conductor ==> traceRerunCount == old(traceRerunCount) + runs - 1)
        && (conductor ==> stepCount == old(stepCount) + runs - (if last.raises then 1 else 0))
        && (!conductor ==> runs == 1 && traceRerunCount == old(traceRerunCount) && stepCount == old(stepCount))
    {
      if q.mode != Some(PLAN) && (q.stateful || CriticPersona(q.persona)) {
        LastRunDecides(policy, q.persona, q.turns, 0, stepCount, traceRerunCount);
        RunsAreAccounted(policy, q.persona, q.turns, 0, stepCount, traceRerunCount);
      }
      if q.mode == Some(PLAN) {
        agentRuns := agentRuns + 1;
        if q.turns(0).raises { return; }
        status := AWAITING_PLAN_APPROVAL;
      } else if q.stateful || CriticPersona(q.persona) {
        var ending := RunConductor(q.persona, q.turns, 0);
        if ending.Raises? { return; }
        status := if ending.Waits? then AWAITING_USER else IN_PROGRESS;
      } else {
        agentRuns := agentRuns + 1;
        if q.turns(0).raises { return; }
        status := IN_PROGRESS;
      }
    }
  }
}
