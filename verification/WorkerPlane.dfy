/**
 The worker: queue, stores, one job's execution with every exit path, and the orchestrator that
 gates, runs and re-enqueues jobs. Every fallible call is decided by an oracle. The orchestrator
 is proved to refine the scheduler protocol, whatever the oracle says.
 */
module WorkerPlane {
  import opened Common
  import opened WorkerModels
  import opened Scheduler
  import opened Drain
  import opened JobStores
  import opened JobBudget
  import opened HitlResume

  class InMemoryJobQueue {
    var queue: seq<WorkerJob>

    constructor ()
      ensures queue == []
    {
      queue := [];
    }

    method Enqueue(job: WorkerJob)
      modifies this
      ensures queue == old(queue) + [job]
    {
      queue := queue + [job];
    }

    method Dequeue() returns (job: Option<WorkerJob>)
      modifies this
      ensures if old(queue) == [] then job.None? && queue == []
              else job == Some(old(queue)[0]) && queue == old(queue)[1..]
    {
      if queue == [] { return None; }
      job := Some(queue[0]);
      queue := queue[1..];
    }
  }

  class LocalSandboxConnector {
    var active: map<string, string>

    constructor ()
      ensures active == map[]
    {
      active := map[];
    }

    method Create(runId: string, sandboxId: string)
      modifies this
      ensures active == old(active)[runId := sandboxId]
    {
      active := active[runId := sandboxId];
    }

    method Destroy(runId: string)
      modifies this
      ensures active == old(active) - {runId}
    {
      active := active - {runId};
    }
  }

  datatype InvestigationStatus = OPEN | IN_PROGRESS | CLOSED
  datatype Finding = Finding(persona: string, jobId: string, body: string)
  datatype InvestigationState = InvestigationState(
    status: InvestigationStatus, completedPersonas: seq<string>, findings: seq<Finding>)
  type Investigations = map<Key, InvestigationState>

  const NEW_INVESTIGATION := InvestigationState(IN_PROGRESS, [], [])

  function StateAt(states: Investigations, key: Key): InvestigationState {
    if key in states then states[key] else NEW_INVESTIGATION
  }

  function DoneAt(states: Investigations, key: Key): seq<string> {
    StateAt(states, key).completedPersonas
  }

  function FindingsAt(states: Investigations, key: Key): seq<Finding> {
    StateAt(states, key).findings
  }

  /** The completed personas per investigation, as the scheduler protocol keeps them. */
  function MarksOf(states: Investigations): Marks {
    map k | k in states && states[k].completedPersonas != [] :: states[k].completedPersonas
  }

  class InMemoryInvestigationStateStore {
    var states: Investigations

    constructor ()
      ensures states == map[]
    {
      states := map[];
    }

    /** Planners write back the state they read, so the marks the dependency gate reads are left alone. */
    method Upsert(key: Key, state: InvestigationState)
      modifies this
      ensures states == old(states)[key := state]
      ensures state.completedPersonas == StateAt(old(states), key).completedPersonas ==>
        MarksOf(states) == MarksOf(old(states))
    {
      states := states[key := state];
    }

    method MarkPersonaDone(key: Key, persona: string)
      modifies this
      ensures var state, done := StateAt(old(states), key), StateAt(old(states), key).completedPersonas;
              states == old(states)[key := state.(completedPersonas :=
                                           if persona in done then done else done + [persona])]
      ensures key !in old(states) ==> states[key] == InvestigationState(IN_PROGRESS, [persona], [])
    {
      var state := if key in states then states[key] else NEW_INVESTIGATION;
      if persona !in state.completedPersonas {
        state := state.(completedPersonas := state.completedPersonas + [persona]);
      }
      states := states[key := state];
    }

    method AppendFinding(key: Key, finding: Finding)
      modifies this
      ensures var state := StateAt(old(states), key);
              states == old(states)[key := InvestigationState(
                                         if state.status == OPEN then IN_PROGRESS else state.status,
                                         state.completedPersonas, state.findings + [finding])]
      ensures key !in old(states) ==> states[key] == InvestigationState(IN_PROGRESS, [], [finding])
    {
      var state := if key in states then states[key] else NEW_INVESTIGATION;
      state := state.(findings := state.findings + [finding]);
      if state.status == OPEN {
        state := state.(status := IN_PROGRESS);
      }
      states := states[key := state];
    }
  }

  // ---------------------------------------------------------------------------------------
  // What may go wrong

  /** A call that raises, before or after it took effect. */
  datatype Fault = Fault(exn: Exn, tookEffect: bool)

  /** The fallible calls of the try block, in order. Prepare stands for the calls between the
      running mark and the agent run, none of which changes a store. */
  datatype Site =
    | SandboxCreate | UpsertRunningCall | Prepare | AgentRun | SelfRefine | SchemaCheck | Publish
    | MemoryWrite | AppendFindingCall | MarkPersonaCall | MarkCompletedCall

  datatype Oracle = Oracle(
    profileId: string,
    hash: Hash,
    /** The calls of the agent run that register a pause. */
    riskyCalls: seq<RiskyCall>,
    faults: map<Site, Fault>,
    sandboxId: string,
    resultIsDict: bool,
    resultHasError: bool,
    resultBody: string,
    hasSchema: bool,
    devStage: bool,
    budgetAfterRun: JobBudgetState)

  /** The exception, if any, with which a call site is left. */
  function Raised(o: Oracle, site: Site): Option<Exn> {
    if site !in o.faults then None
    else if site.SchemaCheck? && (!o.hasSchema || !o.resultIsDict || o.resultHasError) then None
    else if site.SchemaCheck? && o.faults[site].exn == SecurityViolation && o.devStage then None
    else if site.MemoryWrite? && !o.resultIsDict then None
    else if site.AppendFindingCall? && (!o.resultIsDict || o.resultHasError) then None
    else Some(o.faults[site].exn)
  }

  const SITES := [SandboxCreate, UpsertRunningCall, Prepare, AgentRun, SelfRefine, SchemaCheck, Publish,
                  MemoryWrite, AppendFindingCall, MarkPersonaCall, MarkCompletedCall]

  /** The call is made and what it raises leaves the try block. */
  predicate Fails(o: Oracle, site: Site) {
    && site in o.faults
    && (site == SchemaCheck ==> o.hasSchema && o.resultIsDict && !o.resultHasError
                                && (o.devStage ==> o.faults[site].exn != SecurityViolation))
    && (site == MemoryWrite ==> o.resultIsDict)
    && (site == AppendFindingCall ==> o.resultIsDict && !o.resultHasError)
  }

  lemma RaisedIff(o: Oracle, site: Site)
    ensures Raised(o, site) == if Fails(o, site) then Some(o.faults[site].exn) else None
  {
  }

  /** None of the first `n` calls fails. */
  predicate Reaches(o: Oracle, n: nat)
    requires n <= |SITES|
  {
    forall i :: 0 <= i < n ==> !Fails(o, SITES[i])
  }

  lemma ReachesNext(o: Oracle, n: nat)
    requires n < |SITES| && Reaches(o, n) && !Fails(o, SITES[n])
    ensures Reaches(o, n + 1)
  {
  }

  /** Every call returns, and the result can be put into a run result. */
  predicate Smooth(o: Oracle) {
    o.resultIsDict && Reaches(o, |SITES|)
  }

  /** The exception with which a run that is not smooth leaves the try block: that of the first failing call. */
  predicate LeavesWith(o: Oracle, exn: Exn) {
    || (exists i :: 0 <= i < |SITES| && Reaches(o, i) && Fails(o, SITES[i]) && o.faults[SITES[i]].exn == exn)
    || (Reaches(o, |SITES|) && !o.resultIsDict && exn == OtherException)
  }

  /** The finding is filed: the append is reached, the result is an error-free dict, and the append takes effect. */
  predicate Files(o: Oracle) {
    && Reaches(o, 8) && o.resultIsDict && !o.resultHasError
    && (AppendFindingCall in o.faults ==> o.faults[AppendFindingCall].tookEffect)
  }

  /** The record of a persisted job carries the job's own ids. */
  ghost predicate OwnRecord(jobs: Table, job: WorkerJob) {
    job.jobId in jobs && job.tenantId != "" &&
    var r := jobs[job.jobId];
    r.jobId == job.jobId && r.persona == job.persona &&
    IdsOf(jobs, job.jobId) == Ids(job.correlationId, job.tenantId, job.eventId)
  }

  ghost predicate Has(jobs: Table, job: WorkerJob, status: WorkerJobStatus) {
    job.jobId in jobs ==> jobs[job.jobId].status == status
  }

  /** The pauses the risky calls of a run register, in the session of the run. */
  function PausesOf(calls: seq<RiskyCall>, hash: Hash, sessionId: string, persona: string): seq<StoreOp> {
    seq(|calls|, i requires 0 <= i < |calls| =>
      PauseOp(PauseBy(calls[i], hash, sessionId, persona)))
  }

  /** What an attempt may have done to the job store: at most touched the job's own record and
      the one its session names. */
  ghost predicate OwnRecordOnly(before: Table, after: Table, job: WorkerJob, sessionId: string) {
    && after - {job.jobId, PausedJob(sessionId)} == before - {job.jobId, PausedJob(sessionId)}
    && (job.jobId in before ==> job.jobId in after)
    && (OwnRecord(before, job) ==> OwnRecord(after, job))
  }

  /** Findings under other keys are untouched; those under `key` grew by `added`. */
  ghost predicate FindingsGrew(before: Investigations, after: Investigations, key: Key, added: seq<Finding>) {
    forall k :: FindingsAt(after, k) == FindingsAt(before, k) + if k == key then added else []
  }

  /** Marks under other keys are untouched; the persona is among those under `key`, once more only if it was not. */
  ghost predicate PersonaMarked(before: Investigations, after: Investigations, key: Key, persona: string) {
    forall k :: DoneAt(after, k) ==
      DoneAt(before, k) + if k == key && persona !in DoneAt(before, k) then [persona] else []
  }

  lemma MarksAt(states: Investigations, key: Key)
    ensures CompletedAt(MarksOf(states), key) == DoneAt(states, key)
  {
  }

  /** The mark of the scheduler protocol, written out. */
  lemma MarkWritten(before: Investigations, after: Investigations, job: WorkerJob)
    requires MarksOf(after) == Mark(MarksOf(before), job)
    ensures var own := if job.correlationId != "" then job.correlationId else job.eventId;
            PersonaMarked(before, after, (job.tenantId, own), job.persona)
  {
    forall k
      ensures CompletedAt(MarksOf(before), k) == DoneAt(before, k) && CompletedAt(MarksOf(after), k) == DoneAt(after, k)
    {
      MarksAt(before, k);
      MarksAt(after, k);
    }
  }

  lemma OnePauseOwnOnly(before: Table, jobs: Table, call: RiskyCall, hash: Hash, job: WorkerJob, sessionId: string)
    requires OwnRecordOnly(before, jobs, job, sessionId)
    ensures OwnRecordOnly(before, MemStep(jobs, PauseOp(PauseBy(call, hash, sessionId, job.persona))), job, sessionId)
  {
  }

  lemma {:induction false} PausesOwnOnly(jobs: Table, calls: seq<RiskyCall>, hash: Hash, job: WorkerJob,
                                         sessionId: string)
    ensures OwnRecordOnly(jobs, MemRun(jobs, PausesOf(calls, hash, sessionId, job.persona)), job, sessionId)
  {
    if calls != [] {
      var front, last := calls[..|calls| - 1], calls[|calls| - 1];
      PausesOwnOnly(jobs, front, hash, job, sessionId);
      var ops := PausesOf(calls, hash, sessionId, job.persona);
      assert ops[..|ops| - 1] == PausesOf(front, hash, sessionId, job.persona);
      OnePauseOwnOnly(jobs, MemRun(jobs, ops[..|ops| - 1]), last, hash, job, sessionId);
    }
  }

  /** Marking a persona that is already marked changes nothing: it is recorded once. */
  lemma MarkAgain(marks: Marks, job: WorkerJob)
    ensures Mark(Mark(marks, job), job) == Mark(marks, job)
  {
  }

  // ---------------------------------------------------------------------------------------
  // One job

  class RunWorkerJob {
    const sandbox: LocalSandboxConnector
    const jobStore: InMemoryJobStore
    const investigations: InMemoryInvestigationStateStore
    const budgets: JobBudgetTracker
    var agentFailures: seq<string>
    var sanitizerBlocks: nat
    /** The session's budget when the last agent run began. */
    ghost var startedWith: Option<JobBudgetState>

    constructor (sandbox: LocalSandboxConnector, jobStore: InMemoryJobStore,
                 investigations: InMemoryInvestigationStateStore, budgets: JobBudgetTracker)
      ensures this.sandbox == sandbox && this.jobStore == jobStore
      ensures this.investigations == investigations && this.budgets == budgets
      ensures agentFailures == [] && sanitizerBlocks == 0
    {
      this.sandbox, this.jobStore, this.investigations, this.budgets := sandbox, jobStore, investigations, budgets;
      agentFailures, sanitizerBlocks, startedWith := [], 0, None;
    }

    function Session(job: WorkerJob): string {
      WorkerSession(job.persona, job.jobId)
    }

    method MarkPersonaTerminal(job: WorkerJob)
      modifies investigations
      ensures MarksOf(investigations.states) == Mark(MarksOf(old(investigations.states)), job)
      ensures forall k :: FindingsAt(investigations.states, k) == FindingsAt(old(investigations.states), k)
    {
      var investigationId := if job.correlationId != "" then job.correlationId else job.eventId;
      investigations.MarkPersonaDone((job.tenantId, investigationId), job.persona);
    }

    // Each of these is one fallible call of the try block.

    method CreateSandbox(job: WorkerJob, o: Oracle) returns (raised: Option<Exn>)
      modifies sandbox
      ensures raised == Raised(o, SandboxCreate)
      ensures sandbox.active - {job.jobId} == old(sandbox.active) - {job.jobId}
    {
      raised := Raised(o, SandboxCreate);
      if raised.None? || o.faults[SandboxCreate].tookEffect {
        sandbox.Create(job.jobId, o.sandboxId);
      }
    }

    method UpsertRunning(job: WorkerJob, sessionId: string, o: Oracle) returns (raised: Option<Exn>)
      modifies jobStore
      ensures raised == Raised(o, UpsertRunningCall)
      ensures OwnRecordOnly(old(jobStore.jobs), jobStore.jobs, job, sessionId)
      ensures raised.None? ==> job.jobId in jobStore.jobs && jobStore.jobs[job.jobId].sessionId == sessionId
    {
      raised := Raised(o, UpsertRunningCall);
      if raised.None? || o.faults[UpsertRunningCall].tookEffect {
        jobStore.UpsertRunning(job.jobId, sessionId, job.persona, Ids(job.correlationId, job.tenantId, job.eventId));
      }
    }

    method RegisterPauses(calls: seq<RiskyCall>, hash: Hash, sessionId: string, persona: string)
      modifies jobStore
      ensures jobStore.jobs == MemRun(old(jobStore.jobs), PausesOf(calls, hash, sessionId, persona))
    {
      ghost var ops := PausesOf(calls, hash, sessionId, persona);
      for i := 0 to |calls|
        invariant jobStore.jobs == MemRun(old(jobStore.jobs), ops[..i])
      {
        var _ := RegisterHitlPause(jobStore, PauseBy(calls[i], hash, sessionId, persona).preview);
        assert ops[..i + 1][..i] == ops[..i];
      }
      assert ops[..|calls|] == ops;
    }

    /** The agent may use its own session's budget in any way, and its risky calls register pauses. */
    method RunAgent(job: WorkerJob, sessionId: string, o: Oracle) returns (raised: Option<Exn>)
      modifies this`startedWith, jobStore, budgets`states
      ensures raised == Raised(o, AgentRun)
      ensures startedWith == if sessionId in old(budgets.states) then Some(old(budgets.states)[sessionId]) else None
      ensures budgets.states - {sessionId} == old(budgets.states) - {sessionId}
      ensures jobStore.jobs == MemRun(old(jobStore.jobs), PausesOf(o.riskyCalls, o.hash, sessionId, job.persona))
      ensures OwnRecordOnly(old(jobStore.jobs), jobStore.jobs, job, sessionId)
    {
      raised := Raised(o, AgentRun);
      startedWith := if sessionId in budgets.states then Some(budgets.states[sessionId]) else None;
      budgets.states := budgets.states[sessionId := o.budgetAfterRun];
      PausesOwnOnly(jobStore.jobs, o.riskyCalls, o.hash, job, sessionId);
      RegisterPauses(o.riskyCalls, o.hash, sessionId, job.persona);
    }

    method AppendFinding(job: WorkerJob, o: Oracle) returns (raised: Option<Exn>)
      modifies investigations
      ensures raised == Raised(o, AppendFindingCall)
      ensures MarksOf(investigations.states) == MarksOf(old(investigations.states))
      ensures var files := o.resultIsDict && !o.resultHasError
                           && (AppendFindingCall in o.faults ==> o.faults[AppendFindingCall].tookEffect);
              FindingsGrew(old(investigations.states), investigations.states, MemoryKeyOf(job),
                           if files then [Finding(job.persona, job.jobId, o.resultBody)] else [])
    {
      raised := Raised(o, AppendFindingCall);
      if o.resultIsDict && !o.resultHasError && (raised.None? || o.faults[AppendFindingCall].tookEffect) {
        investigations.AppendFinding(MemoryKeyOf(job), Finding(job.persona, job.jobId, o.resultBody));
      }
    }

    method MarkPersona(job: WorkerJob, o: Oracle) returns (raised: Option<Exn>)
      modifies investigations
      ensures raised == Raised(o, MarkPersonaCall)
      ensures var before, after := MarksOf(old(investigations.states)), MarksOf(investigations.states);
              after == Mark(before, job) || (raised.Some? && after == before)
      ensures forall k :: FindingsAt(investigations.states, k) == FindingsAt(old(investigations.states), k)
    {
      raised := Raised(o, MarkPersonaCall);
      if raised.None? || o.faults[MarkPersonaCall].tookEffect {
        MarkPersonaTerminal(job);
      }
    }

    method MarkCompleted(job: WorkerJob, sessionId: string, o: Oracle) returns (raised: Option<Exn>)
      modifies jobStore
      ensures raised == Raised(o, MarkCompletedCall)
      ensures OwnRecordOnly(old(jobStore.jobs), jobStore.jobs, job, sessionId)
      ensures raised.None? ==> Has(jobStore.jobs, job, COMPLETED)
    {
      raised := Raised(o, MarkCompletedCall);
      if raised.None? || o.faults[MarkCompletedCall].tookEffect {
        jobStore.MarkCompleted(job.jobId);
      }
    }

    /** The calls up to and including the agent run; `at` is the position of the one that failed. */
    method Start(job: WorkerJob, sessionId: string, o: Oracle) returns (raised: Option<Exn>, ghost at: nat)
      modifies this`startedWith, sandbox, jobStore, budgets`states
      ensures at <= 4 && Reaches(o, at) && (raised.None? <==> at == 4)
      ensures raised.Some? ==> Fails(o, SITES[at]) && raised.value == o.faults[SITES[at]].exn
      ensures sandbox.active - {job.jobId} == old(sandbox.active) - {job.jobId}
      ensures budgets.states - {sessionId} == old(budgets.states) - {sessionId}
      ensures OwnRecordOnly(old(jobStore.jobs), jobStore.jobs, job, sessionId)
      ensures raised.None? ==> job.jobId in jobStore.jobs
      ensures at >= 3 && sessionId in old(budgets.states) ==> startedWith == Some(old(budgets.states)[sessionId])
    {
      at := 0;
      RaisedIff(o, SandboxCreate);
      raised := CreateSandbox(job, o);
      if raised.Some? { return; }
      ReachesNext(o, 0);
      at := 1;
      RaisedIff(o, UpsertRunningCall);
      raised := UpsertRunning(job, sessionId, o);
      if raised.Some? { return; }
      ReachesNext(o, 1);
      at := 2;
      RaisedIff(o, Prepare);
      raised := Raised(o, Prepare);
      if raised.Some? { return; }
      ReachesNext(o, 2);
      at := 3;
      RaisedIff(o, AgentRun);
      raised := RunAgent(job, sessionId, o);
      if raised.Some? { return; }
      ReachesNext(o, 3);
      at := 4;
    }

    /** The calls after the agent run. */
    method Conclude(job: WorkerJob, sessionId: string, o: Oracle) returns (raised: Option<Exn>, ghost at: nat)
      requires Reaches(o, 4) && job.jobId in jobStore.jobs
      modifies jobStore, investigations
      ensures 4 <= at <= |SITES| && Reaches(o, at)
      ensures raised.None? <==> at == |SITES| && o.resultIsDict
      ensures raised.Some? && at < |SITES| ==> Fails(o, SITES[at]) && raised.value == o.faults[SITES[at]].exn
      ensures raised.Some? && at == |SITES| ==> raised.value == OtherException
      ensures OwnRecordOnly(old(jobStore.jobs), jobStore.jobs, job, sessionId)
      ensures raised.None? ==> job.jobId in jobStore.jobs && Has(jobStore.jobs, job, COMPLETED)
      ensures var before, after := MarksOf(old(investigations.states)), MarksOf(investigations.states);
              after == Mark(before, job) || (raised.Some? && after == before)
      ensures FindingsGrew(old(investigations.states), investigations.states, MemoryKeyOf(job),
                           if Files(o) then [Finding(job.persona, job.jobId, o.resultBody)] else [])
    {
      RaisedIff(o, SelfRefine);
      RaisedIff(o, SchemaCheck);
      RaisedIff(o, Publish);
      RaisedIff(o, MemoryWrite);
      RaisedIff(o, AppendFindingCall);
      RaisedIff(o, MarkPersonaCall);
      RaisedIff(o, MarkCompletedCall);
      at := 4;
      raised := Raised(o, SelfRefine);
      if raised.Some? { assert !Files(o) by { assert Fails(o, SITES[4]); } return; }
      at := 5;
      raised := Raised(o, SchemaCheck);
      if raised.Some? { assert !Files(o) by { assert Fails(o, SITES[5]); } return; }
      at := 6;
      raised := Raised(o, Publish);
      if raised.Some? { assert !Files(o) by { assert Fails(o, SITES[6]); } return; }
      at := 7;
      raised := Raised(o, MemoryWrite);
      if raised.Some? { assert !Files(o) by { assert Fails(o, SITES[7]); } return; }
      at := 8;
      raised := AppendFinding(job, o);
      if raised.Some? { return; }
      at := 9;
      raised := MarkPersona(job, o);
      if raised.Some? { return; }
      at := 10;
      raised := MarkCompleted(job, sessionId, o);
      if raised.Some? { return; }
      at := 11;
      if !o.resultIsDict {
        raised := Some(OtherException);
      }
    }

    /** The try block: the calls in order, left at the first exception. */
    method Attempt(job: WorkerJob, sessionId: string, o: Oracle) returns (raised: Option<Exn>)
      modifies this`startedWith, sandbox, jobStore, investigations, budgets`states
      ensures raised.None? <==> Smooth(o)
      ensures raised.Some? ==> LeavesWith(o, raised.value)
      ensures sandbox.active - {job.jobId} == old(sandbox.active) - {job.jobId}
      ensures budgets.states - {sessionId} == old(budgets.states) - {sessionId}
      ensures Reaches(o, 3) && sessionId in old(budgets.states) ==> startedWith == Some(old(budgets.states)[sessionId])
      ensures OwnRecordOnly(old(jobStore.jobs), jobStore.jobs, job, sessionId)
      ensures raised.None? ==> job.jobId in jobStore.jobs && Has(jobStore.jobs, job, COMPLETED)
      ensures var before, after := MarksOf(old(investigations.states)), MarksOf(investigations.states);
              after == Mark(before, job) || (raised.Some? && after == before)
      ensures FindingsGrew(old(investigations.states), investigations.states, MemoryKeyOf(job),
                           if Files(o) then [Finding(job.persona, job.jobId, o.resultBody)] else [])
    {
      ghost var at;
      raised, at := Start(job, sessionId, o);
      if raised.Some? { return; }
      raised, at := Conclude(job, sessionId, o);
    }

    /** The three handlers: each fails the record and marks the persona; they differ in what they report. */
    method Handle(job: WorkerJob, sessionId: string, exn: Exn) returns (r: RunResult)
      modifies this`agentFailures, this`sanitizerBlocks, jobStore, investigations
      ensures r == RunResult(job.jobId, job.persona, false, RaisedError(exn))
      ensures OwnRecordOnly(old(jobStore.jobs), jobStore.jobs, job, sessionId) && Has(jobStore.jobs, job, FAILED)
      ensures MarksOf(investigations.states) == Mark(MarksOf(old(investigations.states)), job)
      ensures forall k :: FindingsAt(investigations.states, k) == FindingsAt(old(investigations.states), k)
      ensures agentFailures == old(agentFailures) + if exn == OtherException then [job.persona] else []
      ensures sanitizerBlocks == old(sanitizerBlocks) + if exn == SecurityViolation then 1 else 0
    {
      match exn {
        case BudgetExceeded =>
        case SecurityViolation => sanitizerBlocks := sanitizerBlocks + 1;
        case OtherException => agentFailures := agentFailures + [job.persona];
      }
      jobStore.MarkFailed(job.jobId);
      MarkPersonaTerminal(job);
      r := RunResult(job.jobId, job.persona, false, RaisedError(exn));
    }

    /**
     One run. Whatever is raised, the sandbox of the run is gone, the persona is marked exactly as the
     scheduler protocol says, and a persisted record is COMPLETED or FAILED as the result reports. So a
     pause that the run registered for its own job is no longer open.
     */
    method Execute(job: WorkerJob, sessionId: string, o: Oracle) returns (r: RunResult)
      modifies this, sandbox, jobStore, investigations, budgets`states
      ensures r.jobId == job.jobId && r.persona == job.persona
      ensures r.success <==> Smooth(o)
      ensures r.success <==> r.error == NoError
      ensures !r.success ==> r.error.RaisedError? && LeavesWith(o, r.error.exn)
      ensures sandbox.active == old(sandbox.active) - {job.jobId}
      ensures budgets.states - {sessionId} == old(budgets.states) - {sessionId}
      ensures Reaches(o, 3) && sessionId in old(budgets.states) ==> startedWith == Some(old(budgets.states)[sessionId])
      ensures OwnRecordOnly(old(jobStore.jobs), jobStore.jobs, job, sessionId)
      ensures Has(jobStore.jobs, job, if r.success then COMPLETED else FAILED)
      ensures Awaiting(jobStore.jobs, job.jobId) == 0
      ensures MarksOf(investigations.states) == Mark(MarksOf(old(investigations.states)), job)
      ensures var own := if job.correlationId != "" then job.correlationId else job.eventId;
        var parent := job.payload.parentCorrelationKey;
        && PersonaMarked(old(investigations.states), investigations.states, (job.tenantId, own), job.persona)
        && FindingsGrew(old(investigations.states), investigations.states,
                        (job.tenantId, if parent != "" then parent else own),
                        if Files(o) then [Finding(job.persona, job.jobId, o.resultBody)] else [])
      ensures agentFailures == old(agentFailures) + if r.error == RaisedError(OtherException) then [job.persona] else []
      ensures sanitizerBlocks == old(sanitizerBlocks) + if r.error == RaisedError(SecurityViolation) then 1 else 0
    {
      var raised := Attempt(job, sessionId, o);
      if raised.None? {
        r := RunResult(job.jobId, job.persona, true, NoError);
      } else {
        MarkAgain(MarksOf(old(investigations.states)), job);
        r := Handle(job, sessionId, raised.value);
      }
      MarkWritten(old(investigations.states), investigations.states, job);
      sandbox.Destroy(job.jobId);
    }
  }

  // ---------------------------------------------------------------------------------------
  // The orchestrator

  /** The pending records of a batch, written one by one. */
  function Persisted(jobs: Table, batch: seq<WorkerJob>): Table {
    if batch == [] then jobs
    else
      var last := batch[|batch| - 1];
      MemStep(Persisted(jobs, batch[..|batch| - 1]),
              UpsertPending(last.jobId, last.persona, Ids(last.correlationId, last.tenantId, last.eventId)))
  }

  predicate DistinctIds(batch: seq<WorkerJob>) {
    forall i, k :: 0 <= i < k < |batch| ==> batch[i].jobId != batch[k].jobId
  }

  /** Records of other jobs are neither changed nor removed. */
  lemma {:induction false} PersistedOthers(jobs: Table, batch: seq<WorkerJob>, id: string)
    requires forall i :: 0 <= i < |batch| ==> batch[i].jobId != id
    ensures (id in Persisted(jobs, batch) <==> id in jobs) && (id in jobs ==> Persisted(jobs, batch)[id] == jobs[id])
  {
    if batch != [] { PersistedOthers(jobs, batch[..|batch| - 1], id); }
  }

  /** With distinct ids, every job of the batch is on record as pending under its own ids. */
  lemma {:induction false} PersistedAll(jobs: Table, batch: seq<WorkerJob>, i: nat)
    requires DistinctIds(batch) && i < |batch| && batch[i].tenantId != ""
    ensures OwnRecord(Persisted(jobs, batch), batch[i]) && Has(Persisted(jobs, batch), batch[i], PENDING)
  {
    var n := |batch| - 1;
    if i < n {
      PersistedAll(jobs, batch[..n], i);
      assert batch[..n][i] == batch[i] && batch[n].jobId != batch[i].jobId;
    }
  }

  /** The record of a job of the request: pending, under the ids of the request. */
  ghost predicate PendingFor(record: JobRecord, request: Request, persona: string) {
    && record.status == PENDING && record.persona == persona && record.eventId == request.eventId
    && record.correlationId == (if request.correlationId != "" then request.correlationId else request.eventId)
    && record.tenantId == request.tenantId
  }

  /** With unique suffixes every job of a routing decision is on record as pending. */
  lemma BatchOnRecord(jobs: Table, request: Request, personas: seq<string>, suffixes: seq<string>, i: nat)
    requires |suffixes| == |personas| && UniqueSuffixes(suffixes) && request.tenantId != "" && i < |personas|
    ensures var batch := JobsFor(request, personas, suffixes);
            var after := Persisted(jobs, batch);
            batch[i].jobId in after && PendingFor(after[batch[i].jobId], request, personas[i])
  {
    UniqueJobIds(request, personas, suffixes);
    JobsCarryRequest(request, personas, suffixes, i);
    PersistedAll(jobs, JobsFor(request, personas, suffixes), i);
  }

  /** Under which key a job files its finding. */
  function FiledUnder(job: WorkerJob): Key {
    var own := if job.correlationId != "" then job.correlationId else job.eventId;
    (job.tenantId, if job.payload.parentCorrelationKey != "" then job.payload.parentCorrelationKey else own)
  }

  /** Who filed what, without the bodies. */
  function Filings(findings: seq<Finding>): (r: seq<(string, string)>)
    ensures |r| == |findings| && forall i :: 0 <= i < |r| ==> r[i] == (findings[i].persona, findings[i].jobId)
  {
    seq(|findings|, i requires 0 <= i < |findings| => (findings[i].persona, findings[i].jobId))
  }

  /** The jobs that file under the key, in order. */
  function FilersOf(jobs: seq<WorkerJob>, key: Key): seq<(string, string)> {
    if jobs == [] then []
    else
      var last := jobs[|jobs| - 1];
      FilersOf(jobs[..|jobs| - 1], key) + if FiledUnder(last) == key then [(last.persona, last.jobId)] else []
  }

  lemma FilersLast(jobs: seq<WorkerJob>, job: WorkerJob, key: Key)
    ensures FilersOf(jobs + [job], key) ==
      FilersOf(jobs, key) + if FiledUnder(job) == key then [(job.persona, job.jobId)] else []
  {
    assert (jobs + [job])[..|jobs|] == jobs;
  }

  lemma FilingsAppend(a: seq<Finding>, b: seq<Finding>)
    ensures Filings(a + b) == Filings(a) + Filings(b)
  {
  }

  /** What the jobs that ended since `from` have filed, when none of their runs went wrong. */
  ghost predicate AllFiled(before: Investigations, after: Investigations, ended: seq<WorkerJob>, from: nat)
    requires from <= |ended|
  {
    forall k :: Filings(FindingsAt(after, k)) == Filings(FindingsAt(before, k)) + FilersOf(ended[from..], k)
  }

  lemma OneMoreAt(before: seq<Finding>, middle: seq<Finding>, jobs: seq<WorkerJob>, job: WorkerJob, body: string,
                  key: Key)
    requires Filings(middle) == Filings(before) + FilersOf(jobs, key)
    ensures Filings(middle + if key == FiledUnder(job) then [Finding(job.persona, job.jobId, body)] else [])
         == Filings(before) + FilersOf(jobs + [job], key)
  {
    FilersLast(jobs, job, key);
    var added := if key == FiledUnder(job) then [Finding(job.persona, job.jobId, body)] else [];
    FilingsAppend(middle, added);
    assert Filings(added) == if key == FiledUnder(job) then [(job.persona, job.jobId)] else [];
  }

  lemma OneMoreFiled(before: Investigations, middle: Investigations, after: Investigations, ended: seq<WorkerJob>,
                     from: nat, job: WorkerJob, body: string)
    requires from <= |ended| && AllFiled(before, middle, ended, from)
    requires FindingsGrew(middle, after, FiledUnder(job), [Finding(job.persona, job.jobId, body)])
    ensures AllFiled(before, after, ended + [job], from)
  {
    assert (ended + [job])[from..] == ended[from..] + [job];
    forall k
      ensures Filings(FindingsAt(after, k)) == Filings(FindingsAt(before, k)) + FilersOf((ended + [job])[from..], k)
    {
      OneMoreAt(FindingsAt(before, k), FindingsAt(middle, k), ended[from..], job, body, k);
    }
  }

  function NamesOf(jobs: seq<WorkerJob>): (r: seq<(string, string)>)
    ensures |r| == |jobs| && forall i :: 0 <= i < |r| ==> r[i] == (jobs[i].persona, jobs[i].jobId)
  {
    seq(|jobs|, i requires 0 <= i < |jobs| => (jobs[i].persona, jobs[i].jobId))
  }

  lemma NamesLast(jobs: seq<WorkerJob>, job: WorkerJob)
    ensures NamesOf(jobs + [job]) == NamesOf(jobs) + [(job.persona, job.jobId)]
  {
  }

  lemma {:induction false} SameFilers(jobs: seq<WorkerJob>, key: Key, k: Key)
    requires forall i :: 0 <= i < |jobs| ==> FiledUnder(jobs[i]) == key
    ensures FilersOf(jobs, k) == if k == key then NamesOf(jobs) else []
  {
    if jobs != [] {
      var front, last := jobs[..|jobs| - 1], jobs[|jobs| - 1];
      assert jobs == front + [last];
      SameFilers(front, key, k);
      NamesLast(front, last);
      FilersLast(front, last, k);
    }
  }

  /** The jobs of a batch, in whatever order, all file under the key of the request, or under its parent key. */
  lemma BatchFilers(request: Request, personas: seq<string>, suffixes: seq<string>, jobs: seq<WorkerJob>, key: Key)
    requires |suffixes| == |personas| && multiset(jobs) == multiset(JobsFor(request, personas, suffixes))
    ensures var parent := request.payload.parentCorrelationKey;
            var own := if request.correlationId != "" then request.correlationId else request.eventId;
            FilersOf(jobs, key) ==
              if key == (request.tenantId, if parent != "" then parent else own) then NamesOf(jobs) else []
  {
    var parent := request.payload.parentCorrelationKey;
    var own := if request.correlationId != "" then request.correlationId else request.eventId;
    var batch := JobsFor(request, personas, suffixes);
    forall i | 0 <= i < |jobs| ensures FiledUnder(jobs[i]) == (request.tenantId, if parent != "" then parent else own) {
      assert jobs[i] in multiset(jobs) && jobs[i] in batch;
      var k :| 0 <= k < |batch| && batch[k] == jobs[i];
      JobsCarryRequest(request, personas, suffixes, k);
    }
    SameFilers(jobs, (request.tenantId, if parent != "" then parent else own), key);
  }

  /** When exactly the jobs of a batch have ended and none of their runs went wrong, each has filed one finding, all
      in the investigation of the request, and no other investigation has got any. */
  lemma BatchFiled(before: Investigations, after: Investigations, ended: seq<WorkerJob>, from: nat,
                   request: Request, personas: seq<string>, suffixes: seq<string>, key: Key)
    requires |suffixes| == |personas| && from <= |ended| && AllFiled(before, after, ended, from)
    requires multiset(ended[from..]) == multiset(JobsFor(request, personas, suffixes))
    ensures |ended[from..]| == |personas|
    ensures var parent := request.payload.parentCorrelationKey;
            var own := if request.correlationId != "" then request.correlationId else request.eventId;
            Filings(FindingsAt(after, key)) == Filings(FindingsAt(before, key)) +
              if key == (request.tenantId, if parent != "" then parent else own) then NamesOf(ended[from..]) else []
  {
    assert |multiset(ended[from..])| == |multiset(JobsFor(request, personas, suffixes))|;
    BatchFilers(request, personas, suffixes, ended[from..], key);
  }

  class WorkerOrchestrator {
    const queue: InMemoryJobQueue
    const investigations: InMemoryInvestigationStateStore
    const jobStore: InMemoryJobStore
    const sandbox: LocalSandboxConnector
    const budgets: JobBudgetTracker
    const runner: RunWorkerJob
    /** The jobs executed so far, in the order in which they ended. */
    ghost var ended: seq<WorkerJob>

    ghost predicate Valid() {
      runner.sandbox == sandbox && runner.jobStore == jobStore &&
      runner.investigations == investigations && runner.budgets == budgets
    }

    /** The state of the scheduler protocol this orchestrator is in; it holds no job between calls. */
    ghost function Abs(): Sched
      reads this, queue, investigations
    {
      Sched(queue.queue, [], MarksOf(investigations.states), ended)
    }

    constructor ()
      ensures Valid() && Abs() == INIT && fresh(queue) && fresh(investigations) && fresh(jobStore)
      ensures jobStore.jobs == map[] && fresh(sandbox) && fresh(budgets) && fresh(runner)
    {
      var q := new InMemoryJobQueue();
      var inv := new InMemoryInvestigationStateStore();
      var store := new InMemoryJobStore();
      var sb := new LocalSandboxConnector();
      var b := new JobBudgetTracker();
      var run := new RunWorkerJob(sb, store, inv, b);
      queue, investigations, jobStore, sandbox, budgets, runner := q, inv, store, sb, b, run;
      ended := [];
    }

    /** A job that may run: its budget is set up, it is executed, its budget entry is cleared. */
    method RunReady(job: WorkerJob, defaults: JobBudgetState, o: Oracle) returns (r: RunResult)
      requires Valid()
      modifies this`ended, runner, sandbox, jobStore, investigations, budgets
      ensures r.success <==> Smooth(o)
      ensures Reaches(o, 3) ==> runner.startedWith == Some(JobBudgetState(
        if job.maxTokens == 0 then defaults.maxTokens else job.maxTokens,
        if job.maxCostUsd == 0.0 then defaults.maxCostUsd else job.maxCostUsd,
        if job.maxToolCalls == 0 then defaults.maxToolCalls else job.maxToolCalls, 0, 0.0, 0))
      ensures MarksOf(investigations.states) == Mark(MarksOf(old(investigations.states)), job)
      ensures ended == old(ended) + [job]
      ensures sandbox.active == old(sandbox.active) - {job.jobId}
      ensures budgets.states == old(budgets.states) - {"worker:" + job.persona + ":" + job.jobId}
      ensures budgets.profileIds == old(budgets.profileIds) - {"worker:" + job.persona + ":" + job.jobId}
      ensures OwnRecordOnly(old(jobStore.jobs), jobStore.jobs, job, "worker:" + job.persona + ":" + job.jobId)
      ensures Has(jobStore.jobs, job, if r.success then COMPLETED else FAILED)
      ensures var own := if job.correlationId != "" then job.correlationId else job.eventId;
        var parent := job.payload.parentCorrelationKey;
        && PersonaMarked(old(investigations.states), investigations.states, (job.tenantId, own), job.persona)
        && FindingsGrew(old(investigations.states), investigations.states,
                        (job.tenantId, if parent != "" then parent else own),
                        if Files(o) then [Finding(job.persona, job.jobId, o.resultBody)] else [])
    {
      ghost var states, profiles := budgets.states, budgets.profileIds;
      var sessionId := runner.Session(job);
      budgets.Configure(sessionId,
        if job.maxTokens != 0 then job.maxTokens else defaults.maxTokens,
        if job.maxCostUsd != 0.0 then job.maxCostUsd else defaults.maxCostUsd,
        if job.maxToolCalls != 0 then job.maxToolCalls else defaults.maxToolCalls,
        o.profileId);
      assert budgets.states - {sessionId} == states - {sessionId};
      assert budgets.profileIds - {sessionId} == profiles - {sessionId};
      r := runner.Execute(job, sessionId, o);
      budgets.Clear(sessionId);
      ended := ended + [job];
    }

    /** `defaults` is the persona's budget, used for limits the job leaves at zero. */
    method RunJob(job: WorkerJob, defaults: JobBudgetState, o: Oracle) returns (r: RunResult)
      requires Valid()
      modifies this, queue, runner, sandbox, jobStore, investigations, budgets
      ensures !Ready(old(Abs()).completed, job) ==>
        && r == RunResult(job.jobId, job.persona, false, DependencyNotReady(job.dependsOnPersona))
        && Abs() == old(Abs()).(queue := old(Abs()).queue + [job])
        && jobStore.jobs == old(jobStore.jobs) && sandbox.active == old(sandbox.active)
        && budgets.states == old(budgets.states) && budgets.profileIds == old(budgets.profileIds)
        && investigations.states == old(investigations.states)
      ensures Ready(old(Abs()).completed, job) ==>
        && Abs() == Sched(old(Abs()).queue, [], Mark(old(Abs()).completed, job), old(Abs()).ended + [job])
        && (r.success <==> Smooth(o))
        && sandbox.active == old(sandbox.active) - {job.jobId}
        && budgets.states == old(budgets.states) - {"worker:" + job.persona + ":" + job.jobId}
        && budgets.profileIds == old(budgets.profileIds) - {"worker:" + job.persona + ":" + job.jobId}
        && OwnRecordOnly(old(jobStore.jobs), jobStore.jobs, job, "worker:" + job.persona + ":" + job.jobId)
        && Has(jobStore.jobs, job, if r.success then COMPLETED else FAILED)
      ensures var own := if job.correlationId != "" then job.correlationId else job.eventId;
        var parent := job.payload.parentCorrelationKey;
        var waits := job.dependsOnPersona != "" &&
                     job.dependsOnPersona !in DoneAt(old(investigations.states), (job.tenantId, own));
        && (waits ==> r.error == DependencyNotReady(job.dependsOnPersona) && ended == old(ended)
                      && investigations.states == old(investigations.states))
        && (!waits ==> ended == old(ended) + [job])
        && (!waits ==>
              PersonaMarked(old(investigations.states), investigations.states, (job.tenantId, own), job.persona))
        && (!waits ==> FindingsGrew(old(investigations.states), investigations.states,
                                    (job.tenantId, if parent != "" then parent else own),
                                    if Files(o) then [Finding(job.persona, job.jobId, o.resultBody)] else []))
    {
      MarksAt(investigations.states, KeyOf(job));
      if job.dependsOnPersona != "" {
        var investigationId := if job.correlationId != "" then job.correlationId else job.eventId;
        var key := (job.tenantId, investigationId);
        var completed := if key in investigations.states then investigations.states[key].completedPersonas else [];
        if job.dependsOnPersona !in completed {
          queue.Enqueue(job);
          return RunResult(job.jobId, job.persona, false, DependencyNotReady(job.dependsOnPersona));
        }
      }
      r := RunReady(job, defaults, o);
    }

    /** Refinement: whatever the run does, one call is one step of the protocol's single worker. */
    method ProcessNext(defaults: JobBudgetState, o: Oracle) returns (r: Option<RunResult>)
      requires Valid()
      modifies this, queue, runner, sandbox, jobStore, investigations, budgets
      ensures Abs() == Scheduler.ProcessNext(old(Abs()))
      ensures r.None? <==> old(queue.queue) == []
      ensures ended == old(ended) ==> investigations.states == old(investigations.states)
      ensures ended != old(ended) ==>
        && old(queue.queue) != [] && ended == old(ended) + [old(queue.queue)[0]]
        && var job := old(queue.queue)[0];
           FindingsGrew(old(investigations.states), investigations.states, FiledUnder(job),
                        if Files(o) then [Finding(job.persona, job.jobId, o.resultBody)] else [])
    {
      var raw := queue.Dequeue();
      if raw.None? { return None; }
      var result := RunJob(raw.value, defaults, o);
      r := Some(result);
    }

    method JobsForRouting(request: Request, personas: seq<string>, suffixes: seq<string>) returns (jobs: seq<WorkerJob>)
      requires |suffixes| == |personas|
      ensures jobs == JobsFor(request, personas, suffixes)
    {
      jobs := [];
      var previousPersona := "";
      for i := 0 to |personas|
        invariant |jobs| == i && jobs == JobsFor(request, personas, suffixes)[..i]
        invariant previousPersona == if request.sequential && i > 0 then personas[i - 1] else ""
      {
        var persona := personas[i];
        var job := WorkerJob(persona + "-" + request.eventId + "-" + suffixes[i], request.eventId,
          persona, request.playbookId,
          request.payload, if request.correlationId != "" then request.correlationId else request.eventId,
          request.tenantId,
          if request.sequential then previousPersona else "", 0, 0.0, 0);
        assert job.correlationId == Or(request.correlationId, request.eventId);
        assert job == JobsFor(request, personas, suffixes)[i];
        jobs := jobs + [job];
        if request.sequential {
          previousPersona := persona;
        }
      }
    }

    method PersistAndEnqueueJobs(jobs: seq<WorkerJob>) returns (ids: seq<string>)
      modifies queue, jobStore
      ensures Abs() == Step(old(Abs()), Submit(jobs))
      ensures jobStore.jobs == Persisted(old(jobStore.jobs), jobs)
      ensures |ids| == |jobs| && forall i :: 0 <= i < |jobs| ==> ids[i] == jobs[i].jobId
    {
      ids := [];
      for i := 0 to |jobs|
        invariant queue.queue == old(queue.queue) + jobs[..i]
        invariant jobStore.jobs == Persisted(old(jobStore.jobs), jobs[..i])
        invariant |ids| == i && forall k :: 0 <= k < i ==> ids[k] == jobs[k].jobId
      {
        var job := jobs[i];
        assert jobs[..i + 1][..i] == jobs[..i] && jobs[..i + 1] == jobs[..i] + [job];
        jobStore.UpsertPending(job.jobId, job.persona, Ids(job.correlationId, job.tenantId, job.eventId));
        queue.Enqueue(job);
        ids := ids + [job.jobId];
      }
      assert jobs[..|jobs|] == jobs;
    }

    /** Enqueuing a routing decision submits one whole batch to the protocol. */
    method EnqueueFromRouting(request: Request, personas: seq<string>, suffixes: seq<string>) returns (ids: seq<string>)
      requires |suffixes| == |personas|
      modifies queue, jobStore
      ensures Schedulable(JobsFor(request, personas, suffixes), {})
      ensures Abs() == Step(old(Abs()), Submit(JobsFor(request, personas, suffixes)))
      ensures jobStore.jobs == Persisted(old(jobStore.jobs), JobsFor(request, personas, suffixes))
      ensures |ids| == |personas|
      ensures UniqueSuffixes(suffixes) && request.tenantId != "" ==> forall i :: 0 <= i < |personas| ==>
        ids[i] in jobStore.jobs && PendingFor(jobStore.jobs[ids[i]], request, personas[i])
    {
      var jobs := JobsForRouting(request, personas, suffixes);
      BatchSchedulable(request, personas, suffixes);
      if UniqueSuffixes(suffixes) && request.tenantId != "" {
        forall i | 0 <= i < |personas|
          ensures var after := Persisted(jobStore.jobs, jobs);
                  jobs[i].jobId in after && PendingFor(after[jobs[i].jobId], request, personas[i])
        {
          BatchOnRecord(jobStore.jobs, request, personas, suffixes, i);
        }
      }
      ids := PersistAndEnqueueJobs(jobs);
    }
  }

  lemma NothingFiled(states: Investigations, ended: seq<WorkerJob>)
    ensures AllFiled(states, states, ended, |ended|)
  {
    assert ended[|ended|..] == [];
  }

  lemma EnoughCallsDrain(s: Sched, n: nat)
    ensures Drainable(s) && n >= Triangle(|s.queue|) ==>
      ProcessMany(s, n).queue == [] && multiset(ProcessMany(s, n).ended) == multiset(s.queue) + multiset(s.ended)
  {
    if Drainable(s) && n >= Triangle(|s.queue|) {
      DrainBound(s, n);
      var t := ProcessMany(s, n);
      assert multiset(t.ended) == multiset(t.queue) + multiset(t.ended);
    }
  }

  /**
   The worker command: at most `maxJobs` calls, stopping when the queue is empty. Given enough calls for
   the bound it ends every queued job exactly once, whatever each run does.
   */
  method RunWorker(orch: WorkerOrchestrator, maxJobs: nat, defaults: nat -> JobBudgetState, oracle: nat -> Oracle)
    returns (results: seq<RunResult>)
    requires orch.Valid()
    modifies orch, orch.queue, orch.runner, orch.sandbox, orch.jobStore, orch.investigations, orch.budgets
    ensures orch.Abs() == ProcessMany(old(orch.Abs()), maxJobs)
    ensures |results| <= maxJobs && (|results| < maxJobs ==> orch.queue.queue == [])
    ensures Drainable(old(orch.Abs())) && maxJobs >= Triangle(|old(orch.queue.queue)|) ==>
      orch.queue.queue == [] && multiset(orch.ended) == multiset(old(orch.queue.queue)) + multiset(old(orch.ended))
    ensures |old(orch.ended)| <= |orch.ended| && orch.ended[..|old(orch.ended)|] == old(orch.ended)
    ensures (forall i :: Files(oracle(i))) ==>
      AllFiled(old(orch.investigations.states), orch.investigations.states, orch.ended, |old(orch.ended)|)
  {
    ghost var start := orch.Abs();
    ghost var from := |orch.ended|;
    ghost var before := orch.investigations.states;
    ghost var smooth := forall i :: Files(oracle(i));
    NothingFiled(orch.investigations.states, orch.ended);
    results := [];
    for i := 0 to maxJobs
      invariant |results| == i && orch.Abs() == ProcessMany(start, i)
      invariant from <= |orch.ended| && orch.ended[..from] == start.ended
      invariant smooth ==> AllFiled(before, orch.investigations.states, orch.ended, from)
    {
      ghost var ended, states := orch.ended, orch.investigations.states;
      var result := orch.ProcessNext(defaults(i), oracle(i));
      ManyOnce(start, i);
      if result.None? {
        ManyAppend(start, i, maxJobs - i);
        Idle(ProcessMany(start, i), maxJobs - i);
        assert orch.Abs() == ProcessMany(start, i);
        break;
      }
      if smooth && orch.ended != ended {
        assert Files(oracle(i));
        OneMoreFiled(before, states, orch.investigations.states, ended, from, orch.ended[|ended|],
                     oracle(i).resultBody);
      }
      results := results + [result.value];
    }
    EnoughCallsDrain(start, maxJobs);
  }
}
