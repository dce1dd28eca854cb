/** The queued unit of work and the records kept about it. */
module WorkerModels {
  import opened Common

  datatype WorkerJobStatus = PENDING | RUNNING | AWAITING_APPROVAL | COMPLETED | FAILED

  /** The job payload: the keys that are read back, and everything else. Absent keys are "" and 0. */
  datatype Payload = Payload(parentCorrelationKey: string, spawnDepth: int, body: string)

  datatype WorkerJob = WorkerJob(
    jobId: string,
    eventId: string,
    persona: string,
    playbookId: string,
    payload: Payload,
    correlationId: string,
    tenantId: string,
    dependsOnPersona: string,
    maxTokens: int,
    maxCostUsd: real,
    maxToolCalls: int)

  /** (tenant, investigation): the key of the investigation store. */
  type Key = (string, string)

  /** The key the dependency gate reads and the terminal mark writes. */
  function KeyOf(job: WorkerJob): Key {
    (job.tenantId, Or(job.correlationId, job.eventId))
  }

  /** The key findings are filed under; a spawned job files them under its parent. */
  function MemoryKeyOf(job: WorkerJob): Key {
    (job.tenantId, Or(job.payload.parentCorrelationKey, KeyOf(job).1))
  }

  /** The exception classes a run distinguishes. */
  datatype Exn = BudgetExceeded | SecurityViolation | OtherException

  datatype RunError = NoError | DependencyNotReady(persona: string) | RaisedError(exn: Exn)

  datatype RunResult = RunResult(jobId: string, persona: string, success: bool, error: RunError)
}
