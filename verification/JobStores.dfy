/**
 The two job stores. They keep different stale data, but everything the approval protocol can
 observe through them is the same.
 */
module JobStores {
  import opened Common
  import opened WorkerModels

  type Args = map<string, string>

  datatype PendingHitlAction = PendingHitlAction(
    jobId: string, sessionId: string, persona: string, toolName: string,
    toolArgs: Args, riskLevel: string, approvalId: string)

  /** The preview dict of a pause; EmptyPreview is the empty dict. */
  datatype Preview =
    | EmptyPreview
    | Preview(tool: string, args: Args, risk: string, jobId: string, sessionId: string, persona: string,
              approvalId: string, paramsHash: string)

  datatype JobRecord = JobRecord(
    jobId: string, sessionId: string, persona: string, status: WorkerJobStatus,
    hitlPreview: Preview, pendingHitl: Option<PendingHitlAction>,
    correlationId: string, tenantId: string, eventId: string)

  datatype JobRecordSummary = JobRecordSummary(
    jobId: string, sessionId: string, persona: string, status: WorkerJobStatus,
    correlationId: string, tenantId: string, eventId: string)

  type Table = map<string, JobRecord>

  datatype Ids = Ids(correlationId: string, tenantId: string, eventId: string)

  datatype StoreOp =
    | UpsertPending(jobId: string, persona: string, ids: Ids)
    | UpsertRunning(jobId: string, sessionId: string, persona: string, ids: Ids)
    | PauseForHitl(pending: PendingHitlAction, preview: Preview)
    | MarkRunning(jobId: string)
    | MarkCompleted(jobId: string)
    | MarkFailed(jobId: string)

  const DEFAULT_TENANT := "default"

  /** The ids of the record of a job, or the defaults when it has none. */
  function IdsOf(table: Table, jobId: string): Ids {
    if jobId in table then Ids(table[jobId].correlationId, table[jobId].tenantId, table[jobId].eventId)
    else Ids("", DEFAULT_TENANT, "")
  }

  function OrIds(given: Ids, fallback: Ids): Ids {
    Ids(Or(given.correlationId, fallback.correlationId), Or(given.tenantId, fallback.tenantId),
        Or(given.eventId, fallback.eventId))
  }

  // ---------------------------------------------------------------------------------------
  // Process-local store

  /** What a store falls back to when it has no record of a job. */
  const NO_RECORD := JobRecord("", "", "", PENDING, EmptyPreview, None, "", "default", "")

  function Put(table: Table, jobId: string, sessionId: string, persona: string, status: WorkerJobStatus,
               preview: Preview, pending: Option<PendingHitlAction>, ids: Ids): Table {
    table[jobId := JobRecord(jobId, sessionId, persona, status, preview, pending,
                               ids.correlationId, ids.tenantId, ids.eventId)]
  }

  function MemStep(jobs: Table, op: StoreOp): Table {
    match op
    case UpsertPending(jobId, persona, ids) => Put(jobs, jobId, "", persona, PENDING, EmptyPreview, None, ids)
    case UpsertRunning(jobId, sessionId, persona, ids) =>
      Put(jobs, jobId, sessionId, persona, RUNNING, EmptyPreview, None, OrIds(ids, IdsOf(jobs, jobId)))
    case PauseForHitl(pending, preview) =>
      Put(jobs, pending.jobId, pending.sessionId, pending.persona, AWAITING_APPROVAL, preview, Some(pending),
          IdsOf(jobs, pending.jobId))
    case MarkRunning(jobId) =>
      if jobId in jobs then jobs[jobId := jobs[jobId].(status := RUNNING, pendingHitl := None)] else jobs
    case MarkCompleted(jobId) => if jobId in jobs then jobs[jobId := jobs[jobId].(status := COMPLETED)] else jobs
    case MarkFailed(jobId) => if jobId in jobs then jobs[jobId := jobs[jobId].(status := FAILED)] else jobs
  }

  function MemRun(jobs: Table, ops: seq<StoreOp>): Table {
    if ops == [] then jobs else MemStep(MemRun(jobs, ops[..|ops| - 1]), ops[|ops| - 1])
  }

  class InMemoryJobStore {
    var jobs: Table

    constructor ()
      ensures jobs == map[]
    {
      jobs := map[];
    }

    method UpsertPending(jobId: string, persona: string, ids: Ids)
      modifies this
      ensures jobs == MemStep(old(jobs), StoreOp.UpsertPending(jobId, persona, ids))
      ensures jobs == old(jobs)[jobId := JobRecord(jobId, "", persona, PENDING, EmptyPreview, None,
                                                   ids.correlationId, ids.tenantId, ids.eventId)]
    {
      var record := JobRecord(jobId, "", persona, PENDING, EmptyPreview, None,
                              ids.correlationId, ids.tenantId, ids.eventId);
      jobs := jobs[jobId := record];
    }

    method UpsertRunning(jobId: string, sessionId: string, persona: string, ids: Ids)
      modifies this
      ensures jobs == MemStep(old(jobs), StoreOp.UpsertRunning(jobId, sessionId, persona, ids))
      ensures var was := if jobId in old(jobs) then old(jobs)[jobId] else NO_RECORD;
              jobs == old(jobs)[jobId := JobRecord(jobId, sessionId, persona, RUNNING, EmptyPreview, None,
                if ids.correlationId != "" then ids.correlationId else was.correlationId,
                if ids.tenantId != "" then ids.tenantId else was.tenantId,
                if ids.eventId != "" then ids.eventId else was.eventId)]
    {
      var existing := IdsOf(jobs, jobId);
      var record := JobRecord(jobId, sessionId, persona, RUNNING, EmptyPreview, None,
        Or(ids.correlationId, existing.correlationId), Or(ids.tenantId, existing.tenantId),
        Or(ids.eventId, existing.eventId));
      jobs := jobs[jobId := record];
    }

    method PauseForHitl(pending: PendingHitlAction, preview: Preview)
      modifies this
      ensures jobs == MemStep(old(jobs), StoreOp.PauseForHitl(pending, preview))
      ensures var was := if pending.jobId in old(jobs) then old(jobs)[pending.jobId] else NO_RECORD;
              jobs == old(jobs)[pending.jobId := JobRecord(
                pending.jobId, pending.sessionId, pending.persona, AWAITING_APPROVAL, preview, Some(pending),
                was.correlationId, was.tenantId, was.eventId)]
    {
      var existing := IdsOf(jobs, pending.jobId);
      var record := JobRecord(pending.jobId, pending.sessionId, pending.persona, AWAITING_APPROVAL,
                              preview, Some(pending),
        existing.correlationId, existing.tenantId, existing.eventId);
      jobs := jobs[pending.jobId := record];
    }

    method MarkRunning(jobId: string)
      modifies this
      ensures jobs == MemStep(old(jobs), StoreOp.MarkRunning(jobId))
      ensures jobId !in old(jobs) ==> jobs == old(jobs)
      ensures jobId in old(jobs) ==>
        jobs == old(jobs)[jobId := old(jobs)[jobId].(status := RUNNING, pendingHitl := None)]
    {
      if jobId in jobs {
        jobs := jobs[jobId := jobs[jobId].(status := RUNNING)];
        jobs := jobs[jobId := jobs[jobId].(pendingHitl := None)];
      }
    }

    method MarkCompleted(jobId: string)
      modifies this
      ensures jobs == MemStep(old(jobs), StoreOp.MarkCompleted(jobId))
      ensures jobId !in old(jobs) ==> jobs == old(jobs)
      ensures jobId in old(jobs) ==> jobs == old(jobs)[jobId := old(jobs)[jobId].(status := COMPLETED)]
    {
      if jobId in jobs {
        jobs := jobs[jobId := jobs[jobId].(status := COMPLETED)];
      }
    }

    method MarkFailed(jobId: string)
      modifies this
      ensures jobs == MemStep(old(jobs), StoreOp.MarkFailed(jobId))
      ensures jobId !in old(jobs) ==> jobs == old(jobs)
      ensures jobId in old(jobs) ==> jobs == old(jobs)[jobId := old(jobs)[jobId].(status := FAILED)]
    {
      if jobId in jobs {
        jobs := jobs[jobId := jobs[jobId].(status := FAILED)];
      }
    }
  }

  // ---------------------------------------------------------------------------------------
  // Read-modify-write store over one table row

  /** A row read back: an empty tenant column reads as the default tenant. */
  function RowToRecord(row: JobRecord): JobRecord {
    row.(tenantId := Or(row.tenantId, DEFAULT_TENANT))
  }

  function PgGet(table: Table, jobId: string): Option<JobRecord> {
    if jobId in table then Some(RowToRecord(table[jobId])) else None
  }

  function PgIdsOf(table: Table, jobId: string): Ids {
    match PgGet(table, jobId)
    case Some(record) => Ids(record.correlationId, record.tenantId, record.eventId)
    case None => Ids("", DEFAULT_TENANT, "")
  }

  /** Without a preview the stored one is kept; without a pending action the stored one is cleared. */
  function PgUpsert(table: Table, jobId: string, sessionId: string, persona: string, status: WorkerJobStatus,
                    preview: Option<Preview>, pending: Option<PendingHitlAction>, ids: Ids): Table {
    var kept := match preview
      case Some(p) => p
      case None => if jobId in table then table[jobId].hitlPreview else EmptyPreview;
    Put(table, jobId, sessionId, persona, status, kept, pending, OrIds(ids, PgIdsOf(table, jobId)))
  }

  function PgMark(table: Table, jobId: string, status: WorkerJobStatus): Table {
    match PgGet(table, jobId)
    case None => table
    case Some(record) =>
      PgUpsert(table, jobId, record.sessionId, record.persona, status, Some(record.hitlPreview), None,
               Ids(record.correlationId, record.tenantId, record.eventId))
  }

  function PgStep(table: Table, op: StoreOp): Table {
    match op
    case UpsertPending(jobId, persona, ids) => PgUpsert(table, jobId, "", persona, PENDING, None, None, ids)
    case UpsertRunning(jobId, sessionId, persona, ids) =>
      PgUpsert(table, jobId, sessionId, persona, RUNNING, None, None, ids)
    case PauseForHitl(pending, preview) =>
      PgUpsert(table, pending.jobId, pending.sessionId, pending.persona, AWAITING_APPROVAL,
               Some(preview), Some(pending),
               PgIdsOf(table, pending.jobId))
    case MarkRunning(jobId) => PgMark(table, jobId, RUNNING)
    case MarkCompleted(jobId) => PgMark(table, jobId, COMPLETED)
    case MarkFailed(jobId) => PgMark(table, jobId, FAILED)
  }

  function PgRun(table: Table, ops: seq<StoreOp>): Table {
    if ops == [] then table else PgStep(PgRun(table, ops[..|ops| - 1]), ops[|ops| - 1])
  }

  class PostgresJobStore {
    var table: Table

    constructor ()
      ensures table == map[]
    {
      table := map[];
    }

    method Upsert(jobId: string, sessionId: string, persona: string, status: WorkerJobStatus,
                  hitlPreview: Option<Preview>, pendingHitl: Option<PendingHitlAction>, ids: Ids)
      modifies this
      ensures table == PgUpsert(old(table), jobId, sessionId, persona, status, hitlPreview, pendingHitl, ids)
      ensures var was := if jobId in old(table) then old(table)[jobId] else NO_RECORD;
              table == old(table)[jobId := JobRecord(jobId, sessionId, persona, status,
                if hitlPreview.Some? then hitlPreview.value else was.hitlPreview, pendingHitl,
                if ids.correlationId != "" then ids.correlationId else was.correlationId,
                if ids.tenantId != "" then ids.tenantId else if was.tenantId != "" then was.tenantId else "default",
                if ids.eventId != "" then ids.eventId else was.eventId)]
    {
      var existing := PgGet(table, jobId);
      var preview := EmptyPreview;
      var known := Ids("", DEFAULT_TENANT, "");
      if existing.Some? {
        preview := existing.value.hitlPreview;
        known := Ids(existing.value.correlationId, existing.value.tenantId, existing.value.eventId);
      }
      if hitlPreview.Some? {
        preview := hitlPreview.value;
      }
      table := table[jobId := JobRecord(jobId, sessionId, persona, status, preview, pendingHitl,
        Or(ids.correlationId, known.correlationId), Or(ids.tenantId, known.tenantId), Or(ids.eventId, known.eventId))];
    }

    method UpsertPending(jobId: string, persona: string, ids: Ids)
      modifies this
      ensures table == PgStep(old(table), StoreOp.UpsertPending(jobId, persona, ids))
      ensures var was := if jobId in old(table) then old(table)[jobId] else NO_RECORD;
              table == old(table)[jobId := JobRecord(jobId, "", persona, PENDING, was.hitlPreview, None,
                if ids.correlationId != "" then ids.correlationId else was.correlationId,
                if ids.tenantId != "" then ids.tenantId else if was.tenantId != "" then was.tenantId else "default",
                if ids.eventId != "" then ids.eventId else was.eventId)]
    {
      Upsert(jobId, "", persona, PENDING, None, None, ids);
    }

    method UpsertRunning(jobId: string, sessionId: string, persona: string, ids: Ids)
      modifies this
      ensures table == PgStep(old(table), StoreOp.UpsertRunning(jobId, sessionId, persona, ids))
      ensures var was := if jobId in old(table) then old(table)[jobId] else NO_RECORD;
              table == old(table)[jobId := JobRecord(jobId, sessionId, persona, RUNNING, was.hitlPreview, None,
                if ids.correlationId != "" then ids.correlationId else was.correlationId,
                if ids.tenantId != "" then ids.tenantId else if was.tenantId != "" then was.tenantId else "default",
                if ids.eventId != "" then ids.eventId else was.eventId)]
    {
      Upsert(jobId, sessionId, persona, RUNNING, None, None, ids);
    }

    method PauseForHitl(pending: PendingHitlAction, preview: Preview)
      modifies this
      ensures table == PgStep(old(table), StoreOp.PauseForHitl(pending, preview))
      ensures var was := if pending.jobId in old(table) then old(table)[pending.jobId] else NO_RECORD;
              table == old(table)[pending.jobId := JobRecord(
                pending.jobId, pending.sessionId, pending.persona, AWAITING_APPROVAL, preview, Some(pending),
                was.correlationId, if was.tenantId != "" then was.tenantId else "default", was.eventId)]
    {
      Upsert(pending.jobId, pending.sessionId, pending.persona, AWAITING_APPROVAL, Some(preview), Some(pending),
             PgIdsOf(table, pending.jobId));
    }

    /** mark_running, mark_completed and mark_failed differ only in the status they write. */
    method Mark(jobId: string, status: WorkerJobStatus)
      modifies this
      ensures table == PgMark(old(table), jobId, status)
      ensures jobId !in old(table) ==> table == old(table)
      ensures jobId in old(table) ==>
        var was := old(table)[jobId];
        table == old(table)[jobId := JobRecord(jobId, was.sessionId, was.persona, status, was.hitlPreview, None,
          was.correlationId, if was.tenantId != "" then was.tenantId else "default", was.eventId)]
    {
      var record := PgGet(table, jobId);
      if record.Some? {
        var r := record.value;
        Upsert(jobId, r.sessionId, r.persona, status, Some(r.hitlPreview), None,
               Ids(r.correlationId, r.tenantId, r.eventId));
      }
    }
  }

  // ---------------------------------------------------------------------------------------
  // Substitutability

  /** Equal in every field but preview and pending action, and in those while approval is awaited. */
  ghost predicate SameRecord(m: JobRecord, p: JobRecord) {
    && m.(hitlPreview := EmptyPreview, pendingHitl := None) == p.(hitlPreview := EmptyPreview, pendingHitl := None)
    && (m.status == AWAITING_APPROVAL ==> m == p)
  }

  ghost predicate GoodRecord(r: JobRecord, jobId: string) {
    && r.jobId == jobId && r.tenantId != ""
    && (r.status == AWAITING_APPROVAL ==> r.pendingHitl.Some? && r.pendingHitl.value.jobId == jobId)
  }

  ghost predicate Related(mem: Table, pg: Table) {
    && mem.Keys == pg.Keys
    && forall id :: id in mem ==> SameRecord(mem[id], pg[id]) && GoodRecord(mem[id], id)
  }

  /** Writing an empty id over a nonempty one is the one thing on which the stores disagree. */
  predicate IdsStick(ids: Ids, known: Ids) {
    ids.tenantId != "" && (ids.correlationId != "" || known.correlationId == "") &&
    (ids.eventId != "" || known.eventId == "")
  }

  lemma PutRelated(mem: Table, pg: Table, id: string, m: JobRecord, p: JobRecord)
    requires Related(mem, pg) && SameRecord(m, p) && GoodRecord(m, id)
    ensures Related(mem[id := m], pg[id := p])
  {
  }

  lemma MarkRelated(mem: Table, pg: Table, op: StoreOp)
    requires Related(mem, pg) && (op.MarkRunning? || op.MarkCompleted? || op.MarkFailed?)
    ensures Related(MemStep(mem, op), PgStep(pg, op))
  {
    if op.jobId in mem {
      assert SameRecord(mem[op.jobId], pg[op.jobId]) && GoodRecord(mem[op.jobId], op.jobId);
      PutRelated(mem, pg, op.jobId, MemStep(mem, op)[op.jobId], PgStep(pg, op)[op.jobId]);
    }
  }

  lemma KnownIds(mem: Table, pg: Table, id: string)
    requires Related(mem, pg)
    ensures IdsOf(mem, id) == PgIdsOf(pg, id) && IdsOf(mem, id).tenantId != ""
  {
    if id in mem { assert SameRecord(mem[id], pg[id]) && GoodRecord(mem[id], id); }
  }

  /** Every operation keeps the stores related, except a pending upsert with ids that do not stick. */
  lemma StepRelated(mem: Table, pg: Table, op: StoreOp)
    requires Related(mem, pg)
    requires op.UpsertPending? ==> IdsStick(op.ids, IdsOf(mem, op.jobId))
    ensures Related(MemStep(mem, op), PgStep(pg, op))
  {
    match op
    case UpsertPending(id, _, _) =>
      KnownIds(mem, pg, id);
      PutRelated(mem, pg, id, MemStep(mem, op)[id], PgStep(pg, op)[id]);
    case UpsertRunning(id, _, _, _) =>
      KnownIds(mem, pg, id);
      PutRelated(mem, pg, id, MemStep(mem, op)[id], PgStep(pg, op)[id]);
    case PauseForHitl(pending, _) =>
      KnownIds(mem, pg, pending.jobId);
      PutRelated(mem, pg, pending.jobId, MemStep(mem, op)[pending.jobId], PgStep(pg, op)[pending.jobId]);
    case MarkRunning(_) => MarkRelated(mem, pg, op);
    case MarkCompleted(_) => MarkRelated(mem, pg, op);
    case MarkFailed(_) => MarkRelated(mem, pg, op);
  }

  /** For a pending upsert the condition is exact. */
  lemma PendingRelatedIff(mem: Table, pg: Table, jobId: string, persona: string, ids: Ids)
    requires Related(mem, pg)
    ensures Related(MemStep(mem, UpsertPending(jobId, persona, ids)), PgStep(pg, UpsertPending(jobId, persona, ids)))
      <==> IdsStick(ids, IdsOf(mem, jobId))
  {
    var m, p := MemStep(mem, UpsertPending(jobId, persona, ids)), PgStep(pg, UpsertPending(jobId, persona, ids));
    assert jobId in m && jobId in p;
    if Related(m, p) {
      assert SameRecord(m[jobId], p[jobId]) && GoodRecord(m[jobId], jobId);
    } else if IdsStick(ids, IdsOf(mem, jobId)) {
      StepRelated(mem, pg, UpsertPending(jobId, persona, ids));
    }
  }

  /** All pending upserts of the run carry nonempty ids, as every enqueuer's do. */
  predicate NonemptyIds(ops: seq<StoreOp>) {
    forall op :: op in ops && op.UpsertPending? ==>
      op.ids.correlationId != "" && op.ids.tenantId != "" && op.ids.eventId != ""
  }

  lemma {:induction false} RunRelated(ops: seq<StoreOp>)
    requires NonemptyIds(ops)
    ensures Related(MemRun(map[], ops), PgRun(map[], ops))
  {
    if ops != [] {
      var front, last := ops[..|ops| - 1], ops[|ops| - 1];
      assert last in ops;
      RunRelated(front);
      StepRelated(MemRun(map[], front), PgRun(map[], front), last);
    }
  }

  function MemPendingApprovals(jobs: Table): set<PendingHitlAction> {
    set id | id in jobs && jobs[id].status == AWAITING_APPROVAL && jobs[id].pendingHitl.Some? ::
      jobs[id].pendingHitl.value
  }

  function Summary(r: JobRecord): JobRecordSummary {
    JobRecordSummary(r.jobId, r.sessionId, r.persona, r.status, r.correlationId, r.tenantId, r.eventId)
  }

  function MemByInvestigation(jobs: Table, tenantId: string, investigationId: string): set<JobRecordSummary> {
    set id | id in jobs && jobs[id].tenantId == tenantId && jobs[id].correlationId == investigationId ::
      Summary(jobs[id])
  }

  /** The query filters on the stored tenant column and reads it back through the default. */
  function PgByInvestigation(table: Table, tenantId: string, investigationId: string): set<JobRecordSummary> {
    set id | id in table && table[id].tenantId == tenantId && table[id].correlationId == investigationId ::
      Summary(RowToRecord(table[id]))
  }

  /** A pending action is listed exactly when it is that of a record awaiting approval. */
  lemma PendingListedIff(jobs: Table, pending: PendingHitlAction)
    ensures pending in MemPendingApprovals(jobs) <==>
      exists id :: id in jobs && jobs[id].status == AWAITING_APPROVAL && jobs[id].pendingHitl == Some(pending)
  {
    if pending in MemPendingApprovals(jobs) {
      var id :| id in jobs && jobs[id].status == AWAITING_APPROVAL && jobs[id].pendingHitl == Some(pending);
    }
  }

  /** The listing of an investigation shows exactly its records, field by field. */
  lemma ListedIff(jobs: Table, tenantId: string, investigationId: string, s: JobRecordSummary)
    ensures s in MemByInvestigation(jobs, tenantId, investigationId) <==>
      && s.tenantId == tenantId && s.correlationId == investigationId
      && exists id :: id in jobs && jobs[id].tenantId == tenantId && jobs[id].correlationId == investigationId
           && jobs[id].jobId == s.jobId && jobs[id].sessionId == s.sessionId && jobs[id].persona == s.persona
           && jobs[id].status == s.status && jobs[id].eventId == s.eventId
  {
  }

  lemma RelatedObservations(mem: Table, pg: Table, tenantId: string, investigationId: string)
    requires Related(mem, pg)
    ensures MemPendingApprovals(mem) == MemPendingApprovals(pg)
    ensures MemByInvestigation(mem, tenantId, investigationId) == PgByInvestigation(pg, tenantId, investigationId)
  {
    forall id | id in mem ensures Summary(mem[id]) == Summary(RowToRecord(pg[id])) {
      assert SameRecord(mem[id], pg[id]) && GoodRecord(mem[id], id);
    }
    forall id | id in mem && mem[id].status == AWAITING_APPROVAL ensures mem[id] == pg[id] {
      assert SameRecord(mem[id], pg[id]);
    }
    forall id | id in pg && pg[id].status == AWAITING_APPROVAL ensures mem[id] == pg[id] {
      assert SameRecord(mem[id], pg[id]);
    }
  }

  /** From empty stores, any run shows the same pending approvals and the same investigation listings. */
  lemma StoresSubstitutable(ops: seq<StoreOp>, tenantId: string, investigationId: string)
    requires NonemptyIds(ops)
    ensures var mem, pg := MemRun(map[], ops), PgRun(map[], ops);
            mem.Keys == pg.Keys &&
            MemPendingApprovals(mem) == MemPendingApprovals(pg) &&
            MemByInvestigation(mem, tenantId, investigationId) == PgByInvestigation(pg, tenantId, investigationId)
  {
    RunRelated(ops);
    RelatedObservations(MemRun(map[], ops), PgRun(map[], ops), tenantId, investigationId);
  }

  /** The stores do differ on what they no longer show: after a pause ends, only one still holds its action. */
  lemma StalePendingDiffers(mem: Table, pg: Table, jobId: string)
    requires Related(mem, pg) && jobId in mem && mem[jobId].status == AWAITING_APPROVAL
    ensures MemStep(mem, MarkCompleted(jobId))[jobId].pendingHitl == mem[jobId].pendingHitl
    ensures PgStep(pg, MarkCompleted(jobId))[jobId].pendingHitl == None != mem[jobId].pendingHitl
  {
    assert SameRecord(mem[jobId], pg[jobId]) && GoodRecord(mem[jobId], jobId);
  }
}
