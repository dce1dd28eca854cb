/**
 Human approval of risky tool calls: a pause registers a pending action under the job of the
 session, and a resume request consumes it. Hashing is an arbitrary deterministic function.
 */
module HitlResume {
  import opened Common
  import opened WorkerModels
  import opened JobStores

  // ---------------------------------------------------------------------------------------
  // Sessions name their job

  function IndexOf(s: string, c: char): (r: Option<nat>)
    ensures r.None? ==> c !in s
    ensures r.Some? ==> r.value < |s| && s[r.value] == c && c !in s[..r.value]
  {
    if s == "" then None
    else if s[0] == c then Some(0)
    else match IndexOf(s[1..], c)
      case None => None
      case Some(i) => assert s[..i + 1] == [s[0]] + s[1..][..i]; Some(i + 1)
  }

  /** Splits at the first two colons; the third part of a "worker" session is its job. */
  function JobIdFromSession(sessionId: string): Option<string> {
    match IndexOf(sessionId, ':')
    case None => None
    case Some(i) =>
      var rest := sessionId[i + 1..];
      match IndexOf(rest, ':')
      case None => None
      case Some(j) => if sessionId[..i] == "worker" then Some(rest[j + 1..]) else None
  }

  function WorkerSession(persona: string, jobId: string): string {
    "worker:" + persona + ":" + jobId
  }

  lemma {:induction false} IndexOfUnique(s: string, c: char, i: nat)
    requires i < |s| && s[i] == c && c !in s[..i]
    ensures IndexOf(s, c) == Some(i)
  {
    if i > 0 {
      assert s[..i] == [s[0]] + s[1..][..i - 1];
      IndexOfUnique(s[1..], c, i - 1);
    }
  }

  /** The job id a worker session was built from is recovered exactly when the persona has no colon. */
  lemma SessionRoundTrip(persona: string, jobId: string)
    ensures JobIdFromSession(WorkerSession(persona, jobId)) == Some(jobId) <==> ':' !in persona
  {
    var session := WorkerSession(persona, jobId);
    assert session[..6] == "worker" && session[6] == ':';
    IndexOfUnique(session, ':', 6);
    var rest := session[7..];
    assert rest == persona + ([':'] + jobId);
    if ':' !in persona {
      assert rest[..|persona|] == persona;
      IndexOfUnique(rest, ':', |persona|);
      assert rest[|persona| + 1..] == jobId;
    } else {
      var j := IndexOf(persona, ':').value;
      assert rest[..j] == persona[..j];
      IndexOfUnique(rest, ':', j);
      assert |rest[j + 1..]| > |jobId|;
    }
  }

  // ---------------------------------------------------------------------------------------
  // Pausing

  type Hash = Args -> string

  /** The job a pause in the session is filed under. */
  function PausedJob(sessionId: string): string {
    var fromSession := JobIdFromSession(sessionId);
    if fromSession.Some? then Or(fromSession.value, sessionId) else sessionId
  }

  /** A session "worker:<persona>:<job>", the persona without a colon, pauses its job unless that is empty. */
  lemma PausedUnderJob(persona: string, jobId: string)
    requires ':' !in persona
    ensures var sessionId := "worker:" + persona + ":" + jobId;
            PausedJob(sessionId) == if jobId != "" then jobId else sessionId
  {
    SessionRoundTrip(persona, jobId);
    assert WorkerSession(persona, jobId) == "worker:" + persona + ":" + jobId;
  }

  /** Any other session pauses under its own id. */
  lemma PausedUnderSession(sessionId: string)
    ensures PausedJob(sessionId) == sessionId ||
            exists persona, jobId :: ':' !in persona && sessionId == "worker:" + persona + ":" + jobId
  {
    if JobIdFromSession(sessionId).Some? {
      var i := IndexOf(sessionId, ':').value;
      var rest := sessionId[i + 1..];
      var j := IndexOf(rest, ':').value;
      assert sessionId == "worker:" + rest[..j] + ":" + rest[j + 1..];
    }
  }

  function BuildPreview(hash: Hash, toolName: string, toolArgs: Args, risk: string, sessionId: string,
                        persona: string, approvalId: string): Preview {
    Preview(toolName, toolArgs, risk, PausedJob(sessionId), sessionId, persona, approvalId, hash(toolArgs))
  }

  function PendingOf(preview: Preview): PendingHitlAction
    requires preview.Preview?
  {
    PendingHitlAction(preview.jobId, preview.sessionId, preview.persona,
                      preview.tool, preview.args, preview.risk, preview.approvalId)
  }

  lemma PreviewNamesJob(hash: Hash, tool: string, args: Args, risk: string, persona: string, jobId: string,
                        approvalId: string)
    requires ':' !in persona && jobId != ""
    ensures BuildPreview(hash, tool, args, risk, WorkerSession(persona, jobId), persona, approvalId)
      == Preview(tool, args, risk, jobId, WorkerSession(persona, jobId), persona, approvalId, hash(args))
  {
    SessionRoundTrip(persona, jobId);
  }

  method RegisterHitlPause(store: InMemoryJobStore, preview: Preview) returns (pending: PendingHitlAction)
    requires preview.Preview?
    modifies store
    ensures pending == PendingOf(preview) && pending in MemPendingApprovals(store.jobs)
    ensures pending == PendingHitlAction(preview.jobId, preview.sessionId, preview.persona,
                                         preview.tool, preview.args, preview.risk, preview.approvalId)
    ensures store.jobs == MemStep(old(store.jobs), StoreOp.PauseForHitl(pending, preview))
  {
    pending := PendingHitlAction(preview.jobId, preview.sessionId, preview.persona,
                                 preview.tool, preview.args, preview.risk, preview.approvalId);
    store.PauseForHitl(pending, preview);
    assert preview.jobId in store.jobs && store.jobs[preview.jobId].pendingHitl == Some(pending);
  }

  // ---------------------------------------------------------------------------------------
  // Deciding

  datatype ResumeRequest = ResumeRequest(decision: string, editedArgs: Args, approvalId: string, actor: string)

  datatype Refusal = UnknownJob | NotAwaiting | InvalidApprovalId | HashMismatch

  datatype Verdict =
    Refuse(why: Refusal) | Reject(pending: PendingHitlAction) | Accept(pending: PendingHitlAction, toolArgs: Args)

  function ExpectedHash(preview: Preview): string {
    match preview case EmptyPreview => "" case Preview(_, _, _, _, _, _, _, h) => h
  }

  function Decide(record: Option<JobRecord>, request: ResumeRequest, hash: Hash): Verdict {
    if record.None? then Refuse(UnknownJob)
    else if record.value.status != AWAITING_APPROVAL || record.value.pendingHitl.None? then Refuse(NotAwaiting)
    else
      var pending := record.value.pendingHitl.value;
      if request.approvalId != "" && request.approvalId != pending.approvalId then Refuse(InvalidApprovalId)
      else if request.decision == "reject" then Reject(pending)
      else
        var edited := request.decision == "edit" && request.editedArgs != map[];
        var args := if edited then request.editedArgs else pending.toolArgs;
        var expected := ExpectedHash(record.value.hitlPreview);
        if request.decision == "approve" && expected != "" && hash(args) != expected then Refuse(HashMismatch)
        else Accept(pending, args)
  }

  function MemGet(jobs: Table, jobId: string): Option<JobRecord> {
    if jobId in jobs then Some(jobs[jobId]) else None
  }

  // ---------------------------------------------------------------------------------------
  // What the agent is resumed with, and what its tool then runs

  /** The dict handed to the suspended tool call. Edited arguments are not part of it. */
  datatype ResumePayload = ResumePayload(decision: string, approvalId: string)

  /** An answer to an interrupt: a dict with a decision and a list of typed decisions, or anything else by its truth. */
  datatype Answer = Dict(decision: string, decisions: seq<string>) | Plain(truthy: bool)

  predicate ResumeDecisionApproved(answer: Answer) {
    match answer
    case Plain(truthy) => truthy
    case Dict(decision, decisions) =>
      if decision == "reject" then false
      else if decision == "approve" || decision == "edit" then true
      else !(decisions != [] && decisions[0] == "reject")
  }

  /** A dict is a refusal when its decision is "reject", or when that is no known
      decision and the first of its typed decisions is. */
  lemma ApprovedIff(answer: Answer)
    requires answer.Dict?
    ensures ResumeDecisionApproved(answer) <==>
      || answer.decision in ["approve", "edit"]
      || (answer.decision != "reject" && (answer.decisions == [] || answer.decisions[0] != "reject"))
  {
  }

  /** The arguments the tool body of a call with `callArgs` receives on resumption; None when it does not run. */
  function RunsWith(callArgs: Args, payload: ResumePayload): Option<Args> {
    if ResumeDecisionApproved(Dict(payload.decision, [])) then Some(callArgs) else None
  }

  // ---------------------------------------------------------------------------------------
  // The approval protocol: any interleaving of store operations, requests and ends of resumes

  /** `ResumeEnds` ends the resume that the `token`-th accepted decision began; the agent returned or raised. */
  datatype Event =
    Store(op: StoreOp) | Request(jobId: string, request: ResumeRequest) | ResumeEnds(token: nat, returned: bool)

  /** The jobs of the agents being resumed, and how many resumes have begun. */
  datatype Resumes = Resumes(running: map<nat, string>, begun: nat)

  datatype Reaction = Reaction(op: Option<StoreOp>, resumes: Resumes)

  /** The one store operation an event leads to, if any; `record` is that of the job a request is about. */
  function React(record: Option<JobRecord>, resumes: Resumes, e: Event, hash: Hash): Reaction {
    match e
    case Store(op) => Reaction(Some(op), resumes)
    case Request(jobId, request) =>
      (match Decide(record, request, hash)
       case Refuse(_) => Reaction(None, resumes)
       case Reject(_) => Reaction(Some(StoreOp.MarkFailed(jobId)), resumes)
       case Accept(_, _) =>
         Reaction(Some(StoreOp.MarkRunning(jobId)),
                  Resumes(resumes.running[resumes.begun := jobId], resumes.begun + 1)))
    case ResumeEnds(token, returned) =>
      if token !in resumes.running then Reaction(None, resumes)
      else Reaction(if returned then Some(StoreOp.MarkCompleted(resumes.running[token])) else None,
                    resumes.(running := resumes.running - {token}))
  }

  function Asked(e: Event): string {
    if e.Request? then e.jobId else ""
  }

  datatype Protocol = Protocol(jobs: Table, resumes: Resumes)

  const START := Protocol(map[], Resumes(map[], 0))

  function MemMaybe(jobs: Table, op: Option<StoreOp>): Table {
    match op case None => jobs case Some(o) => MemStep(jobs, o)
  }

  function Next(s: Protocol, e: Event, hash: Hash): Protocol {
    var r := React(MemGet(s.jobs, Asked(e)), s.resumes, e, hash);
    Protocol(MemMaybe(s.jobs, r.op), r.resumes)
  }

  function Run(s: Protocol, events: seq<Event>, hash: Hash): Protocol {
    if events == [] then s else Next(Run(s, events[..|events| - 1], hash), events[|events| - 1], hash)
  }

  lemma RunLast(s: Protocol, events: seq<Event>, e: Event, hash: Hash)
    ensures Run(s, events + [e], hash) == Next(Run(s, events, hash), e, hash)
  {
    assert (events + [e])[..|events|] == events;
  }

  lemma {:induction false} RunAppend(s: Protocol, a: seq<Event>, b: seq<Event>, hash: Hash)
    ensures Run(s, a + b, hash) == Run(Run(s, a, hash), b, hash)
    decreases |b|
  {
    if b == [] {
      assert a + b == a;
    } else {
      var front, last := b[..|b| - 1], b[|b| - 1];
      RunAppend(s, a, front, hash);
      RunLast(s, a + front, last, hash);
      assert a + b == (a + front) + [last];
    }
  }

  // ---------------------------------------------------------------------------------------
  // Each pause is consumed at most once

  predicate IsPauseOf(e: Event, jobId: string) {
    e.Store? && e.op.PauseForHitl? && e.op.pending.jobId == jobId
  }

  function Pauses(events: seq<Event>, jobId: string): nat {
    if events == [] then 0
    else Pauses(events[..|events| - 1], jobId) + if IsPauseOf(events[|events| - 1], jobId) then 1 else 0
  }

  /** The request is a decision about the job that is not refused. */
  predicate Consumes(jobs: Table, e: Event, hash: Hash, jobId: string) {
    e.Request? && e.jobId == jobId && !Decide(MemGet(jobs, jobId), e.request, hash).Refuse?
  }

  function Consumed(s: Protocol, events: seq<Event>, hash: Hash, jobId: string): nat {
    if events == [] then 0
    else
      var front, last := events[..|events| - 1], events[|events| - 1];
      Consumed(s, front, hash, jobId) + if Consumes(Run(s, front, hash).jobs, last, hash, jobId) then 1 else 0
  }

  function Awaiting(jobs: Table, jobId: string): nat {
    if jobId in jobs && jobs[jobId].status == AWAITING_APPROVAL then 1 else 0
  }

  /** Only a pause opens an approval; a consuming request closes one that was open. */
  lemma EventAwaiting(s: Protocol, e: Event, hash: Hash, jobId: string)
    ensures var after := Next(s, e, hash).jobs;
            && Awaiting(after, jobId) <= (if IsPauseOf(e, jobId) then 1 else Awaiting(s.jobs, jobId))
            && (Consumes(s.jobs, e, hash, jobId) ==> Awaiting(s.jobs, jobId) == 1 && Awaiting(after, jobId) == 0)
  {
  }

  /** Decisions that take effect, plus the pause still open, never exceed the pauses of a job. */
  lemma {:induction false} EachPauseConsumedOnce(s: Protocol, events: seq<Event>, hash: Hash, jobId: string)
    ensures Consumed(s, events, hash, jobId) + Awaiting(Run(s, events, hash).jobs, jobId)
         <= Awaiting(s.jobs, jobId) + Pauses(events, jobId)
  {
    if events != [] {
      var front, last := events[..|events| - 1], events[|events| - 1];
      EachPauseConsumedOnce(s, front, hash, jobId);
      EventAwaiting(Run(s, front, hash), last, hash, jobId);
    }
  }

  lemma {:induction false} StaysDecided(s: Protocol, later: seq<Event>, hash: Hash, jobId: string)
    requires Awaiting(s.jobs, jobId) == 0 && Pauses(later, jobId) == 0
    ensures Awaiting(Run(s, later, hash).jobs, jobId) == 0
  {
    if later != [] {
      var front, last := later[..|later| - 1], later[|later| - 1];
      StaysDecided(s, front, hash, jobId);
      EventAwaiting(Run(s, front, hash), last, hash, jobId);
    }
  }

  /** After a decision that is not refused, every request about the job is refused until its next pause. */
  lemma DecidedUntilNextPause(s: Protocol, hash: Hash, jobId: string, first: ResumeRequest, later: seq<Event>,
                              second: ResumeRequest)
    requires !Decide(MemGet(s.jobs, jobId), first, hash).Refuse?
    requires Pauses(later, jobId) == 0
    ensures Decide(MemGet(Run(Next(s, Request(jobId, first), hash), later, hash).jobs, jobId), second, hash).Refuse?
  {
    EventAwaiting(s, Request(jobId, first), hash, jobId);
    StaysDecided(Next(s, Request(jobId, first), hash), later, hash, jobId);
  }

  // ---------------------------------------------------------------------------------------
  // How long a pause stays open

  /** A registered pause: the pending action with its preview. */
  datatype Pause = Pause(pending: PendingHitlAction, preview: Preview)

  function PauseOp(p: Pause): StoreOp {
    StoreOp.PauseForHitl(p.pending, p.preview)
  }

  /** The record of the job still shows this very pause as undecided. */
  predicate IsOpen(jobs: Table, p: Pause) {
    p.pending.jobId in jobs &&
    var r := jobs[p.pending.jobId];
    r.status == AWAITING_APPROVAL && r.pendingHitl == Some(p.pending) && r.hitlPreview == p.preview
  }

  function JobOf(op: StoreOp): string {
    match op
    case UpsertPending(jobId, _, _) => jobId
    case UpsertRunning(jobId, _, _, _) => jobId
    case PauseForHitl(pending, _) => pending.jobId
    case MarkRunning(jobId) => jobId
    case MarkCompleted(jobId) => jobId
    case MarkFailed(jobId) => jobId
  }

  /** The checks a request about the pause has to pass: the right approval id, and for an approval the right hash. */
  predicate Passes(p: Pause, request: ResumeRequest, hash: Hash) {
    && (request.approvalId == "" || request.approvalId == p.pending.approvalId)
    && (request.decision == "approve" ==> ExpectedHash(p.preview) in {"", hash(p.pending.toolArgs)})
  }

  lemma PassesIff(jobs: Table, p: Pause, request: ResumeRequest, hash: Hash)
    requires IsOpen(jobs, p)
    ensures !Decide(MemGet(jobs, p.pending.jobId), request, hash).Refuse? <==> Passes(p, request, hash)
  {
  }

  /** What closes a pause: any other write to the record of its job, a request
     that passes, a resume of the job that returns. */
  predicate Closes(e: Event, p: Pause, running: map<nat, string>, hash: Hash) {
    match e
    case Store(op) => JobOf(op) == p.pending.jobId && op != PauseOp(p)
    case Request(jobId, request) => jobId == p.pending.jobId && Passes(p, request, hash)
    case ResumeEnds(token, returned) => returned && token in running && running[token] == p.pending.jobId
  }

  lemma EventOpen(s: Protocol, e: Event, p: Pause, hash: Hash)
    ensures IsOpen(Next(s, e, hash).jobs, p) <==>
      e == Store(PauseOp(p)) || (IsOpen(s.jobs, p) && !Closes(e, p, s.resumes.running, hash))
  {
    if IsOpen(s.jobs, p) && e.Request? && e.jobId == p.pending.jobId {
      PassesIff(s.jobs, p, e.request, hash);
    }
  }

  /** The event at position `i` closes the pause. */
  predicate ClosedAt(s: Protocol, later: seq<Event>, i: nat, p: Pause, hash: Hash)
    requires i < |later|
  {
    Closes(later[i], p, Run(s, later[..i], hash).resumes.running, hash)
  }

  /** No event of `later` from position `k` on closes the pause. */
  ghost predicate NoneCloses(s: Protocol, later: seq<Event>, k: nat, p: Pause, hash: Hash) {
    forall i: nat :: k <= i < |later| ==> !ClosedAt(s, later, i, p, hash)
  }

  lemma ClosedAtFront(s: Protocol, later: seq<Event>, n: nat, i: nat, p: Pause, hash: Hash)
    requires i < n <= |later|
    ensures ClosedAt(s, later[..n], i, p, hash) == ClosedAt(s, later, i, p, hash)
  {
    assert later[..n][..i] == later[..i];
  }

  lemma NoneClosesLast(s: Protocol, later: seq<Event>, k: nat, p: Pause, hash: Hash)
    requires later != []
    ensures var n := |later| - 1;
            NoneCloses(s, later, k, p, hash) <==>
              NoneCloses(s, later[..n], k, p, hash) && (k <= n ==> !ClosedAt(s, later, n, p, hash))
  {
    var n := |later| - 1;
    forall i: nat | i < n ensures ClosedAt(s, later[..n], i, p, hash) == ClosedAt(s, later, i, p, hash) {
      ClosedAtFront(s, later, n, i, p, hash);
    }
  }

  /** The pause was registered (again) by the event just before position `k`, or was open at the start. */
  ghost predicate RegisteredAt(s: Protocol, later: seq<Event>, k: nat, p: Pause) {
    if k == 0 then IsOpen(s.jobs, p) else k <= |later| && later[k - 1] == Store(PauseOp(p))
  }

  /** The pause was last registered at `k` and nothing has closed it since. */
  ghost predicate OpenSince(s: Protocol, later: seq<Event>, k: nat, p: Pause, hash: Hash) {
    k <= |later| && RegisteredAt(s, later, k, p) && NoneCloses(s, later, k, p, hash)
  }

  lemma OpenSinceLast(s: Protocol, later: seq<Event>, k: nat, p: Pause, hash: Hash)
    requires later != []
    ensures var n := |later| - 1;
            OpenSince(s, later, k, p, hash) <==>
              (k == n + 1 && later[n] == Store(PauseOp(p))) ||
              (OpenSince(s, later[..n], k, p, hash) && !ClosedAt(s, later, n, p, hash))
  {
    NoneClosesLast(s, later, k, p, hash);
  }

  /** On every run: a pause is open exactly when nothing has closed it since it was last registered. */
  lemma {:induction false} OpenIff(s: Protocol, later: seq<Event>, p: Pause, hash: Hash)
    ensures IsOpen(Run(s, later, hash).jobs, p) <==> exists k: nat :: OpenSince(s, later, k, p, hash)
  {
    if later == [] {
      assert OpenSince(s, later, 0, p, hash) <==> IsOpen(s.jobs, p);
    } else {
      var n := |later| - 1;
      OpenIff(s, later[..n], p, hash);
      EventOpen(Run(s, later[..n], hash), later[n], p, hash);
      OpenSinceLast(s, later, n + 1, p, hash);
      if IsOpen(Run(s, later[..n], hash).jobs, p) {
        var k: nat :| OpenSince(s, later[..n], k, p, hash);
        OpenSinceLast(s, later, k, p, hash);
      }
      if k: nat :| OpenSince(s, later, k, p, hash) {
        OpenSinceLast(s, later, k, p, hash);
        assert k == n + 1 || OpenSince(s, later[..n], k, p, hash);
      }
    }
  }

  /** Approval ids are fresh: no event of `later` registers this very pause again. */
  predicate NotRepeated(later: seq<Event>, p: Pause) {
    forall e :: e in later ==> e != Store(PauseOp(p))
  }

  /** An open pause that is not registered again stays open exactly as long as nothing closes it. */
  lemma StaysOpenIff(s: Protocol, later: seq<Event>, p: Pause, hash: Hash)
    requires IsOpen(s.jobs, p) && NotRepeated(later, p)
    ensures IsOpen(Run(s, later, hash).jobs, p) <==> NoneCloses(s, later, 0, p, hash)
  {
    OpenIff(s, later, p, hash);
    assert OpenSince(s, later, 0, p, hash) <==> NoneCloses(s, later, 0, p, hash);
    forall k: nat | 0 < k <= |later| ensures !RegisteredAt(s, later, k, p) { assert later[k - 1] in later; }
  }

  lemma StaysClosed(s: Protocol, later: seq<Event>, p: Pause, hash: Hash)
    requires !IsOpen(s.jobs, p) && NotRepeated(later, p)
    ensures !IsOpen(Run(s, later, hash).jobs, p)
  {
    OpenIff(s, later, p, hash);
    forall k: nat | k <= |later| ensures !RegisteredAt(s, later, k, p) {
      if k > 0 { assert later[k - 1] in later; }
    }
  }

  // ---------------------------------------------------------------------------------------
  // What an accepted decision runs

  /** A risky call, as it was made in a session. */
  datatype RiskyCall = RiskyCall(tool: string, args: Args, risk: string, approvalId: string)

  /** The pause that registering the call opens. */
  function PauseBy(call: RiskyCall, hash: Hash, sessionId: string, persona: string): Pause {
    var preview := BuildPreview(hash, call.tool, call.args, call.risk, sessionId, persona, call.approvalId);
    Pause(PendingOf(preview), preview)
  }

  /** Its pending action and preview, field by field. */
  lemma PauseWritten(call: RiskyCall, hash: Hash, sessionId: string, persona: string)
    ensures var jobId := PausedJob(sessionId);
            PauseBy(call, hash, sessionId, persona) == Pause(
              PendingHitlAction(jobId, sessionId, persona, call.tool, call.args, call.risk, call.approvalId),
              Preview(call.tool, call.args, call.risk, jobId, sessionId, persona, call.approvalId, hash(call.args)))
  {
  }

  /**
   While the pause of a call is open, a request is accepted exactly when it is no rejection and names no other
   approval, and then the tool body receives the arguments the call was made with.
   */
  lemma AcceptedRunsPausedArgs(jobs: Table, call: RiskyCall, hash: Hash, sessionId: string, persona: string,
                               request: ResumeRequest)
    requires IsOpen(jobs, PauseBy(call, hash, sessionId, persona))
    ensures var verdict := Decide(MemGet(jobs, PausedJob(sessionId)), request, hash);
            && (verdict.Accept? <==>
                  request.decision != "reject" && (request.approvalId == "" || request.approvalId == call.approvalId))
            && (verdict.Accept? ==>
                  RunsWith(call.args, ResumePayload(request.decision, verdict.pending.approvalId)) == Some(call.args))
  {
    PassesIff(jobs, PauseBy(call, hash, sessionId, persona), request, hash);
  }

  /**
   The arguments logged with an accepted decision are those the tool body receives exactly when the decision
   is not an edit that really changes them.
   */
  lemma LoggedIsRunIff(jobs: Table, call: RiskyCall, hash: Hash, sessionId: string, persona: string,
                       request: ResumeRequest)
    requires IsOpen(jobs, PauseBy(call, hash, sessionId, persona))
    requires Decide(MemGet(jobs, PausedJob(sessionId)), request, hash).Accept?
    ensures var verdict := Decide(MemGet(jobs, PausedJob(sessionId)), request, hash);
            Some(verdict.toolArgs) == RunsWith(call.args, ResumePayload(request.decision, verdict.pending.approvalId))
            <==> request.decision != "edit" || request.editedArgs == map[] || request.editedArgs == call.args
  {
    AcceptedRunsPausedArgs(jobs, call, hash, sessionId, persona, request);
  }

  /** So an edit that changes the arguments is accepted and logged, and the call's own arguments run. */
  lemma EditIsNotRun(jobs: Table, call: RiskyCall, hash: Hash, sessionId: string, persona: string, edited: Args)
    requires IsOpen(jobs, PauseBy(call, hash, sessionId, persona)) && edited != map[] && edited != call.args
    ensures var request := ResumeRequest("edit", edited, call.approvalId, "operator");
            var verdict := Decide(MemGet(jobs, PausedJob(sessionId)), request, hash);
            && verdict.Accept? && verdict.toolArgs == edited
            && RunsWith(call.args, ResumePayload("edit", call.approvalId)) == Some(call.args) != Some(edited)
  {
    var request := ResumeRequest("edit", edited, call.approvalId, "operator");
    AcceptedRunsPausedArgs(jobs, call, hash, sessionId, persona, request);
  }

  // ---------------------------------------------------------------------------------------
  // A pause registered while the agent of its job is being resumed

  /** The resume is not ended by any of the events. */
  predicate Continues(events: seq<Event>, token: nat) {
    forall e :: e in events && e.ResumeEnds? ==> e.token != token
  }

  lemma {:induction false} StillRunning(s: Protocol, events: seq<Event>, token: nat, hash: Hash)
    requires token in s.resumes.running && token < s.resumes.begun && Continues(events, token)
    ensures var t := Run(s, events, hash).resumes;
            token in t.running && t.running[token] == s.resumes.running[token] && token < t.begun
  {
    if events != [] {
      var front, last := events[..|events| - 1], events[|events| - 1];
      assert last in events;
      StillRunning(s, front, token, hash);
    }
  }

  /**
   A pause registered while the agent of its job is being resumed is open afterwards exactly when that
   resume raised and nothing else closed the pause, during the resume or after it.
   */
  lemma PauseDuringResumeIff(s: Protocol, request: ResumeRequest, hash: Hash, before: seq<Event>, p: Pause,
                             during: seq<Event>, returned: bool, rest: seq<Event>)
    requires Decide(MemGet(s.jobs, p.pending.jobId), request, hash).Accept?
    requires Continues(before, s.resumes.begun) && Continues(during, s.resumes.begun)
    requires NotRepeated(during, p) && NotRepeated(rest, p)
    ensures var token := s.resumes.begun;
            var resumed := Next(s, Request(p.pending.jobId, request), hash);
            var paused := Run(resumed, before + [Store(PauseOp(p))], hash);
            var ended := Run(paused, during + [ResumeEnds(token, returned)], hash);
            IsOpen(Run(ended, rest, hash).jobs, p) <==>
              !returned && NoneCloses(paused, during, 0, p, hash) && NoneCloses(ended, rest, 0, p, hash)
  {
    var token := s.resumes.begun;
    var resumed := Next(s, Request(p.pending.jobId, request), hash);
    var paused := Run(resumed, before + [Store(PauseOp(p))], hash);
    var end := ResumeEnds(token, returned);
    StillRunning(resumed, before, token, hash);
    RunLast(resumed, before, Store(PauseOp(p)), hash);
    EventOpen(Run(resumed, before, hash), Store(PauseOp(p)), p, hash);
    StillRunning(paused, during, token, hash);
    RunLast(paused, during, end, hash);
    StaysOpenIff(paused, during, p, hash);
    EventOpen(Run(paused, during, hash), end, p, hash);
    var ended := Run(paused, during + [end], hash);
    if IsOpen(ended.jobs, p) {
      StaysOpenIff(ended, rest, p, hash);
    } else {
      StaysClosed(ended, rest, p, hash);
    }
  }


  // ---------------------------------------------------------------------------------------
  // The hash check

  /** Every pause of the run went through a preview built for its own arguments. */
  ghost predicate Registered(events: seq<Event>, hash: Hash) {
    forall e :: e in events && e.Store? && e.op.PauseForHitl? ==>
      && e.op.preview.Preview? && e.op.preview.paramsHash == hash(e.op.preview.args)
      && e.op.pending == PendingOf(e.op.preview)
  }

  ghost predicate HashesMatch(jobs: Table, hash: Hash) {
    forall id :: id in jobs && jobs[id].status == AWAITING_APPROVAL ==>
      jobs[id].pendingHitl.Some? && ExpectedHash(jobs[id].hitlPreview) == hash(jobs[id].pendingHitl.value.toolArgs)
  }

  lemma EventHashesMatch(s: Protocol, e: Event, hash: Hash)
    requires HashesMatch(s.jobs, hash) && Registered([e], hash)
    ensures HashesMatch(Next(s, e, hash).jobs, hash)
  {
    assert e in [e];
  }

  lemma {:induction false} RegisteredHashesMatch(s: Protocol, events: seq<Event>, hash: Hash)
    requires HashesMatch(s.jobs, hash) && Registered(events, hash)
    ensures HashesMatch(Run(s, events, hash).jobs, hash)
  {
    if events != [] {
      var front, last := events[..|events| - 1], events[|events| - 1];
      assert last in events;
      RegisteredHashesMatch(s, front, hash);
      EventHashesMatch(Run(s, front, hash), last, hash);
    }
  }

  /** When every pause was registered, no approval ever fails the hash check. */
  lemma ApprovalNeverMismatches(events: seq<Event>, hash: Hash, jobId: string, request: ResumeRequest)
    requires Registered(events, hash)
    ensures Decide(MemGet(Run(START, events, hash).jobs, jobId), request, hash) != Refuse(HashMismatch)
  {
    RegisteredHashesMatch(START, events, hash);
  }

  /** End to end: a tool call paused in the session of a job is found, approved and run with its own arguments. */
  lemma PausedJobIsApprovable(s: Protocol, hash: Hash, tool: string, args: Args, risk: string, persona: string,
                              jobId: string, approvalId: string, actor: string)
    requires ':' !in persona && jobId != ""
    ensures var preview := BuildPreview(hash, tool, args, risk, WorkerSession(persona, jobId), persona, approvalId);
            var pending := PendingOf(preview);
            var jobs := Next(s, Store(StoreOp.PauseForHitl(pending, preview)), hash).jobs;
            var request := ResumeRequest("approve", map[], approvalId, actor);
            && pending in MemPendingApprovals(jobs)
            && Decide(MemGet(jobs, jobId), request, hash) == Accept(pending, args)
            && RunsWith(args, ResumePayload(request.decision, pending.approvalId)) == Some(args)
  {
    PreviewNamesJob(hash, tool, args, risk, persona, jobId, approvalId);
    var preview := BuildPreview(hash, tool, args, risk, WorkerSession(persona, jobId), persona, approvalId);
    assert jobId in Next(s, Store(StoreOp.PauseForHitl(PendingOf(preview), preview)), hash).jobs;
  }

  // ---------------------------------------------------------------------------------------
  // Both stores

  /** Related stores give every request the same verdict. */
  lemma SameVerdict(mem: Table, pg: Table, jobId: string, request: ResumeRequest, hash: Hash)
    requires Related(mem, pg)
    ensures Decide(MemGet(mem, jobId), request, hash) == Decide(PgGet(pg, jobId), request, hash)
  {
    if jobId in mem { assert SameRecord(mem[jobId], pg[jobId]) && GoodRecord(mem[jobId], jobId); }
  }

  function PgMaybe(table: Table, op: Option<StoreOp>): Table {
    match op case None => table case Some(o) => PgStep(table, o)
  }

  function PgNext(s: Protocol, e: Event, hash: Hash): Protocol {
    var r := React(PgGet(s.jobs, Asked(e)), s.resumes, e, hash);
    Protocol(PgMaybe(s.jobs, r.op), r.resumes)
  }

  function PgProtocol(s: Protocol, events: seq<Event>, hash: Hash): Protocol {
    if events == [] then s
    else PgNext(PgProtocol(s, events[..|events| - 1], hash), events[|events| - 1], hash)
  }

  lemma NextRelated(s: Protocol, t: Protocol, e: Event, hash: Hash)
    requires Related(s.jobs, t.jobs) && s.resumes == t.resumes && (e.Store? ==> NonemptyIds([e.op]))
    ensures Related(Next(s, e, hash).jobs, PgNext(t, e, hash).jobs)
    ensures Next(s, e, hash).resumes == PgNext(t, e, hash).resumes
  {
    if e.Request? { SameVerdict(s.jobs, t.jobs, e.jobId, e.request, hash); }
    var r := React(MemGet(s.jobs, Asked(e)), s.resumes, e, hash);
    assert r == React(PgGet(t.jobs, Asked(e)), t.resumes, e, hash);
    if r.op.Some? {
      if e.Store? { assert e.op in [e.op]; }
      StepRelated(s.jobs, t.jobs, r.op.value);
    }
  }

  /** The approval protocol runs the same over either store. */
  lemma {:induction false} ProtocolSubstitutable(events: seq<Event>, hash: Hash)
    requires forall e :: e in events && e.Store? ==> NonemptyIds([e.op])
    ensures var mem, pg := Run(START, events, hash), PgProtocol(START, events, hash);
            Related(mem.jobs, pg.jobs) && mem.resumes == pg.resumes
  {
    if events != [] {
      var front, last := events[..|events| - 1], events[|events| - 1];
      assert last in events;
      ProtocolSubstitutable(front, hash);
      NextRelated(Run(START, front, hash), PgProtocol(START, front, hash), last, hash);
    }
  }

  // ---------------------------------------------------------------------------------------
  // The use case

  datatype Approval = Approval(
    actor: string, tool: string, persona: string, jobId: string, decision: string, toolArgs: Args, approvalId: string)

  datatype Outcome = Refused(why: Refusal) | Rejected | Resumed | AgentRaised

  /** A call that resumes an agent. */
  datatype Resumption = Resumption(persona: string, sessionId: string, payload: ResumePayload)

  /** The store after an accepted decision whose resume saw the operations `during`. */
  function ResumedStore(jobs: Table, jobId: string, during: seq<StoreOp>, returned: bool): Table {
    var resumed := MemRun(MemStep(jobs, StoreOp.MarkRunning(jobId)), during);
    if returned then MemStep(resumed, StoreOp.MarkCompleted(jobId)) else resumed
  }

  function Stores(ops: seq<StoreOp>): (events: seq<Event>)
    ensures |events| == |ops| && forall i :: 0 <= i < |ops| ==> events[i] == Store(ops[i])
  {
    seq(|ops|, i requires 0 <= i < |ops| => Store(ops[i]))
  }

  lemma {:induction false} RunStores(s: Protocol, ops: seq<StoreOp>, hash: Hash)
    ensures Run(s, Stores(ops), hash) == Protocol(MemRun(s.jobs, ops), s.resumes)
  {
    if ops != [] {
      var n := |ops| - 1;
      RunStores(s, ops[..n], hash);
      assert Stores(ops)[..n] == Stores(ops[..n]);
    }
  }

  /** It is the protocol's request, the operations, and the end of the resume the request began. */
  lemma ResumedStoreIsRun(s: Protocol, jobId: string, request: ResumeRequest, during: seq<StoreOp>, returned: bool,
                          hash: Hash)
    requires Decide(MemGet(s.jobs, jobId), request, hash).Accept?
    ensures var resumed := Run(Next(s, Request(jobId, request), hash), Stores(during), hash);
            Next(resumed, ResumeEnds(s.resumes.begun, returned), hash).jobs ==
              ResumedStore(s.jobs, jobId, during, returned)
  {
    RunStores(Next(s, Request(jobId, request), hash), during, hash);
  }

  method Perform(store: InMemoryJobStore, op: StoreOp)
    modifies store
    ensures store.jobs == MemStep(old(store.jobs), op)
  {
    match op {
      case UpsertPending(jobId, persona, ids) => store.UpsertPending(jobId, persona, ids);
      case UpsertRunning(jobId, sessionId, persona, ids) => store.UpsertRunning(jobId, sessionId, persona, ids);
      case PauseForHitl(pending, preview) => store.PauseForHitl(pending, preview);
      case MarkRunning(jobId) => store.MarkRunning(jobId);
      case MarkCompleted(jobId) => store.MarkCompleted(jobId);
      case MarkFailed(jobId) => store.MarkFailed(jobId);
    }
  }

  class ResumeHitlJob {
    const store: InMemoryJobStore
    const hash: Hash
    var approvals: seq<Approval>
    var bypasses: seq<string>
    var resumptions: seq<Resumption>

    constructor (store: InMemoryJobStore, hash: Hash)
      ensures this.store == store && this.hash == hash && approvals == [] && bypasses == [] && resumptions == []
    {
      this.store, this.hash := store, hash;
      approvals, bypasses, resumptions := [], [], [];
    }

    /** The resumed agent, which may register pauses, and everyone else who writes to the store meanwhile. */
    method Resume(during: seq<StoreOp>)
      modifies store
      ensures store.jobs == MemRun(old(store.jobs), during)
    {
      for i := 0 to |during|
        invariant store.jobs == MemRun(old(store.jobs), during[..i])
      {
        Perform(store, during[i]);
        assert during[..i + 1][..i] == during[..i];
      }
      assert during[..|during|] == during;
    }

    /** `agentReturns` tells whether resuming the agent returns or raises,
        `during` what is written to the store meanwhile. */
    method Execute(jobId: string, request: ResumeRequest, during: seq<StoreOp>, agentReturns: bool) returns (r: Outcome)
      modifies this, store
      ensures var verdict := Decide(MemGet(old(store.jobs), jobId), request, hash);
        && (verdict.Refuse? ==> r == Refused(verdict.why))
        && (verdict.Refuse? ==> store.jobs == old(store.jobs))
        && (verdict.Reject? ==> r == Rejected && store.jobs == MemStep(old(store.jobs), StoreOp.MarkFailed(jobId)))
        && (verdict.Accept? ==> r == (if agentReturns then Resumed else AgentRaised))
        && (verdict.Accept? ==> store.jobs == ResumedStore(old(store.jobs), jobId, during, agentReturns))
        && (!verdict.Refuse? ==> approvals == old(approvals) + [Approval(
              request.actor, verdict.pending.toolName, verdict.pending.persona, jobId, request.decision,
              if verdict.Accept? then verdict.toolArgs else verdict.pending.toolArgs, verdict.pending.approvalId)])
      ensures r == Refused(UnknownJob) <==> jobId !in old(store.jobs)
      ensures r.Refused? ==>
        store.jobs == old(store.jobs) && approvals == old(approvals) && resumptions == old(resumptions)
      ensures jobId in old(store.jobs) ==>
        var record := old(store.jobs)[jobId];
        r == Refused(NotAwaiting) <==> record.status != AWAITING_APPROVAL || record.pendingHitl == None
      ensures jobId in old(store.jobs) && old(store.jobs)[jobId].status == AWAITING_APPROVAL
              && old(store.jobs)[jobId].pendingHitl.Some? ==>
        var record := old(store.jobs)[jobId];
        var pending := record.pendingHitl.value;
        var named := request.approvalId == "" || request.approvalId == pending.approvalId;
        var altered := request.decision == "approve" && record.hitlPreview.Preview?
                       && record.hitlPreview.paramsHash !in ["", hash(pending.toolArgs)];
        var accepted := named && request.decision != "reject" && !altered;
        var args := if request.decision == "edit" && request.editedArgs != map[] then request.editedArgs
                    else pending.toolArgs;
        var resumed := MemRun(old(store.jobs)[jobId := record.(status := RUNNING, pendingHitl := None)], during);
        && (r == Refused(InvalidApprovalId) <==> !named)
        && (r == Refused(HashMismatch) <==> named && altered)
        && (r == Rejected <==> named && request.decision == "reject")
        && (r == Resumed <==> accepted && agentReturns)
        && (r == AgentRaised <==> accepted && !agentReturns)
        && (r == Rejected ==> store.jobs == old(store.jobs)[jobId := record.(status := FAILED)])
        && (accepted && agentReturns && jobId in resumed ==>
              store.jobs == resumed[jobId := resumed[jobId].(status := COMPLETED)])
        && (accepted && !(agentReturns && jobId in resumed) ==> store.jobs == resumed)
        && (accepted || r == Rejected ==> approvals == old(approvals) + [Approval(
              request.actor, pending.toolName, pending.persona, jobId, request.decision, args, pending.approvalId)])
        && resumptions == old(resumptions) +
             if accepted then [Resumption(record.persona, record.sessionId,
                                          ResumePayload(request.decision, pending.approvalId))]
             else []
      ensures bypasses == old(bypasses) + (if r == Refused(InvalidApprovalId) then ["invalid_approval_id"]
                                           else if r == Refused(HashMismatch) then ["params_hash_mismatch"] else [])
    {
      var found := MemGet(store.jobs, jobId);
      if found.None? {
        return Refused(UnknownJob);
      }
      var record := found.value;
      if record.status != AWAITING_APPROVAL || record.pendingHitl.None? {
        return Refused(NotAwaiting);
      }
      var pending := record.pendingHitl.value;
      if request.approvalId != "" && request.approvalId != pending.approvalId {
        bypasses := bypasses + ["invalid_approval_id"];
        return Refused(InvalidApprovalId);
      }
      if request.decision == "reject" {
        LogApproval(pending, jobId, request, pending.toolArgs);
        store.MarkFailed(jobId);
        return Rejected;
      }
      var edited := request.decision == "edit" && request.editedArgs != map[];
      var toolArgs := if edited then request.editedArgs else pending.toolArgs;
      if request.decision == "approve" {
        var expected := ExpectedHash(record.hitlPreview);
        if expected != "" && hash(toolArgs) != expected {
          bypasses := bypasses + ["params_hash_mismatch"];
          return Refused(HashMismatch);
        }
      }
      LogApproval(pending, jobId, request, toolArgs);
      store.MarkRunning(jobId);
      resumptions := resumptions +
        [Resumption(record.persona, record.sessionId, ResumePayload(request.decision, pending.approvalId))];
      Resume(during);
      if !agentReturns {
        return AgentRaised;
      }
      store.MarkCompleted(jobId);
      return Resumed;
    }

    method LogApproval(pending: PendingHitlAction, jobId: string, request: ResumeRequest, toolArgs: Args)
      modifies this`approvals
      ensures approvals == old(approvals) + [Approval(request.actor, pending.toolName, pending.persona, jobId,
                                                      request.decision, toolArgs, pending.approvalId)]
    {
      approvals := approvals + [Approval(request.actor, pending.toolName, pending.persona, jobId,
                                         request.decision, toolArgs, pending.approvalId)];
    }
  }
}
