/**
 The dependency-gated job scheduler as a protocol: batches are submitted, workers take the
 head of a FIFO queue, put a job that is not ready back at the tail, and end the jobs they
 took. Several workers may hold jobs at once. How a run ends is irrelevant here, because
 every ending marks the persona; WorkerPlane proves that the worker code refines this.
 */
module Scheduler {
  import opened Common
  import opened WorkerModels

  /** Completed personas of each investigation. */
  type Marks = map<Key, seq<string>>

  datatype Sched = Sched(queue: seq<WorkerJob>, running: seq<WorkerJob>, completed: Marks, ended: seq<WorkerJob>)

  const INIT := Sched([], [], map[], [])

  function CompletedAt(completed: Marks, key: Key): seq<string> {
    if key in completed then completed[key] else []
  }

  function Mark(completed: Marks, job: WorkerJob): Marks {
    var done := CompletedAt(completed, KeyOf(job));
    if job.persona in done then completed else completed[KeyOf(job) := done + [job.persona]]
  }

  predicate Ready(completed: Marks, job: WorkerJob) {
    job.dependsOnPersona == "" || job.dependsOnPersona in CompletedAt(completed, KeyOf(job))
  }

  datatype Op = Submit(jobs: seq<WorkerJob>) | Take | Finish(index: nat)

  function Step(s: Sched, op: Op): Sched {
    match op
    case Submit(jobs) => s.(queue := s.queue + jobs)
    case Take =>
      if s.queue == [] then s
      else if Ready(s.completed, s.queue[0]) then s.(queue := s.queue[1..], running := s.running + [s.queue[0]])
      else s.(queue := s.queue[1..] + [s.queue[0]])
    case Finish(i) =>
      if i >= |s.running| then s
      else s.(running := RemoveAt(s.running, i),
              completed := Mark(s.completed, s.running[i]),
              ended := s.ended + [s.running[i]])
  }

  function Run(s: Sched, ops: seq<Op>): Sched
    decreases |ops|
  {
    if ops == [] then s else Run(Step(s, ops[0]), ops[1..])
  }

  lemma {:induction false} RunAppend(s: Sched, a: seq<Op>, b: seq<Op>)
    ensures Run(s, a + b) == Run(Run(s, a), b)
    decreases |a|
  {
    if a == [] {
      assert a + b == b;
    } else {
      RunAppend(Step(s, a[0]), a[1..], b);
      assert (a + b)[1..] == a[1..] + b;
    }
  }

  /** One worker that takes a job and runs it to its end before doing anything else. */
  function ProcessNext(s: Sched): Sched {
    if s.queue == [] then s
    else if Ready(s.completed, s.queue[0]) then
      Sched(s.queue[1..], s.running, Mark(s.completed, s.queue[0]), s.ended + [s.queue[0]])
    else s.(queue := s.queue[1..] + [s.queue[0]])
  }

  /** It is a `Take` of the protocol, followed by the end of the job if one was taken. */
  lemma ProcessNextIsTakeThenFinish(s: Sched)
    ensures var t := Step(s, Take);
            ProcessNext(s) == if |t.running| > |s.running| then Step(t, Finish(|s.running|)) else t
  {
    if s.queue != [] {
      assert RemoveAt(s.running + [s.queue[0]], |s.running|) == s.running;
    }
  }

  // ---------------------------------------------------------------------------------------
  // Conservation

  function Submitted(ops: seq<Op>): seq<WorkerJob> {
    if ops == [] then []
    else (if ops[0].Submit? then ops[0].jobs else []) + Submitted(ops[1..])
  }

  ghost function AllJobs(s: Sched): multiset<WorkerJob> {
    multiset(s.queue) + multiset(s.running) + multiset(s.ended)
  }

  lemma TakeConserves(s: Sched)
    ensures AllJobs(Step(s, Take)) == AllJobs(s)
  {
    if s.queue != [] {
      var head, rest := s.queue[0], s.queue[1..];
      assert s.queue == [head] + rest;
      assert multiset(s.queue) == multiset{head} + multiset(rest) == multiset(rest + [head]);
    }
  }

  lemma FinishConserves(s: Sched, i: nat)
    ensures AllJobs(Step(s, Finish(i))) == AllJobs(s)
  {
    if i < |s.running| { RemoveAtMultiset(s.running, i); }
  }

  lemma StepConserves(s: Sched, op: Op)
    ensures AllJobs(Step(s, op)) == AllJobs(s) + multiset(if op.Submit? then op.jobs else [])
  {
    match op
    case Submit(jobs) => assert multiset(s.queue + jobs) == multiset(s.queue) + multiset(jobs);
    case Take => TakeConserves(s);
    case Finish(i) => FinishConserves(s, i);
  }

  /** No run of any interleaving loses, duplicates or alters a job. */
  lemma {:induction false} Conservation(s: Sched, ops: seq<Op>)
    ensures AllJobs(Run(s, ops)) == AllJobs(s) + multiset(Submitted(ops))
    decreases |ops|
  {
    if ops != [] {
      StepConserves(s, ops[0]);
      Conservation(Step(s, ops[0]), ops[1..]);
    }
  }

  /** Once nothing is queued or held, each submitted job has ended exactly as often as it was submitted. */
  lemma EachJobEndsOnce(ops: seq<Op>)
    requires Run(INIT, ops).queue == [] && Run(INIT, ops).running == []
    ensures multiset(Run(INIT, ops).ended) == multiset(Submitted(ops))
  {
    Conservation(INIT, ops);
    var s := Run(INIT, ops);
    assert AllJobs(s) == multiset(s.ended);
  }

  // ---------------------------------------------------------------------------------------
  // A persona is recorded once

  ghost predicate MarkedOnce(completed: Marks) {
    forall k :: k in completed ==> Distinct(completed[k])
  }

  lemma MarkKeepsOnce(completed: Marks, job: WorkerJob)
    requires MarkedOnce(completed)
    ensures MarkedOnce(Mark(completed, job)) && job.persona in CompletedAt(Mark(completed, job), KeyOf(job))
  {
    var done := CompletedAt(completed, KeyOf(job));
    assert Distinct(done);
    if job.persona !in done { assert Distinct(done + [job.persona]); }
  }

  /** In every reachable state each completed persona of an investigation is listed once. */
  lemma {:induction false} RunMarksOnce(s: Sched, ops: seq<Op>)
    requires MarkedOnce(s.completed)
    ensures MarkedOnce(Run(s, ops).completed)
    decreases |ops|
  {
    if ops != [] {
      if ops[0].Finish? && ops[0].index < |s.running| { MarkKeepsOnce(s.completed, s.running[ops[0].index]); }
      RunMarksOnce(Step(s, ops[0]), ops[1..]);
    }
  }

  // ---------------------------------------------------------------------------------------
  // Schedulable orders

  type Tag = (Key, string)

  function TagOf(job: WorkerJob): Tag {
    (KeyOf(job), job.persona)
  }

  predicate Enabled(job: WorkerJob, done: set<Tag>) {
    job.dependsOnPersona == "" || (KeyOf(job), job.dependsOnPersona) in done
  }

  /** Executing `order` from front to back never meets a job that is not ready. */
  predicate Schedulable(order: seq<WorkerJob>, done: set<Tag>) {
    order == [] || (Enabled(order[0], done) && Schedulable(order[1..], done + {TagOf(order[0])}))
  }

  ghost function TagsOf(jobs: seq<WorkerJob>): set<Tag> {
    set j | j in jobs :: TagOf(j)
  }

  ghost function DoneTags(completed: Marks): set<Tag> {
    set k, p | k in completed && p in completed[k] :: (k, p)
  }

  lemma ReadyIsEnabled(completed: Marks, job: WorkerJob)
    ensures Ready(completed, job) <==> Enabled(job, DoneTags(completed))
  {
  }

  lemma MarkTags(completed: Marks, job: WorkerJob)
    ensures DoneTags(Mark(completed, job)) == DoneTags(completed) + {TagOf(job)}
  {
    var key, after := KeyOf(job), Mark(completed, job);
    assert forall k, p :: (k, p) in DoneTags(after) <==> (k, p) in DoneTags(completed) || (k, p) == TagOf(job);
  }

  lemma {:induction false} SchedulableMono(order: seq<WorkerJob>, done: set<Tag>, more: set<Tag>)
    requires Schedulable(order, done) && done <= more
    ensures Schedulable(order, more)
  {
    if order != [] {
      SchedulableMono(order[1..], done + {TagOf(order[0])}, more + {TagOf(order[0])});
    }
  }

  lemma {:induction false} SchedulableAppend(a: seq<WorkerJob>, b: seq<WorkerJob>, done: set<Tag>)
    requires Schedulable(a, done) && Schedulable(b, {})
    ensures Schedulable(a + b, done)
  {
    if a == [] {
      SchedulableMono(b, {}, done);
      assert a + b == b;
    } else {
      SchedulableAppend(a[1..], b, done + {TagOf(a[0])});
      assert (a + b)[1..] == a[1..] + b;
    }
  }

  /** A job that is run early leaves the rest of the order schedulable. */
  lemma {:induction false} SchedulableRemove(order: seq<WorkerJob>, i: nat, done: set<Tag>)
    requires i < |order| && Schedulable(order, done)
    ensures Schedulable(RemoveAt(order, i), done + {TagOf(order[i])})
  {
    var after := done + {TagOf(order[i])};
    if i == 0 {
      assert RemoveAt(order, 0) == order[1..];
    } else {
      SchedulableRemove(order[1..], i - 1, done + {TagOf(order[0])});
      var rest := RemoveAt(order, i);
      assert rest[1..] == RemoveAt(order[1..], i - 1);
      assert after + {TagOf(order[0])} == done + {TagOf(order[0])} + {TagOf(order[1..][i - 1])};
    }
  }

  /** `queue` can be executed in some order; jobs held by workers count as done. */
  ghost predicate Grounded(queue: seq<WorkerJob>, done: set<Tag>) {
    exists order :: multiset(order) == multiset(queue) && Schedulable(order, done)
  }

  lemma GroundedHasReady(queue: seq<WorkerJob>, done: set<Tag>)
    requires Grounded(queue, done) && queue != []
    ensures exists i :: 0 <= i < |queue| && Enabled(queue[i], done)
  {
    var order :| multiset(order) == multiset(queue) && Schedulable(order, done);
    assert |order| == |multiset(order)| == |multiset(queue)|;
    assert order[0] in multiset(queue);
  }

  /** Moving the head to the tail keeps a queue grounded. */
  lemma GroundedRotate(queue: seq<WorkerJob>, done: set<Tag>)
    requires queue != []
    ensures Grounded(queue[1..] + [queue[0]], done) <==> Grounded(queue, done)
  {
    assert queue == [queue[0]] + queue[1..];
    assert multiset(queue[1..] + [queue[0]]) == multiset(queue);
  }

  lemma RemoveFromOrder(order: seq<WorkerJob>, queue: seq<WorkerJob>) returns (i: nat)
    requires queue != [] && multiset(order) == multiset(queue)
    ensures i < |order| && order[i] == queue[0]
    ensures multiset(RemoveAt(order, i)) == multiset(queue[1..])
  {
    assert queue == [queue[0]] + queue[1..];
    assert queue[0] in multiset(order);
    i :| 0 <= i < |order| && order[i] == queue[0];
    RemoveAtMultiset(order, i);
    assert multiset(queue) == multiset{queue[0]} + multiset(queue[1..]);
    assert multiset(RemoveAt(order, i)) == multiset(order) - multiset{order[i]};
  }

  lemma GroundedTake(queue: seq<WorkerJob>, done: set<Tag>)
    requires Grounded(queue, done) && queue != []
    ensures Grounded(queue[1..], done + {TagOf(queue[0])})
  {
    var order :| multiset(order) == multiset(queue) && Schedulable(order, done);
    var i := RemoveFromOrder(order, queue);
    SchedulableRemove(order, i, done);
  }

  lemma GroundedAppend(queue: seq<WorkerJob>, batch: seq<WorkerJob>, done: set<Tag>)
    requires Grounded(queue, done) && Schedulable(batch, {})
    ensures Grounded(queue + batch, done)
  {
    var order :| multiset(order) == multiset(queue) && Schedulable(order, done);
    SchedulableAppend(order, batch, done);
    assert multiset(order + batch) == multiset(queue + batch);
  }

  // ---------------------------------------------------------------------------------------
  // Batches

  datatype Request = Request(
    eventId: string, playbookId: string, payload: Payload, correlationId: string, tenantId: string, sequential: bool)

  /** The jobs of one routing decision: the i-th depends on the persona just before it. */
  function JobsFor(request: Request, personas: seq<string>, suffixes: seq<string>): (jobs: seq<WorkerJob>)
    requires |suffixes| == |personas|
  {
    seq(|personas|, i requires 0 <= i < |personas| =>
      WorkerJob(personas[i] + "-" + request.eventId + "-" + suffixes[i], request.eventId, personas[i],
                request.playbookId, request.payload, Or(request.correlationId, request.eventId), request.tenantId,
                if request.sequential && i > 0 then personas[i - 1] else "", 0, 0.0, 0))
  }

  function RequestKey(request: Request): Key {
    (request.tenantId, Or(request.correlationId, request.eventId))
  }

  lemma JobsForKeys(request: Request, personas: seq<string>, suffixes: seq<string>)
    requires |suffixes| == |personas|
    ensures forall j :: j in JobsFor(request, personas, suffixes) ==> KeyOf(j) == RequestKey(request)
  {
  }

  /** Each job carries its persona and the event, playbook, payload and tenant of the request. */
  lemma JobsCarryRequest(request: Request, personas: seq<string>, suffixes: seq<string>, i: nat)
    requires |suffixes| == |personas| && i < |personas|
    ensures var job := JobsFor(request, personas, suffixes)[i];
            && job.persona == personas[i] && job.eventId == request.eventId && job.tenantId == request.tenantId
            && job.playbookId == request.playbookId && job.payload == request.payload
            && job.correlationId == (if request.correlationId != "" then request.correlationId else request.eventId)
            && job.dependsOnPersona == (if request.sequential && i > 0 then personas[i - 1] else "")
            && job.jobId == personas[i] + "-" + request.eventId + "-" + suffixes[i]
  {
    assert JobsFor(request, personas, suffixes)[i].correlationId == Or(request.correlationId, request.eventId);
  }

  /** Random suffixes: all of one length, no two alike. */
  ghost predicate UniqueSuffixes(suffixes: seq<string>) {
    && Distinct(suffixes)
    && forall i, j :: 0 <= i < |suffixes| && 0 <= j < |suffixes| ==> |suffixes[i]| == |suffixes[j]|
  }

  lemma UniqueJobIds(request: Request, personas: seq<string>, suffixes: seq<string>)
    requires |suffixes| == |personas| && UniqueSuffixes(suffixes)
    ensures var jobs := JobsFor(request, personas, suffixes);
            forall i, j :: 0 <= i < j < |jobs| ==> jobs[i].jobId != jobs[j].jobId
  {
    var jobs := JobsFor(request, personas, suffixes);
    forall i, j | 0 <= i < j < |jobs| ensures jobs[i].jobId != jobs[j].jobId {
      EndsWith(personas[i] + "-" + request.eventId + "-", suffixes[i]);
      EndsWith(personas[j] + "-" + request.eventId + "-", suffixes[j]);
      assert |suffixes[i]| == |suffixes[j]|;
    }
  }

  lemma EndsWith(prefix: string, suffix: string)
    ensures (prefix + suffix)[|prefix + suffix| - |suffix|..] == suffix
  {
  }

  /** `jobs` is a chain over `personas`, all of one key. */
  ghost predicate Links(jobs: seq<WorkerJob>, personas: seq<string>, key: Key) {
    && |jobs| == |personas|
    && forall i {:trigger jobs[i]} :: 0 <= i < |jobs| ==>
         KeyOf(jobs[i]) == key && jobs[i].persona == personas[i] &&
         jobs[i].dependsOnPersona == if i > 0 then personas[i - 1] else ""
  }

  lemma JobsForLinks(request: Request, personas: seq<string>, suffixes: seq<string>)
    requires |suffixes| == |personas| && request.sequential
    ensures Links(JobsFor(request, personas, suffixes), personas, RequestKey(request))
  {
  }

  lemma {:induction false} BatchTail(request: Request, personas: seq<string>, suffixes: seq<string>, i: nat,
                                     done: set<Tag>)
    requires |suffixes| == |personas| && i <= |personas|
    requires i > 0 && request.sequential ==> (RequestKey(request), personas[i - 1]) in done
    ensures Schedulable(JobsFor(request, personas, suffixes)[i..], done)
    decreases |personas| - i
  {
    var jobs := JobsFor(request, personas, suffixes);
    if i < |personas| {
      assert jobs[i..][0] == jobs[i] && jobs[i..][1..] == jobs[i + 1..];
      BatchTail(request, personas, suffixes, i + 1, done + {TagOf(jobs[i])});
    }
  }

  /** Every batch is schedulable in its own order, whatever the persona list. */
  lemma BatchSchedulable(request: Request, personas: seq<string>, suffixes: seq<string>)
    requires |suffixes| == |personas|
    ensures Schedulable(JobsFor(request, personas, suffixes), {})
  {
    BatchTail(request, personas, suffixes, 0, {});
    assert JobsFor(request, personas, suffixes)[0..] == JobsFor(request, personas, suffixes);
  }

  /** So is a job that waits for no one, such as a revision the critic asks for or a spawned job. */
  lemma LoneJobSchedulable(job: WorkerJob)
    requires job.dependsOnPersona == ""
    ensures Schedulable([job], {})
  {
    assert [job][1..] == [];
  }

  /** Every submission of the run can be executed in its own order. */
  ghost predicate SchedulableOnly(ops: seq<Op>) {
    forall op :: op in ops && op.Submit? ==> Schedulable(op.jobs, {})
  }

  // ---------------------------------------------------------------------------------------
  // Progress

  ghost predicate Live(s: Sched) {
    Grounded(s.queue, DoneTags(s.completed) + TagsOf(s.running))
  }

  lemma SubmitLive(s: Sched, jobs: seq<WorkerJob>)
    requires Live(s) && Schedulable(jobs, {})
    ensures Live(Step(s, Submit(jobs)))
  {
    GroundedAppend(s.queue, jobs, DoneTags(s.completed) + TagsOf(s.running));
  }

  lemma TagsAppend(jobs: seq<WorkerJob>, job: WorkerJob)
    ensures TagsOf(jobs + [job]) == TagsOf(jobs) + {TagOf(job)}
  {
    assert forall j :: j in jobs + [job] <==> j in jobs || j == job;
  }

  lemma TagsRemoveAt(jobs: seq<WorkerJob>, i: nat)
    requires i < |jobs|
    ensures TagsOf(jobs) == TagsOf(RemoveAt(jobs, i)) + {TagOf(jobs[i])}
  {
    assert jobs == jobs[..i] + [jobs[i]] + jobs[i + 1..];
    assert forall j :: j in jobs <==> j in RemoveAt(jobs, i) || j == jobs[i];
  }

  lemma TakeLive(s: Sched)
    requires Live(s)
    ensures Live(Step(s, Take))
  {
    if s.queue != [] {
      GroundedTake(s.queue, DoneTags(s.completed) + TagsOf(s.running));
      GroundedRotate(s.queue, DoneTags(s.completed) + TagsOf(s.running));
      TagsAppend(s.running, s.queue[0]);
      assert DoneTags(s.completed) + TagsOf(s.running) + {TagOf(s.queue[0])}
          == DoneTags(s.completed) + (TagsOf(s.running) + {TagOf(s.queue[0])});
    }
  }

  lemma FinishLive(s: Sched, i: nat)
    requires Live(s)
    ensures Live(Step(s, Finish(i)))
  {
    if i < |s.running| {
      var job, t := s.running[i], Step(s, Finish(i));
      MarkTags(s.completed, job);
      TagsRemoveAt(s.running, i);
      assert DoneTags(t.completed) + TagsOf(t.running) == DoneTags(s.completed) + TagsOf(s.running);
    }
  }

  lemma StepLive(s: Sched, op: Op)
    requires Live(s) && (op.Submit? ==> Schedulable(op.jobs, {}))
    ensures Live(Step(s, op))
  {
    match op
    case Submit(jobs) => SubmitLive(s, jobs);
    case Take => TakeLive(s);
    case Finish(i) => FinishLive(s, i);
  }

  lemma {:induction false} RunLive(s: Sched, ops: seq<Op>)
    requires Live(s) && SchedulableOnly(ops)
    ensures Live(Run(s, ops))
    decreases |ops|
  {
    if ops != [] {
      StepLive(s, ops[0]);
      RunLive(Step(s, ops[0]), ops[1..]);
    }
  }

  lemma InitLive()
    ensures Live(INIT)
  {
    var order: seq<WorkerJob> := [];
    assert multiset(order) == multiset(INIT.queue) &&
           Schedulable(order, DoneTags(INIT.completed) + TagsOf(INIT.running));
  }

  /** No deadlock: in every reachable state with nothing held by a worker, some queued job is ready. */
  lemma NoDeadlock(ops: seq<Op>)
    requires SchedulableOnly(ops)
    ensures var s := Run(INIT, ops);
            s.running == [] && s.queue != [] ==> exists i :: 0 <= i < |s.queue| && Ready(s.completed, s.queue[i])
  {
    InitLive();
    RunLive(INIT, ops);
    var s := Run(INIT, ops);
    if s.running == [] && s.queue != [] {
      assert DoneTags(s.completed) + TagsOf(s.running) == DoneTags(s.completed);
      GroundedHasReady(s.queue, DoneTags(s.completed));
      var i :| 0 <= i < |s.queue| && Enabled(s.queue[i], DoneTags(s.completed));
      ReadyIsEnabled(s.completed, s.queue[i]);
    }
  }
}
