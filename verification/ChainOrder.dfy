/**
 Sequential batches under any number of workers: which names, and which other traffic on the same
 investigation, keep the jobs of a chain in plan order.
 */
module ChainOrder {
  import opened Common
  import opened WorkerModels
  import opened Scheduler

  datatype Chain = Chain(request: Request, personas: seq<string>, suffixes: seq<string>) {
    ghost predicate Valid() {
      request.sequential && |suffixes| == |personas|
    }

    function Jobs(): seq<WorkerJob>
      requires |suffixes| == |personas|
    {
      JobsFor(request, personas, suffixes)
    }

    function Key(): Key {
      RequestKey(request)
    }
  }

  /** The names that some job of the chain depends on: all but the last. */
  function Awaited(personas: seq<string>): seq<string> {
    if personas == [] then [] else personas[..|personas| - 1]
  }

  /** They are nonempty and pairwise distinct. */
  ghost predicate DistinctNames(personas: seq<string>) {
    "" !in Awaited(personas) && Distinct(Awaited(personas))
  }

  lemma ChainLinks(c: Chain)
    requires c.Valid()
    ensures Links(c.Jobs(), c.personas, c.Key())
  {
    JobsForLinks(c.request, c.personas, c.suffixes);
  }

  // ---------------------------------------------------------------------------------------
  // Looking at a part of a state

  /** What is looked at: all jobs and marks of a key, or the jobs of one chain and the marks of some names. */
  datatype Lens = WholeKey(key: Key) | OneChain(key: Key, jobs: seq<WorkerJob>, names: seq<string>) {
    predicate Owns(job: WorkerJob) {
      match this
      case WholeKey(key) => KeyOf(job) == key
      case OneChain(_, jobs, _) => job in jobs
    }

    predicate Sees(persona: string) {
      WholeKey? || persona in names
    }

    /** Ending the job does not show: it is not looked at and marks nothing that is. */
    predicate Harmless(job: WorkerJob) {
      !Owns(job) && (KeyOf(job) == key ==> !Sees(job.persona))
    }

    ghost predicate Valid() {
      OneChain? ==> forall j :: j in jobs ==> KeyOf(j) == key
    }
  }

  /** The owned jobs, in order. */
  function Own(jobs: seq<WorkerJob>, lens: Lens): seq<WorkerJob> {
    if jobs == [] then []
    else if lens.Owns(jobs[0]) then [jobs[0]] + Own(jobs[1..], lens)
    else Own(jobs[1..], lens)
  }

  lemma {:induction false} OwnAppend(a: seq<WorkerJob>, b: seq<WorkerJob>, lens: Lens)
    ensures Own(a + b, lens) == Own(a, lens) + Own(b, lens)
  {
    if a == [] {
      assert a + b == b;
    } else {
      OwnAppend(a[1..], b, lens);
      assert (a + b)[1..] == a[1..] + b;
    }
  }

  lemma OwnOne(job: WorkerJob, lens: Lens)
    ensures Own([job], lens) == if lens.Owns(job) then [job] else []
  {
    assert [job][1..] == [];
  }

  lemma OwnLast(jobs: seq<WorkerJob>, job: WorkerJob, lens: Lens)
    ensures Own(jobs + [job], lens) == Own(jobs, lens) + if lens.Owns(job) then [job] else []
  {
    OwnAppend(jobs, [job], lens);
    OwnOne(job, lens);
  }

  lemma OwnRemoveAt(jobs: seq<WorkerJob>, i: nat, lens: Lens)
    requires i < |jobs|
    ensures Own(jobs, lens) ==
      Own(jobs[..i], lens) + (if lens.Owns(jobs[i]) then [jobs[i]] else []) + Own(jobs[i + 1..], lens)
    ensures Own(RemoveAt(jobs, i), lens) == Own(jobs[..i], lens) + Own(jobs[i + 1..], lens)
  {
    assert jobs == (jobs[..i] + [jobs[i]]) + jobs[i + 1..];
    OwnAppend(jobs[..i] + [jobs[i]], jobs[i + 1..], lens);
    OwnLast(jobs[..i], jobs[i], lens);
    OwnAppend(jobs[..i], jobs[i + 1..], lens);
  }

  lemma {:induction false} OwnNone(jobs: seq<WorkerJob>, lens: Lens)
    requires forall j :: j in jobs ==> !lens.Owns(j)
    ensures Own(jobs, lens) == []
  {
    if jobs != [] { OwnNone(jobs[1..], lens); }
  }

  lemma {:induction false} OwnAll(jobs: seq<WorkerJob>, lens: Lens)
    requires forall j :: j in jobs ==> lens.Owns(j)
    ensures Own(jobs, lens) == jobs
  {
    if jobs != [] { OwnAll(jobs[1..], lens); }
  }

  /** The seen names, in order. */
  function Seen(done: seq<string>, lens: Lens): seq<string> {
    if done == [] then []
    else
      var front, last := Seen(done[..|done| - 1], lens), done[|done| - 1];
      if lens.Sees(last) then front + [last] else front
  }

  lemma SeenLast(done: seq<string>, persona: string, lens: Lens)
    ensures Seen(done + [persona], lens) ==
      if lens.Sees(persona) then Seen(done, lens) + [persona] else Seen(done, lens)
  {
    assert (done + [persona])[..|done|] == done;
  }

  lemma {:induction false} SeenIn(done: seq<string>, lens: Lens, persona: string)
    ensures persona in Seen(done, lens) <==> persona in done && lens.Sees(persona)
    ensures lens.WholeKey? ==> Seen(done, lens) == done
  {
    if done != [] {
      SeenIn(done[..|done| - 1], lens, persona);
      assert done == done[..|done| - 1] + [done[|done| - 1]];
    }
  }

  datatype View = View(queued: multiset<WorkerJob>, held: seq<WorkerJob>, ended: seq<WorkerJob>, done: seq<string>)

  const NOTHING := View(multiset{}, [], [], [])

  ghost function ViewOf(s: Sched, lens: Lens): View {
    View(multiset(Own(s.queue, lens)), Own(s.running, lens), Own(s.ended, lens),
         Seen(CompletedAt(s.completed, lens.key), lens))
  }

  // ---------------------------------------------------------------------------------------
  // What a step does to the view

  /** Every job around is owned or harmless. */
  ghost predicate Quiet(s: Sched, lens: Lens) {
    && (forall j :: j in s.queue ==> lens.Owns(j) || lens.Harmless(j))
    && (forall j :: j in s.running ==> lens.Owns(j) || lens.Harmless(j))
  }

  lemma QuietStep(s: Sched, op: Op, lens: Lens)
    requires Quiet(s, lens) && (op.Submit? ==> forall j :: j in op.jobs ==> lens.Owns(j) || lens.Harmless(j))
    ensures Quiet(Step(s, op), lens)
  {
    match op
    case Submit(_) =>
    case Take => if s.queue != [] { assert s.queue[0] in s.queue; }
    case Finish(_) =>
  }

  ghost predicate Starts(v: View, v': View, lens: Lens, job: WorkerJob) {
    && job in v.queued && lens.Owns(job)
    && (job.dependsOnPersona == "" || (lens.Sees(job.dependsOnPersona) ==> job.dependsOnPersona in v.done))
    && v' == v.(queued := v.queued - multiset{job}, held := v.held + [job])
  }

  ghost predicate Ends(v: View, v': View, lens: Lens, i: nat) {
    && i < |v.held|
    && var persona := v.held[i].persona;
       v' == View(v.queued, RemoveAt(v.held, i), v.ended + [v.held[i]],
                  if lens.Sees(persona) && persona !in v.done then v.done + [persona] else v.done)
  }

  lemma HeadOwned(queue: seq<WorkerJob>, lens: Lens)
    requires queue != []
    ensures var here, there := multiset(Own(queue, lens)), multiset(Own(queue[1..], lens));
            if lens.Owns(queue[0]) then here == there + multiset{queue[0]} && there == here - multiset{queue[0]}
            else here == there
    ensures multiset(Own(queue[1..] + [queue[0]], lens)) == multiset(Own(queue, lens))
  {
    OwnLast(queue[1..], queue[0], lens);
    assert multiset([queue[0]] + Own(queue[1..], lens)) == multiset(Own(queue[1..], lens)) + multiset{queue[0]};
  }

  lemma TakeOther(s: Sched, lens: Lens)
    requires s.queue != [] && !(lens.Owns(s.queue[0]) && Ready(s.completed, s.queue[0]))
    ensures ViewOf(Step(s, Take), lens) == ViewOf(s, lens)
  {
    HeadOwned(s.queue, lens);
    OwnLast(s.running, s.queue[0], lens);
  }

  lemma TakeOwn(s: Sched, lens: Lens)
    requires lens.Valid() && s.queue != [] && lens.Owns(s.queue[0]) && Ready(s.completed, s.queue[0])
    ensures Starts(ViewOf(s, lens), ViewOf(Step(s, Take), lens), lens, s.queue[0])
  {
    HeadOwned(s.queue, lens);
    OwnLast(s.running, s.queue[0], lens);
    SeenIn(CompletedAt(s.completed, lens.key), lens, s.queue[0].dependsOnPersona);
  }

  /** Taking the head leaves the view alone, or starts one ready owned job. */
  lemma TakeView(s: Sched, lens: Lens)
    requires lens.Valid()
    ensures ViewOf(Step(s, Take), lens) == ViewOf(s, lens)
      || (s.queue != [] && Starts(ViewOf(s, lens), ViewOf(Step(s, Take), lens), lens, s.queue[0]))
  {
    if s.queue != [] {
      if lens.Owns(s.queue[0]) && Ready(s.completed, s.queue[0]) {
        TakeOwn(s, lens);
      } else {
        TakeOther(s, lens);
      }
    }
  }

  lemma HeldAround(running: seq<WorkerJob>, i: nat, lens: Lens) returns (k: nat)
    requires i < |running| && lens.Owns(running[i])
    ensures k < |Own(running, lens)| && Own(running, lens)[k] == running[i]
    ensures Own(RemoveAt(running, i), lens) == RemoveAt(Own(running, lens), k)
  {
    OwnRemoveAt(running, i, lens);
    var before, after := Own(running[..i], lens), Own(running[i + 1..], lens);
    var held := Own(running, lens);
    k := |before|;
    assert held == before + [running[i]] + after;
    assert held[..k] == before && held[k + 1..] == after;
  }

  lemma MarkSeen(completed: Marks, job: WorkerJob, lens: Lens)
    ensures var before, after := CompletedAt(completed, lens.key), CompletedAt(Mark(completed, job), lens.key);
            Seen(after, lens) ==
              if KeyOf(job) == lens.key && lens.Sees(job.persona) && job.persona !in Seen(before, lens)
              then Seen(before, lens) + [job.persona] else Seen(before, lens)
  {
    var before := CompletedAt(completed, lens.key);
    SeenIn(before, lens, job.persona);
    SeenLast(before, job.persona, lens);
  }

  lemma FinishOwn(s: Sched, i: nat, lens: Lens) returns (k: nat)
    requires lens.Valid() && i < |s.running| && lens.Owns(s.running[i])
    ensures Ends(ViewOf(s, lens), ViewOf(Step(s, Finish(i)), lens), lens, k)
  {
    var job := s.running[i];
    var t := Step(s, Finish(i));
    assert Own(t.ended, lens) == Own(s.ended, lens) + [job] by { OwnLast(s.ended, job, lens); }
    k := HeldAround(s.running, i, lens);
    MarkSeen(s.completed, job, lens);
  }

  lemma RemoveOther(running: seq<WorkerJob>, i: nat, lens: Lens)
    requires i < |running| && !lens.Owns(running[i])
    ensures Own(RemoveAt(running, i), lens) == Own(running, lens)
  {
    OwnRemoveAt(running, i, lens);
  }

  lemma FinishOther(s: Sched, i: nat, lens: Lens)
    requires i < |s.running| && lens.Harmless(s.running[i])
    ensures ViewOf(Step(s, Finish(i)), lens) == ViewOf(s, lens)
  {
    OwnLast(s.ended, s.running[i], lens);
    RemoveOther(s.running, i, lens);
    MarkSeen(s.completed, s.running[i], lens);
  }

  /** Ending a job leaves the view alone, or ends one held owned job. */
  lemma FinishView(s: Sched, i: nat, lens: Lens) returns (k: nat)
    requires lens.Valid() && Quiet(s, lens)
    ensures ViewOf(Step(s, Finish(i)), lens) == ViewOf(s, lens)
         || Ends(ViewOf(s, lens), ViewOf(Step(s, Finish(i)), lens), lens, k)
  {
    k := 0;
    if i < |s.running| {
      assert s.running[i] in s.running;
      if lens.Owns(s.running[i]) {
        k := FinishOwn(s, i, lens);
      } else {
        FinishOther(s, i, lens);
      }
    }
  }

  lemma SubmitView(s: Sched, jobs: seq<WorkerJob>, lens: Lens)
    ensures var v := ViewOf(s, lens);
            ViewOf(Step(s, Submit(jobs)), lens) == v.(queued := v.queued + multiset(Own(jobs, lens)))
  {
    OwnAppend(s.queue, jobs, lens);
  }

  // ---------------------------------------------------------------------------------------
  // The chain in the view

  /**
   `m` jobs of the chain have ended, in plan order; `r` more (at most one) is held by a worker and
   is the next one; all others are queued; the seen marks are those of the ended jobs.
   */
  ghost predicate At(v: View, lens: Lens, jobs: seq<WorkerJob>, personas: seq<string>, m: nat, r: nat) {
    && |jobs| == |personas| && r <= 1 && m + r <= |jobs|
    && v.ended == jobs[..m]
    && v.held == jobs[m..m + r]
    && v.queued == multiset(jobs[m + r..])
    && v.done == Seen(Dedup(personas[..m]), lens)
  }

  /** The lens shows at least the chain's own marks that its jobs wait for. */
  ghost predicate Covers(lens: Lens, jobs: seq<WorkerJob>, personas: seq<string>) {
    && lens.Valid()
    && Links(jobs, personas, lens.key) && DistinctNames(personas)
    && (forall j :: j in jobs ==> lens.Owns(j))
    && (forall p :: p in Awaited(personas) ==> lens.Sees(p))
  }

  lemma AwaitedAt(personas: seq<string>, i: nat)
    requires i + 1 < |personas|
    ensures i < |Awaited(personas)| && Awaited(personas)[i] == personas[i] && personas[i] in Awaited(personas)
  {
  }

  lemma DistinctUpTo(personas: seq<string>, i: nat, x: nat)
    requires DistinctNames(personas) && i + 1 < |personas| && x < |personas| && personas[x] == personas[i] && x <= i
    ensures x == i && personas[i] != ""
  {
    AwaitedAt(personas, i);
    if x < i { AwaitedAt(personas, x); }
  }

  /** A job of the chain that is still queued is ready only if it is the next one and none is held. */
  lemma OnlyNextReady(lens: Lens, jobs: seq<WorkerJob>, personas: seq<string>, done: seq<string>, m: nat, i: nat)
    requires Covers(lens, jobs, personas)
    requires m <= i < |jobs| && done == Seen(Dedup(personas[..m]), lens)
    requires jobs[i].dependsOnPersona == "" ||
             (lens.Sees(jobs[i].dependsOnPersona) ==> jobs[i].dependsOnPersona in done)
    ensures i == m
  {
    if i > 0 {
      AwaitedAt(personas, i - 1);
      DistinctUpTo(personas, i - 1, i - 1);
      SeenIn(Dedup(personas[..m]), lens, personas[i - 1]);
      assert personas[i - 1] in personas[..m];
      var x :| 0 <= x < m && personas[x] == personas[i - 1];
      if x <= i - 1 { DistinctUpTo(personas, i - 1, x); }
    }
  }

  lemma StartsNext(v: View, v': View, lens: Lens, jobs: seq<WorkerJob>, personas: seq<string>, m: nat)
    requires m < |jobs| && At(v, lens, jobs, personas, m, 0) && Starts(v, v', lens, jobs[m])
    ensures At(v', lens, jobs, personas, m, 1)
  {
    DropMultiset(jobs, m);
    assert v'.held == jobs[m..m + 1];
  }

  lemma StartsAt(v: View, v': View, lens: Lens, jobs: seq<WorkerJob>, personas: seq<string>, m: nat, r: nat,
                 job: WorkerJob)
    requires At(v, lens, jobs, personas, m, r) && Covers(lens, jobs, personas)
    requires Starts(v, v', lens, job)
    ensures At(v', lens, jobs, personas, m, 1)
  {
    assert m + r < |jobs| && jobs[m + r] == job && r == 0 by {
      assert job in jobs[m + r..];
      var i :| m + r <= i < |jobs| && jobs[i] == job;
      OnlyNextReady(lens, jobs, personas, v.done, m, i);
    }
    StartsNext(v, v', lens, jobs, personas, m);
  }

  lemma EndsAt(v: View, v': View, lens: Lens, jobs: seq<WorkerJob>, personas: seq<string>, m: nat, r: nat, i: nat)
    requires At(v, lens, jobs, personas, m, r) && Links(jobs, personas, lens.key)
    requires Ends(v, v', lens, i)
    ensures At(v', lens, jobs, personas, m + 1, 0)
  {
    assert v.held[0] == jobs[m];
    assert jobs[..m] + [jobs[m]] == jobs[..m + 1];
    assert personas[..m + 1] == personas[..m] + [personas[m]];
    DedupAppend(personas[..m], personas[m]);
    SeenLast(Dedup(personas[..m]), personas[m], lens);
    SeenIn(Dedup(personas[..m]), lens, personas[m]);
  }

  /** All jobs submitted by `ops` are harmless. */
  ghost predicate Foreign(ops: seq<Op>, lens: Lens) {
    forall op, j :: op in ops && op.Submit? && j in op.jobs ==> lens.Harmless(j)
  }

  lemma ForeignSubmit(s: Sched, ops: seq<Op>, lens: Lens)
    requires ops != [] && ops[0].Submit? && Foreign(ops, lens)
    ensures ViewOf(Step(s, ops[0]), lens) == ViewOf(s, lens)
  {
    assert ops[0] in ops;
    forall j | j in ops[0].jobs ensures !lens.Owns(j) { assert lens.Harmless(j); }
    OwnNone(ops[0].jobs, lens);
    SubmitView(s, ops[0].jobs, lens);
  }

  lemma ForeignQuiet(s: Sched, ops: seq<Op>, lens: Lens)
    requires ops != [] && Quiet(s, lens) && Foreign(ops, lens)
    ensures Quiet(Step(s, ops[0]), lens) && Foreign(ops[1..], lens)
  {
    assert ops[0] in ops;
    QuietStep(s, ops[0], lens);
  }

  lemma {:induction false} RunAt(s: Sched, lens: Lens, jobs: seq<WorkerJob>, personas: seq<string>, m: nat, r: nat,
                                 ops: seq<Op>)
    returns (m': nat, r': nat)
    requires At(ViewOf(s, lens), lens, jobs, personas, m, r) && Covers(lens, jobs, personas)
    requires Quiet(s, lens) && Foreign(ops, lens)
    ensures At(ViewOf(Run(s, ops), lens), lens, jobs, personas, m', r')
    decreases |ops|
  {
    m', r' := m, r;
    if ops != [] {
      var t := Step(s, ops[0]);
      var v, v' := ViewOf(s, lens), ViewOf(t, lens);
      ForeignQuiet(s, ops, lens);
      match ops[0] {
        case Submit(jobs) => ForeignSubmit(s, ops, lens);
        case Take =>
          TakeView(s, lens);
          if v != v' {
            StartsAt(v, v', lens, jobs, personas, m, r, s.queue[0]);
            r' := 1;
          }
        case Finish(i) =>
          var k := FinishView(s, i, lens);
          if v != v' {
            EndsAt(v, v', lens, jobs, personas, m, r, k);
            m', r' := m + 1, 0;
          }
      }
      m', r' := RunAt(t, lens, jobs, personas, m', r', ops[1..]);
    }
  }

  lemma {:induction false} RunFresh(s: Sched, lens: Lens, ops: seq<Op>)
    requires lens.Valid() && ViewOf(s, lens) == NOTHING && Quiet(s, lens) && Foreign(ops, lens)
    ensures ViewOf(Run(s, ops), lens) == NOTHING && Quiet(Run(s, ops), lens)
    decreases |ops|
  {
    if ops != [] {
      ForeignQuiet(s, ops, lens);
      match ops[0] {
        case Submit(jobs) => ForeignSubmit(s, ops, lens);
        case Take => TakeView(s, lens);
        case Finish(i) => var _ := FinishView(s, i, lens);
      }
      RunFresh(Step(s, ops[0]), lens, ops[1..]);
    }
  }

  lemma SubmitAt(s: Sched, lens: Lens, jobs: seq<WorkerJob>, personas: seq<string>)
    requires Covers(lens, jobs, personas) && ViewOf(s, lens) == NOTHING && Quiet(s, lens)
    ensures At(ViewOf(Step(s, Submit(jobs)), lens), lens, jobs, personas, 0, 0) && Quiet(Step(s, Submit(jobs)), lens)
  {
    OwnAll(jobs, lens);
    SubmitView(s, jobs, lens);
    QuietStep(s, Submit(jobs), lens);
    assert jobs[..0] == jobs[0..0] == [] && jobs[0..] == jobs && personas[..0] == [];
  }

  /** Submitted among harmless traffic, the chain is somewhere on its way in every state reached. */
  lemma ChainOnItsWay(before: seq<Op>, lens: Lens, jobs: seq<WorkerJob>, personas: seq<string>, after: seq<Op>)
    returns (m: nat, r: nat)
    requires Covers(lens, jobs, personas) && Foreign(before, lens) && Foreign(after, lens)
    ensures At(ViewOf(Run(Step(Run(INIT, before), Submit(jobs)), after), lens), lens, jobs, personas, m, r)
  {
    RunFresh(INIT, lens, before);
    SubmitAt(Run(INIT, before), lens, jobs, personas);
    m, r := RunAt(Step(Run(INIT, before), Submit(jobs)), lens, jobs, personas, 0, 0, after);
  }

  // ---------------------------------------------------------------------------------------
  // A chain alone on its key

  /** The first `m` jobs of the chain have ended, in order, and at most the very next one is held. */
  ghost predicate InPlanOrderAt(s: Sched, c: Chain, m: nat)
    requires c.Valid()
  {
    && m <= |c.personas|
    && Own(s.ended, WholeKey(c.Key())) == c.Jobs()[..m]
    && CompletedAt(s.completed, c.Key()) == Dedup(c.personas[..m])
    && var held := Own(s.running, WholeKey(c.Key()));
       held == [] || (m < |c.personas| && held == [c.Jobs()[m]])
  }

  ghost predicate InPlanOrder(s: Sched, c: Chain)
    requires c.Valid()
  {
    exists m: nat :: InPlanOrderAt(s, c, m)
  }

  lemma WholeKeyView(v: View, done: seq<string>, key: Key, jobs: seq<WorkerJob>, personas: seq<string>, m: nat, r: nat)
    requires At(v, WholeKey(key), jobs, personas, m, r) && v.done == Seen(done, WholeKey(key))
    ensures done == Dedup(personas[..m]) && (v.held == [] || (m < |jobs| && v.held == [jobs[m]]))
  {
    SeenIn(done, WholeKey(key), "");
    SeenIn(Dedup(personas[..m]), WholeKey(key), "");
    if r == 1 { assert jobs[m..m + 1] == [jobs[m]]; }
  }

  lemma AtMeansInPlanOrder(s: Sched, c: Chain, m: nat, r: nat)
    requires c.Valid() && At(ViewOf(s, WholeKey(c.Key())), WholeKey(c.Key()), c.Jobs(), c.personas, m, r)
    ensures InPlanOrderAt(s, c, m)
  {
    WholeKeyView(ViewOf(s, WholeKey(c.Key())), CompletedAt(s.completed, c.Key()), c.Key(), c.Jobs(), c.personas, m, r);
  }

  lemma WholeKeyCovers(c: Chain)
    requires c.Valid() && DistinctNames(c.personas)
    ensures Covers(WholeKey(c.Key()), c.Jobs(), c.personas)
  {
    ChainLinks(c);
    JobsForKeys(c.request, c.personas, c.suffixes);
  }

  /** In every reachable state, whatever is submitted on other keys and however workers interleave. */
  lemma ChainInPlanOrder(before: seq<Op>, c: Chain, after: seq<Op>)
    requires c.Valid() && DistinctNames(c.personas)
    requires Foreign(before, WholeKey(c.Key())) && Foreign(after, WholeKey(c.Key()))
    ensures InPlanOrder(Run(Step(Run(INIT, before), Submit(c.Jobs())), after), c)
  {
    WholeKeyCovers(c);
    var m, r := ChainOnItsWay(before, WholeKey(c.Key()), c.Jobs(), c.personas, after);
    AtMeansInPlanOrder(Run(Step(Run(INIT, before), Submit(c.Jobs())), after), c, m, r);
  }

  /** With all names distinct, the completed personas are, as a sequence, a prefix of the plan. */
  lemma CompletedIsPlanPrefix(s: Sched, c: Chain)
    requires c.Valid() && InPlanOrder(s, c) && Distinct(c.personas)
    ensures CompletedAt(s.completed, c.Key()) <= c.personas
  {
    var m: nat :| InPlanOrderAt(s, c, m);
    DedupDistinct(c.personas[..m]);
  }

  // ---------------------------------------------------------------------------------------
  // A chain amid other traffic on its key, such as revisions the critic asks for

  /** The chain's own jobs, and the marks they wait for. */
  function ChainLens(c: Chain): Lens
    requires |c.suffixes| == |c.personas|
  {
    OneChain(c.Key(), c.Jobs(), Awaited(c.personas))
  }

  lemma ChainLensCovers(c: Chain)
    requires c.Valid() && DistinctNames(c.personas)
    ensures Covers(ChainLens(c), c.Jobs(), c.personas)
  {
    ChainLinks(c);
    JobsForKeys(c.request, c.personas, c.suffixes);
  }

  /**
   In every reachable state, as long as no other job of the key has a name that the chain waits for: the
   ended jobs of the chain are a plan prefix, at most the next one is held, and an awaited name is
   marked exactly when its job has ended.
   */
  lemma ChainAmidTraffic(before: seq<Op>, c: Chain, after: seq<Op>) returns (m: nat)
    requires c.Valid() && DistinctNames(c.personas)
    requires Foreign(before, ChainLens(c)) && Foreign(after, ChainLens(c))
    ensures var s := Run(Step(Run(INIT, before), Submit(c.Jobs())), after);
            var held := Own(s.running, ChainLens(c));
            && m <= |c.personas| && Own(s.ended, ChainLens(c)) == c.Jobs()[..m]
            && (held == [] || (m < |c.personas| && held == [c.Jobs()[m]]))
            && forall i :: 0 <= i < |c.personas| - 1 ==>
                 (c.personas[i] in CompletedAt(s.completed, c.Key()) <==> i < m)
  {
    ChainLensCovers(c);
    var r;
    m, r := ChainOnItsWay(before, ChainLens(c), c.Jobs(), c.personas, after);
    var s := Run(Step(Run(INIT, before), Submit(c.Jobs())), after);
    if r == 1 { assert c.Jobs()[m..m + 1] == [c.Jobs()[m]]; }
    forall i | 0 <= i < |c.personas| - 1
      ensures c.personas[i] in CompletedAt(s.completed, c.Key()) <==> i < m
    {
      AwaitedMarked(s, c, m, r, i);
    }
  }

  lemma AwaitedMarked(s: Sched, c: Chain, m: nat, r: nat, i: nat)
    requires c.Valid() && DistinctNames(c.personas) && i + 1 < |c.personas|
    requires At(ViewOf(s, ChainLens(c)), ChainLens(c), c.Jobs(), c.personas, m, r)
    ensures c.personas[i] in CompletedAt(s.completed, c.Key()) <==> i < m
  {
    AwaitedAt(c.personas, i);
    SeenIn(CompletedAt(s.completed, c.Key()), ChainLens(c), c.personas[i]);
    SeenIn(Dedup(c.personas[..m]), ChainLens(c), c.personas[i]);
    if i < m {
      assert c.personas[..m][i] == c.personas[i];
    } else if c.personas[i] in c.personas[..m] {
      var x :| 0 <= x < m && c.personas[x] == c.personas[i];
      DistinctUpTo(c.personas, i, x);
    }
  }

  // ---------------------------------------------------------------------------------------
  // The conditions are needed

  /** The first `m` jobs of a chain have ended one by one beside the held jobs; the rest is queued in plan order. */
  ghost predicate Straight(s: Sched, held: seq<WorkerJob>, jobs: seq<WorkerJob>, personas: seq<string>, key: Key,
                           m: nat) {
    && Links(jobs, personas, key)
    && s.ended + s.queue == jobs && |s.ended| == m && s.running == held
    && (forall i :: 0 <= i < m ==> personas[i] in CompletedAt(s.completed, key))
  }

  lemma StraightReady(s: Sched, held: seq<WorkerJob>, jobs: seq<WorkerJob>, personas: seq<string>, key: Key, m: nat)
    requires Straight(s, held, jobs, personas, key, m) && m < |jobs|
    ensures s.queue != [] && s.queue[0] == jobs[m] && Ready(s.completed, jobs[m])
  {
    assert KeyOf(jobs[m]) == key && s.queue[0] == jobs[m];
  }

  lemma StraightStep(s: Sched, held: seq<WorkerJob>, jobs: seq<WorkerJob>, personas: seq<string>, key: Key, m: nat)
    requires Straight(s, held, jobs, personas, key, m) && m < |jobs|
    ensures Straight(Step(Step(s, Take), Finish(|held|)), held, jobs, personas, key, m + 1)
  {
    StraightReady(s, held, jobs, personas, key, m);
    var t := Step(s, Take);
    assert t.running == held + [jobs[m]] && RemoveAt(t.running, |held|) == held;
    assert s.ended + [s.queue[0]] + s.queue[1..] == jobs;
  }

  lemma RunTwo(s: Sched, a: Op, b: Op, rest: seq<Op>)
    ensures Run(s, [a, b] + rest) == Run(Step(Step(s, a), b), rest)
  {
    var ops := [a, b] + rest;
    assert ops[1..] == [b] + rest && ops[1..][1..] == rest;
  }

  ghost predicate NoSubmit(ops: seq<Op>) {
    forall i :: 0 <= i < |ops| ==> !ops[i].Submit?
  }

  lemma {:induction false} ReachStraight(s: Sched, held: seq<WorkerJob>, jobs: seq<WorkerJob>, personas: seq<string>,
                                         key: Key, m: nat, upTo: nat) returns (ops: seq<Op>)
    requires Straight(s, held, jobs, personas, key, m) && m <= upTo <= |jobs|
    ensures Straight(Run(s, ops), held, jobs, personas, key, upTo) && NoSubmit(ops)
    decreases upTo - m
  {
    ops := [];
    if m < upTo {
      StraightStep(s, held, jobs, personas, key, m);
      var rest := ReachStraight(Step(Step(s, Take), Finish(|held|)), held, jobs, personas, key, m + 1, upTo);
      RunTwo(s, Take, Finish(|held|), rest);
      ops := [Take, Finish(|held|)] + rest;
    }
  }

  lemma JobsDiffer(c: Chain, i: nat, j: nat)
    requires c.Valid() && Distinct(c.suffixes) && i < j < |c.personas|
    ensures c.Jobs()[i] != c.Jobs()[j]
  {
    if c.personas[i] == c.personas[j] {
      var prefix := c.personas[i] + "-" + c.request.eventId + "-";
      assert c.Jobs()[i].jobId[|prefix|..] == c.suffixes[i];
      assert c.Jobs()[j].jobId[|prefix|..] == c.suffixes[j];
    }
  }

  lemma JobsDistinct(c: Chain)
    requires c.Valid() && Distinct(c.suffixes)
    ensures Distinct(c.Jobs())
  {
    forall i, j | 0 <= i < j < |c.personas| ensures c.Jobs()[i] != c.Jobs()[j] { JobsDiffer(c, i, j); }
  }

  /** Job i+1 ended while job i has not: owned work out of order. */
  lemma OvertakenIsOutOfOrder(front: seq<WorkerJob>, jobs: seq<WorkerJob>, lens: Lens)
    requires forall j :: j in jobs ==> lens.Owns(j)
    requires front <= jobs && |front| + 1 < |jobs| && jobs[|front|] != jobs[|front| + 1]
    ensures !(Own(front + [jobs[|front| + 1]], lens) <= jobs)
  {
    var ended := front + [jobs[|front| + 1]];
    forall j | j in ended ensures lens.Owns(j) {
      var x :| 0 <= x < |ended| && ended[x] == j;
      if x < |front| { assert front[x] == jobs[x]; }
    }
    OwnAll(ended, lens);
    assert ended[|front|] != jobs[|front|];
  }

  const OVERTAKING := [Take, Take, Finish(1)]

  lemma OvertakingRun(s: Sched)
    ensures Run(s, OVERTAKING) == Step(Step(Step(s, Take), Take), Finish(1))
  {
    RunTwo(s, Take, Take, [Finish(1)]);
    assert OVERTAKING == [Take, Take] + [Finish(1)];
  }

  /** Two workers: the second takes job i+1 while the first still holds job i, and ends first. */
  lemma Overtake(s: Sched, jobs: seq<WorkerJob>, personas: seq<string>, key: Key, i: nat)
    requires Straight(s, [], jobs, personas, key, i) && i + 1 < |jobs|
    requires personas[i] == "" || exists x :: 0 <= x < i && personas[x] == personas[i]
    ensures Run(s, OVERTAKING).ended == s.ended + [jobs[i + 1]]
  {
    StraightReady(s, [], jobs, personas, key, i);
    OvertakingRun(s);
    var t1 := Step(s, Take);
    var t2 := Step(t1, Take);
    assert t1.queue[0] == s.queue[1] == jobs[i + 1] && KeyOf(jobs[i + 1]) == key;
    assert t2.running == [jobs[i], jobs[i + 1]];
  }

  lemma BadName(personas: seq<string>) returns (i: nat)
    requires !DistinctNames(personas)
    ensures i + 1 < |personas| && (personas[i] == "" || exists x :: 0 <= x < i && personas[x] == personas[i])
  {
    var names := Awaited(personas);
    if x: nat :| x < |names| && names[x] == "" {
      i := x;
    } else {
      var a, b :| 0 <= a < b < |names| && names[a] == names[b];
      i := b;
      assert personas[a] == personas[b];
    }
  }

  lemma StraightThenOvertake(u: Sched, jobs: seq<WorkerJob>, personas: seq<string>, key: Key, i: nat)
    requires Straight(u, [], jobs, personas, key, i) && Distinct(jobs) && i + 1 < |jobs|
    requires personas[i] == "" || exists x :: 0 <= x < i && personas[x] == personas[i]
    ensures !(Own(Run(u, OVERTAKING).ended, WholeKey(key)) <= jobs)
  {
    assert u.ended <= u.ended + u.queue == jobs;
    Overtake(u, jobs, personas, key, i);
    OwnedByKey(jobs, personas, key);
    OvertakenIsOutOfOrder(u.ended, jobs, WholeKey(key));
  }

  lemma OwnedByKey(jobs: seq<WorkerJob>, personas: seq<string>, key: Key)
    requires Links(jobs, personas, key)
    ensures forall j :: j in jobs ==> KeyOf(j) == key
  {
  }

  lemma StraightStart(jobs: seq<WorkerJob>, personas: seq<string>, key: Key)
    requires Links(jobs, personas, key)
    ensures Straight(Step(INIT, Submit(jobs)), [], jobs, personas, key, 0)
  {
    assert [] + ([] + jobs) == jobs;
  }

  /** A run that breaks the order of any chain with an empty or repeated name. */
  lemma BreakingRun(s: Sched, jobs: seq<WorkerJob>, personas: seq<string>, key: Key) returns (ops: seq<Op>)
    requires Straight(s, [], jobs, personas, key, 0) && Distinct(jobs) && !DistinctNames(personas)
    ensures NoSubmit(ops) && !(Own(Run(s, ops).ended, WholeKey(key)) <= jobs)
  {
    var i := BadName(personas);
    var first := ReachStraight(s, [], jobs, personas, key, 0, i);
    StraightThenOvertake(Run(s, first), jobs, personas, key, i);
    RunAppend(s, first, OVERTAKING);
    ops := first + OVERTAKING;
  }

  /** In every state reachable after submitting this chain alone on its key, the ended jobs are a prefix of the plan. */
  ghost predicate OrderSafe(c: Chain)
    requires c.Valid()
  {
    forall after :: Foreign(after, WholeKey(c.Key())) ==>
      Own(Run(Step(INIT, Submit(c.Jobs())), after).ended, WholeKey(c.Key())) <= c.Jobs()
  }

  /** Plan order is guaranteed exactly when all but the last persona have nonempty, distinct names. */
  lemma OrderSafeIffDistinctNames(c: Chain)
    requires c.Valid() && Distinct(c.suffixes)
    ensures OrderSafe(c) <==> DistinctNames(c.personas)
  {
    if DistinctNames(c.personas) {
      WholeKeyCovers(c);
      forall after | Foreign(after, WholeKey(c.Key()))
        ensures Own(Run(Step(INIT, Submit(c.Jobs())), after).ended, WholeKey(c.Key())) <= c.Jobs()
      {
        var _, _ := ChainOnItsWay([], WholeKey(c.Key()), c.Jobs(), c.personas, after);
      }
    } else {
      ChainLinks(c);
      JobsDistinct(c);
      StraightStart(c.Jobs(), c.personas, c.Key());
      var ops := BreakingRun(Step(INIT, Submit(c.Jobs())), c.Jobs(), c.personas, c.Key());
      assert Foreign(ops, WholeKey(c.Key()));
    }
  }

  /** Besides the chain, only copies of `extra` are submitted on its key. */
  ghost predicate OnlyExtra(ops: seq<Op>, key: Key, extra: WorkerJob) {
    forall op, j :: op in ops && op.Submit? && j in op.jobs ==> KeyOf(j) != key || j == extra
  }

  /** Whenever and however often `extra` is submitted, the ended jobs of the chain are a prefix of the plan. */
  ghost predicate OrderSafeAmid(c: Chain, extra: WorkerJob)
    requires c.Valid()
  {
    forall before, after :: OnlyExtra(before, c.Key(), extra) && OnlyExtra(after, c.Key(), extra) ==>
      Own(Run(Step(Run(INIT, before), Submit(c.Jobs())), after).ended, ChainLens(c)) <= c.Jobs()
  }

  /** `extra` is held, job i is taken, `extra` ends and marks the name job i+1 waits for, which overtakes. */
  const UNBLOCKING := [Take, Finish(0)] + [Take, Finish(1)]

  lemma UnblockingRun(s: Sched)
    ensures Run(s, UNBLOCKING) == Step(Step(Step(Step(s, Take), Finish(0)), Take), Finish(1))
  {
    RunTwo(s, Take, Finish(0), [Take, Finish(1)]);
    RunTwo(Step(Step(s, Take), Finish(0)), Take, Finish(1), []);
    assert [Take, Finish(1)] + [] == [Take, Finish(1)];
  }

  lemma Unblock(s: Sched, extra: WorkerJob, jobs: seq<WorkerJob>, personas: seq<string>, key: Key, i: nat)
    requires Straight(s, [extra], jobs, personas, key, i) && i + 1 < |jobs|
    requires KeyOf(extra) == key && extra.persona == personas[i]
    ensures Run(s, UNBLOCKING).ended == s.ended + [extra] + [jobs[i + 1]]
  {
    StraightReady(s, [extra], jobs, personas, key, i);
    UnblockingRun(s);
    var t1 := Step(s, Take);
    assert t1.running == [extra, jobs[i]] && t1.queue[0] == s.queue[1] == jobs[i + 1];
    var t2 := Step(t1, Finish(0));
    assert t2.running == [jobs[i]] && KeyOf(jobs[i + 1]) == key;
    var t3 := Step(t2, Take);
    assert t3.running == [jobs[i], jobs[i + 1]];
  }

  lemma ExtraHeld(extra: WorkerJob, jobs: seq<WorkerJob>, personas: seq<string>, key: Key)
    requires Links(jobs, personas, key) && extra.dependsOnPersona == ""
    ensures Straight(Step(Run(INIT, [Submit([extra]), Take]), Submit(jobs)), [extra], jobs, personas, key, 0)
  {
    RunTwo(INIT, Submit([extra]), Take, []);
    assert [Submit([extra]), Take] + [] == [Submit([extra]), Take];
    var s := Step(Step(INIT, Submit([extra])), Take);
    assert s.queue == [] && s.running == [extra];
    assert [] + ([] + jobs) == jobs;
  }

  lemma OwnSkips(front: seq<WorkerJob>, extra: WorkerJob, last: WorkerJob, lens: Lens)
    requires !lens.Owns(extra)
    ensures Own(front + [extra] + [last], lens) == Own(front + [last], lens)
  {
    OwnLast(front + [extra], last, lens);
    OwnLast(front, extra, lens);
    OwnLast(front, last, lens);
  }

  lemma StraightThenUnblock(u: Sched, extra: WorkerJob, jobs: seq<WorkerJob>, personas: seq<string>, lens: Lens, i: nat)
    requires Straight(u, [extra], jobs, personas, lens.key, i) && Distinct(jobs) && i + 1 < |jobs|
    requires KeyOf(extra) == lens.key && extra.persona == personas[i]
    requires !lens.Owns(extra) && forall j :: j in jobs ==> lens.Owns(j)
    ensures !(Own(Run(u, UNBLOCKING).ended, lens) <= jobs)
  {
    assert u.ended <= u.ended + u.queue == jobs;
    Unblock(u, extra, jobs, personas, lens.key, i);
    OwnSkips(u.ended, extra, jobs[i + 1], lens);
    OvertakenIsOutOfOrder(u.ended, jobs, lens);
  }

  lemma BreakingAfter(s: Sched, extra: WorkerJob, jobs: seq<WorkerJob>, personas: seq<string>, lens: Lens, i: nat)
    returns (after: seq<Op>)
    requires Straight(s, [extra], jobs, personas, lens.key, 0) && Distinct(jobs) && i + 1 < |jobs|
    requires KeyOf(extra) == lens.key && extra.persona == personas[i]
    requires !lens.Owns(extra) && forall j :: j in jobs ==> lens.Owns(j)
    ensures NoSubmit(after) && !(Own(Run(s, after).ended, lens) <= jobs)
  {
    var first := ReachStraight(s, [extra], jobs, personas, lens.key, 0, i);
    StraightThenUnblock(Run(s, first), extra, jobs, personas, lens, i);
    RunAppend(s, first, UNBLOCKING);
    after := first + UNBLOCKING;
  }

  /** A run that breaks the order by one job of the same key under a name the chain waits for. */
  lemma BreakingExtra(c: Chain, extra: WorkerJob, i: nat) returns (before: seq<Op>, after: seq<Op>)
    requires c.Valid() && Distinct(c.suffixes) && i + 1 < |c.personas|
    requires KeyOf(extra) == c.Key() && extra.dependsOnPersona == ""
    requires extra !in c.Jobs() && extra.persona == c.personas[i]
    ensures OnlyExtra(before, c.Key(), extra) && NoSubmit(after)
    ensures !(Own(Run(Step(Run(INIT, before), Submit(c.Jobs())), after).ended, ChainLens(c)) <= c.Jobs())
  {
    ChainLinks(c);
    JobsDistinct(c);
    before := [Submit([extra]), Take];
    ExtraHeld(extra, c.Jobs(), c.personas, c.Key());
    after := BreakingAfter(Step(Run(INIT, before), Submit(c.Jobs())), extra, c.Jobs(), c.personas, ChainLens(c), i);
  }

  /**
   For a chain with distinct names: another job of its key that waits for no one, such as a revision, keeps
   plan order however often it is submitted exactly when its persona is no name the chain waits for.
   */
  lemma OrderSafeAmidIff(c: Chain, extra: WorkerJob)
    requires c.Valid() && Distinct(c.suffixes) && DistinctNames(c.personas)
    requires KeyOf(extra) == c.Key() && extra.dependsOnPersona == "" && extra !in c.Jobs()
    ensures OrderSafeAmid(c, extra) <==> extra.persona !in Awaited(c.personas)
  {
    if extra.persona in Awaited(c.personas) {
      var i: nat :| i < |Awaited(c.personas)| && Awaited(c.personas)[i] == extra.persona;
      var before, after := BreakingExtra(c, extra, i);
      assert OnlyExtra(after, c.Key(), extra);
    } else {
      JobsForKeys(c.request, c.personas, c.suffixes);
      forall before, after | OnlyExtra(before, c.Key(), extra) && OnlyExtra(after, c.Key(), extra)
        ensures Own(Run(Step(Run(INIT, before), Submit(c.Jobs())), after).ended, ChainLens(c)) <= c.Jobs()
      {
        var _ := ChainAmidTraffic(before, c, after);
      }
    }
  }

  // ---------------------------------------------------------------------------------------
  // A single worker needs no condition on names or on other traffic

  /** One worker's run: a submission, or (None) one call that takes a job and runs it to its end. */
  function SerialStep(s: Sched, op: Option<seq<WorkerJob>>): Sched {
    match op
    case None => ProcessNext(s)
    case Some(jobs) => Step(s, Submit(jobs))
  }

  function SerialRun(s: Sched, ops: seq<Option<seq<WorkerJob>>>): Sched
    decreases |ops|
  {
    if ops == [] then s else SerialRun(SerialStep(s, ops[0]), ops[1..])
  }

  /** The jobs of the chain are not submitted a second time. */
  ghost predicate NoneAgain(ops: seq<Option<seq<WorkerJob>>>, jobs: seq<WorkerJob>) {
    forall op, j :: op in ops && op.Some? && j in op.value ==> j !in jobs
  }

  /** `m` jobs of the chain have ended in plan order, with their marks, and the others are queued in plan order. */
  ghost predicate InLine(s: Sched, c: Chain, m: nat)
    requires c.Valid()
  {
    && m <= |c.personas|
    && Own(s.ended, ChainLens(c)) + Own(s.queue, ChainLens(c)) == c.Jobs() && |Own(s.ended, ChainLens(c))| == m
    && forall i :: 0 <= i < m ==> c.personas[i] in CompletedAt(s.completed, c.Key())
  }

  /** The call meets a job of the chain: it is the next one, it is ready, and it ends. */
  lemma ProcessOwn(s: Sched, c: Chain, m: nat)
    requires c.Valid() && InLine(s, c, m) && s.queue != [] && s.queue[0] in c.Jobs()
    ensures m < |c.personas| && s.queue[0] == c.Jobs()[m] && Ready(s.completed, s.queue[0])
    ensures InLine(ProcessNext(s), c, m + 1)
  {
    ChainLinks(c);
    var job := s.queue[0];
    var ended, rest := Own(s.ended, ChainLens(c)), Own(s.queue[1..], ChainLens(c));
    assert Own(s.queue, ChainLens(c)) == [job] + rest;
    assert ended + ([job] + rest) == ended + [job] + rest;
    assert job == c.Jobs()[m] && KeyOf(c.Jobs()[m]) == c.Key();
    OwnLast(s.ended, job, ChainLens(c));
  }

  lemma ProcessOther(s: Sched, c: Chain, m: nat)
    requires c.Valid() && InLine(s, c, m) && s.queue != [] && s.queue[0] !in c.Jobs()
    ensures InLine(ProcessNext(s), c, m)
  {
    OwnLast(s.ended, s.queue[0], ChainLens(c));
    OwnLast(s.queue[1..], s.queue[0], ChainLens(c));
  }

  lemma SubmitInLine(s: Sched, c: Chain)
    requires c.Valid() && Own(s.queue, ChainLens(c)) == [] && Own(s.ended, ChainLens(c)) == []
    ensures InLine(Step(s, Submit(c.Jobs())), c, 0)
  {
    OwnAll(c.Jobs(), ChainLens(c));
    OwnAppend(s.queue, c.Jobs(), ChainLens(c));
    assert [] + c.Jobs() == c.Jobs();
  }

  lemma SubmitOther(s: Sched, c: Chain, m: nat, jobs: seq<WorkerJob>)
    requires c.Valid() && InLine(s, c, m) && forall j :: j in jobs ==> j !in c.Jobs()
    ensures InLine(Step(s, Submit(jobs)), c, m)
  {
    OwnNone(jobs, ChainLens(c));
    OwnAppend(s.queue, jobs, ChainLens(c));
  }

  /** Whatever the names and the other traffic: one worker runs a chain in plan order, and puts no job of it back. */
  lemma {:induction false} OneWorkerKeepsOrder(s: Sched, c: Chain, m: nat, ops: seq<Option<seq<WorkerJob>>>)
    returns (m': nat)
    requires c.Valid() && InLine(s, c, m) && NoneAgain(ops, c.Jobs())
    ensures m' >= m && InLine(SerialRun(s, ops), c, m')
    decreases |ops|
  {
    m' := m;
    if ops != [] {
      assert ops[0] in ops;
      if ops[0].Some? {
        SubmitOther(s, c, m, ops[0].value);
      } else if s.queue != [] && s.queue[0] in c.Jobs() {
        ProcessOwn(s, c, m);
        m' := m + 1;
      } else if s.queue != [] {
        ProcessOther(s, c, m);
      }
      m' := OneWorkerKeepsOrder(SerialStep(s, ops[0]), c, m', ops[1..]);
    }
  }

  /** From its submission on, in every state one worker reaches, a prefix has ended and the rest waits in plan order. */
  lemma OneWorkerInPlanOrder(s: Sched, c: Chain, ops: seq<Option<seq<WorkerJob>>>) returns (m: nat)
    requires c.Valid() && Own(s.queue, ChainLens(c)) == [] && Own(s.ended, ChainLens(c)) == []
    requires NoneAgain(ops, c.Jobs())
    ensures InLine(SerialRun(Step(s, Submit(c.Jobs())), ops), c, m)
  {
    SubmitInLine(s, c);
    m := OneWorkerKeepsOrder(Step(s, Submit(c.Jobs())), c, 0, ops);
  }
}
