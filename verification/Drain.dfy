/** How many calls of a single worker empty a queue, and which queues can be emptied at all. */
module Drain {
  import opened Common
  import opened WorkerModels
  import opened Scheduler

  /** 1 + 2 + ... + n. */
  function Triangle(n: nat): nat {
    if n == 0 then 0 else n + Triangle(n - 1)
  }

  lemma {:induction false} TriangleClosed(n: nat)
    ensures Triangle(n) == n * (n + 1) / 2
  {
    if n > 0 {
      TriangleClosed(n - 1);
      assert n * (n + 1) == (n - 1) * n + 2 * n;
    }
  }

  function ProcessMany(s: Sched, n: nat): Sched {
    Iterate(ProcessNext, s, n)
  }

  lemma ManyAppend(s: Sched, a: nat, b: nat)
    ensures ProcessMany(s, a + b) == ProcessMany(ProcessMany(s, a), b)
  {
    IterateAppend(ProcessNext, s, a, b);
  }

  lemma ManyOnce(s: Sched, n: nat)
    ensures n > 0 ==> ProcessMany(s, n) == ProcessMany(ProcessNext(s), n - 1)
    ensures ProcessMany(s, n + 1) == ProcessNext(ProcessMany(s, n))
  {
    IterateAppend(ProcessNext, s, n, 1);
    IterateOnce(ProcessNext, ProcessMany(s, n));
  }

  lemma {:induction false} Idle(s: Sched, n: nat)
    requires s.queue == []
    ensures ProcessMany(s, n) == s
    decreases n
  {
    if n > 0 { Idle(s, n - 1); }
  }

  ghost predicate Drainable(s: Sched) {
    Grounded(s.queue, DoneTags(s.completed))
  }

  lemma ProcessNextDrainable(s: Sched)
    requires Drainable(s)
    ensures Drainable(ProcessNext(s))
  {
    if s.queue != [] {
      GroundedTake(s.queue, DoneTags(s.completed));
      GroundedRotate(s.queue, DoneTags(s.completed));
      MarkTags(s.completed, s.queue[0]);
    }
  }

  /** Heads that are not ready are rotated to the tail in order. */
  lemma {:induction false} Rotate(s: Sched, d: nat)
    requires d <= |s.queue|
    requires forall i :: 0 <= i < d ==> !Ready(s.completed, s.queue[i])
    ensures ProcessMany(s, d) == s.(queue := s.queue[d..] + s.queue[..d])
  {
    if d == 0 {
      assert s.queue[0..] + s.queue[..0] == s.queue;
    } else {
      Rotate(s, d - 1);
      var t := ProcessMany(s, d - 1);
      assert t.queue[0] == s.queue[d - 1];
      assert t.queue[1..] + [t.queue[0]] == s.queue[d..] + s.queue[..d];
      ManyOnce(s, d - 1);
    }
  }

  /** Reaching and executing the first ready job, at distance `d`, takes exactly `d + 1` calls. */
  lemma RoundTo(s: Sched, d: nat)
    requires d < |s.queue| && Ready(s.completed, s.queue[d])
    requires forall i :: 0 <= i < d ==> !Ready(s.completed, s.queue[i])
    ensures ProcessMany(s, d + 1) == Sched(s.queue[d + 1..] + s.queue[..d], s.running,
                                           Mark(s.completed, s.queue[d]), s.ended + [s.queue[d]])
  {
    Rotate(s, d);
    var t := ProcessMany(s, d);
    assert t.queue[1..] == s.queue[d + 1..] + s.queue[..d];
    ManyOnce(s, d);
  }

  lemma FirstReady(s: Sched) returns (d: nat)
    requires Drainable(s) && s.queue != []
    ensures d < |s.queue| && Ready(s.completed, s.queue[d])
    ensures forall i :: 0 <= i < d ==> !Ready(s.completed, s.queue[i])
  {
    GroundedHasReady(s.queue, DoneTags(s.completed));
    var k :| 0 <= k < |s.queue| && Enabled(s.queue[k], DoneTags(s.completed));
    ReadyIsEnabled(s.completed, s.queue[k]);
    d := 0;
    while !Ready(s.completed, s.queue[d])
      invariant d <= k
      invariant forall i :: 0 <= i < d ==> !Ready(s.completed, s.queue[i])
      decreases k - d
    {
      d := d + 1;
    }
  }

  lemma {:induction false} ManyDrainable(s: Sched, n: nat)
    requires Drainable(s)
    ensures Drainable(ProcessMany(s, n))
    decreases n
  {
    if n > 0 {
      ProcessNextDrainable(s);
      ManyOnce(s, n);
      ManyDrainable(ProcessNext(s), n - 1);
    }
  }

  /** The jobs of `t` still queued or ended are those of `s`. */
  ghost predicate SameJobs(s: Sched, t: Sched) {
    t.running == s.running && multiset(t.queue) + multiset(t.ended) == multiset(s.queue) + multiset(s.ended)
  }

  lemma RoundConserves(s: Sched, d: nat, t: Sched)
    requires d < |s.queue| && t.running == s.running
    requires t.queue == s.queue[d + 1..] + s.queue[..d] && t.ended == s.ended + [s.queue[d]]
    ensures SameJobs(s, t) && |t.queue| == |s.queue| - 1
  {
    assert s.queue == s.queue[..d] + [s.queue[d]] + s.queue[d + 1..];
  }

  /** Some number of calls, at most the length of the queue, ends exactly one job. */
  lemma Round(s: Sched) returns (calls: nat)
    requires Drainable(s) && s.queue != []
    ensures calls <= |s.queue| && Drainable(ProcessMany(s, calls))
    ensures |ProcessMany(s, calls).queue| == |s.queue| - 1 && SameJobs(s, ProcessMany(s, calls))
  {
    var d := FirstReady(s);
    calls := d + 1;
    RoundTo(s, d);
    RoundConserves(s, d, ProcessMany(s, calls));
    ManyDrainable(s, calls);
  }

  /** n(n+1)/2 calls empty a queue of n jobs that can be executed in some order; each job ends once. */
  lemma {:induction false} DrainBound(s: Sched, n: nat)
    requires Drainable(s) && n >= Triangle(|s.queue|)
    ensures ProcessMany(s, n).queue == [] && SameJobs(s, ProcessMany(s, n))
    decreases |s.queue|
  {
    if s.queue == [] {
      Idle(s, n);
    } else {
      var calls := Round(s);
      DrainBound(ProcessMany(s, calls), n - calls);
      ManyAppend(s, calls, n - calls);
    }
  }

  /** A queue that some number of calls empties has an executable order. */
  lemma {:induction false} DrainedWasDrainable(s: Sched, n: nat)
    requires ProcessMany(s, n).queue == []
    ensures Drainable(s)
    decreases n
  {
    if s.queue == [] {
      assert Schedulable(s.queue, DoneTags(s.completed));
    } else {
      ManyOnce(s, n);
      DrainedWasDrainable(ProcessNext(s), n - 1);
      var head, done := s.queue[0], DoneTags(s.completed);
      if Ready(s.completed, head) {
        MarkTags(s.completed, head);
        ReadyIsEnabled(s.completed, head);
        var rest :| multiset(rest) == multiset(s.queue[1..]) && Schedulable(rest, done + {TagOf(head)});
        var order := [head] + rest;
        assert order[1..] == rest && s.queue == [head] + s.queue[1..];
        assert Schedulable(order, done) && multiset(order) == multiset(s.queue);
      } else {
        GroundedRotate(s.queue, done);
      }
    }
  }

  /** A queue can be emptied by repeated calls exactly when it has an executable order. */
  lemma DrainsIffDrainable(s: Sched)
    ensures (exists n: nat :: ProcessMany(s, n).queue == []) <==> Drainable(s)
  {
    if Drainable(s) {
      DrainBound(s, Triangle(|s.queue|));
    }
    if n: nat :| ProcessMany(s, n).queue == [] {
      DrainedWasDrainable(s, n);
    }
  }

  lemma ReachableDrainable(ops: seq<Op>)
    requires SchedulableOnly(ops) && Run(INIT, ops).running == []
    ensures Drainable(Run(INIT, ops))
  {
    InitLive();
    RunLive(INIT, ops);
    var s := Run(INIT, ops);
    assert DoneTags(s.completed) + TagsOf(s.running) == DoneTags(s.completed);
  }

  lemma DrainedEndsAll(s: Sched, t: Sched, submitted: multiset<WorkerJob>)
    requires SameJobs(s, t) && t.queue == [] && s.running == [] && AllJobs(s) == submitted
    ensures multiset(t.ended) == submitted
  {
    assert multiset(t.ended) == multiset(t.queue) + multiset(t.ended);
    assert AllJobs(s) == multiset(s.queue) + multiset(s.ended);
  }

  /** From every reachable state of every interleaving, once no worker holds a job, one worker empties the queue. */
  lemma EveryRunDrains(ops: seq<Op>)
    requires SchedulableOnly(ops) && Run(INIT, ops).running == []
    ensures var s := Run(INIT, ops);
            var t := ProcessMany(s, Triangle(|s.queue|));
            t.queue == [] && multiset(t.ended) == multiset(Submitted(ops))
  {
    var s := Run(INIT, ops);
    ReachableDrainable(ops);
    DrainBound(s, Triangle(|s.queue|));
    Conservation(INIT, ops);
    DrainedEndsAll(s, ProcessMany(s, Triangle(|s.queue|)), multiset(Submitted(ops)));
  }

  function Concat(batches: seq<seq<WorkerJob>>): seq<WorkerJob> {
    if batches == [] then [] else batches[0] + Concat(batches[1..])
  }

  lemma {:induction false} ConcatSchedulable(batches: seq<seq<WorkerJob>>)
    requires forall b :: b in batches ==> Schedulable(b, {})
    ensures Schedulable(Concat(batches), {})
  {
    if batches != [] {
      assert batches[0] in batches;
      ConcatSchedulable(batches[1..]);
      SchedulableAppend(batches[0], Concat(batches[1..]), {});
    }
  }

  /** Any number of submissions, their jobs in any order whatever, on any completed personas. */
  lemma DrainAnyInterleaving(s: Sched, batches: seq<seq<WorkerJob>>)
    requires forall b :: b in batches ==> Schedulable(b, {})
    requires multiset(s.queue) == multiset(Concat(batches))
    ensures ProcessMany(s, Triangle(|s.queue|)).queue == []
  {
    ConcatSchedulable(batches);
    SchedulableMono(Concat(batches), {}, DoneTags(s.completed));
    DrainBound(s, Triangle(|s.queue|));
  }

  /** A queue in an executable order drains in one pass, in that order, with no re-enqueue. */
  lemma {:induction false} FifoDrain(s: Sched)
    requires Schedulable(s.queue, DoneTags(s.completed))
    ensures var t := ProcessMany(s, |s.queue|);
            t.queue == [] && t.running == s.running && t.ended == s.ended + s.queue
    decreases |s.queue|
  {
    if s.queue != [] {
      ReadyIsEnabled(s.completed, s.queue[0]);
      MarkTags(s.completed, s.queue[0]);
      ManyOnce(s, |s.queue|);
      FifoDrain(ProcessNext(s));
      assert s.ended + [s.queue[0]] + s.queue[1..] == s.ended + s.queue;
    } else {
      assert s.ended + s.queue == s.ended;
    }
  }

  // ---------------------------------------------------------------------------------------
  // The bound is attained by a chain queued back to front

  /** The last `n - m` jobs of a chain queued back to front, the first `m` personas done. */
  ghost predicate Backwards(s: Sched, jobs: seq<WorkerJob>, personas: seq<string>, key: Key, m: nat) {
    && m <= |jobs|
    && m <= |personas|
    && |s.queue| == |jobs| - m
    && (forall i :: 0 <= i < |s.queue| ==> s.queue[i] == jobs[|jobs| - 1 - i])
    && CompletedAt(s.completed, key) == personas[..m]
  }

  ghost predicate PlainChain(jobs: seq<WorkerJob>, personas: seq<string>, key: Key) {
    Links(jobs, personas, key) && Distinct(personas) && "" !in personas
  }

  lemma BackwardsReady(s: Sched, jobs: seq<WorkerJob>, personas: seq<string>, key: Key, m: nat, i: nat)
    requires PlainChain(jobs, personas, key) && m <= i < |jobs|
    requires CompletedAt(s.completed, key) == personas[..m]
    ensures Ready(s.completed, jobs[i]) <==> i == m
  {
    assert KeyOf(jobs[i]) == key;
    if i == m && m > 0 { assert personas[m - 1] == personas[..m][m - 1]; }
  }

  /** In a queue of the chain back to front, exactly the last job is ready. */
  lemma BackwardsOnlyLast(s: Sched, jobs: seq<WorkerJob>, personas: seq<string>, key: Key, m: nat)
    requires PlainChain(jobs, personas, key) && Backwards(s, jobs, personas, key, m) && m < |jobs|
    ensures s.queue[|jobs| - m - 1] == jobs[m]
    ensures forall i :: 0 <= i < |jobs| - m ==> (Ready(s.completed, s.queue[i]) <==> i == |jobs| - m - 1)
  {
    var n := |jobs| - m;
    forall i | 0 <= i < n
      ensures s.queue[i] == jobs[|jobs| - 1 - i] && (Ready(s.completed, s.queue[i]) <==> i == n - 1)
    {
      BackwardsReady(s, jobs, personas, key, m, |jobs| - 1 - i);
    }
  }

  lemma BackwardsMark(completed: Marks, job: WorkerJob, personas: seq<string>, m: nat)
    requires m < |personas| && Distinct(personas) && job.persona == personas[m]
    requires CompletedAt(completed, KeyOf(job)) == personas[..m]
    ensures CompletedAt(Mark(completed, job), KeyOf(job)) == personas[..m + 1]
  {
    assert personas[m] !in personas[..m];
    assert personas[..m] + [personas[m]] == personas[..m + 1];
  }

  lemma BackwardsRound(s: Sched, jobs: seq<WorkerJob>, personas: seq<string>, key: Key, m: nat)
    requires PlainChain(jobs, personas, key) && Backwards(s, jobs, personas, key, m) && m < |jobs|
    ensures ProcessMany(s, |jobs| - m - 1).queue != []
    ensures Backwards(ProcessMany(s, |jobs| - m), jobs, personas, key, m + 1)
  {
    var n := |jobs| - m;
    BackwardsOnlyLast(s, jobs, personas, key, m);
    Rotate(s, n - 1);
    RoundTo(s, n - 1);
    BackwardsMark(s.completed, jobs[m], personas, m);
  }

  lemma {:induction false} BackwardsNeedsAll(s: Sched, jobs: seq<WorkerJob>, personas: seq<string>, key: Key, m: nat)
    requires PlainChain(jobs, personas, key) && Backwards(s, jobs, personas, key, m) && m < |jobs|
    ensures Triangle(|jobs| - m) > 0 && ProcessMany(s, Triangle(|jobs| - m) - 1).queue != []
    decreases |jobs| - m
  {
    var n := |jobs| - m;
    BackwardsRound(s, jobs, personas, key, m);
    if n > 1 {
      BackwardsNeedsAll(ProcessMany(s, n), jobs, personas, key, m + 1);
      ManyAppend(s, n, Triangle(n - 1) - 1);
    } else {
      assert Triangle(n) - 1 == n - 1;
    }
  }

  lemma BackwardsStart(s: Sched, jobs: seq<WorkerJob>, personas: seq<string>, key: Key)
    requires |s.queue| == |jobs| && forall i :: 0 <= i < |jobs| ==> s.queue[i] == jobs[|jobs| - 1 - i]
    requires CompletedAt(s.completed, key) == []
    ensures Backwards(s, jobs, personas, key, 0)
  {
    assert personas[..0] == [];
  }

  /** For every chain of distinct nonempty names on a fresh key there is a queue order that needs the whole bound. */
  lemma DrainBoundAttained(s: Sched, jobs: seq<WorkerJob>, personas: seq<string>, key: Key)
    requires PlainChain(jobs, personas, key) && jobs != []
    requires |s.queue| == |jobs| && forall i :: 0 <= i < |jobs| ==> s.queue[i] == jobs[|jobs| - 1 - i]
    requires CompletedAt(s.completed, key) == []
    ensures Triangle(|jobs|) > 0 && ProcessMany(s, Triangle(|jobs|) - 1).queue != []
  {
    BackwardsStart(s, jobs, personas, key);
    BackwardsNeedsAll(s, jobs, personas, key, 0);
  }
}
