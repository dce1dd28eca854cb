/**
 The failure-count circuit breaker. Asking whether it is open may reset it, so its answers
 depend on who asked before; the bounds below speak of the failure history alone.
 */
module Breakers {

  datatype Breaker = Breaker(failures: nat, openedAt: real)

  datatype Policy = Policy(failureThreshold: int, recoveryTimeout: real)

  const CLOSED := Breaker(0, 0.0)

  function Fail(b: Breaker, policy: Policy, now: real): Breaker {
    var failures := b.failures + 1;
    Breaker(failures, if failures >= policy.failureThreshold then now else b.openedAt)
  }

  function Open(b: Breaker, policy: Policy, now: real): bool {
    b.failures >= policy.failureThreshold && now - b.openedAt < policy.recoveryTimeout
  }

  /** The state after a query: reset when the threshold was reached but the timeout has passed. */
  function Ask(b: Breaker, policy: Policy, now: real): Breaker {
    if b.failures >= policy.failureThreshold && !Open(b, policy, now) then CLOSED else b
  }

  datatype Event = Failure(at: real) | Query(at: real) | Success(at: real)

  function Apply(b: Breaker, policy: Policy, e: Event): Breaker {
    match e
    case Failure(now) => Fail(b, policy, now)
    case Query(now) => Ask(b, policy, now)
    case Success(_) => CLOSED
  }

  function After(policy: Policy, events: seq<Event>): Breaker {
    if events == [] then CLOSED
    else Apply(After(policy, events[..|events| - 1]), policy, events[|events| - 1])
  }

  /** The times of the failures since the last success. Queries leave no trace. */
  function Failures(events: seq<Event>): seq<real> {
    if events == [] then []
    else
      var earlier := Failures(events[..|events| - 1]);
      match events[|events| - 1]
      case Failure(at) => earlier + [at]
      case Query(_) => earlier
      case Success(_) => []
  }

  ghost predicate MonotoneTo(events: seq<Event>, now: real) {
    && (forall i, j :: 0 <= i < j < |events| ==> events[i].at <= events[j].at)
    && (events != [] ==> events[|events| - 1].at <= now)
  }

  /** What the two stored numbers mean: older failures than the counted ones had expired by `now`. */
  ghost predicate Counts(b: Breaker, policy: Policy, failures: seq<real>, now: real) {
    && b.failures <= |failures|
    && (forall i :: 0 <= i < |failures| ==> failures[i] <= now)
    && (forall i, j :: 0 <= i < j < |failures| ==> failures[i] <= failures[j])
    && (forall i :: 0 <= i < |failures| - b.failures ==> now - failures[i] >= policy.recoveryTimeout)
    && (b.failures >= policy.failureThreshold ==> failures != [] && b.openedAt == failures[|failures| - 1])
  }

  lemma {:induction false} AfterCounts(policy: Policy, events: seq<Event>, now: real)
    requires policy.failureThreshold >= 1 && MonotoneTo(events, now)
    ensures Counts(After(policy, events), policy, Failures(events), now)
  {
    if events != [] {
      var front, last := events[..|events| - 1], events[|events| - 1];
      AfterCounts(policy, front, last.at);
    }
  }

  /** The newest `count` failures all lie within the timeout before `now`. */
  predicate AllRecent(failures: seq<real>, count: int, policy: Policy, now: real) {
    && count <= |failures|
    && forall i :: |failures| - count <= i < |failures| ==> 0 <= i && now - failures[i] < policy.recoveryTimeout
  }

  /** Enough recent failures block the agent, whatever queries were interleaved. */
  lemma RecentFailuresBlock(policy: Policy, events: seq<Event>, now: real)
    requires policy.failureThreshold >= 1 && MonotoneTo(events, now)
    requires AllRecent(Failures(events), policy.failureThreshold, policy, now)
    ensures Open(After(policy, events), policy, now)
  {
    AfterCounts(policy, events, now);
    var failures := Failures(events);
    assert now - failures[|failures| - policy.failureThreshold] < policy.recoveryTimeout;
  }

  /** A blocked agent has that many failures on record, and the newest one is recent. */
  lemma BlockedHasFailures(policy: Policy, events: seq<Event>, now: real)
    requires policy.failureThreshold >= 1 && MonotoneTo(events, now)
    requires Open(After(policy, events), policy, now)
    ensures var failures := Failures(events);
            |failures| >= policy.failureThreshold && now - failures[|failures| - 1] < policy.recoveryTimeout
  {
    AfterCounts(policy, events, now);
  }

  /** With a threshold of one, the answer is a function of the newest failure. */
  lemma SingleFailureExact(policy: Policy, events: seq<Event>, now: real)
    requires policy.failureThreshold == 1 && MonotoneTo(events, now)
    ensures Open(After(policy, events), policy, now)
      <==> Failures(events) != [] && now - Failures(events)[|Failures(events)| - 1] < policy.recoveryTimeout
  {
    AfterCounts(policy, events, now);
    if Failures(events) != [] && now - Failures(events)[|Failures(events)| - 1] < policy.recoveryTimeout {
      RecentFailuresBlock(policy, events, now);
    }
  }

  /**
   With a larger threshold no function of the failure history can give the answer: two runs with
   the same failures, of which one contains a query, end differently.
   */
  lemma QueriesMatter(threshold: int, timeout: real)
    returns (policy: Policy, quiet: seq<Event>, asked: seq<Event>, now: real)
    requires threshold >= 2 && timeout > 0.0
    ensures policy == Policy(threshold, timeout)
    ensures MonotoneTo(quiet, now) && MonotoneTo(asked, now) && Failures(quiet) == Failures(asked)
    ensures Open(After(policy, quiet), policy, now) && !Open(After(policy, asked), policy, now)
  {
    policy, now := Policy(threshold, timeout), timeout;
    var burst := seq(threshold, _ => Failure(0.0));
    Burst(policy, threshold);
    quiet := burst + [Failure(timeout)];
    asked := burst + [Query(timeout)] + [Failure(timeout)];
    assert quiet[..threshold] == burst;
    assert asked[..threshold + 1] == burst + [Query(timeout)];
    assert (burst + [Query(timeout)])[..threshold] == burst;
    var tripped := After(policy, burst);
    assert Ask(tripped, policy, timeout) == CLOSED;
  }

  lemma {:induction false} Burst(policy: Policy, n: nat)
    ensures After(policy, seq(n, _ => Failure(0.0))) == Breaker(n, 0.0)
    ensures Failures(seq(n, _ => Failure(0.0))) == seq(n, _ => 0.0)
  {
    if n > 0 {
      Burst(policy, n - 1);
      assert seq(n, _ => Failure(0.0))[..n - 1] == seq(n - 1, _ => Failure(0.0));
    }
  }

  /** The breaker object; `events` is the record of everything done to it. */
  class CircuitBreaker {
    const policy: Policy
    var failures: nat
    var openedAt: real
    ghost var events: seq<Event>

    ghost predicate Valid()
      reads this
    {
      Breaker(failures, openedAt) == After(policy, events)
    }

    constructor (policy: Policy)
      ensures Valid() && events == [] && this.policy == policy
    {
      this.policy := policy;
      failures, openedAt, events := 0, 0.0, [];
    }

    method IsOpen(now: real) returns (open: bool)
      requires Valid()
      modifies this
      ensures Valid() && events == old(events) + [Query(now)]
      ensures open <==> Open(After(policy, old(events)), policy, now)
    {
      events := events + [Query(now)];
      if failures < policy.failureThreshold { return false; }
      if now - openedAt >= policy.recoveryTimeout {
        failures := 0;
        openedAt := 0.0;
        return false;
      }
      return true;
    }

    method RecordFailure(now: real)
      requires Valid()
      modifies this
      ensures Valid() && events == old(events) + [Failure(now)]
    {
      events := events + [Failure(now)];
      failures := failures + 1;
      if failures >= policy.failureThreshold {
        openedAt := now;
      }
    }

    method RecordSuccess(now: real)
      requires Valid()
      modifies this
      ensures Valid() && events == old(events) + [Success(now)]
    {
      events := events + [Success(now)];
      failures, openedAt := 0, 0.0;
    }
  }
}
