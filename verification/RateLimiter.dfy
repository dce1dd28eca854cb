/**
 The in-memory sliding-window rate limiter. The implementation keeps, per key, a deque from
 which expired timestamps are popped; the specification looks only at the full history of
 admitted calls.
 */
module RateLimiter {

  /** How many timestamps of `history` lie in the closed interval [lo, hi]. */
  function CountIn(history: seq<real>, lo: real, hi: real): nat {
    if history == [] then 0
    else
      var last := history[|history| - 1];
      CountIn(history[..|history| - 1], lo, hi) + if lo <= last <= hi then 1 else 0
  }

  predicate Sorted(history: seq<real>) {
    forall i, j :: 0 <= i < j < |history| ==> history[i] <= history[j]
  }

  /** A call is admitted when fewer than `maxCalls` admitted calls lie in the window ending now. */
  predicate Admits(history: seq<real>, maxCalls: int, window: real, now: real) {
    CountIn(history, now - window, now) < maxCalls
  }

  lemma {:induction false} CountNone(history: seq<real>, lo: real, hi: real)
    requires forall i :: 0 <= i < |history| ==> !(lo <= history[i] <= hi)
    ensures CountIn(history, lo, hi) == 0
  {
    if history != [] { CountNone(history[..|history| - 1], lo, hi); }
  }

  /** Expired timestamps first, live ones after: the live ones are the count. */
  lemma {:induction false} CountSuffix(history: seq<real>, k: nat, lo: real, hi: real)
    requires k <= |history|
    requires forall i :: 0 <= i < k ==> history[i] < lo
    requires forall i :: k <= i < |history| ==> lo <= history[i] <= hi
    ensures CountIn(history, lo, hi) == |history| - k
  {
    if k == |history| {
      CountNone(history, lo, hi);
    } else {
      CountSuffix(history[..|history| - 1], k, lo, hi);
    }
  }

  /** Any `maxCalls + 1` consecutive admitted calls span more than the window. */
  ghost predicate Spaced(history: seq<real>, maxCalls: int, window: real) {
    if maxCalls <= 0 then history == []
    else forall i, j :: 0 <= i < j < |history| && j - i >= maxCalls ==> history[j] - history[i] > window
  }

  /** More than `n` timestamps of a sorted history in an interval put `n + 1` consecutive ones in it. */
  lemma {:induction false} CountRun(history: seq<real>, lo: real, hi: real, n: nat) returns (i: nat)
    requires Sorted(history) && CountIn(history, lo, hi) > n
    ensures i + n < |history| && lo <= history[i] && history[i + n] <= hi
  {
    var front, last := history[..|history| - 1], history[|history| - 1];
    if CountIn(front, lo, hi) > n {
      i := CountRun(front, lo, hi, n);
    } else if n == 0 {
      i := |history| - 1;
    } else {
      var j := CountRun(front, lo, hi, n - 1);
      i := |history| - 1 - n;
      assert j <= i && history[j] <= history[i];
    }
  }

  /** A spaced history has at most `maxCalls` calls in every closed interval as long as the window. */
  lemma SpacedWindow(history: seq<real>, maxCalls: int, window: real, start: real)
    requires Sorted(history) && Spaced(history, maxCalls, window)
    ensures CountIn(history, start, start + window) <= if maxCalls < 0 then 0 else maxCalls
  {
    if maxCalls > 0 && CountIn(history, start, start + window) > maxCalls {
      var i := CountRun(history, start, start + window, maxCalls);
      assert false;
    }
  }

  /** Admission by the history-only rule keeps the history sorted and spaced. */
  lemma AdmitSpaced(history: seq<real>, maxCalls: int, window: real, now: real)
    requires Sorted(history) && Spaced(history, maxCalls, window)
    requires forall i :: 0 <= i < |history| ==> history[i] <= now
    requires Admits(history, maxCalls, window, now)
    ensures Sorted(history + [now]) && Spaced(history + [now], maxCalls, window)
  {
    if |history| >= maxCalls {
      var k := |history| - maxCalls;
      if history[k] >= now - window {
        CountAtLeast(history, k, now - window, now);
      }
    }
  }

  lemma {:induction false} CountAtLeast(history: seq<real>, k: nat, lo: real, hi: real)
    requires k <= |history|
    requires forall i :: k <= i < |history| ==> lo <= history[i] <= hi
    ensures CountIn(history, lo, hi) >= |history| - k
  {
    if k < |history| { CountAtLeast(history[..|history| - 1], k, lo, hi); }
  }

  lemma {:induction false} CountAtMost(history: seq<real>, k: nat, lo: real, hi: real)
    requires k <= |history| && forall i :: 0 <= i < k ==> history[i] < lo
    ensures CountIn(history, lo, hi) <= |history| - k
  {
    if k == |history| {
      CountNone(history, lo, hi);
    } else {
      CountAtMost(history[..|history| - 1], k, lo, hi);
    }
  }

  /** A call is refused exactly when the calls admitted `maxCalls` before it and since all lie in the window. */
  lemma RefusedIff(history: seq<real>, maxCalls: int, window: real, now: real)
    requires Sorted(history) && forall i :: 0 <= i < |history| ==> history[i] <= now
    ensures !Admits(history, maxCalls, window, now) <==>
      maxCalls <= 0 || (|history| >= maxCalls && history[|history| - maxCalls] >= now - window)
  {
    if maxCalls > 0 {
      if |history| < maxCalls {
        CountAtMost(history, 0, now - window, now);
      } else {
        var k := |history| - maxCalls;
        if history[k] >= now - window {
          CountAtLeast(history, k, now - window, now);
        } else {
          CountAtMost(history, k + 1, now - window, now);
        }
      }
    }
  }

  // ---------------------------------------------------------------------------------------
  // Whole runs, by the history-only rule

  type Histories = map<string, seq<real>>

  function HistoryOf(histories: Histories, key: string): seq<real> {
    if key in histories then histories[key] else []
  }

  function Record(histories: Histories, maxCalls: int, window: real, key: string, now: real): Histories {
    var history := HistoryOf(histories, key);
    if Admits(history, maxCalls, window, now) then histories[key := history + [now]] else histories
  }

  datatype Call = Call(key: string, at: real)

  /** The admitted calls of each key after a run of calls, from empty histories. */
  function Replay(calls: seq<Call>, maxCalls: int, window: real): Histories {
    if calls == [] then map[]
    else
      var last := calls[|calls| - 1];
      Record(Replay(calls[..|calls| - 1], maxCalls, window), maxCalls, window, last.key, last.at)
  }

  predicate Monotone(calls: seq<Call>) {
    forall i, j :: 0 <= i < j < |calls| ==> calls[i].at <= calls[j].at
  }

  ghost predicate GoodHistory(history: seq<real>, maxCalls: int, window: real, clock: real) {
    Sorted(history) && Spaced(history, maxCalls, window) && forall i :: 0 <= i < |history| ==> history[i] <= clock
  }

  lemma {:induction false} ReplayGood(calls: seq<Call>, maxCalls: int, window: real, key: string, clock: real)
    requires Monotone(calls) && (calls != [] ==> calls[|calls| - 1].at <= clock)
    ensures GoodHistory(HistoryOf(Replay(calls, maxCalls, window), key), maxCalls, window, clock)
  {
    if calls != [] {
      var front, last := calls[..|calls| - 1], calls[|calls| - 1];
      ReplayGood(front, maxCalls, window, key, last.at);
      var history := HistoryOf(Replay(front, maxCalls, window), key);
      if last.key == key && Admits(history, maxCalls, window, last.at) {
        AdmitSpaced(history, maxCalls, window, last.at);
      }
    }
  }

  /** Over any run on a nondecreasing clock and any mix of keys, no window holds more than `maxCalls` admitted calls. */
  lemma NoWindowOverfull(calls: seq<Call>, maxCalls: int, window: real, key: string, start: real)
    requires Monotone(calls)
    ensures CountIn(HistoryOf(Replay(calls, maxCalls, window), key), start, start + window) <=
      if maxCalls < 0 then 0 else maxCalls
  {
    var clock := if calls == [] then 0.0 else calls[|calls| - 1].at;
    ReplayGood(calls, maxCalls, window, key, clock);
    SpacedWindow(HistoryOf(Replay(calls, maxCalls, window), key), maxCalls, window, start);
  }

  function AtOnce(key: string, at: real, n: nat): seq<Call> {
    seq(n, _ => Call(key, at))
  }

  function Repeated(at: real, n: nat): (r: seq<real>)
    ensures |r| == n && forall i :: 0 <= i < n ==> r[i] == at
  {
    seq(n, _ => at)
  }

  lemma BurstStep(at: real, n: nat, maxCalls: nat, window: real)
    requires window >= 0.0 && n <= maxCalls
    ensures Admits(Repeated(at, n), maxCalls, window, at) <==> n < maxCalls
    ensures Repeated(at, n) + [at] == Repeated(at, n + 1)
  {
    RefusedIff(Repeated(at, n), maxCalls, window, at);
  }

  /** The bound is used to the full: of calls of a fresh key at one instant the first `maxCalls` are admitted. */
  lemma {:induction false} BurstAdmitted(key: string, at: real, n: nat, maxCalls: nat, window: real)
    requires window >= 0.0
    ensures HistoryOf(Replay(AtOnce(key, at, n), maxCalls, window), key) ==
      Repeated(at, if n < maxCalls then n else maxCalls)
  {
    if n > 0 {
      BurstAdmitted(key, at, n - 1, maxCalls, window);
      assert AtOnce(key, at, n)[..n - 1] == AtOnce(key, at, n - 1);
      BurstStep(at, if n - 1 < maxCalls then n - 1 else maxCalls, maxCalls, window);
    }
  }

  // ---------------------------------------------------------------------------------------
  // The pruned deques

  /** The history is `expired`, which the window no longer counts, and then the bucket. */
  ghost predicate Splits(expired: seq<real>, bucket: seq<real>, history: seq<real>, window: real, clock: real) {
    history == expired + bucket && forall i :: 0 <= i < |expired| ==> expired[i] < clock - window
  }

  /** A bucket is the part of the history that was not yet expired when the key was last used. */
  ghost predicate Tracks(bucket: seq<real>, history: seq<real>, window: real, clock: real) {
    exists expired :: Splits(expired, bucket, history, window, clock)
  }

  function BucketOf(buckets: map<string, seq<real>>, key: string): seq<real> {
    if key in buckets then buckets[key] else []
  }

  ghost predicate AllTrack(buckets: map<string, seq<real>>, histories: Histories, window: real, clock: real) {
    forall key {:trigger BucketOf(buckets, key)} ::
      Tracks(BucketOf(buckets, key), HistoryOf(histories, key), window, clock)
  }

  lemma NothingTracked(window: real, clock: real)
    ensures AllTrack(map[], map[], window, clock)
  {
    assert Splits([], [], [], window, clock);
  }

  lemma AllTrackLater(buckets: map<string, seq<real>>, histories: Histories, window: real, clock: real, now: real)
    requires AllTrack(buckets, histories, window, clock) && clock <= now
    ensures AllTrack(buckets, histories, window, now)
  {
    forall key ensures Tracks(BucketOf(buckets, key), HistoryOf(histories, key), window, now) {
      var expired :| Splits(expired, BucketOf(buckets, key), HistoryOf(histories, key), window, clock);
      assert Splits(expired, BucketOf(buckets, key), HistoryOf(histories, key), window, now);
    }
  }

  lemma AllTrackUpdate(buckets: map<string, seq<real>>, histories: Histories, key: string, bucket: seq<real>,
                       maxCalls: int, window: real, now: real)
    requires AllTrack(buckets, histories, window, now)
    requires Tracks(bucket, HistoryOf(Record(histories, maxCalls, window, key, now), key), window, now)
    ensures AllTrack(buckets[key := bucket], Record(histories, maxCalls, window, key, now), window, now)
  {
    var next := Record(histories, maxCalls, window, key, now);
    forall k ensures Tracks(BucketOf(buckets[key := bucket], k), HistoryOf(next, k), window, now) {
      assert Tracks(BucketOf(buckets, k), HistoryOf(histories, k), window, now);
    }
  }

  /** Pops the expired front of a bucket; what is left is what the window counts. */
  method Prune(stored: seq<real>, ghost history: seq<real>, window: real, now: real) returns (bucket: seq<real>)
    requires Tracks(stored, history, window, now)
    requires Sorted(history) && forall i :: 0 <= i < |history| ==> history[i] <= now
    ensures Tracks(bucket, history, window, now)
    ensures |bucket| == CountIn(history, now - window, now)
  {
    ghost var expired :| Splits(expired, stored, history, window, now);
    bucket := stored;
    while bucket != [] && now - bucket[0] > window
      invariant Splits(expired, bucket, history, window, now)
    {
      assert expired + bucket == (expired + [bucket[0]]) + bucket[1..];
      expired, bucket := expired + [bucket[0]], bucket[1..];
    }
    LiveCount(expired, bucket, history, window, now);
  }

  lemma LiveCount(expired: seq<real>, bucket: seq<real>, history: seq<real>, window: real, now: real)
    requires Splits(expired, bucket, history, window, now) && (bucket != [] ==> now - bucket[0] <= window)
    requires Sorted(history) && forall i :: 0 <= i < |history| ==> history[i] <= now
    ensures |bucket| == CountIn(history, now - window, now)
  {
    forall i | 0 <= i < |expired| ensures history[i] < now - window { assert history[i] == expired[i]; }
    if bucket != [] { assert history[|expired|] == bucket[0]; }
    CountSuffix(history, |expired|, now - window, now);
  }

  /** The pruned bucket, with the call if it fits, tracks the history after the call. */
  lemma TracksRecord(bucket: seq<real>, histories: Histories, maxCalls: int, window: real, key: string, now: real)
    requires Tracks(bucket, HistoryOf(histories, key), window, now)
    requires |bucket| == CountIn(HistoryOf(histories, key), now - window, now)
    ensures Tracks(if |bucket| < maxCalls then bucket + [now] else bucket,
                   HistoryOf(Record(histories, maxCalls, window, key, now), key), window, now)
  {
    var history := HistoryOf(histories, key);
    var expired :| Splits(expired, bucket, history, window, now);
    if |bucket| < maxCalls {
      assert expired + (bucket + [now]) == history + [now];
      assert Splits(expired, bucket + [now], history + [now], window, now);
    }
  }

  lemma RecordWritten(histories: Histories, maxCalls: int, window: real, key: string, now: real)
    requires var history := HistoryOf(histories, key);
             Sorted(history) && forall i :: 0 <= i < |history| ==> history[i] <= now
    ensures var h := HistoryOf(histories, key);
            var refused := maxCalls <= 0 || (|h| >= maxCalls && h[|h| - maxCalls] >= now - window);
            && (Admits(h, maxCalls, window, now) <==> !refused)
            && Record(histories, maxCalls, window, key, now) ==
                 if refused then histories else histories[key := h + [now]]
  {
    RefusedIff(HistoryOf(histories, key), maxCalls, window, now);
  }

  lemma ReplaySorted(calls: seq<Call>, maxCalls: int, window: real, key: string, clock: real)
    requires UpTo(calls, clock)
    ensures var history := HistoryOf(Replay(calls, maxCalls, window), key);
            Sorted(history) && forall i :: 0 <= i < |history| ==> history[i] <= clock
  {
    ReplayGood(calls, maxCalls, window, key, clock);
  }

  ghost predicate UpTo(calls: seq<Call>, clock: real) {
    Monotone(calls) && (calls != [] ==> calls[|calls| - 1].at <= clock)
  }

  lemma ReplayMore(calls: seq<Call>, key: string, now: real, maxCalls: int, window: real)
    requires UpTo(calls, now)
    ensures UpTo(calls + [Call(key, now)], now)
    ensures Replay(calls + [Call(key, now)], maxCalls, window) ==
      Record(Replay(calls, maxCalls, window), maxCalls, window, key, now)
  {
    assert (calls + [Call(key, now)])[..|calls|] == calls;
  }

  /** What the limiter is in after the calls. */
  ghost predicate Follows(buckets: map<string, seq<real>>, calls: seq<Call>, admitted: Histories, maxCalls: int,
                          window: real, clock: real) {
    AllTrack(buckets, admitted, window, clock) && UpTo(calls, clock) && admitted == Replay(calls, maxCalls, window)
  }

  /** The decision about one call, and the bucket of its key after it. */
  method Answer(buckets: map<string, seq<real>>, ghost calls: seq<Call>, ghost admitted: Histories, maxCalls: int,
                window: real, ghost clock: real, key: string, now: real)
    returns (allowed: bool, bucket: seq<real>, ghost next: Histories)
    requires Follows(buckets, calls, admitted, maxCalls, window, clock) && clock <= now
    ensures var h := HistoryOf(admitted, key);
      && Follows(buckets[key := bucket], calls + [Call(key, now)], next, maxCalls, window, now)
      && (!allowed <==> maxCalls <= 0 || (|h| >= maxCalls && h[|h| - maxCalls] >= now - window))
      && next == if allowed then admitted[key := h + [now]] else admitted
  {
    AllTrackLater(buckets, admitted, window, clock, now);
    ReplaySorted(calls, maxCalls, window, key, now);
    ReplayMore(calls, key, now, maxCalls, window);
    assert Tracks(BucketOf(buckets, key), HistoryOf(admitted, key), window, now);
    bucket := Prune(if key in buckets then buckets[key] else [], HistoryOf(admitted, key), window, now);
    allowed := |bucket| < maxCalls;
    RecordWritten(admitted, maxCalls, window, key, now);
    TracksRecord(bucket, admitted, maxCalls, window, key, now);
    if allowed {
      bucket := bucket + [now];
    }
    AllTrackUpdate(buckets, admitted, key, bucket, maxCalls, window, now);
    next := Record(admitted, maxCalls, window, key, now);
  }

  class InMemoryRateLimiter {
    const maxCalls: int
    const windowSeconds: real
    var buckets: map<string, seq<real>>
    ghost var calls: seq<Call>
    ghost var clock: real

    /** The calls admitted so far, of each key. */
    ghost var admitted: Histories

    ghost predicate Valid()
      reads this
    {
      Follows(buckets, calls, admitted, maxCalls, windowSeconds, clock)
    }

    constructor (maxCalls: int, windowSeconds: real, ghost now: real)
      ensures Valid() && calls == [] && clock == now && admitted == map[]
      ensures this.maxCalls == maxCalls && this.windowSeconds == windowSeconds
    {
      this.maxCalls := maxCalls;
      this.windowSeconds := windowSeconds;
      buckets := map[];
      calls, admitted := [], map[];
      clock := now;
      NothingTracked(windowSeconds, now);
    }

    method Allow(key: string, now: real) returns (allowed: bool)
      requires Valid() && clock <= now
      modifies this
      ensures Valid() && clock == now && calls == old(calls) + [Call(key, now)]
      ensures var h := if key in old(admitted) then old(admitted)[key] else [];
        && (!allowed <==> maxCalls <= 0 || (|h| >= maxCalls && h[|h| - maxCalls] >= now - windowSeconds))
        && admitted == if allowed then old(admitted)[key := h + [now]] else old(admitted)
    {
      var bucket;
      ghost var next;
      allowed, bucket, next := Answer(buckets, calls, admitted, maxCalls, windowSeconds, clock, key, now);
      buckets, admitted := buckets[key := bucket], next;
      calls, clock := calls + [Call(key, now)], now;
    }

    /** In every state: at most `maxCalls` admitted calls of a key in any window. */
    lemma WindowHolds(key: string, start: real)
      requires Valid()
      ensures CountIn(HistoryOf(admitted, key), start, start + windowSeconds) <= if maxCalls < 0 then 0 else maxCalls
    {
      NoWindowOverfull(calls, maxCalls, windowSeconds, key, start);
    }
  }
}
