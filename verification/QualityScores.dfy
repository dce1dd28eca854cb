/**
 Quality arithmetic: exponentially smoothed persona scores, updated through the catalog objects
 that the catalog itself holds, and the running mean of jobs per plan match. Over the reals.
 */
module QualityScores {

  /** A score that was never set (not positive) takes the first sample. */
  function Ema(previous: real, sample: real, alpha: real): real {
    if previous <= 0.0 then sample else (1.0 - alpha) * previous + alpha * sample
  }

  function EmaAll(start: real, samples: seq<real>, alpha: real): real {
    if samples == [] then start
    else Ema(EmaAll(start, samples[..|samples| - 1], alpha), samples[|samples| - 1], alpha)
  }

  lemma ConvexBetween(a: real, b: real, alpha: real, lo: real, hi: real)
    requires 0.0 <= alpha <= 1.0 && lo <= a <= hi && lo <= b <= hi
    ensures lo <= (1.0 - alpha) * a + alpha * b <= hi
  {
    assert (1.0 - alpha) * (a - lo) >= 0.0 && alpha * (b - lo) >= 0.0;
    assert (1.0 - alpha) * (hi - a) >= 0.0 && alpha * (hi - b) >= 0.0;
  }

  /** The score never leaves the range of the start value and the samples seen. */
  lemma {:induction false} EmaInRange(start: real, samples: seq<real>, alpha: real, lo: real, hi: real)
    requires 0.0 <= alpha <= 1.0 && lo <= start <= hi
    requires forall i :: 0 <= i < |samples| ==> lo <= samples[i] <= hi
    ensures lo <= EmaAll(start, samples, alpha) <= hi
  {
    if samples != [] {
      var front, last := samples[..|samples| - 1], samples[|samples| - 1];
      EmaInRange(start, front, alpha, lo, hi);
      ConvexBetween(EmaAll(start, front, alpha), last, alpha, lo, hi);
    }
  }

  function Pow(x: real, k: nat): real {
    if k == 0 then 1.0 else x * Pow(x, k - 1)
  }

  lemma EmaStep(v: real, s: real, alpha: real)
    requires v > 0.0 && s > 0.0 && 0.0 <= alpha <= 1.0
    ensures Ema(v, s, alpha) > 0.0 && s - Ema(v, s, alpha) == (1.0 - alpha) * (s - v)
  {
    var lo := if v < s then v else s;
    ConvexBetween(v, s, alpha, lo, if v < s then s else v);
    assert (1.0 - alpha) * (s - v) == s - ((1.0 - alpha) * v + alpha * s);
  }

  /** The same step as a move towards the sample; a score that is not positive jumps to it. */
  function Towards(previous: real, sample: real, alpha: real): real {
    if previous > 0.0 then previous + alpha * (sample - previous) else sample
  }

  lemma EmaMovesTowards(previous: real, sample: real, alpha: real)
    ensures Ema(previous, sample, alpha) == Towards(previous, sample, alpha)
  {
    assert (1.0 - alpha) * previous == previous - alpha * previous;
    assert alpha * (sample - previous) == alpha * sample - alpha * previous;
  }

  /** A score that was never set forgets its start: it begins at the first sample. */
  lemma {:induction false} FreshScoreTakesFirst(start: real, first: real, rest: seq<real>, alpha: real)
    requires start <= 0.0
    ensures EmaAll(start, [first] + rest, alpha) == EmaAll(first, rest, alpha)
  {
    var samples := [first] + rest;
    if rest == [] {
      assert samples[..|samples| - 1] == [];
    } else {
      assert samples[..|samples| - 1] == [first] + rest[..|rest| - 1];
      FreshScoreTakesFirst(start, first, rest[..|rest| - 1], alpha);
    }
  }

  /** Under equal positive samples the distance to them shrinks by exactly (1 - alpha) each time. */
  lemma {:induction false} EmaConverges(start: real, s: real, k: nat, alpha: real)
    requires start > 0.0 && s > 0.0 && 0.0 <= alpha <= 1.0
    ensures var v := EmaAll(start, seq(k, _ => s), alpha);
            v > 0.0 && s - v == Pow(1.0 - alpha, k) * (s - start)
  {
    if k > 0 {
      EmaConverges(start, s, k - 1, alpha);
      assert seq(k, _ => s)[..k - 1] == seq(k - 1, _ => s);
      var before := EmaAll(start, seq(k - 1, _ => s), alpha);
      EmaStep(before, s, alpha);
      MulAssociates(1.0 - alpha, Pow(1.0 - alpha, k - 1), s - start);
    }
  }

  lemma MulAssociates(a: real, b: real, c: real)
    ensures a * (b * c) == (a * b) * c
  {
  }

  // ---------------------------------------------------------------------------------------
  // Persona scores

  datatype EventKind =
    JOB_COMPLETED | JOB_FAILED | CRITIC_PASS | CRITIC_FAIL | TRACE_PASS | TRACE_FAIL | HITL_PAUSE | BUS_FAILURE

  datatype QualityEvent = QualityEvent(kind: EventKind, trustSignal: real, costUsd: real)

  datatype Quality = Quality(
    empiricalTrust: real, criticPassRate: real, traceCriticPassRate: real, hitlRate: real, avgCostUsd: real,
    jobSuccessRate: real, sampleSize: nat)

  function Bit(b: bool): real {
    if b then 1.0 else 0.0
  }

  /** One event: every kind moves the trust score; each moves the rates it is about. */
  function Observe(q: Quality, e: QualityEvent, alpha: real): Quality {
    var r := q.(sampleSize := q.sampleSize + 1, empiricalTrust := Ema(q.empiricalTrust, e.trustSignal, alpha));
    match e.kind
    case JOB_COMPLETED => r.(jobSuccessRate := Ema(q.jobSuccessRate, 1.0, alpha),
                            avgCostUsd := Ema(q.avgCostUsd, e.costUsd, alpha))
    case JOB_FAILED => r.(jobSuccessRate := Ema(q.jobSuccessRate, 0.0, alpha),
                         avgCostUsd := Ema(q.avgCostUsd, e.costUsd, alpha))
    case CRITIC_PASS => r.(criticPassRate := Ema(q.criticPassRate, 1.0, alpha))
    case CRITIC_FAIL => r.(criticPassRate := Ema(q.criticPassRate, 0.0, alpha))
    case TRACE_PASS => r.(traceCriticPassRate := Ema(q.traceCriticPassRate, 1.0, alpha))
    case TRACE_FAIL => r.(traceCriticPassRate := Ema(q.traceCriticPassRate, 0.0, alpha))
    case HITL_PAUSE => r.(hitlRate := Ema(q.hitlRate, 1.0, alpha))
    case BUS_FAILURE => r
  }

  function ObserveAll(q: Quality, events: seq<QualityEvent>, alpha: real): Quality {
    if events == [] then q else Observe(ObserveAll(q, events[..|events| - 1], alpha), events[|events| - 1], alpha)
  }

  function Signals(events: seq<QualityEvent>): (r: seq<real>)
    ensures |r| == |events| && forall i :: 0 <= i < |r| ==> r[i] == events[i].trustSignal
  {
    seq(|events|, i requires 0 <= i < |events| => events[i].trustSignal)
  }

  predicate Share(x: real) {
    0.0 <= x <= 1.0
  }

  /** The rates as shares. */
  predicate RatesAreShares(q: Quality) {
    Share(q.criticPassRate) && Share(q.traceCriticPassRate) && Share(q.hitlRate) && Share(q.jobSuccessRate)
  }

  /** After any events: trust is the smoothed signals, the sample size counts the events, the rates stay shares. */
  lemma {:induction false} QualityAfter(q: Quality, events: seq<QualityEvent>, alpha: real)
    requires 0.0 <= alpha <= 1.0
    ensures var r := ObserveAll(q, events, alpha);
            && r.empiricalTrust == EmaAll(q.empiricalTrust, Signals(events), alpha)
            && r.sampleSize == q.sampleSize + |events|
            && (RatesAreShares(q) ==> RatesAreShares(r))
  {
    if events != [] {
      var front, last := events[..|events| - 1], events[|events| - 1];
      QualityAfter(q, front, alpha);
      assert Signals(events)[..|events| - 1] == Signals(front);
      if RatesAreShares(q) { RatesStayShares(ObserveAll(q, front, alpha), last, alpha); }
    }
  }

  /** The outcomes a rate is about: 1 for each event of kind `yes`, 0 for each of kind `no`, others skipped. */
  function Outcomes(events: seq<QualityEvent>, yes: EventKind, no: EventKind): seq<real> {
    if events == [] then []
    else
      var earlier, last := Outcomes(events[..|events| - 1], yes, no), events[|events| - 1];
      if last.kind == yes then earlier + [1.0]
      else if last.kind == no then earlier + [0.0]
      else earlier
  }

  function Costs(events: seq<QualityEvent>): seq<real> {
    if events == [] then []
    else
      var earlier, last := Costs(events[..|events| - 1]), events[|events| - 1];
      if last.kind == JOB_COMPLETED || last.kind == JOB_FAILED then earlier + [last.costUsd] else earlier
  }

  lemma EmaAllLast(start: real, samples: seq<real>, x: real, alpha: real)
    ensures EmaAll(start, samples + [x], alpha) == Ema(EmaAll(start, samples, alpha), x, alpha)
  {
    assert (samples + [x])[..|samples|] == samples;
  }

  /** However events of different kinds are mixed, each rate is the smoothing of its own outcomes alone. */
  lemma {:induction false} RatesSmoothOutcomes(q: Quality, events: seq<QualityEvent>, alpha: real)
    ensures var r := ObserveAll(q, events, alpha);
            && r.jobSuccessRate == EmaAll(q.jobSuccessRate, Outcomes(events, JOB_COMPLETED, JOB_FAILED), alpha)
            && r.avgCostUsd == EmaAll(q.avgCostUsd, Costs(events), alpha)
            && r.criticPassRate == EmaAll(q.criticPassRate, Outcomes(events, CRITIC_PASS, CRITIC_FAIL), alpha)
            && r.traceCriticPassRate == EmaAll(q.traceCriticPassRate, Outcomes(events, TRACE_PASS, TRACE_FAIL), alpha)
            && r.hitlRate == EmaAll(q.hitlRate, Outcomes(events, HITL_PAUSE, HITL_PAUSE), alpha)
  {
    if events != [] {
      var front, last := events[..|events| - 1], events[|events| - 1];
      RatesSmoothOutcomes(q, front, alpha);
      RateLast(q.jobSuccessRate, front, last, JOB_COMPLETED, JOB_FAILED, alpha);
      RateLast(q.criticPassRate, front, last, CRITIC_PASS, CRITIC_FAIL, alpha);
      RateLast(q.traceCriticPassRate, front, last, TRACE_PASS, TRACE_FAIL, alpha);
      RateLast(q.hitlRate, front, last, HITL_PAUSE, HITL_PAUSE, alpha);
      EmaAllLast(q.avgCostUsd, Costs(front), last.costUsd, alpha);
      assert events == front + [last];
    }
  }

  lemma RateLast(start: real, front: seq<QualityEvent>, last: QualityEvent, yes: EventKind, no: EventKind, alpha: real)
    ensures EmaAll(start, Outcomes(front + [last], yes, no), alpha) ==
      var before := EmaAll(start, Outcomes(front, yes, no), alpha);
      if last.kind == yes then Ema(before, 1.0, alpha) else if last.kind == no then Ema(before, 0.0, alpha) else before
  {
    assert (front + [last])[..|front|] == front;
    EmaAllLast(start, Outcomes(front, yes, no), 1.0, alpha);
    EmaAllLast(start, Outcomes(front, yes, no), 0.0, alpha);
  }

  lemma RatesStayShares(q: Quality, e: QualityEvent, alpha: real)
    requires 0.0 <= alpha <= 1.0 && RatesAreShares(q)
    ensures RatesAreShares(Observe(q, e, alpha))
  {
    EmaShare(q.criticPassRate, alpha);
    EmaShare(q.traceCriticPassRate, alpha);
    EmaShare(q.hitlRate, alpha);
    EmaShare(q.jobSuccessRate, alpha);
  }

  lemma EmaShare(x: real, alpha: real)
    requires 0.0 <= alpha <= 1.0 && Share(x)
    ensures Share(Ema(x, 0.0, alpha)) && Share(Ema(x, 1.0, alpha))
  {
    ConvexBetween(x, 0.0, alpha, 0.0, 1.0);
    ConvexBetween(x, 1.0, alpha, 0.0, 1.0);
  }

  /** Trust stays between the least and greatest of its start and the signals seen. */
  lemma TrustInRange(q: Quality, events: seq<QualityEvent>, alpha: real, lo: real, hi: real)
    requires 0.0 <= alpha <= 1.0 && lo <= q.empiricalTrust <= hi
    requires forall i :: 0 <= i < |events| ==> lo <= events[i].trustSignal <= hi
    ensures lo <= ObserveAll(q, events, alpha).empiricalTrust <= hi
  {
    QualityAfter(q, events, alpha);
    EmaInRange(q.empiricalTrust, Signals(events), alpha, lo, hi);
  }

  /** One event, rate by rate. */
  lemma ObserveMoves(q: Quality, e: QualityEvent, alpha: real)
    ensures var r := Observe(q, e, alpha);
        && r.sampleSize == q.sampleSize + 1
        && r.empiricalTrust == Towards(q.empiricalTrust, e.trustSignal, alpha)
        && r.jobSuccessRate == (if e.kind == JOB_COMPLETED then Towards(q.jobSuccessRate, 1.0, alpha)
                                else if e.kind == JOB_FAILED then Towards(q.jobSuccessRate, 0.0, alpha)
                                else q.jobSuccessRate)
        && r.avgCostUsd == (if e.kind in [JOB_COMPLETED, JOB_FAILED] then Towards(q.avgCostUsd, e.costUsd, alpha)
                            else q.avgCostUsd)
        && r.criticPassRate == (if e.kind == CRITIC_PASS then Towards(q.criticPassRate, 1.0, alpha)
                                else if e.kind == CRITIC_FAIL then Towards(q.criticPassRate, 0.0, alpha)
                                else q.criticPassRate)
        && r.traceCriticPassRate == (if e.kind == TRACE_PASS then Towards(q.traceCriticPassRate, 1.0, alpha)
                                     else if e.kind == TRACE_FAIL then Towards(q.traceCriticPassRate, 0.0, alpha)
                                     else q.traceCriticPassRate)
        && r.hitlRate == if e.kind == HITL_PAUSE then Towards(q.hitlRate, 1.0, alpha) else q.hitlRate
  {
    EmaMovesTowards(q.empiricalTrust, e.trustSignal, alpha);
    EmaMovesTowards(q.jobSuccessRate, Bit(e.kind == JOB_COMPLETED), alpha);
    EmaMovesTowards(q.avgCostUsd, e.costUsd, alpha);
    EmaMovesTowards(q.criticPassRate, Bit(e.kind == CRITIC_PASS), alpha);
    EmaMovesTowards(q.traceCriticPassRate, Bit(e.kind == TRACE_PASS), alpha);
    EmaMovesTowards(q.hitlRate, 1.0, alpha);
  }

  // ---------------------------------------------------------------------------------------
  // The catalog hands out its own objects

  class AgentQuality {
    var value: Quality

    constructor (value: Quality)
      ensures this.value == value
    {
      this.value := value;
    }
  }

  datatype CatalogSource = FILESYSTEM | API | SEED

  class AgentCatalogEntry {
    const name: string
    const profileId: string
    var version: int
    var quality: AgentQuality
    var source: CatalogSource

    constructor (name: string, profileId: string, quality: AgentQuality)
      ensures this.name == name && this.profileId == profileId && this.quality == quality
      ensures version == 1 && source == FILESYSTEM
    {
      this.name, this.profileId, version, this.quality, source := name, profileId, 1, quality, FILESYSTEM;
    }
  }

  class InMemoryAgentCatalog {
    var agents: map<string, AgentCatalogEntry>
    var versions: map<string, int>

    /** Entries are filed under their names and do not share quality objects. */
    ghost predicate Valid()
      reads this, agents.Values
    {
      && (forall n :: n in agents ==> agents[n].name == n)
      && (forall a, b :: a in agents && b in agents && a != b ==> agents[a].quality != agents[b].quality)
    }

    constructor ()
      ensures Valid() && agents == map[] && versions == map[]
    {
      agents, versions := map[], map[];
    }

    function VersionOf(profileId: string): int
      reads this
    {
      if profileId in versions then versions[profileId] else 0
    }

    /** An existing entry's quality object always wins over the one that comes with the entry. */
    method UpsertAgent(entry: AgentCatalogEntry)
      requires Valid()
      requires entry.name !in agents ==> forall n :: n in agents ==> agents[n].quality != entry.quality
      modifies this, entry
      ensures Valid() && agents == old(agents)[entry.name := entry]
      ensures entry.name in old(agents) ==>
        entry.quality == old(agents[entry.name].quality) && entry.version == old(agents[entry.name].version) + 1
      ensures entry.name !in old(agents) ==> entry.quality == old(entry.quality) && entry.version == old(entry.version)
      ensures forall n :: n in old(agents) && n != entry.name ==> agents[n].quality == old(agents[n].quality)
      ensures entry.source == API && versions == old(versions)[entry.profileId := old(VersionOf(entry.profileId)) + 1]
    {
      if entry.name in agents {
        var existing := agents[entry.name];
        entry.version := existing.version + 1;
        entry.quality := existing.quality;
      }
      entry.source := API;
      agents := agents[entry.name := entry];
      versions := versions[entry.profileId := VersionOf(entry.profileId) + 1];
    }

    /** The update reaches the stored score because the entry it reads is the stored object. */
    method ApplyEvent(persona: string, e: QualityEvent, alpha: real)
      requires Valid()
      modifies this, agents.Values, set n | n in agents :: agents[n].quality
      ensures Valid() && agents == old(agents)
      ensures forall n :: n in agents ==> agents[n].quality == old(agents[n].quality)
      ensures persona in agents ==>
        agents[persona].quality.value == Observe(old(agents[persona].quality.value), e, alpha)
      ensures persona in agents ==>
        var q, r := old(agents[persona].quality.value), agents[persona].quality.value;
        && r.sampleSize == q.sampleSize + 1
        && r.empiricalTrust == Towards(q.empiricalTrust, e.trustSignal, alpha)
        && r.jobSuccessRate == (if e.kind == JOB_COMPLETED then Towards(q.jobSuccessRate, 1.0, alpha)
                                else if e.kind == JOB_FAILED then Towards(q.jobSuccessRate, 0.0, alpha)
                                else q.jobSuccessRate)
        && r.avgCostUsd == (if e.kind in [JOB_COMPLETED, JOB_FAILED] then Towards(q.avgCostUsd, e.costUsd, alpha)
                            else q.avgCostUsd)
        && r.criticPassRate == (if e.kind == CRITIC_PASS then Towards(q.criticPassRate, 1.0, alpha)
                                else if e.kind == CRITIC_FAIL then Towards(q.criticPassRate, 0.0, alpha)
                                else q.criticPassRate)
        && r.traceCriticPassRate == (if e.kind == TRACE_PASS then Towards(q.traceCriticPassRate, 1.0, alpha)
                                     else if e.kind == TRACE_FAIL then Towards(q.traceCriticPassRate, 0.0, alpha)
                                     else q.traceCriticPassRate)
        && r.hitlRate == if e.kind == HITL_PAUSE then Towards(q.hitlRate, 1.0, alpha) else q.hitlRate
      ensures persona in agents ==> agents[persona].version == old(agents[persona].version) + 1
      ensures forall n :: n in agents && n != persona ==> agents[n].quality.value == old(agents[n].quality.value)
    {
      if persona !in agents { return; }
      var entry := agents[persona];
      var quality := entry.quality;
      var q := quality.value;
      var next := q.(sampleSize := q.sampleSize + 1);
      match e.kind {
        case JOB_COMPLETED | JOB_FAILED =>
          next := next.(jobSuccessRate := Ema(q.jobSuccessRate, Bit(e.kind == JOB_COMPLETED), alpha));
          next := next.(avgCostUsd := Ema(q.avgCostUsd, e.costUsd, alpha));
        case CRITIC_PASS | CRITIC_FAIL =>
          next := next.(criticPassRate := Ema(q.criticPassRate, Bit(e.kind == CRITIC_PASS), alpha));
        case TRACE_PASS | TRACE_FAIL =>
          next := next.(traceCriticPassRate := Ema(q.traceCriticPassRate, Bit(e.kind == TRACE_PASS), alpha));
        case HITL_PAUSE =>
          next := next.(hitlRate := Ema(q.hitlRate, 1.0, alpha));
        case BUS_FAILURE =>
      }
      ObserveMoves(q, e, alpha);
      quality.value := next.(empiricalTrust := Ema(q.empiricalTrust, e.trustSignal, alpha));
      entry.quality := quality;
      UpsertAgent(entry);
      assert agents == old(agents);
    }
  }

  // ---------------------------------------------------------------------------------------
  // Plans

  datatype PlanQuality = PlanQuality(matchCount: int, avgJobsPerEvent: real)

  function NextMean(q: PlanQuality, jobs: int): PlanQuality {
    var count := q.matchCount + 1;
    var before := if count - 1 > 0 then count - 1 else 0;
    var divisor := if count > 1 then count else 1;
    PlanQuality(count, (q.avgJobsPerEvent * (before as real) + jobs as real) / (divisor as real))
  }

  function RecordAll(q: PlanQuality, jobs: seq<int>): PlanQuality {
    if jobs == [] then q else NextMean(RecordAll(q, jobs[..|jobs| - 1]), jobs[|jobs| - 1])
  }

  function Sum(jobs: seq<int>): int {
    if jobs == [] then 0 else Sum(jobs[..|jobs| - 1]) + jobs[|jobs| - 1]
  }

  lemma DivideBack(x: real, n: real)
    requires n > 0.0
    ensures (x / n) * n == x
  {
  }

  /** One step: the total behind the mean grows by the job count. */
  lemma MeanStep(q: PlanQuality, jobs: int)
    requires q.matchCount >= 0
    ensures var r := NextMean(q, jobs);
            r.avgJobsPerEvent * (r.matchCount as real) == q.avgJobsPerEvent * (q.matchCount as real) + jobs as real
  {
    var before := if q.matchCount > 0 then q.matchCount else 0;
    var divisor := if q.matchCount + 1 > 1 then q.matchCount + 1 else 1;
    assert before == q.matchCount && divisor == q.matchCount + 1;
    var total := q.avgJobsPerEvent * (before as real) + jobs as real;
    assert NextMean(q, jobs) == PlanQuality(divisor, total / (divisor as real));
    DivideBack(total, divisor as real);
  }

  /** The incremental mean is exact: mean times count is the sum of all job counts ever recorded. */
  lemma {:induction false} MeanIsExact(q: PlanQuality, jobs: seq<int>)
    requires q.matchCount >= 0
    ensures var r := RecordAll(q, jobs);
            && r.matchCount == q.matchCount + |jobs|
            && r.avgJobsPerEvent * (r.matchCount as real) ==
               q.avgJobsPerEvent * (q.matchCount as real) + Sum(jobs) as real
  {
    if jobs != [] {
      var front, last := jobs[..|jobs| - 1], jobs[|jobs| - 1];
      MeanIsExact(q, front);
      MeanStep(RecordAll(q, front), last);
    }
  }

  /** The plan's counters, updated where they are stored. */
  class PlanQualityRecord {
    var matchCount: int
    var avgJobsPerEvent: real
    ghost var recorded: seq<int>

    constructor ()
      ensures Valid() && recorded == [] && matchCount == 0 && avgJobsPerEvent == 0.0
    {
      matchCount, avgJobsPerEvent, recorded := 0, 0.0, [];
    }

    /** The count is that of the matches recorded; mean times count is the total of their jobs. */
    ghost predicate Valid()
      reads this
    {
      matchCount == |recorded| && avgJobsPerEvent * (matchCount as real) == Sum(recorded) as real
    }

    method RecordMatch(jobs: int)
      requires Valid()
      modifies this
      ensures Valid() && recorded == old(recorded) + [jobs]
      ensures PlanQuality(matchCount, avgJobsPerEvent) == NextMean(old(PlanQuality(matchCount, avgJobsPerEvent)), jobs)
    {
      MeanStep(PlanQuality(matchCount, avgJobsPerEvent), jobs);
      SumAppend(recorded, jobs);
      recorded := recorded + [jobs];
      matchCount := matchCount + 1;
      avgJobsPerEvent :=
        (avgJobsPerEvent * ((if matchCount - 1 > 0 then matchCount - 1 else 0) as real) + jobs as real)
        / ((if matchCount > 1 then matchCount else 1) as real);
    }
  }

  lemma SumAppend(jobs: seq<int>, x: int)
    ensures Sum(jobs + [x]) == Sum(jobs) + x
  {
    assert (jobs + [x])[..|jobs|] == jobs;
  }
}
