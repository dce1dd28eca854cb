/** Spawning workers from workers: validation, the job made for the child, and the context read back from it. */
module SpawnChain {
  import opened Common
  import opened WorkerModels

  datatype Kind = JOB | EVENT | INVESTIGATION | SESSION | BATCH | STREAM
  datatype Mode = PLAN | ASK | AGENT | DEBUG

  datatype RunContext = RunContext(
    contextId: string, kind: Kind, tenantId: string, parentContextId: Option<string>, parentKind: Option<Kind>,
    mode: Option<Mode>, profileId: string, spawnDepth: int, correlationKey: string)

  const DEFAULT_PROFILE := "cybersec-soc"
  const MAX_SPAWN_DEPTH := 5

  /** The correlation key of a job context. */
  function JobCorrelationKey(contextId: string): string {
    "job:" + contextId
  }

  datatype Agent = Agent(enabled: bool, profileId: string, capabilities: seq<string>, empiricalTrust: real)

  /** The catalog and the profile policies consulted. */
  datatype World = World(catalog: map<string, Agent>, maxDepth: string -> int, trustFloor: string -> real)

  datatype SpawnRequest = SpawnRequest(
    parent: RunContext, persona: string, subGoal: string, mode: Option<Mode>, profileId: string, parentPersona: string)

  datatype SpawnError = NotAllowedInMode | DepthExceeded | UnknownPersona | NotInCapabilities | BelowTrustFloor

  predicate AllowSpawn(mode: Option<Mode>) {
    mode.None? || mode.value == AGENT || mode.value == DEBUG
  }

  predicate OutsideCapabilities(w: World, parentPersona: string, persona: string) {
    parentPersona == "conductor" && "conductor" in w.catalog &&
    var targets := set c | c in w.catalog["conductor"].capabilities && c != "spawn_worker" && c != "conductor";
    targets != {} && persona !in targets
  }

  /** None when the spawn is allowed. */
  function Validate(w: World, q: SpawnRequest): Option<SpawnError> {
    if !AllowSpawn(q.mode) then Some(NotAllowedInMode)
    else if q.parent.spawnDepth >= w.maxDepth(q.profileId) ||
            q.parent.spawnDepth >= MAX_SPAWN_DEPTH then Some(DepthExceeded)
    else if q.persona !in w.catalog || !w.catalog[q.persona].enabled then Some(UnknownPersona)
    else if OutsideCapabilities(w, q.parentPersona, q.persona) then Some(NotInCapabilities)
    else if w.catalog[q.persona].empiricalTrust < w.trustFloor(w.catalog[q.persona].profileId) then
      Some(BelowTrustFloor)
    else None
  }

  function SpawnChild(parent: RunContext, childId: string): RunContext {
    RunContext(childId, JOB, parent.tenantId, Some(parent.contextId), Some(parent.kind), parent.mode, parent.profileId,
               parent.spawnDepth + 1, JobCorrelationKey(childId))
  }

  function ToWorkerJob(q: SpawnRequest, childId: string, eventId: string): WorkerJob {
    var child := SpawnChild(q.parent, childId);
    WorkerJob(child.contextId, Or(eventId, child.contextId), q.persona, "",
              Payload(q.parent.correlationKey, child.spawnDepth, q.subGoal),
              q.parent.contextId, q.parent.tenantId, "", 0, 0.0, 0)
  }

  function FromJob(job: WorkerJob): RunContext {
    var parentId := job.correlationId;
    RunContext(job.jobId, JOB, job.tenantId,
               if parentId != "" && parentId != job.jobId then Some(parentId) else None,
               if parentId != "" then Some(EVENT) else None,
               None, DEFAULT_PROFILE, job.payload.spawnDepth, JobCorrelationKey(job.jobId))
  }

  /** The job made for a child: its own id stands in for a missing event id, its parent is its investigation. */
  lemma SpawnedJob(q: SpawnRequest, childId: string, eventId: string)
    ensures var job := ToWorkerJob(q, childId, eventId);
      && job.jobId == childId && job.persona == q.persona && job.tenantId == q.parent.tenantId
      && job.eventId == (if eventId != "" then eventId else childId)
      && job.payload == Payload(q.parent.correlationKey, q.parent.spawnDepth + 1, q.subGoal)
      && job.correlationId == q.parent.contextId && job.dependsOnPersona == "" && job.playbookId == ""
      && job.maxTokens == 0 && job.maxCostUsd == 0.0 && job.maxToolCalls == 0
  {
    assert SpawnChild(q.parent, childId).contextId == childId;
  }

  /** What the child knows of itself survives the trip through the queue; mode and profile do not. */
  lemma JobRoundTrip(q: SpawnRequest, childId: string, eventId: string)
    ensures var direct, through := SpawnChild(q.parent, childId), FromJob(ToWorkerJob(q, childId, eventId));
      && direct == through.(parentContextId := direct.parentContextId, parentKind := direct.parentKind,
                            mode := direct.mode, profileId := direct.profileId)
      && (through.parentContextId == direct.parentContextId <==>
         q.parent.contextId != "" && q.parent.contextId != childId)
      && through.mode.None? && through.profileId == "cybersec-soc"
      && direct.contextId == childId && direct.kind == JOB && direct.tenantId == q.parent.tenantId
      && direct.parentContextId == Some(q.parent.contextId) && direct.spawnDepth == q.parent.spawnDepth + 1
      && direct.correlationKey == "job:" + childId
      && (q.parent.contextId == "" ==> through.parentContextId == None && through.parentKind == None)
      && (q.parent.contextId != "" ==> through.parentKind == Some(EVENT))
      && direct.mode == q.parent.mode && direct.profileId == q.parent.profileId &&
         direct.parentKind == Some(q.parent.kind)
  {
  }

  /** Findings of a spawned job are filed under its parent's correlation key, its completion under the parent's id. */
  lemma FiledUnderParent(q: SpawnRequest, childId: string, eventId: string)
    requires q.parent.correlationKey != "" && q.parent.contextId != ""
    ensures MemoryKeyOf(ToWorkerJob(q, childId, eventId)) == (q.parent.tenantId, q.parent.correlationKey)
    ensures KeyOf(ToWorkerJob(q, childId, eventId)) == (q.parent.tenantId, q.parent.contextId)
  {
  }

  // ---------------------------------------------------------------------------------------
  // Chains

  /** One link: everything about a spawn but the parent context, which the chain supplies. */
  datatype Link = Link(
    persona: string, subGoal: string, mode: Option<Mode>, profileId: string, parentPersona: string,
    childId: string, eventId: string)

  function RequestOf(parent: RunContext, l: Link): SpawnRequest {
    SpawnRequest(parent, l.persona, l.subGoal, l.mode, l.profileId, l.parentPersona)
  }

  /** The context at the end of a chain of spawns, each child read back from its job. */
  function EndOf(root: RunContext, links: seq<Link>): RunContext {
    if links == [] then root
    else
      var last := links[|links| - 1];
      FromJob(ToWorkerJob(RequestOf(EndOf(root, links[..|links| - 1]), last), last.childId, last.eventId))
  }

  predicate AllValid(w: World, root: RunContext, links: seq<Link>) {
    links == [] ||
    (AllValid(w, root, links[..|links| - 1]) &&
     Validate(w, RequestOf(EndOf(root, links[..|links| - 1]), links[|links| - 1])).None?)
  }

  /** A conductor that lists personas may spawn those alone; one that lists none may spawn any. */
  predicate ConductorMay(w: World, persona: string) {
    "conductor" in w.catalog ==>
      var listed := w.catalog["conductor"].capabilities;
      || (persona in listed && persona !in ["spawn_worker", "conductor"])
      || (forall c :: c in listed ==> c in ["spawn_worker", "conductor"])
  }

  /** What a link needs wherever in a chain it stands: all that validation asks but the depth limits. */
  predicate Admissible(w: World, l: Link) {
    && l.mode in [None, Some(AGENT), Some(DEBUG)]
    && l.persona in w.catalog && w.catalog[l.persona].enabled
    && (l.parentPersona == "conductor" ==> ConductorMay(w, l.persona))
    && w.catalog[l.persona].empiricalTrust >= w.trustFloor(w.catalog[l.persona].profileId)
  }

  predicate WithinLimits(w: World, depth: int, l: Link) {
    depth < 5 && depth < w.maxDepth(l.profileId)
  }

  predicate Allowed(w: World, depth: int, l: Link) {
    Admissible(w, l) && WithinLimits(w, depth, l)
  }

  predicate EachAllowed(w: World, depth: int, links: seq<Link>) {
    forall i :: 0 <= i < |links| ==> Allowed(w, depth + i, links[i])
  }

  lemma EachAllowedLast(w: World, depth: int, links: seq<Link>)
    requires links != []
    ensures var n := |links| - 1;
            EachAllowed(w, depth, links) <==> EachAllowed(w, depth, links[..n]) && Allowed(w, depth + n, links[n])
  {
    var n := |links| - 1;
    assert forall i :: 0 <= i < n ==> links[..n][i] == links[i];
  }

  lemma ConductorMayIff(w: World, parentPersona: string, persona: string)
    ensures OutsideCapabilities(w, parentPersona, persona) <==>
      parentPersona == "conductor" && !ConductorMay(w, persona)
  {
    if parentPersona == "conductor" && "conductor" in w.catalog {
      var listed := w.catalog["conductor"].capabilities;
      var targets := set c | c in listed && c != "spawn_worker" && c != "conductor";
      if targets == {} {
        forall c | c in listed ensures c in ["spawn_worker", "conductor"] { assert c !in targets; }
      } else {
        var c :| c in targets;
        assert c in listed && c !in ["spawn_worker", "conductor"];
      }
    }
  }

  /** Which check refuses a spawn, in the order of the checks. */
  lemma ValidateRefuses(w: World, parent: RunContext, l: Link)
    ensures var e := Validate(w, RequestOf(parent, l));
      var mode := l.mode in [None, Some(AGENT), Some(DEBUG)];
      var shallow := WithinLimits(w, parent.spawnDepth, l);
      var known := l.persona in w.catalog && w.catalog[l.persona].enabled;
      var listed := l.parentPersona == "conductor" ==> ConductorMay(w, l.persona);
      && (e == Some(NotAllowedInMode) <==> !mode)
      && (e == Some(DepthExceeded) <==> mode && !shallow)
      && (e == Some(UnknownPersona) <==> mode && shallow && !known)
      && (e == Some(NotInCapabilities) <==> mode && shallow && known && !listed)
      && (e == Some(BelowTrustFloor) <==> mode && shallow && known && listed && !Admissible(w, l))
  {
    var q := RequestOf(parent, l);
    assert q.persona == l.persona && q.parentPersona == l.parentPersona && q.parent == parent;
    ConductorMayIff(w, l.parentPersona, l.persona);
  }

  lemma ValidateIff(w: World, parent: RunContext, l: Link)
    ensures Validate(w, RequestOf(parent, l)).None? <==> Allowed(w, parent.spawnDepth, l)
  {
    var q := RequestOf(parent, l);
    assert q.persona == l.persona && q.parentPersona == l.parentPersona && q.parent == parent;
    ConductorMayIff(w, l.parentPersona, l.persona);
  }

  /** Validated or not, each link of a chain is one level deeper than its parent and in the same tenant. */
  lemma {:induction false} EndOfChain(root: RunContext, links: seq<Link>)
    ensures EndOf(root, links).spawnDepth == root.spawnDepth + |links|
    ensures EndOf(root, links).tenantId == root.tenantId
  {
    if links != [] {
      EndOfChain(root, links[..|links| - 1]);
    }
  }

  /**
   A chain of spawns is allowed link by link exactly when each link is admissible and stands at a
   depth below both limits: the depth lost nothing on its way through the queue.
   */
  lemma {:induction false} ChainAllowedIff(w: World, root: RunContext, links: seq<Link>)
    ensures AllValid(w, root, links) <==> EachAllowed(w, root.spawnDepth, links)
  {
    if links != [] {
      var front, last := links[..|links| - 1], links[|links| - 1];
      ChainAllowedIff(w, root, front);
      EndOfChain(root, front);
      ValidateIff(w, EndOf(root, front), last);
      EachAllowedLast(w, root.spawnDepth, links);
    }
  }

  /** Every allowed chain ends within the limits, so none is longer than the limit less the depth of its root. */
  lemma ChainsAreFinite(w: World, root: RunContext, links: seq<Link>)
    requires AllValid(w, root, links) && links != []
    ensures EndOf(root, links).spawnDepth <= 5
    ensures EndOf(root, links).spawnDepth <= w.maxDepth(links[|links| - 1].profileId)
    ensures |links| <= 5 - root.spawnDepth
  {
    ChainAllowedIff(w, root, links);
    EndOfChain(root, links);
    assert Allowed(w, root.spawnDepth + (|links| - 1), links[|links| - 1]);
  }

  function Limit(w: World, profileId: string): int {
    if w.maxDepth(profileId) < 5 then w.maxDepth(profileId) else 5
  }

  /**
   Links that are admissible and of one profile can be chained exactly up to the limit less the depth of the
   root, and the link after that is refused for its depth.
   */
  lemma LongestChain(w: World, root: RunContext, links: seq<Link>, next: Link)
    requires Admissible(w, next) && forall i :: 0 <= i < |links| ==>
      Admissible(w, links[i]) && links[i].profileId == next.profileId
    ensures AllValid(w, root, links) <==> links == [] || |links| <= Limit(w, next.profileId) - root.spawnDepth
    ensures Validate(w, RequestOf(EndOf(root, links), next)) ==
      if |links| < Limit(w, next.profileId) - root.spawnDepth then None else Some(DepthExceeded)
  {
    ChainAllowedIff(w, root, links);
    EndOfChain(root, links);
    ValidateIff(w, EndOf(root, links), next);
    if links != [] && AllValid(w, root, links) {
      assert Allowed(w, root.spawnDepth + (|links| - 1), links[|links| - 1]);
    }
  }
}
