/** Deterministic routing of an event through the rules of all plans. */
module EventRouter {
  import opened Common

  datatype Severity = INFO | LOW | MEDIUM | HIGH | CRITICAL

  function Rank(s: Severity): nat {
    match s case INFO => 0 case LOW => 1 case MEDIUM => 2 case HIGH => 3 case CRITICAL => 4
  }

  datatype Rule = Rule(
    eventTypes: seq<string>, minSeverity: Option<Severity>, personas: seq<string>,
    playbookId: string, notifyControl: bool)

  datatype Plan = Plan(id: string, rules: seq<Rule>)

  datatype Event = Event(id: string, eventType: string, severity: Severity)

  datatype Decision = Decision(
    eventId: string, jobs: seq<string>, playbookId: string, personas: seq<string>, notifyControl: bool,
    matchedRules: nat, matchedPlanId: string, matchedRuleIdx: int)

  /** An empty list of event types matches every event; a rule without personas matches none. */
  predicate RuleMatches(rule: Rule, eventType: string, severity: Severity) {
    && (rule.eventTypes == [] || eventType in rule.eventTypes)
    && (rule.minSeverity.None? || Rank(severity) >= Rank(rule.minSeverity.value))
    && rule.personas != []
  }

  // ---------------------------------------------------------------------------------------
  // Specification: everything is read off the list of matches

  datatype Match = Match(planId: string, ruleIdx: nat, rule: Rule)

  /** The matching rules among the first `n` of a plan, in order. */
  function PlanMatches(plan: Plan, n: nat, e: Event): seq<Match>
    requires n <= |plan.rules|
  {
    if n == 0 then []
    else if RuleMatches(plan.rules[n - 1], e.eventType, e.severity) then
      PlanMatches(plan, n - 1, e) + [Match(plan.id, n - 1, plan.rules[n - 1])]
    else PlanMatches(plan, n - 1, e)
  }

  /** The matching rules of the first `n` plans, in order. */
  function MatchesUpTo(plans: seq<Plan>, n: nat, e: Event): seq<Match>
    requires n <= |plans|
  {
    if n == 0 then [] else MatchesUpTo(plans, n - 1, e) + PlanMatches(plans[n - 1], |plans[n - 1].rules|, e)
  }

  function Matches(plans: seq<Plan>, e: Event): seq<Match> {
    MatchesUpTo(plans, |plans|, e)
  }

  function Personas(ms: seq<Match>): seq<string> {
    if ms == [] then [] else Personas(ms[..|ms| - 1]) + ms[|ms| - 1].rule.personas
  }

  /** The last explicit playbook, or "". */
  function LastExplicit(ms: seq<Match>): string {
    if ms == [] then ""
    else if ms[|ms| - 1].rule.playbookId != "" then ms[|ms| - 1].rule.playbookId
    else LastExplicit(ms[..|ms| - 1])
  }

  /** The first nonempty plan id, or "". */
  function FirstPlanId(ms: seq<Match>): string {
    if ms == [] then ""
    else
      var earlier := FirstPlanId(ms[..|ms| - 1]);
      if earlier != "" then earlier else ms[|ms| - 1].planId
  }

  function Playbook(ms: seq<Match>): string {
    if LastExplicit(ms) != "" then LastExplicit(ms) else FirstPlanId(ms)
  }

  predicate Notifies(ms: seq<Match>) {
    exists i :: 0 <= i < |ms| && ms[i].rule.notifyControl
  }

  // ---------------------------------------------------------------------------------------
  // The fold

  /** The running variables of the fold. */
  datatype Folded = Folded(
    personas: seq<string>, playbookId: string, notify: bool, count: nat, planId: string, ruleIdx: int)

  /** What they must hold after the matches `ms`. */
  ghost function FoldOf(ms: seq<Match>): Folded {
    Folded(Dedup(Personas(ms)), Playbook(ms), Notifies(ms), |ms|,
           if ms == [] then "" else ms[|ms| - 1].planId, if ms == [] then -1 else ms[|ms| - 1].ruleIdx)
  }

  method AddPersonas(have: seq<string>, ghost before: seq<string>, more: seq<string>) returns (r: seq<string>)
    requires have == Dedup(before)
    ensures r == Dedup(before + more)
  {
    r := have;
    assert before + more[..0] == before;
    for i := 0 to |more|
      invariant r == Dedup(before + more[..i])
    {
      assert before + more[..i + 1] == (before + more[..i]) + [more[i]];
      DedupAppend(before + more[..i], more[i]);
      if more[i] !in r {
        r := r + [more[i]];
      }
    }
    assert more[..|more|] == more;
  }

  lemma MatchAppend(ms: seq<Match>, m: Match)
    ensures Personas(ms + [m]) == Personas(ms) + m.rule.personas
    ensures LastExplicit(ms + [m]) == if m.rule.playbookId != "" then m.rule.playbookId else LastExplicit(ms)
    ensures FirstPlanId(ms + [m]) == if FirstPlanId(ms) != "" then FirstPlanId(ms) else m.planId
    ensures Notifies(ms + [m]) <==> Notifies(ms) || m.rule.notifyControl
  {
    assert (ms + [m])[..|ms|] == ms;
    if Notifies(ms) {
      var i :| 0 <= i < |ms| && ms[i].rule.notifyControl;
      assert (ms + [m])[i].rule.notifyControl;
    }
    if m.rule.notifyControl { assert (ms + [m])[|ms|].rule.notifyControl; }
  }

  /** One more match: an explicit playbook always wins, a plan id only while there is none. */
  lemma FoldStep(ms: seq<Match>, m: Match)
    ensures FoldOf(ms + [m]) == Folded(
      Dedup(Personas(ms) + m.rule.personas),
      if m.rule.playbookId != "" then m.rule.playbookId
      else if m.planId != "" && Playbook(ms) == "" then m.planId else Playbook(ms),
      Notifies(ms) || m.rule.notifyControl, |ms| + 1, m.planId, m.ruleIdx)
  {
    MatchAppend(ms, m);
  }

  /** One matching rule. */
  method AddMatch(f: Folded, ghost ms: seq<Match>, planId: string, ruleIdx: nat, rule: Rule) returns (r: Folded)
    requires f == FoldOf(ms)
    ensures r == FoldOf(ms + [Match(planId, ruleIdx, rule)])
  {
    var personas := AddPersonas(f.personas, Personas(ms), rule.personas);
    var playbookId := f.playbookId;
    if rule.playbookId != "" {
      playbookId := rule.playbookId;
    } else if planId != "" && playbookId == "" {
      playbookId := planId;
    }
    FoldStep(ms, Match(planId, ruleIdx, rule));
    r := Folded(personas, playbookId, f.notify || rule.notifyControl, f.count + 1, planId, ruleIdx);
  }

  /** The rules of one plan. */
  method RoutePlan(start: Folded, ghost before: seq<Match>, plan: Plan, e: Event) returns (f: Folded)
    requires start == FoldOf(before)
    ensures f == FoldOf(before + PlanMatches(plan, |plan.rules|, e))
  {
    f := start;
    assert before + [] == before;
    for i := 0 to |plan.rules|
      invariant f == FoldOf(before + PlanMatches(plan, i, e))
    {
      var rule := plan.rules[i];
      if !RuleMatches(rule, e.eventType, e.severity) { continue; }
      ghost var ms := before + PlanMatches(plan, i, e);
      f := AddMatch(f, ms, plan.id, i, rule);
      assert ms + [Match(plan.id, i, rule)] == before + PlanMatches(plan, i + 1, e);
    }
  }

  method RoutePlans(plans: seq<Plan>, e: Event) returns (f: Folded)
    ensures f == FoldOf(Matches(plans, e))
  {
    f := Folded([], "", false, 0, "", -1);
    for p := 0 to |plans|
      invariant f == FoldOf(MatchesUpTo(plans, p, e))
    {
      f := RoutePlan(f, MatchesUpTo(plans, p, e), plans[p], e);
    }
  }

  lemma {:induction false} PlanMatchesHavePersonas(plan: Plan, n: nat, e: Event)
    requires n <= |plan.rules|
    ensures forall m :: m in PlanMatches(plan, n, e) ==> m.rule.personas != []
  {
    if n > 0 { PlanMatchesHavePersonas(plan, n - 1, e); }
  }

  lemma {:induction false} MatchesHavePersonas(plans: seq<Plan>, n: nat, e: Event)
    requires n <= |plans|
    ensures forall m :: m in MatchesUpTo(plans, n, e) ==> m.rule.personas != []
  {
    if n > 0 {
      MatchesHavePersonas(plans, n - 1, e);
      PlanMatchesHavePersonas(plans[n - 1], |plans[n - 1].rules|, e);
    }
  }

  lemma NoPersonasNoMatch(ms: seq<Match>)
    requires forall m :: m in ms ==> m.rule.personas != []
    ensures Dedup(Personas(ms)) == [] <==> ms == []
  {
    if ms != [] {
      var last := ms[|ms| - 1];
      assert last in ms;
      assert last.rule.personas[0] in Personas(ms);
      assert last.rule.personas[0] in Dedup(Personas(ms));
    }
  }

  // ---------------------------------------------------------------------------------------
  // What routing means

  const SEVERITY_ORDER := [INFO, LOW, MEDIUM, HIGH, CRITICAL]

  /** `minimum` does not stand after `actual` in the order of severities. */
  predicate AtLeast(actual: Severity, minimum: Severity) {
    exists i, j :: 0 <= i <= j < |SEVERITY_ORDER| && SEVERITY_ORDER[i] == minimum && SEVERITY_ORDER[j] == actual
  }

  /** The rule names the persona, and event type and severity meet its conditions. */
  predicate Names(rule: Rule, e: Event, persona: string) {
    && persona in rule.personas
    && (rule.eventTypes != [] ==> e.eventType in rule.eventTypes)
    && (rule.minSeverity.Some? ==> AtLeast(e.severity, rule.minSeverity.value))
  }

  lemma AtLeastRank(actual: Severity, minimum: Severity)
    ensures AtLeast(actual, minimum) <==> Rank(actual) >= Rank(minimum)
  {
    assert SEVERITY_ORDER[Rank(actual)] == actual && SEVERITY_ORDER[Rank(minimum)] == minimum;
  }

  lemma NamesIff(rule: Rule, e: Event, persona: string)
    ensures Names(rule, e, persona) <==> RuleMatches(rule, e.eventType, e.severity) && persona in rule.personas
  {
    if rule.minSeverity.Some? { AtLeastRank(e.severity, rule.minSeverity.value); }
  }

  /** Some rule among the first `n` of the plan names the persona. */
  ghost predicate PlanNames(plan: Plan, n: nat, e: Event, persona: string)
    requires n <= |plan.rules|
  {
    exists i :: 0 <= i < n && Names(plan.rules[i], e, persona)
  }

  /** Which personas are routed to, without the fold: those some rule of some plan names. */
  ghost predicate RoutedTo(plans: seq<Plan>, e: Event, persona: string) {
    exists p :: 0 <= p < |plans| && PlanNames(plans[p], |plans[p].rules|, e, persona)
  }

  lemma {:induction false} PlanPersonas(plan: Plan, n: nat, e: Event, persona: string)
    requires n <= |plan.rules|
    ensures persona in Personas(PlanMatches(plan, n, e)) <==> PlanNames(plan, n, e, persona)
  {
    if n > 0 {
      PlanPersonas(plan, n - 1, e, persona);
      NamesIff(plan.rules[n - 1], e, persona);
      MatchAppend(PlanMatches(plan, n - 1, e), Match(plan.id, n - 1, plan.rules[n - 1]));
    }
  }

  lemma {:induction false} PersonasAppend(a: seq<Match>, b: seq<Match>, persona: string)
    ensures persona in Personas(a + b) <==> persona in Personas(a) || persona in Personas(b)
  {
    if b == [] {
      assert a + b == a;
    } else {
      var front, last := b[..|b| - 1], b[|b| - 1];
      PersonasAppend(a, front, persona);
      assert a + b == (a + front) + [last];
      MatchAppend(a + front, last);
    }
  }

  lemma {:induction false} RoutedUpTo(plans: seq<Plan>, n: nat, e: Event, persona: string)
    requires n <= |plans|
    ensures persona in Personas(MatchesUpTo(plans, n, e)) <==>
      exists p :: 0 <= p < n && PlanNames(plans[p], |plans[p].rules|, e, persona)
  {
    if n > 0 {
      var last := plans[n - 1];
      RoutedUpTo(plans, n - 1, e, persona);
      PlanPersonas(last, |last.rules|, e, persona);
      PersonasAppend(MatchesUpTo(plans, n - 1, e), PlanMatches(last, |last.rules|, e), persona);
    }
  }

  /** The routed personas are exactly those that some matching rule names, whatever its plan and position. */
  lemma RoutedIff(plans: seq<Plan>, e: Event, persona: string)
    ensures persona in Dedup(Personas(Matches(plans, e))) <==> RoutedTo(plans, e, persona)
  {
    RoutedUpTo(plans, |plans|, e, persona);
  }

  /** Raising the severity of an event never removes a persona. */
  lemma SeverityMonotone(plans: seq<Plan>, e: Event, severity: Severity, persona: string)
    requires AtLeast(severity, e.severity) && persona in Dedup(Personas(Matches(plans, e)))
    ensures persona in Dedup(Personas(Matches(plans, e.(severity := severity))))
  {
    var louder := e.(severity := severity);
    AtLeastRank(severity, e.severity);
    RoutedIff(plans, e, persona);
    var p :| 0 <= p < |plans| && PlanNames(plans[p], |plans[p].rules|, e, persona);
    var rules := plans[p].rules;
    var i :| 0 <= i < |rules| && Names(rules[i], e, persona);
    if rules[i].minSeverity.Some? {
      AtLeastRank(e.severity, rules[i].minSeverity.value);
      AtLeastRank(severity, rules[i].minSeverity.value);
    }
    assert Names(rules[i], louder, persona);
    assert PlanNames(plans[p], |rules|, louder, persona);
    RoutedIff(plans, louder, persona);
  }

  // ---------------------------------------------------------------------------------------
  // The router

  method Route(plans: seq<Plan>, e: Event, notifySeverities: set<Severity>) returns (d: Decision)
    ensures var ms := Matches(plans, e);
      && d.eventId == e.id && d.matchedRules == |ms|
      && d.personas == Dedup(Personas(ms))
      && d.matchedPlanId == (if ms == [] then "" else ms[|ms| - 1].planId)
      && d.matchedRuleIdx == (if ms == [] then -1 else ms[|ms| - 1].ruleIdx)
      && |d.jobs| == |d.personas| && (forall i :: 0 <= i < |d.jobs| ==> d.jobs[i] == d.personas[i] + ":" + e.id)
      && d.playbookId == Playbook(ms)
      && (forall persona :: persona in d.personas <==> RoutedTo(plans, e, persona))
      && (d.notifyControl <==> ms != [] && (Notifies(ms) || e.severity in notifySeverities))
  {
    var f := RoutePlans(plans, e);
    MatchesHavePersonas(plans, |plans|, e);
    NoPersonasNoMatch(Matches(plans, e));
    forall persona ensures persona in f.personas <==> RoutedTo(plans, e, persona) {
      RoutedIff(plans, e, persona);
    }
    var notifyControl := f.notify;
    if e.severity in notifySeverities {
      notifyControl := true;
    }
    if f.personas == [] {
      return Decision(e.id, [], "", [], false, f.count, f.planId, f.ruleIdx);
    }
    d := Decision(e.id, seq(|f.personas|, i requires 0 <= i < |f.personas| => f.personas[i] + ":" + e.id),
                  f.playbookId, f.personas, notifyControl, f.count, f.planId, f.ruleIdx);
  }
}
