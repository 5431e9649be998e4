/**
 * The decision tables of the framework planner: architecture pattern,
 * scalability tier, deployment strategy, technology stack, architecture
 * decision records, performance targets, estimates and risks.
 *
 * Technology choices are reduced to their names and decision records to
 * their title, impact and reversibility; the descriptive texts are not
 * modelled. A requirements or constraints key that is absent is `None`.
 *
 * The source compares `ScalabilityTier` members with `>=`, which a plain
 * Python `Enum` does not support; every such comparison raises `TypeError`.
 * The functions suffixed `AsWritten` keep that behaviour; the others compare
 * the tiers by their rank, which is what the comparisons evidently mean.
 */
module FrameworkPlanning {
  import opened Wrappers
  import opened Text

  datatype ArchitecturePattern =
    Monolithic | Microservices | Serverless | JamStack | EventDriven | Layered | Hexagonal | Cqrs

  datatype ScalabilityTier = Startup | Growth | Scale | Enterprise

  datatype DeploymentStrategy =
    SingleServer | LoadBalanced | Containerized | Kubernetes | ServerlessDeployment | HybridCloud

  datatype Requirements = Requirements(
    projectType: Option<string>,
    expectedScale: Option<string>,
    teamSize: Option<int>,
    complexity: Option<int>,
    features: Option<seq<string>>,
    preferences: Option<seq<string>>,
    requirements: Option<seq<string>>,
    expectedUsers: Option<int>)

  function OrDefault<T>(o: Option<T>, default: T): T {
    if o.Some? then o.value else default
  }

  // ---------------------------------------------------------------- architecture pattern

  predicate MicroservicesRule(r: Requirements) {
    OrDefault(r.projectType, "web_app") == "api_service" && OrDefault(r.expectedScale, "medium") == "high"
  }

  predicate MonolithicRule(r: Requirements) {
    OrDefault(r.projectType, "web_app") == "web_app" && OrDefault(r.complexity, 5) <= 5 && OrDefault(r.teamSize, 3) <= 5
  }

  predicate EventDrivenRule(r: Requirements) {
    "real_time" in OrDefault(r.features, [])
  }

  predicate ServerlessRule(r: Requirements) {
    OrDefault(r.expectedScale, "medium") == "variable" || "serverless" in OrDefault(r.preferences, [])
  }

  predicate JamStackRule(r: Requirements) {
    OrDefault(r.projectType, "web_app") == "web_app" && "seo" in OrDefault(r.requirements, [])
  }

  /** `_determine_architecture_pattern`: the first rule that matches decides; LAYERED when none does. */
  function DetermineArchitecturePattern(r: Requirements): (p: ArchitecturePattern)
    ensures p == Microservices <==> MicroservicesRule(r)
    ensures p == Monolithic <==> !MicroservicesRule(r) && MonolithicRule(r)
    ensures p == EventDriven <==> !MicroservicesRule(r) && !MonolithicRule(r) && EventDrivenRule(r)
    ensures p == Serverless <==>
              !MicroservicesRule(r) && !MonolithicRule(r) && !EventDrivenRule(r) && ServerlessRule(r)
    ensures p == JamStack <==>
              !MicroservicesRule(r) && !MonolithicRule(r) && !EventDrivenRule(r) && !ServerlessRule(r) && JamStackRule(r)
    ensures p != Hexagonal && p != Cqrs
  {
    if MicroservicesRule(r) then Microservices
    else if MonolithicRule(r) then Monolithic
    else if EventDrivenRule(r) then EventDriven
    else if ServerlessRule(r) then Serverless
    else if JamStackRule(r) then JamStack
    else Layered
  }

  /** With every key absent the defaults (web_app, medium, 3, 5) select MONOLITHIC. */
  lemma DefaultsAreMonolithic()
    ensures DetermineArchitecturePattern(Requirements(None, None, None, None, None, None, None, None)) == Monolithic
  {
  }

  // ---------------------------------------------------------------- scalability tier

  /** The order the tiers are listed in, which the `>=` comparisons evidently mean. */
  function Rank(t: ScalabilityTier): nat {
    match t
    case Startup => 0
    case Growth => 1
    case Scale => 2
    case Enterprise => 3
  }

  /** The tier for a number of expected users; cut points 1000, 100000 and 1000000. */
  function TierForUsers(users: int): (t: ScalabilityTier)
    ensures t == Startup <==> users < 1000
    ensures t == Growth <==> 1000 <= users < 100000
    ensures t == Scale <==> 100000 <= users < 1000000
    ensures t == Enterprise <==> 1000000 <= users
  {
    if users < 1000 then Startup
    else if users < 100000 then Growth
    else if users < 1000000 then Scale
    else Enterprise
  }

  /** `_determine_scalability_tier` (1000 users when the key is absent). */
  function DetermineScalabilityTier(r: Requirements): (t: ScalabilityTier)
    ensures r.expectedUsers.None? ==> t == Growth
  {
    TierForUsers(OrDefault(r.expectedUsers, 1000))
  }

  /** More users never give a lower tier. */
  lemma TierMonotone(fewer: int, more: int)
    requires fewer <= more
    ensures Rank(TierForUsers(fewer)) <= Rank(TierForUsers(more))
  {
  }

  // ---------------------------------------------------------------- deployment strategy

  /** `_determine_deployment_strategy` (budget "medium" when absent); the team's expertise is read but unused. */
  function DetermineDeploymentStrategy(tier: ScalabilityTier, budget: Option<string>, teamExpertise: Option<string>)
    : (d: DeploymentStrategy)
    ensures d == SingleServer <==> tier == Startup && OrDefault(budget, "medium") == "low"
    ensures d == Containerized <==> tier == Growth
    ensures d == Kubernetes <==> tier == Scale || tier == Enterprise
    ensures d == LoadBalanced <==> tier == Startup && OrDefault(budget, "medium") != "low"
  {
    match tier
    case Startup => if OrDefault(budget, "medium") == "low" then SingleServer else LoadBalanced
    case Growth => Containerized
    case Scale => Kubernetes
    case Enterprise => Kubernetes
  }

  /** The deployment strategy does not depend on the team's expertise. */
  lemma ExpertiseIgnored(tier: ScalabilityTier, budget: Option<string>, e1: Option<string>, e2: Option<string>)
    ensures DetermineDeploymentStrategy(tier, budget, e1) == DetermineDeploymentStrategy(tier, budget, e2)
  {
  }

  // ---------------------------------------------------------------- ordering of tiers

  const EnumOrderingError: string :=
    "TypeError: '>=' not supported between instances of 'ScalabilityTier' and 'ScalabilityTier'"

  /** `a >= b` on two plain `Enum` members: Python raises TypeError whatever the members are. */
  function TierAtLeastAsWritten(a: ScalabilityTier, b: ScalabilityTier): Result<bool, string> {
    Err(EnumOrderingError)
  }

  // ---------------------------------------------------------------- technology stack

  /** The names of the chosen technologies, by layer. */
  datatype TechStack = TechStack(frontend: seq<string>, backend: seq<string>, database: seq<string>,
                                 infrastructure: seq<string>)

  /** Frontend, backend and database choices of `_select_technology_stack`. */
  function CoreStack(r: Requirements, tier: ScalabilityTier): (seq<string>, seq<string>, seq<string>) {
    var projectType := OrDefault(r.projectType, "web_app");
    var preferences := OrDefault(r.preferences, []);
    var frontend := if projectType == "web_app" || projectType == "full_stack"
                    then (if "react" in preferences then ["React"] else ["Next.js"]) else [];
    var backend := if "python" in preferences || projectType == "api_service" then ["FastAPI"] else ["Node.js"];
    var database := if tier == Scale || tier == Enterprise then ["PostgreSQL"] else ["SQLite"];
    (frontend, backend, database)
  }

  /** `_select_technology_stack` as written: the infrastructure test `tier >= GROWTH` raises. */
  function SelectTechnologyStackAsWritten(r: Requirements, pattern: ArchitecturePattern, tier: ScalabilityTier)
    : Result<TechStack, string>
  {
    var (frontend, backend, database) := CoreStack(r, tier);
    match TierAtLeastAsWritten(tier, Growth)
    case Err(e) => Err(e)
    case Ok(docker) => Ok(TechStack(frontend, backend, database, if docker then ["Docker"] else []))
  }

  /**
   * `_select_technology_stack` with the tiers compared by rank: one backend,
   * one database, a frontend only for web_app and full_stack (React when
   * preferred, else Next.js), and Docker from the GROWTH tier up.
   */
  function SelectTechnologyStack(r: Requirements, pattern: ArchitecturePattern, tier: ScalabilityTier)
    : (s: TechStack)
    ensures |s.backend| == 1 && |s.database| == 1
    ensures |s.frontend| <= 1
    ensures s.frontend != [] <==> OrDefault(r.projectType, "web_app") in {"web_app", "full_stack"}
    ensures s.frontend != [] ==> (s.frontend[0] == "React" <==> "react" in OrDefault(r.preferences, []))
    ensures s.frontend != [] ==> s.frontend[0] in {"React", "Next.js"}
    ensures s.infrastructure == (if Rank(tier) >= Rank(Growth) then ["Docker"] else [])
  {
    var (frontend, backend, database) := CoreStack(r, tier);
    TechStack(frontend, backend, database, if Rank(tier) >= Rank(Growth) then ["Docker"] else [])
  }

  // ---------------------------------------------------------------- architecture decisions

  datatype ArchitectureDecision = ArchitectureDecision(title: string, impactLevel: string, reversibility: string)

  /** `_generate_architecture_decisions`: API design, then state management iff React is chosen, then authentication. */
  function GenerateArchitectureDecisions(stack: TechStack): (ds: seq<ArchitectureDecision>)
    ensures |ds| == (if "React" in stack.frontend then 3 else 2)
    ensures ds[0].title == "API Design Strategy" && ds[|ds| - 1].title == "Authentication Strategy"
    ensures (exists i :: 0 <= i < |ds| && ds[i].title == "Frontend State Management") <==> "React" in stack.frontend
  {
    var api := ArchitectureDecision("API Design Strategy", "High", "Moderate");
    var state := ArchitectureDecision("Frontend State Management", "Medium", "Easy");
    var auth := ArchitectureDecision("Authentication Strategy", "High", "Difficult");
    var ds := [api] + (if "React" in stack.frontend then [state] else []) + [auth];
    assert "React" in stack.frontend ==> ds[1] == state;
    ds
  }

  // ---------------------------------------------------------------- performance requirements

  datatype PerformanceRequirements = PerformanceRequirements(
    expectedUsers: string,
    concurrentUsers: nat,
    apiResponse: string,
    pageLoad: string,
    availability: string,
    apiThroughput: string,
    databaseThroughput: string,
    cdnRequirements: bool)

  function ConcurrentUsers(tier: ScalabilityTier): nat {
    match tier
    case Startup => 50
    case Growth => 500
    case Scale => 5000
    case Enterprise => 50000
  }

  function TierTargets(tier: ScalabilityTier): (string, string, string, string) {
    match tier
    case Startup => ("< 1K users", "< 200ms", "< 2s", "99.5%")
    case Growth => ("1K - 100K users", "< 150ms", "< 1.5s", "99.9%")
    case Scale => ("100K - 1M users", "< 100ms", "< 1s", "99.95%")
    case Enterprise => ("1M+ users", "< 50ms", "< 500ms", "99.99%")
  }

  function PerformanceFor(tier: ScalabilityTier, cdn: bool): PerformanceRequirements {
    var (users, api, page, availability) := TierTargets(tier);
    var concurrent := ConcurrentUsers(tier);
    PerformanceRequirements(users, concurrent, api, page, availability,
                            NatToString(concurrent * 10) + "/minute", NatToString(concurrent * 5) + "/minute", cdn)
  }

  /** `_define_performance_requirements` as written: the CDN flag `tier >= GROWTH` raises. */
  function DefinePerformanceRequirementsAsWritten(tier: ScalabilityTier): Result<PerformanceRequirements, string> {
    match TierAtLeastAsWritten(tier, Growth)
    case Err(e) => Err(e)
    case Ok(cdn) => Ok(PerformanceFor(tier, cdn))
  }

  /** `_define_performance_requirements` with the tiers compared by rank: a CDN from GROWTH up. */
  function DefinePerformanceRequirements(tier: ScalabilityTier): (p: PerformanceRequirements)
    ensures p.cdnRequirements <==> tier != Startup
    ensures p.concurrentUsers == ConcurrentUsers(tier)
    ensures p.apiThroughput == NatToString(10 * p.concurrentUsers) + "/minute"
    ensures p.databaseThroughput == NatToString(5 * p.concurrentUsers) + "/minute"
  {
    PerformanceFor(tier, Rank(tier) >= Rank(Growth))
  }

  /** A higher tier asks for strictly more concurrent users. */
  lemma ConcurrencyGrowsWithTier(lower: ScalabilityTier, higher: ScalabilityTier)
    requires Rank(lower) < Rank(higher)
    ensures DefinePerformanceRequirements(lower).concurrentUsers < DefinePerformanceRequirements(higher).concurrentUsers
  {
  }

  // ---------------------------------------------------------------- estimates

  /** A phase duration "low-high weeks". */
  datatype Duration = Duration(low: nat, high: nat)

  function DurationText(d: Duration): string {
    NatToString(d.low) + "-" + NatToString(d.high) + " weeks"
  }

  function Texts(ds: seq<Duration>): (texts: seq<string>)
    ensures |texts| == |ds| && forall i :: 0 <= i < |ds| ==> texts[i] == DurationText(ds[i])
  {
    seq(|ds|, i requires 0 <= i < |ds| => DurationText(ds[i]))
  }

  function SumLow(ds: seq<Duration>): nat {
    if ds == [] then 0 else SumLow(ds[..|ds| - 1]) + ds[|ds| - 1].low
  }

  /** The durations of the five implementation phases of `_create_implementation_phases`. */
  const Phases: seq<Duration> := [Duration(1, 2), Duration(3, 4), Duration(4, 5), Duration(2, 3), Duration(1, 2)]

  /** `int(duration.split("-")[0])` */
  function LeadingNumber(duration: string): Option<int> {
    ParseInt(Split(duration, '-')[0])
  }

  /** The sum of parsed numbers; the first one `int()` rejected raises ValueError. */
  function SumWeeks(numbers: seq<Option<int>>): (r: Result<int, string>)
    ensures r.Ok? <==> forall i :: 0 <= i < |numbers| ==> numbers[i].Some?
  {
    if numbers == [] then Ok(0)
    else
      var before := SumWeeks(numbers[..|numbers| - 1]);
      var w := numbers[|numbers| - 1];
      if before.Err? then before
      else if w.None? then Err("ValueError: invalid literal for int()")
      else Ok(before.value + w.value)
  }

  /** `sum(int(d.split("-")[0]) for d in durations)` */
  function PhaseWeeks(durations: seq<string>): Result<int, string> {
    SumWeeks(seq(|durations|, i requires 0 <= i < |durations| => LeadingNumber(durations[i])))
  }

  /** The weeks of a duration "a-…" are `a`. */
  lemma LeadingWeeks(a: nat, rest: string)
    ensures LeadingNumber(NatToString(a) + ['-'] + rest) == Some(a)
  {
    var digits := NatToString(a);
    assert '-' !in digits by {
      assert forall k | 0 <= k < |digits| :: IsDigit(digits[k]);
    }
    SplitAround(digits, '-', rest);
    IntRoundTrip(a);
  }

  function Lows(ds: seq<Duration>): (lows: seq<Option<int>>)
    ensures |lows| == |ds| && forall i :: 0 <= i < |ds| ==> lows[i] == Some(ds[i].low)
  {
    seq(|ds|, i requires 0 <= i < |ds| => Some(ds[i].low))
  }

  /** Summing the leading numbers of "low-high weeks" durations gives the sum of the lows. */
  lemma WeeksOfDurations(ds: seq<Duration>)
    ensures PhaseWeeks(Texts(ds)) == Ok(SumLow(ds))
  {
    var texts := Texts(ds);
    forall i | 0 <= i < |ds|
      ensures LeadingNumber(texts[i]) == Some(ds[i].low)
    {
      assert texts[i] == NatToString(ds[i].low) + ['-'] + (NatToString(ds[i].high) + " weeks");
      LeadingWeeks(ds[i].low, NatToString(ds[i].high) + " weeks");
    }
    assert seq(|texts|, i requires 0 <= i < |texts| => LeadingNumber(texts[i])) == Lows(ds);
    SumOfLows(ds);
  }

  lemma {:induction false} SumOfLows(ds: seq<Duration>)
    ensures SumWeeks(Lows(ds)) == Ok(SumLow(ds))
  {
    if ds != [] {
      SumOfLows(ds[..|ds| - 1]);
      assert Lows(ds)[..|ds| - 1] == Lows(ds[..|ds| - 1]);
    }
  }

  /** The five fixed phases add up to 11 weeks, so the timeline reads "11-15 weeks". */
  lemma FixedPhasesTimeline()
    ensures PhaseWeeks(Texts(Phases)) == Ok(11)
    ensures Timeline(11) == "11-15 weeks"
  {
    WeeksOfDurations(Phases);
    PhasesSum();
    TimelineEleven();
  }

  lemma PhasesSum()
    ensures SumLow(Phases) == 11
  {
    var p := Phases;
    assert p[..4][..3] == p[..3] && p[..3][..2] == p[..2] && p[..2][..1] == p[..1] && p[..1][..0] == [];
    assert SumLow(p[..1]) == 1;
    assert SumLow(p[..2]) == 4;
    assert SumLow(p[..3]) == 8;
    assert SumLow(p[..4]) == 10;
    assert p[..5] == p && p[..5][..4] == p[..4];
  }

  lemma TimelineEleven()
    ensures Timeline(11) == "11-15 weeks"
  {
    assert NatToString(11) == NatToString(1) + [('0' as int + 1) as char];
    assert NatToString(15) == NatToString(1) + [('0' as int + 5) as char];
  }

  function Timeline(weeks: nat): string {
    NatToString(weeks) + "-" + NatToString(weeks + 4) + " weeks"
  }

  /** The layer weights of the base complexity: 2 per frontend, 3 per backend, 2 per database and infrastructure choice. */
  function BaseComplexity(stack: TechStack): nat {
    2 * |stack.frontend| + 3 * |stack.backend| + 2 * |stack.database| + 2 * |stack.infrastructure|
  }

  /** A stack chosen by `SelectTechnologyStack` has a base complexity between 5 and 9. */
  lemma BaseComplexityRange(r: Requirements, pattern: ArchitecturePattern, tier: ScalabilityTier)
    ensures 5 <= BaseComplexity(SelectTechnologyStack(r, pattern, tier)) <= 9
  {
  }

  datatype Estimates = Estimates(
    complexity: nat,
    timeline: string,
    teamSize: nat,
    specializedRoles: seq<string>,
    developmentCost: string)

  /**
   * The integer part of `_calculate_estimates`: `scaledComplexity` is
   * `int(base_complexity * architecture_multiplier)`, capped at 10.
   */
  function CalculateEstimates(scaledComplexity: nat, durations: seq<string>): (r: Result<Estimates, string>)
    ensures r.Ok? <==> PhaseWeeks(durations).Ok?
    ensures r.Ok? ==>
              var e := r.value;
              e.complexity <= 10 && (e.complexity == scaledComplexity || e.complexity == 10)
              && e.teamSize == 2 + e.complexity / 3 && 2 <= e.teamSize <= 5
              && (e.specializedRoles != [] <==> e.complexity >= 8)
              && e.developmentCost == "$" + NatToString(e.teamSize * 15000) + "-" + NatToString(e.teamSize * 25000)
  {
    var complexity := if scaledComplexity < 10 then scaledComplexity else 10;
    var teamSize := 2 + complexity / 3;
    match PhaseWeeks(durations)
    case Err(e) => Err(e)
    case Ok(weeks) =>
      Ok(Estimates(complexity,
                   IntToString(weeks) + "-" + IntToString(weeks + 4) + " weeks",
                   teamSize,
                   if complexity >= 8 then ["Solutions Architect", "DevOps Engineer"] else [],
                   "$" + NatToString(teamSize * 15000) + "-" + NatToString(teamSize * 25000)))
  }

  /** With the fixed phases the estimate's timeline is "11-15 weeks". */
  lemma EstimatedTimeline(scaledComplexity: nat)
    ensures CalculateEstimates(scaledComplexity, Texts(Phases)).Ok?
    ensures CalculateEstimates(scaledComplexity, Texts(Phases)).value.timeline == "11-15 weeks"
  {
    FixedPhasesTimeline();
  }

  // ---------------------------------------------------------------- risks

  const BaseRisks: seq<string> := [
    "Technical debt accumulation - Implement regular code reviews and refactoring sprints",
    "Scope creep - Maintain strict change control process and stakeholder communication",
    "Performance bottlenecks - Implement performance monitoring from day one",
    "Security vulnerabilities - Conduct regular security audits and penetration testing",
    "Team knowledge gaps - Provide training and pair programming sessions",
    "Third-party dependencies - Maintain dependency updates and have backup plans",
    "Deployment failures - Implement blue-green deployment with automated rollback",
    "Data loss - Set up automated backups with regular restore testing"]

  const MicroservicesRisks: seq<string> := [
    "Service communication failures - Implement circuit breakers and retries",
    "Distributed system complexity - Use service mesh and comprehensive monitoring"]

  const ScaleRisks: seq<string> := [
    "Traffic spikes - Implement auto-scaling and load testing",
    "Database bottlenecks - Use read replicas and connection pooling"]

  /** `_generate_risk_mitigation` as written: the test `tier >= SCALE` raises. */
  function GenerateRiskMitigationAsWritten(pattern: ArchitecturePattern, tier: ScalabilityTier): Result<seq<string>, string> {
    var risks := BaseRisks + (if pattern == Microservices then MicroservicesRisks else []);
    match TierAtLeastAsWritten(tier, Scale)
    case Err(e) => Err(e)
    case Ok(large) => Ok(risks + (if large then ScaleRisks else []))
  }

  /** `_generate_risk_mitigation` with tiers compared by rank: 8 base risks, 2 more for microservices, 2 more from SCALE up. */
  function GenerateRiskMitigation(pattern: ArchitecturePattern, tier: ScalabilityTier): (risks: seq<string>)
    ensures |risks| == 8 + (if pattern == Microservices then 2 else 0) + (if Rank(tier) >= Rank(Scale) then 2 else 0)
    ensures risks[..8] == BaseRisks
    ensures Rank(tier) >= Rank(Scale) ==> risks[|risks| - 2..] == ScaleRisks
  {
    BaseRisks + (if pattern == Microservices then MicroservicesRisks else [])
    + (if Rank(tier) >= Rank(Scale) then ScaleRisks else [])
  }

  // ---------------------------------------------------------------- the whole plan

  datatype Plan = Plan(
    pattern: ArchitecturePattern,
    tier: ScalabilityTier,
    deployment: DeploymentStrategy,
    stack: TechStack,
    decisions: seq<ArchitectureDecision>,
    performance: PerformanceRequirements,
    risks: seq<string>)

  /** `create_comprehensive_plan` as written, up to its first failing step. */
  function CreateComprehensivePlanAsWritten(r: Requirements, budget: Option<string>, teamExpertise: Option<string>)
    : Result<Plan, string>
  {
    var pattern := DetermineArchitecturePattern(r);
    var tier := DetermineScalabilityTier(r);
    var deployment := DetermineDeploymentStrategy(tier, budget, teamExpertise);
    match SelectTechnologyStackAsWritten(r, pattern, tier)
    case Err(e) => Err(e)
    case Ok(stack) =>
      match DefinePerformanceRequirementsAsWritten(tier)
      case Err(e) => Err(e)
      case Ok(performance) =>
        match GenerateRiskMitigationAsWritten(pattern, tier)
        case Err(e) => Err(e)
        case Ok(risks) =>
          Ok(Plan(pattern, tier, deployment, stack, GenerateArchitectureDecisions(stack), performance, risks))
  }

  /** As written, every tier comparison raises, so no plan is ever produced. */
  lemma EnumOrderingAlwaysRaises(r: Requirements, budget: Option<string>, teamExpertise: Option<string>,
                                 pattern: ArchitecturePattern, tier: ScalabilityTier)
    ensures SelectTechnologyStackAsWritten(r, pattern, tier) == Err(EnumOrderingError)
    ensures DefinePerformanceRequirementsAsWritten(tier) == Err(EnumOrderingError)
    ensures GenerateRiskMitigationAsWritten(pattern, tier) == Err(EnumOrderingError)
    ensures CreateComprehensivePlanAsWritten(r, budget, teamExpertise) == Err(EnumOrderingError)
  {
  }

  /** `create_comprehensive_plan` with the tiers compared by rank. */
  function CreateComprehensivePlan(r: Requirements, budget: Option<string>, teamExpertise: Option<string>): (p: Plan)
    ensures p.tier == DetermineScalabilityTier(r) && p.pattern == DetermineArchitecturePattern(r)
    ensures p.stack == SelectTechnologyStack(r, p.pattern, p.tier)
    ensures 2 <= |p.decisions| <= 3
    ensures p.performance.cdnRequirements <==> p.tier != Startup
    ensures |p.stack.infrastructure| == 1 <==> p.deployment != SingleServer && p.deployment != LoadBalanced
  {
    var pattern := DetermineArchitecturePattern(r);
    var tier := DetermineScalabilityTier(r);
    var stack := SelectTechnologyStack(r, pattern, tier);
    Plan(pattern, tier, DetermineDeploymentStrategy(tier, budget, teamExpertise), stack,
         GenerateArchitectureDecisions(stack), DefinePerformanceRequirements(tier), GenerateRiskMitigation(pattern, tier))
  }
}
