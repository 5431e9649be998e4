/**
 * The smart coding engine: the phase schedule of its iterations, the tasks
 * of each phase, the files a task produces, milestones, resources, the
 * technology stack table, one development iteration and the bounded
 * iteration loop that stops at completion or when human input is needed.
 *
 * The automated test run is a mock in the source; its outcome for each
 * iteration is a parameter here (`MockTestRun` is what the source returns).
 * Durations, timestamps, the plan file and idea generation are not modelled.
 */
module SmartCoding {
  import opened Wrappers
  import opened Text
  import opened BoundedLoop

  datatype ProjectType = WebApp | MobileApp | ApiService | CliTool | DesktopApp | MlProject | Game | Blockchain

  datatype DevelopmentPhase = Ideation | Planning | Architecture | Implementation | Testing | Deployment | Maintenance

  // ---------------------------------------------------------------- phases and tasks

  const PhaseMapping: seq<DevelopmentPhase> := [
    Planning, Architecture, Implementation, Implementation, Implementation,
    Testing, Testing, Deployment, Maintenance, Maintenance]

  /** `_determine_current_phase`: the table entry for the iteration, the last one from iteration 9 on. */
  function DetermineCurrentPhase(iteration: nat): (p: DevelopmentPhase)
    ensures iteration >= 8 ==> p == Maintenance
    ensures p == PhaseMapping[if iteration < 9 then iteration else 9]
    ensures p != Ideation
  {
    PhaseMapping[if iteration < 9 then iteration else 9]
  }

  /** `_get_phase_tasks`: the phase's task list, or "Continue development" for a phase without one. */
  function GetPhaseTasks(phase: DevelopmentPhase): (tasks: seq<string>)
  {
    match phase
    case Planning => ["Create project structure", "Set up package.json/requirements.txt", "Initialize git repository"]
    case Architecture => ["Create architecture diagrams", "Set up database schema", "Design API structure"]
    case Implementation => ["Implement core features", "Create API endpoints", "Build user interface", "Add error handling"]
    case Testing => ["Write unit tests", "Create integration tests", "Performance testing"]
    case Deployment => ["Set up production environment", "Configure monitoring", "Deploy application"]
    case _ => ["Continue development"]
  }

  /**
   * Only Maintenance (and Ideation, which the schedule never reaches) falls
   * back to "Continue development"; every phase has one to four tasks, and
   * Implementation alone has four.
   */
  lemma PhaseTasksShape(phase: DevelopmentPhase)
    ensures var tasks := GetPhaseTasks(phase);
      (tasks == ["Continue development"] <==> phase == Maintenance || phase == Ideation)
      && 1 <= |tasks| <= 4
      && (|tasks| == 4 <==> phase == Implementation)
  {
  }

  /** Every iteration works on at least one task. */
  lemma EveryIterationHasTasks(iteration: nat)
    ensures GetPhaseTasks(DetermineCurrentPhase(iteration)) != []
  {
  }

  // ---------------------------------------------------------------- tasks

  datatype TaskResult = TaskResult(task: string, status: string, files: seq<string>)

  const StructureFiles: seq<string> := ["src/", "tests/", "docs/", "README.md"]
  const ApiFiles: seq<string> := ["src/api/", "src/routes/", "src/models/"]
  const InterfaceFiles: seq<string> := ["src/components/", "src/pages/", "src/styles/"]

  /** `_execute_task`: the files of the first keyword found in the lowered task: "structure", "api", "interface". */
  function ExecuteTask(task: string): (r: TaskResult)
  {
    var t := Lower(task);
    var files := if Contains(t, "structure") then StructureFiles
                 else if Contains(t, "api") then ApiFiles
                 else if Contains(t, "interface") then InterfaceFiles
                 else [];
    TaskResult(task, "completed", files)
  }

  /**
   * A task always completes; its files are those of the first of "structure",
   * "api" and "interface" that occurs in its lowered name, and none when no
   * keyword occurs.
   */
  lemma ExecuteTaskFiles(task: string)
    ensures var r := ExecuteTask(task);
      && r.task == task && r.status == "completed"
      && (Contains(Lower(task), "structure") ==> r.files == StructureFiles)
      && (!Contains(Lower(task), "structure") && Contains(Lower(task), "api") ==> r.files == ApiFiles)
      && (!Contains(Lower(task), "structure") && !Contains(Lower(task), "api") && Contains(Lower(task), "interface") ==>
            r.files == InterfaceFiles)
      && (r.files == [] <==>
            !Contains(Lower(task), "structure") && !Contains(Lower(task), "api") && !Contains(Lower(task), "interface"))
  {
  }

  // ---------------------------------------------------------------- one iteration

  /** What the automated test run reports. */
  datatype TestRun = TestRun(passed: nat, failures: seq<string>)

  /** `_run_automated_tests` as the source has it: 15 passed, no failures. */
  const MockTestRun: TestRun := TestRun(15, [])

  datatype IterationResult = IterationResult(
    iteration: nat,
    phase: DevelopmentPhase,
    tasksCompleted: seq<TaskResult>,
    filesCreated: seq<string>,
    testsPassed: nat,
    issuesFound: seq<string>,
    completionPercentage: int,
    isComplete: bool,
    requiresHumanInput: bool)

  function Completion(iteration: nat): (c: int)
    ensures c == if (iteration + 1) * 15 < 85 then (iteration + 1) * 15 else 85
  {
    var raw := (iteration + 1) * 15;
    if raw < 85 then raw else 85
  }

  function FilesOf(results: seq<TaskResult>): seq<string> {
    if results == [] then [] else FilesOf(results[..|results| - 1]) + results[|results| - 1].files
  }

  /** Each task executed in order. */
  function TaskResults(tasks: seq<string>): (rs: seq<TaskResult>)
    ensures |rs| == |tasks| && forall k :: 0 <= k < |tasks| ==> rs[k] == ExecuteTask(tasks[k])
  {
    seq(|tasks|, i requires 0 <= i < |tasks| => ExecuteTask(tasks[i]))
  }

  /** The result of iteration `iteration` (0-based) given the test run's outcome. */
  function IterationOf(iteration: nat, tests: TestRun): (r: IterationResult)
    ensures r.iteration == iteration + 1 && r.completionPercentage == Completion(iteration)
    ensures r.issuesFound == tests.failures && r.testsPassed == tests.passed
    ensures r.isComplete == (Completion(iteration) >= 80 && tests.failures == [])
    ensures r.requiresHumanInput == (|tests.failures| > 3 || Completion(iteration) > 60)
  {
    var phase := DetermineCurrentPhase(iteration);
    var results := TaskResults(GetPhaseTasks(phase));
    var completion := Completion(iteration);
    IterationResult(iteration + 1, phase, results, FilesOf(results), tests.passed, tests.failures, completion,
                    completion >= 80 && |tests.failures| == 0, |tests.failures| > 3 || completion > 60)
  }

  /** The task loop of `_execute_development_iteration`: each task executed in order, its files collected. */
  method ExecuteTasks(tasks: seq<string>) returns (completed: seq<TaskResult>, files: seq<string>)
    ensures completed == TaskResults(tasks) && files == FilesOf(completed)
  {
    completed, files := [], [];
    var i := 0;
    while i < |tasks|
      invariant 0 <= i <= |tasks|
      invariant completed == TaskResults(tasks[..i]) && files == FilesOf(completed)
    {
      TaskResultsStep(tasks, i);
      var taskResult := ExecuteTask(tasks[i]);
      completed := completed + [taskResult];
      files := files + taskResult.files;
      i := i + 1;
    }
    assert tasks[..i] == tasks;
  }

  /** One task more: its result is appended, and its files after the others'. */
  lemma TaskResultsStep(tasks: seq<string>, i: nat)
    requires i < |tasks|
    ensures TaskResults(tasks[..i + 1]) == TaskResults(tasks[..i]) + [ExecuteTask(tasks[i])]
    ensures FilesOf(TaskResults(tasks[..i + 1])) == FilesOf(TaskResults(tasks[..i])) + ExecuteTask(tasks[i]).files
  {
    var rs := TaskResults(tasks[..i + 1]);
    assert rs[..i] == TaskResults(tasks[..i]);
  }

  /** `_execute_development_iteration`: run the phase's tasks in order, then the tests, then set the flags. */
  method ExecuteDevelopmentIteration(iteration: nat, tests: TestRun) returns (r: IterationResult)
    ensures r == IterationOf(iteration, tests)
  {
    var phase := DetermineCurrentPhase(iteration);
    var completed, files := ExecuteTasks(GetPhaseTasks(phase));
    var issues := tests.failures;
    var completion := Completion(iteration);
    r := IterationResult(iteration + 1, phase, completed, files, tests.passed, issues, completion,
                         completion >= 80 && |issues| == 0, |issues| > 3 || completion > 60);
  }

  // ---------------------------------------------------------------- the iteration loop

  predicate Stops(r: IterationResult) {
    r.isComplete || r.requiresHumanInput
  }

  /** What each iteration yields when the test runs are `tests`. */
  function Outcomes(tests: nat -> TestRun): nat -> IterationResult {
    (k: nat) => IterationOf(k, tests(k))
  }

  /** The whole run of `start_iterative_coding`. */
  function IterativeRun(maxIterations: nat, tests: nat -> TestRun): seq<IterationResult> {
    RunFrom(0, maxIterations, Outcomes(tests), Stops)
  }

  /** What the loop still produces from iteration `k` on. */
  function RunFromIteration(k: nat, maxIterations: nat, tests: nat -> TestRun): seq<IterationResult> {
    RunFrom(k, maxIterations, Outcomes(tests), Stops)
  }

  /** The completion reported after a run: the last iteration's, or 0 when none ran. */
  function LastCompletion(iterations: seq<IterationResult>): int {
    if iterations == [] then 0 else iterations[|iterations| - 1].completionPercentage
  }

  /** `start_iterative_coding` (at most `maxIterations`, 10 in the engine's configuration). */
  method StartIterativeCoding(maxIterations: nat, tests: nat -> TestRun)
    returns (iterations: seq<IterationResult>, completionPercentage: int)
    ensures iterations == IterativeRun(maxIterations, tests)
    ensures completionPercentage == LastCompletion(iterations)
  {
    iterations := [];
    completionPercentage := 0;
    var k := 0;
    while k < maxIterations
      invariant 0 <= k <= maxIterations
      invariant IterativeRun(maxIterations, tests) == iterations + RunFromIteration(k, maxIterations, tests)
      invariant completionPercentage == LastCompletion(iterations)
      decreases maxIterations - k
    {
      var r := ExecuteDevelopmentIteration(k, tests(k));
      IterationStep(k, maxIterations, tests);
      iterations := iterations + [r];
      completionPercentage := r.completionPercentage;
      if Stops(r) {
        break;
      }
      k := k + 1;
    }
    RunDone(k, maxIterations, tests);
  }

  /** One pass of the loop: iteration `k`'s result comes first; the run goes on unless it stops. */
  lemma IterationStep(k: nat, maxIterations: nat, tests: nat -> TestRun)
    requires k < maxIterations
    ensures var r := IterationOf(k, tests(k));
      RunFromIteration(k, maxIterations, tests)
        == [r] + (if Stops(r) then [] else RunFromIteration(k + 1, maxIterations, tests))
  {
    RunStep(k, maxIterations, Outcomes(tests), Stops);
    assert Outcomes(tests)(k) == IterationOf(k, tests(k));
  }

  /** Nothing runs once the bound is reached. */
  lemma RunDone(k: nat, maxIterations: nat, tests: nat -> TestRun)
    ensures k >= maxIterations ==> RunFromIteration(k, maxIterations, tests) == []
  {
  }

  /** A run holds at most `maxIterations` results; only its last may stop the loop, and must when it is short. */
  lemma IterativeRunShape(maxIterations: nat, tests: nat -> TestRun)
    ensures var run := IterativeRun(maxIterations, tests);
      |run| <= maxIterations
      && (forall j :: 0 <= j < |run| - 1 ==> !Stops(run[j]))
      && (|run| < maxIterations ==> run != [] && Stops(run[|run| - 1]))
  {
    RunShape(0, maxIterations, Outcomes(tests), Stops);
  }

  /**
   * With the source's mock test run there are never issues: completion
   * passes 60% at the fifth iteration, which asks for human input, so the run
   * stops there at 75% without being complete.
   */
  lemma MockRunStopsAtFive()
    ensures |IterativeRun(10, _ => MockTestRun)| == 5
    ensures IterativeRun(10, _ => MockTestRun)[4].completionPercentage == 75
    ensures !IterativeRun(10, _ => MockTestRun)[4].isComplete
  {
    var outcome := Outcomes(_ => MockTestRun);
    forall k: nat
      ensures outcome(k).completionPercentage == Completion(k) && outcome(k).issuesFound == []
      ensures Stops(outcome(k)) <==> Completion(k) > 60
      ensures outcome(k).isComplete <==> Completion(k) >= 80
    {
      assert outcome(k) == IterationOf(k, MockTestRun);
    }
    assert Completion(4) == 75 && Completion(3) == 60;
  }

  /** More than three issues stop the loop at once, whatever the iteration. */
  lemma ManyIssuesStop(k: nat, maxIterations: nat, tests: nat -> TestRun)
    requires k < maxIterations && |tests(k).failures| > 3
    ensures RunFrom(k, maxIterations, Outcomes(tests), Stops) == [IterationOf(k, tests(k))]
  {
  }

  // ---------------------------------------------------------------- plan pieces

  datatype Phase = Phase(name: string, deliverables: seq<string>)

  /** The four phases of `_generate_development_phases`. */
  const DevelopmentPhases: seq<Phase> := [
    Phase("Project Setup & Architecture", ["Project skeleton", "CI/CD pipeline", "Architecture docs"]),
    Phase("Core Implementation", ["MVP functionality", "API documentation", "UI components"]),
    Phase("Integration & Testing", ["Test suite", "Performance report", "Security audit"]),
    Phase("Deployment & Launch", ["Production system", "Monitoring dashboard", "Documentation"])]

  datatype Milestone = Milestone(name: string, phase: nat, deliverables: seq<string>, successCriteria: string)

  /** `_generate_milestones`: one milestone per phase, in order, numbered from 1. */
  function GenerateMilestones(phases: seq<Phase>): (ms: seq<Milestone>)
    ensures |ms| == |phases|
    ensures forall i :: 0 <= i < |ms| ==>
              ms[i].phase == i + 1 && ms[i].name == phases[i].name + " Complete" && ms[i].deliverables == phases[i].deliverables
  {
    seq(|phases|, i requires 0 <= i < |phases| =>
      Milestone(phases[i].name + " Complete", i + 1, phases[i].deliverables,
                "All tasks in " + phases[i].name + " completed successfully"))
  }

  datatype Resources = Resources(teamSize: int, developmentTime: string)

  /** `_calculate_resources`: two people plus one per three points of complexity (floor division). */
  function CalculateResources(complexity: int, estimatedTimeline: string): (r: Resources)
    ensures 3 * (r.teamSize - 2) <= complexity < 3 * (r.teamSize - 2) + 3
    ensures r.developmentTime == estimatedTimeline
  {
    Resources(2 + complexity / 3, estimatedTimeline)
  }

  datatype TechStack = TechStack(
    frontend: seq<string>, backend: seq<string>, database: seq<string>, cloudServices: seq<string>,
    aiMl: seq<string>, devops: seq<string>, testing: seq<string>, monitoring: seq<string>)

  const WebAppStack: TechStack := TechStack(
    ["React", "TypeScript", "Tailwind CSS", "Vite"], ["FastAPI", "Python", "Pydantic"], ["PostgreSQL", "Redis"],
    ["AWS", "Docker", "nginx"], ["OpenAI API", "Langchain", "Pinecone"],
    ["GitHub Actions", "Docker Compose", "Terraform"], ["Pytest", "Jest", "Playwright"],
    ["Sentry", "Prometheus", "Grafana"])

  const ApiServiceStack: TechStack := TechStack(
    [], ["FastAPI", "Python", "SQLAlchemy"], ["PostgreSQL", "Redis", "MongoDB"],
    ["AWS Lambda", "API Gateway", "CloudWatch"], ["Transformers", "PyTorch", "MLflow"],
    ["GitHub Actions", "Serverless Framework"], ["Pytest", "Locust", "Postman"],
    ["CloudWatch", "X-Ray", "Datadog"])

  /** `_recommend_tech_stack`: the API-service stack for API services, the web-app stack for everything else. */
  function RecommendTechStack(projectType: ProjectType): (s: TechStack)
    ensures projectType == ApiService <==> s == ApiServiceStack
    ensures projectType != ApiService <==> s == WebAppStack
  {
    if projectType == ApiService then ApiServiceStack else WebAppStack
  }

  datatype ProjectPlan = ProjectPlan(
    name: string,
    projectType: ProjectType,
    techStack: TechStack,
    phases: seq<Phase>,
    milestones: seq<Milestone>,
    resources: Resources)

  class SmartCodingEngine {
    /** The last plan created. */
    var currentProject: Option<ProjectPlan>

    constructor ()
      ensures currentProject == None
    {
      currentProject := None;
    }

    /** `create_advanced_framework_plan`: build the plan and make it the current project. */
    method CreateAdvancedFrameworkPlan(name: string, complexity: int, estimatedTimeline: string, projectType: ProjectType)
      returns (plan: ProjectPlan)
      modifies this
      ensures plan.techStack == RecommendTechStack(projectType) && plan.phases == DevelopmentPhases
      ensures plan.milestones == GenerateMilestones(DevelopmentPhases) && |plan.milestones| == 4
      ensures plan.resources == CalculateResources(complexity, estimatedTimeline)
      ensures currentProject == Some(plan)
    {
      plan := ProjectPlan(name, projectType, RecommendTechStack(projectType), DevelopmentPhases,
                          GenerateMilestones(DevelopmentPhases), CalculateResources(complexity, estimatedTimeline));
      currentProject := Some(plan);
    }
  }
}
