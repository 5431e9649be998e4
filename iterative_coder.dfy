/**
 * The iterative coder: the phase schedule, the project skeleton (directories,
 * configuration files, expected file count), the files each phase generates,
 * the per-iteration review flags, the project context it updates, the
 * bounded development loop and the final summary.
 *
 * What the generators, the quality analyser, the test runner and the AI
 * reviewer report for an iteration (their floating-point scores included)
 * is an input of the iteration here: `IterationInputs`.
 */
module IterativeCoding {
  import opened Wrappers
  import opened BoundedLoop

  // ---------------------------------------------------------------- configuration

  const MaxIterations: nat := 15
  const QualityThreshold: real := 0.8
  /** `test_coverage_threshold * 100`. */
  const CoverageThreshold: real := 85.0

  type TechStack = map<string, seq<string>>

  /** `tech_stack.get(key, [])`. */
  function StackGet(stack: TechStack, key: string): seq<string> {
    if key in stack then stack[key] else []
  }

  // ---------------------------------------------------------------- phases

  const Phases: seq<string> := [
    "setup", "models", "api", "frontend", "integration", "testing", "optimization", "documentation", "deployment"]

  /** `_determine_current_phase`: two iterations per phase, then "deployment" for good. */
  function DetermineCurrentPhase(iteration: nat): (phase: string)
    ensures phase == Phases[if iteration / 2 < 8 then iteration / 2 else 8]
    ensures iteration >= 16 ==> phase == "deployment"
    ensures phase in Phases
  {
    Phases[if iteration / 2 < 8 then iteration / 2 else 8]
  }

  /** Iterations come in pairs that share a phase. */
  lemma PhasesComeInPairs(j: nat)
    ensures DetermineCurrentPhase(2 * j) == DetermineCurrentPhase(2 * j + 1)
  {
    assert (2 * j) / 2 == j && (2 * j + 1) / 2 == j;
  }

  // ---------------------------------------------------------------- project skeleton

  const BaseDirectories: seq<string> := ["src", "tests", "docs", "config"]

  /** `_get_project_directories`: the base directories, then the extras of the project type. */
  function GetProjectDirectories(projectType: string): (dirs: seq<string>)
    ensures |dirs| >= 4 && dirs[..4] == BaseDirectories
    ensures projectType == "web_app" ==> |dirs| == 12 && "public" in dirs
    ensures projectType == "api_service" ==> |dirs| == 12 && "migrations" in dirs
    ensures projectType == "cli_tool" ==> |dirs| == 8 && "bin" in dirs
    ensures projectType !in {"web_app", "api_service", "cli_tool"} ==> dirs == BaseDirectories
  {
    var extras :=
      if projectType == "web_app" then
        ["src/components", "src/pages", "src/services", "src/utils", "src/styles", "public", "tests/unit", "tests/integration"]
      else if projectType == "api_service" then
        ["src/routes", "src/models", "src/services", "src/middleware", "src/utils", "tests/unit", "tests/integration", "migrations"]
      else if projectType == "cli_tool" then
        ["src/commands", "src/utils", "tests/unit", "bin"]
      else [];
    assert (BaseDirectories + extras)[..4] == BaseDirectories;
    BaseDirectories + extras
  }

  /** `_generate_config_files`, by file name (the contents are templates and are not modelled). */
  function GenerateConfigFiles(stack: TechStack): (files: set<string>)
    ensures "README.md" in files && ".gitignore" in files
    ensures "package.json" in files <==> "javascript" in StackGet(stack, "frontend") || "node.js" in StackGet(stack, "backend")
    ensures "requirements.txt" in files <==> "python" in StackGet(stack, "backend")
    ensures "Dockerfile" in files <==> "docker" in StackGet(stack, "infrastructure")
    ensures "docker-compose.yml" in files <==> "Dockerfile" in files
    ensures files <= {"package.json", "requirements.txt", "Dockerfile", "docker-compose.yml", "README.md", ".gitignore"}
  {
    var node: set<string> :=
      if "javascript" in StackGet(stack, "frontend") || "node.js" in StackGet(stack, "backend") then {"package.json"} else {};
    var python: set<string> := if "python" in StackGet(stack, "backend") then {"requirements.txt"} else {};
    var docker: set<string> :=
      if "docker" in StackGet(stack, "infrastructure") then {"Dockerfile", "docker-compose.yml"} else {};
    node + python + docker + {"README.md", ".gitignore"}
  }

  /** `_estimate_expected_files`: ten base files plus three, two or one per feature. */
  function EstimateExpectedFiles(projectType: string, featureCount: nat): (n: nat)
    ensures n >= 10
    ensures projectType == "web_app" ==> n == 10 + 3 * featureCount
    ensures projectType == "api_service" ==> n == 10 + 2 * featureCount
    ensures projectType != "web_app" && projectType != "api_service" ==> n == 10 + featureCount
  {
    var perFeature := if projectType == "web_app" then 3 else if projectType == "api_service" then 2 else 1;
    10 + featureCount * perFeature
  }

  /** More features never mean fewer expected files. */
  lemma ExpectedFilesMonotone(projectType: string, m: nat, n: nat)
    requires m <= n
    ensures EstimateExpectedFiles(projectType, m) <= EstimateExpectedFiles(projectType, n)
  {
  }

  // ---------------------------------------------------------------- one iteration

  /** `_generate_code_for_phase`, as paths relative to the project directory. */
  function GenerateCodeForPhase(phase: string, stack: TechStack, components: seq<string>, testFiles: seq<string>)
    : (files: seq<string>)
    ensures phase == "models" ==> files == (if "python" in StackGet(stack, "backend") then ["src/models.py"] else [])
    ensures phase == "api" ==> files == (if "fastapi" in StackGet(stack, "backend") then ["src/main.py"] else [])
    ensures phase == "frontend" ==>
              if "react" in StackGet(stack, "frontend") then
                |files| == |components| &&
                forall i :: 0 <= i < |components| ==> files[i] == "src/components/" + components[i] + ".jsx"
              else files == []
    ensures phase == "testing" ==> files == testFiles
    ensures phase !in {"models", "api", "frontend", "testing"} ==> files == []
  {
    if phase == "models" then (if "python" in StackGet(stack, "backend") then ["src/models.py"] else [])
    else if phase == "api" then (if "fastapi" in StackGet(stack, "backend") then ["src/main.py"] else [])
    else if phase == "frontend" then
      (if "react" in StackGet(stack, "frontend") then
         seq(|components|, i requires 0 <= i < |components| => "src/components/" + components[i] + ".jsx")
       else [])
    else if phase == "testing" then testFiles
    else []
  }

  /** What the generators, analysers, test runner and reviewer report for one iteration. */
  datatype IterationInputs = IterationInputs(
    components: seq<string>,
    testFiles: seq<string>,
    linesOfCode: nat,
    syntaxErrors: seq<string>,
    criticalIssues: nat,
    coverage: real,
    completionPercentage: real,
    qualityScore: real)

  datatype IterationResult = IterationResult(
    iterationNumber: nat,
    phase: string,
    filesCreated: seq<string>,
    linesOfCode: nat,
    syntaxErrors: seq<string>,
    coverage: real,
    completionPercentage: real,
    qualityScore: real,
    isIterationSuccessful: bool,
    requiresHumanReview: bool)

  /** `_execute_development_iteration`. */
  function ExecuteDevelopmentIteration(iteration: nat, stack: TechStack, inputs: IterationInputs): (r: IterationResult)
    ensures r.iterationNumber == iteration + 1 && r.phase == DetermineCurrentPhase(iteration)
    ensures r.filesCreated == GenerateCodeForPhase(r.phase, stack, inputs.components, inputs.testFiles)
    ensures r.isIterationSuccessful <==> inputs.qualityScore >= 0.7
    ensures r.requiresHumanReview <==>
              inputs.qualityScore < QualityThreshold || inputs.criticalIssues > 0 || inputs.completionPercentage > 80.0
  {
    var phase := DetermineCurrentPhase(iteration);
    IterationResult(
      iteration + 1, phase, GenerateCodeForPhase(phase, stack, inputs.components, inputs.testFiles),
      inputs.linesOfCode, inputs.syntaxErrors, inputs.coverage, inputs.completionPercentage, inputs.qualityScore,
      inputs.qualityScore >= 0.7,
      inputs.qualityScore < QualityThreshold || inputs.criticalIssues > 0 || inputs.completionPercentage > 80.0)
  }

  /** `_check_completion_criteria`. */
  predicate CompletionCriteriaMet(r: IterationResult) {
    r.completionPercentage >= 90.0 && r.qualityScore >= QualityThreshold && r.syntaxErrors == []
    && r.coverage >= CoverageThreshold
  }

  /** The loop ends after an iteration that meets the criteria or asks for review. */
  predicate Stops(r: IterationResult) {
    CompletionCriteriaMet(r) || r.requiresHumanReview
  }

  /**
   * Meeting the completion criteria needs more than 80% completion, which
   * already asks for human review: the review flag alone decides when the
   * loop stops.
   */
  lemma CriteriaImplyReview(iteration: nat, stack: TechStack, inputs: IterationInputs)
    ensures var r := ExecuteDevelopmentIteration(iteration, stack, inputs);
      CompletionCriteriaMet(r) ==> r.requiresHumanReview
    ensures Stops(ExecuteDevelopmentIteration(iteration, stack, inputs)) <==>
              ExecuteDevelopmentIteration(iteration, stack, inputs).requiresHumanReview
  {
  }

  // ---------------------------------------------------------------- completed features

  /** The target features not yet completed, in order. */
  function Remaining(target: seq<string>, completed: seq<string>): (rest: seq<string>)
    ensures |rest| <= |target|
    ensures forall f :: f in rest <==> f in target && f !in completed
  {
    if target == [] then []
    else (if target[0] in completed then [] else [target[0]]) + Remaining(target[1..], completed)
  }

  lemma {:induction false} RemainingCount(target: seq<string>, completed: seq<string>, x: string)
    ensures multiset(Remaining(target, completed))[x] == if x in completed then 0 else multiset(target)[x]
  {
    if target != [] {
      RemainingCount(target[1..], completed, x);
      assert target == [target[0]] + target[1..];
    }
  }

  /** `int(completion / 20)`: `int` truncates and `Floor` floors, which differ only below zero, where both leave nothing to add. */
  function FeaturesToAdd(completion: real, completedCount: nat): nat {
    var target := completion / 20.0;
    if target.Floor - completedCount > 0 then target.Floor - completedCount else 0
  }

  /** The features an update marks completed: the first remaining ones, up to one per 20% of completion. */
  function NewlyCompleted(completion: real, target: seq<string>, completed: seq<string>): (added: seq<string>)
    ensures forall f :: f in added ==> f in target && f !in completed
    ensures |added| <= FeaturesToAdd(completion, |completed|) && |added| <= |Remaining(target, completed)|
    ensures added == Remaining(target, completed)[..|added|]
  {
    var rest := Remaining(target, completed);
    var n := FeaturesToAdd(completion, |completed|);
    rest[..if n < |rest| then n else |rest|]
  }

  /** Completed features stay a sub-multiset of the target features when new ones are added. */
  lemma NewlyCompletedWithinTarget(completion: real, target: seq<string>, completed: seq<string>)
    requires multiset(completed) <= multiset(target)
    ensures multiset(completed + NewlyCompleted(completion, target, completed)) <= multiset(target)
  {
    var rest := Remaining(target, completed);
    var added := NewlyCompleted(completion, target, completed);
    assert rest == added + rest[|added|..];
    forall x
      ensures multiset(completed + added)[x] <= multiset(target)[x]
    {
      RemainingCount(target, completed, x);
      assert multiset(added)[x] <= multiset(rest)[x];
      if x in completed {
        assert x !in added;
      } else {
        assert multiset(completed)[x] == 0;
      }
    }
  }

  lemma SubMultisetSize(a: seq<string>, b: seq<string>)
    requires multiset(a) <= multiset(b)
    ensures |a| <= |b|
  {
    assert |multiset(a)| == |a| && |multiset(b)| == |b|;
    var d := multiset(b) - multiset(a);
    assert multiset(b) == multiset(a) + d;
  }

  /** The features an update adds, given the progress before it: some only when completion went up. */
  function FeaturesAdded(progress: real, completion: real, target: seq<string>, completed: seq<string>): seq<string> {
    if completion > progress then NewlyCompleted(completion, target, completed) else []
  }

  /**
   * The features `_update_project_context` adds as written: it stores the new
   * progress first and then asks whether completion exceeds it, so it never
   * adds any.
   */
  function FeaturesAddedAsWritten(progress: real, completion: real, target: seq<string>, completed: seq<string>)
    : (added: seq<string>)
    ensures added == []
  {
    var storedProgress := completion;
    if completion > storedProgress then NewlyCompleted(completion, target, completed) else []
  }

  /** Two features, none completed, 40% reached from 0%: the intended update completes both, the written one neither. */
  lemma UpdateLosesFeatures()
    ensures FeaturesAdded(0.0, 40.0, ["auth", "search"], []) == ["auth", "search"]
    ensures FeaturesAddedAsWritten(0.0, 40.0, ["auth", "search"], []) == []
  {
    assert FeaturesToAdd(40.0, 0) == 2;
    var rest := Remaining(["auth", "search"], []);
    assert ["auth", "search"][1..] == ["search"];
    assert rest == ["auth", "search"];
  }

  class ProjectContext {
    const projectName: string
    const projectType: string
    const techStack: TechStack
    const targetFeatures: seq<string>
    var completedFeatures: seq<string>
    var currentPhase: string
    var overallProgress: real

    /** Every completed feature is a target feature, no more often than it is targeted. */
    ghost predicate Valid()
      reads this
    {
      multiset(completedFeatures) <= multiset(targetFeatures)
    }

    constructor (name: string, kind: string, stack: TechStack, target: seq<string>)
      ensures projectName == name && projectType == kind && techStack == stack && targetFeatures == target
      ensures completedFeatures == [] && currentPhase == "initialization" && overallProgress == 0.0
      ensures Valid()
    {
      projectName := name;
      projectType := kind;
      techStack := stack;
      targetFeatures := target;
      completedFeatures := [];
      currentPhase := "initialization";
      overallProgress := 0.0;
    }

    /** `_update_project_context` as written: the progress moves, the completed features never do. */
    method UpdateProjectContextAsWritten(r: IterationResult)
      requires Valid()
      modifies this
      ensures overallProgress == r.completionPercentage
      ensures completedFeatures == old(completedFeatures) && currentPhase == old(currentPhase)
      ensures Valid()
    {
      overallProgress := r.completionPercentage;
      completedFeatures := completedFeatures +
        if r.completionPercentage > overallProgress then NewlyCompleted(r.completionPercentage, targetFeatures, completedFeatures)
        else [];
    }

    /** `_update_project_context` comparing against the previous progress before storing the new one. */
    method UpdateProjectContext(r: IterationResult)
      requires Valid()
      modifies this
      ensures overallProgress == r.completionPercentage && currentPhase == old(currentPhase)
      ensures completedFeatures ==
              old(completedFeatures) + FeaturesAdded(old(overallProgress), r.completionPercentage, targetFeatures, old(completedFeatures))
      ensures Valid()
    {
      if r.completionPercentage > overallProgress {
        NewlyCompletedWithinTarget(r.completionPercentage, targetFeatures, completedFeatures);
        completedFeatures := completedFeatures + NewlyCompleted(r.completionPercentage, targetFeatures, completedFeatures);
      }
      overallProgress := r.completionPercentage;
    }
  }

  // ---------------------------------------------------------------- the development loop

  /** What iteration `k` yields for a stack and the reports of each iteration. */
  function Outcomes(stack: TechStack, inputs: nat -> IterationInputs): nat -> IterationResult {
    (k: nat) => ExecuteDevelopmentIteration(k, stack, inputs(k))
  }

  /** The completed features and progress after the context has been updated with `results`, in order. */
  function ContextAfter(completed: seq<string>, progress: real, target: seq<string>, results: seq<IterationResult>)
    : (seq<string>, real)
    decreases |results|
  {
    if results == [] then (completed, progress)
    else
      var c := results[0].completionPercentage;
      ContextAfter(completed + FeaturesAdded(progress, c, target, completed), c, target, results[1..])
  }

  /** The progress after a run is the last iteration's completion, and only target features get completed. */
  lemma {:induction false} ContextAfterShape(completed: seq<string>, progress: real, target: seq<string>,
                                             results: seq<IterationResult>)
    requires multiset(completed) <= multiset(target)
    ensures var (c, p) := ContextAfter(completed, progress, target, results);
      (results == [] ==> c == completed && p == progress)
      && (results != [] ==> p == results[|results| - 1].completionPercentage)
      && multiset(c) <= multiset(target)
      && completed <= c
    decreases |results|
  {
    if results != [] {
      var r := results[0].completionPercentage;
      var added := FeaturesAdded(progress, r, target, completed);
      if r > progress {
        NewlyCompletedWithinTarget(r, target, completed);
      }
      ContextAfterShape(completed + added, r, target, results[1..]);
      if |results| > 1 {
        assert results[1..][|results[1..]| - 1] == results[|results| - 1];
      }
    }
  }

  lemma ContextStep(completed: seq<string>, progress: real, target: seq<string>, r: IterationResult,
                    rest: seq<IterationResult>)
    ensures ContextAfter(completed, progress, target, [r] + rest)
         == ContextAfter(completed + FeaturesAdded(progress, r.completionPercentage, target, completed),
                         r.completionPercentage, target, rest)
  {
    assert ([r] + rest)[0] == r && ([r] + rest)[1..] == rest;
  }

  datatype Summary = Summary(
    projectName: string,
    totalIterations: nat,
    completionPercentage: real,
    filesGenerated: nat,
    linesOfCode: nat,
    averageQualityScore: Option<real>,
    featuresCompleted: nat,
    featuresRemaining: int,
    finalRecommendation: string)

  function TotalFiles(results: seq<IterationResult>): nat {
    if results == [] then 0 else |results[0].filesCreated| + TotalFiles(results[1..])
  }

  function AllFiles(results: seq<IterationResult>): seq<string> {
    if results == [] then [] else results[0].filesCreated + AllFiles(results[1..])
  }

  /** The summary's file count is the number of files the iterations created, all told. */
  lemma {:induction false} TotalFilesCountsAll(results: seq<IterationResult>)
    ensures TotalFiles(results) == |AllFiles(results)|
  {
    if results != [] {
      TotalFilesCountsAll(results[1..]);
    }
  }

  function TotalLines(results: seq<IterationResult>): nat {
    if results == [] then 0 else results[0].linesOfCode + TotalLines(results[1..])
  }

  function TotalQuality(results: seq<IterationResult>): real {
    if results == [] then 0.0 else results[0].qualityScore + TotalQuality(results[1..])
  }

  // The four texts of `_generate_final_recommendation`.
  const ReadyForDeployment: string := "\U{1F389}" + " Project is ready for deployment with high confidence"
  const MostlyComplete: string := "\U{2705}" + " Project is mostly complete, requires minor finishing touches"
  const GoodFoundation: string := "\U{26A0}\U{FE0F}" + " Project has good foundation, needs additional development"
  const NeedsDevelopment: string := "\U{1F504}" + " Project requires significant additional development"

  /** The four recommendations differ already in their first character, the emoji. */
  lemma RecommendationsDistinct()
    ensures ReadyForDeployment != MostlyComplete && ReadyForDeployment != GoodFoundation
    ensures ReadyForDeployment != NeedsDevelopment && MostlyComplete != GoodFoundation
    ensures MostlyComplete != NeedsDevelopment && GoodFoundation != NeedsDevelopment
  {
    assert ReadyForDeployment[0] == '\U{1F389}' && MostlyComplete[0] == '\U{2705}';
    assert GoodFoundation[0] == '\U{26A0}' && NeedsDevelopment[0] == '\U{1F504}';
  }

  /** `_generate_final_recommendation`, by the bands of 90, 70 and 50 percent. */
  function FinalRecommendation(progress: real): (text: string)
    ensures progress >= 90.0 <==> text == ReadyForDeployment
    ensures 70.0 <= progress < 90.0 <==> text == MostlyComplete
    ensures 50.0 <= progress < 70.0 <==> text == GoodFoundation
    ensures progress < 50.0 <==> text == NeedsDevelopment
  {
    RecommendationsDistinct();
    if progress >= 90.0 then ReadyForDeployment
    else if progress >= 70.0 then MostlyComplete
    else if progress >= 50.0 then GoodFoundation
    else NeedsDevelopment
  }

  /**
   * `_generate_final_summary`. The average quality divides by the number of
   * iterations, which raises in the source when there are none: `None` here.
   */
  function FinalSummary(name: string, progress: real, target: seq<string>, completed: seq<string>,
                        results: seq<IterationResult>): (s: Summary)
    ensures s.totalIterations == |results| && s.filesGenerated == TotalFiles(results)
    ensures s.averageQualityScore.Some? <==> results != []
    ensures s.featuresCompleted + s.featuresRemaining == |target|
    ensures s.finalRecommendation == FinalRecommendation(progress)
  {
    Summary(name, |results|, progress, TotalFiles(results), TotalLines(results),
            if results == [] then None else Some(TotalQuality(results) / (|results| as real)),
            |completed|, |target| - |completed|, FinalRecommendation(progress))
  }

  /** While the context is valid, the summary never reports a negative number of remaining features. */
  lemma RemainingNonNegative(name: string, progress: real, target: seq<string>, completed: seq<string>,
                             results: seq<IterationResult>)
    requires multiset(completed) <= multiset(target)
    ensures FinalSummary(name, progress, target, completed, results).featuresRemaining >= 0
  {
    SubMultisetSize(completed, target);
  }

  /**
   * `start_iterative_development`: at most `maxIterations` iterations (15 in
   * the configuration), updating the context after each, until one meets the
   * completion criteria or asks for human review; then the summary.
   */
  method StartIterativeDevelopment(context: ProjectContext, maxIterations: nat, inputs: nat -> IterationInputs)
    returns (results: seq<IterationResult>, summary: Summary)
    requires context.Valid()
    modifies context
    ensures results == RunFrom(0, maxIterations, Outcomes(context.techStack, inputs), Stops)
    ensures (context.completedFeatures, context.overallProgress) ==
            ContextAfter(old(context.completedFeatures), old(context.overallProgress), context.targetFeatures, results)
    ensures context.Valid()
    ensures summary == FinalSummary(context.projectName, context.overallProgress, context.targetFeatures,
                                    context.completedFeatures, results)
    ensures summary.featuresRemaining >= 0
  {
    var outcome := Outcomes(context.techStack, inputs);
    ghost var completed0 := context.completedFeatures;
    ghost var progress0 := context.overallProgress;
    results := [];
    var k := 0;
    while k < maxIterations
      invariant 0 <= k <= maxIterations
      invariant context.Valid()
      invariant RunFrom(0, maxIterations, outcome, Stops) == results + RunFrom(k, maxIterations, outcome, Stops)
      invariant ContextAfter(context.completedFeatures, context.overallProgress, context.targetFeatures,
                             RunFrom(k, maxIterations, outcome, Stops))
             == ContextAfter(completed0, progress0, context.targetFeatures, RunFrom(0, maxIterations, outcome, Stops))
      decreases maxIterations - k
    {
      var r := outcome(k);  // `_execute_development_iteration(k)`
      RunStep(k, maxIterations, outcome, Stops);
      ghost var rest := RunFrom(k, maxIterations, outcome, Stops);
      ghost var tail: seq<IterationResult> := if Stops(r) then [] else RunFrom(k + 1, maxIterations, outcome, Stops);
      assert rest == [r] + tail;
      ContextStep(context.completedFeatures, context.overallProgress, context.targetFeatures, r, tail);
      results := results + [r];
      context.UpdateProjectContext(r);
      if CompletionCriteriaMet(r) || r.requiresHumanReview {
        break;
      }
      k := k + 1;
    }
    summary := FinalSummary(context.projectName, context.overallProgress, context.targetFeatures,
                            context.completedFeatures, results);
    RemainingNonNegative(context.projectName, context.overallProgress, context.targetFeatures,
                         context.completedFeatures, results);
  }
}
