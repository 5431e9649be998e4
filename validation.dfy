/**
 * Request validation: the field bounds and validator bodies of the seven
 * request models, `validate_request` and `safe_validate`.
 *
 * Request data is a dictionary of JSON-like values. Fields are checked in
 * declaration order and every failing field contributes one error; a field's
 * own validator runs only when the field is given (an absent field takes its
 * default unchecked; an explicit `None` is still checked), only after its type
 * and bounds passed, and sees only the earlier fields that validated. Type coercion (a numeric string for an
 * integer, say) is not modelled: a value of another kind is a type error.
 */
module Validation {
  import opened Wrappers
  import opened Text

  datatype Value = Str(s: string) | Int(i: int) | Bool(b: bool) | Dict(keys: set<string>) | List(items: seq<string>) | Null

  type Data = map<string, Value>

  datatype ErrorKind =
    | Missing
    | NoneNotAllowed
    | NotAString
    | NotAnInteger
    | NotABool
    | NotADict
    | NotAList
    | TooSmall(bound: int)
    | TooLarge(bound: int)
    | TooShort(limit: nat)
    | TooLong(limit: nat)
    | NoMatch(pattern: string)
    | NotAMember
    | Raised(message: string)

  datatype FieldError = FieldError(field: string, kind: ErrorKind)

  /** The errors a field check contributes: none, or its one error. */
  function ErrorsOf<T>(r: Result<T, FieldError>): (es: seq<FieldError>)
    ensures |es| <= 1 && (es == [] <==> r.Ok?)
  {
    if r.Ok? then [] else [r.error]
  }

  // ---------------------------------------------------------------- field kinds

  function RequiredString(data: Data, field: string): (r: Result<string, FieldError>)
    ensures r.Ok? <==> field in data && data[field].Str?
    ensures r.Ok? ==> r.value == data[field].s
  {
    if field !in data then Err(FieldError(field, Missing))
    else match data[field]
      case Str(s) => Ok(s)
      case Null => Err(FieldError(field, NoneNotAllowed))
      case _ => Err(FieldError(field, NotAString))
  }

  /** An `Optional[str]` field: absent and `None` both give `None`. */
  function OptionalString(data: Data, field: string): (r: Result<Option<string>, FieldError>)
    ensures r.Ok? <==> field !in data || data[field].Str? || data[field].Null?
    ensures r == Ok(None) <==> field !in data || data[field].Null?
  {
    if field !in data then Ok(None)
    else match data[field]
      case Str(s) => Ok(Some(s))
      case Null => Ok(None)
      case _ => Err(FieldError(field, NotAString))
  }

  function StringWithDefault(data: Data, field: string, default: string): (r: Result<string, FieldError>)
    ensures field !in data ==> r == Ok(default)
  {
    if field !in data then Ok(default) else RequiredString(data, field)
  }

  function BoolWithDefault(data: Data, field: string, default: bool): (r: Result<bool, FieldError>)
    ensures field !in data ==> r == Ok(default)
    ensures r.Ok? <==> field !in data || data[field].Bool?
  {
    if field !in data then Ok(default)
    else match data[field]
      case Bool(b) => Ok(b)
      case Null => Err(FieldError(field, NoneNotAllowed))
      case _ => Err(FieldError(field, NotABool))
  }

  /** An integer field, with its default when absent, between `lo` and `hi` inclusive. */
  function BoundedInt(data: Data, field: string, default: int, lo: int, hi: int): (r: Result<int, FieldError>)
    ensures field !in data ==> r == Ok(default)
    ensures field in data ==> (r.Ok? <==> data[field].Int? && lo <= data[field].i <= hi)
    ensures field in data && r.Ok? ==> r.value == data[field].i
  {
    if field !in data then Ok(default)
    else match data[field]
      case Int(i) =>
        if i < lo then Err(FieldError(field, TooSmall(lo)))
        else if i > hi then Err(FieldError(field, TooLarge(hi)))
        else Ok(i)
      case Null => Err(FieldError(field, NoneNotAllowed))
      case _ => Err(FieldError(field, NotAnInteger))
  }

  /** A dictionary field, `{}` when absent; its keys are what the validators look at. */
  function DictWithDefault(data: Data, field: string): (r: Result<set<string>, FieldError>)
    ensures field !in data ==> r == Ok({})
    ensures r.Ok? <==> field !in data || data[field].Dict?
  {
    if field !in data then Ok({})
    else match data[field]
      case Dict(keys) => Ok(keys)
      case Null => Err(FieldError(field, NoneNotAllowed))
      case _ => Err(FieldError(field, NotADict))
  }

  function ListWithDefault(data: Data, field: string): (r: Result<seq<string>, FieldError>)
    ensures field !in data ==> r == Ok([])
    ensures r.Ok? <==> field !in data || data[field].List?
  {
    if field !in data then Ok([])
    else match data[field]
      case List(items) => Ok(items)
      case Null => Err(FieldError(field, NoneNotAllowed))
      case _ => Err(FieldError(field, NotAList))
  }

  /** A string whose length lies in `[minLength, maxLength]`. */
  function LengthBounded(r: Result<string, FieldError>, field: string, minLength: nat, maxLength: nat)
    : (out: Result<string, FieldError>)
    ensures out.Ok? <==> r.Ok? && minLength <= |r.value| <= maxLength
    ensures out.Ok? ==> out.value == r.value
  {
    if r.Err? then r
    else if |r.value| < minLength then Err(FieldError(field, TooShort(minLength)))
    else if |r.value| > maxLength then Err(FieldError(field, TooLong(maxLength)))
    else r
  }

  function OptionalLengthBounded(r: Result<Option<string>, FieldError>, field: string, maxLength: nat)
    : (out: Result<Option<string>, FieldError>)
    ensures out.Ok? <==> r.Ok? && (r.value.Some? ==> |r.value.value| <= maxLength)
    ensures out.Ok? ==> out.value == r.value
  {
    if r.Err? then r
    else if r.value.Some? && |r.value.value| > maxLength then Err(FieldError(field, TooLong(maxLength)))
    else r
  }

  /** A string one of `allowed` (an enumeration, or a pattern of alternatives). */
  function OneOf(r: Result<string, FieldError>, field: string, allowed: set<string>, pattern: string)
    : (out: Result<string, FieldError>)
    ensures out.Ok? <==> r.Ok? && r.value in allowed
    ensures out.Ok? ==> out.value == r.value
  {
    if r.Err? then r
    else if r.value !in allowed then Err(FieldError(field, if pattern == "" then NotAMember else NoMatch(pattern)))
    else r
  }

  const Languages: set<string> := {"python", "javascript", "typescript", "java", "cpp", "c", "go", "rust", "shell"}

  const Domains: set<string> := {
    "web_development", "mobile_development", "data_science", "machine_learning", "devops", "fintech",
    "healthcare", "ecommerce", "gaming", "iot"}

  // ---------------------------------------------------------------- planning

  datatype Request =
    | Planning(domain: string, requirements: set<string>, iterations: int, targetMarket: Option<string>,
               expectedUsers: Option<int>)
    | CodeExecution(code: string, language: string, timeout: int, workingDir: Option<string>, environment: set<string>)
    | ProjectDevelopment(name: string, language: string, description: Option<string>, template: string,
                         github: bool, tests: bool, build: bool)
    | Analysis(path: string, analysisLanguage: Option<string>, includeHidden: bool, improvementGoals: seq<string>)
    | GitHub(operation: string, repository: Option<string>, branch: string, private: bool,
             repositoryDescription: Option<string>)
    | Workflow(workflowName: string, workflowRequirements: set<string>)
    | ApiKey(service: string, key: string)

  /** `expected_users`: optional, at least 1 when given. */
  function ExpectedUsers(data: Data): (r: Result<Option<int>, FieldError>)
    ensures r == Ok(None) <==> "expected_users" !in data || data["expected_users"].Null?
    ensures r.Ok? && r.value.Some? ==> r.value.value >= 1
  {
    if "expected_users" !in data then Ok(None)
    else match data["expected_users"]
      case Null => Ok(None)
      case Int(i) => if i < 1 then Err(FieldError("expected_users", TooSmall(1))) else Ok(Some(i))
      case _ => Err(FieldError("expected_users", NotAnInteger))
  }

  /** `PlanningRequest`; its `requirements` validator only insists on a dictionary, which the type already does. */
  function ValidatePlanning(data: Data): (r: Result<Request, seq<FieldError>>)
    ensures r.Ok? ==> r.value.Planning? && r.value.domain in Domains && 1 <= r.value.iterations <= 10
    ensures r.Ok? && "iterations" !in data ==> r.value.iterations == 3
    ensures r.Ok? && r.value.expectedUsers.Some? ==> r.value.expectedUsers.value >= 1
    ensures r.Err? ==> r.error != []
  {
    var domain := OneOf(RequiredString(data, "domain"), "domain", Domains, "");
    var requirements := DictWithDefault(data, "requirements");
    var iterations := BoundedInt(data, "iterations", 3, 1, 10);
    var market := OptionalString(data, "target_market");
    var users := ExpectedUsers(data);
    var errors := ErrorsOf(domain) + ErrorsOf(requirements) + ErrorsOf(iterations) + ErrorsOf(market) + ErrorsOf(users);
    if errors != [] then Err(errors)
    else Ok(Planning(domain.value, requirements.value, iterations.value, market.value, users.value))
  }

  // ---------------------------------------------------------------- code execution

  /** `code`: 1 to 50000 characters, not blank, kept stripped. */
  function Code(data: Data): (r: Result<string, FieldError>)
    ensures r.Ok? <==> "code" in data && data["code"].Str? && 1 <= |data["code"].s| <= 50000 && Strip(data["code"].s) != ""
    ensures r.Ok? ==> r.value == Strip(data["code"].s) && r.value != [] && |r.value| <= 50000
  {
    var raw := LengthBounded(RequiredString(data, "code"), "code", 1, 50000);
    if raw.Err? then raw
    else if Strip(raw.value) == "" then Err(FieldError("code", Raised("Code cannot be empty or whitespace only")))
    else Ok(Strip(raw.value))
  }

  function ValidateCodeExecution(data: Data): (r: Result<Request, seq<FieldError>>)
    ensures r.Ok? ==> r.value.CodeExecution? && 1 <= r.value.timeout <= 300 && r.value.language in Languages
    ensures r.Ok? ==> "code" in data && data["code"].Str? && r.value.code == Strip(data["code"].s) && r.value.code != ""
    ensures r.Ok? && "timeout" !in data ==> r.value.timeout == 30
    ensures r.Err? ==> r.error != []
  {
    var code := Code(data);
    var language := OneOf(RequiredString(data, "language"), "language", Languages, "");
    var timeout := BoundedInt(data, "timeout", 30, 1, 300);
    var workingDir := OptionalString(data, "working_dir");
    var environment := DictWithDefault(data, "environment");
    var errors := ErrorsOf(code) + ErrorsOf(language) + ErrorsOf(timeout) + ErrorsOf(workingDir) + ErrorsOf(environment);
    if errors != [] then Err(errors)
    else Ok(CodeExecution(code.value, language.value, timeout.value, workingDir.value, environment.value))
  }

  // ---------------------------------------------------------------- project development

  predicate IsAlnum(c: char) {
    'a' <= c <= 'z' || 'A' <= c <= 'Z' || '0' <= c <= '9'
  }

  /** Python `s.isalnum()` over ASCII: non-empty and alphanumeric throughout. */
  predicate AllAlnum(s: string) {
    s != [] && forall i :: 0 <= i < |s| ==> IsAlnum(s[i])
  }

  /** The name validator's test: `name.replace('_', '').replace('-', '').isalnum()`. */
  predicate NameValidatorAccepts(name: string) {
    AllAlnum(Replace(Replace(name, "_", ""), "-", ""))
  }

  /** The characters the validator looks at: `name` without '_' and '-'. */
  lemma NameKept(name: string)
    ensures Replace(Replace(name, "_", ""), "-", "") == Without(Without(name, '_'), '-')
  {
    ReplaceCharDeletes(name, '_');
    ReplaceCharDeletes(Without(name, '_'), '-');
  }

  predicate NameCharsAllowed(name: string) {
    forall c :: c in name ==> IsAlnum(c) || c == '_' || c == '-'
  }

  predicate HasAlnum(name: string) {
    exists c :: c in name && IsAlnum(c)
  }

  lemma NameValidatorSound(name: string)
    requires NameValidatorAccepts(name)
    ensures NameCharsAllowed(name) && HasAlnum(name)
  {
    NameKept(name);
    var kept := Without(Without(name, '_'), '-');
    assert kept[0] in kept;
    forall c | c in name && c != '_' && c != '-'
      ensures IsAlnum(c)
    {
      assert c in kept;
    }
  }

  lemma NameValidatorComplete(name: string)
    requires NameCharsAllowed(name) && HasAlnum(name)
    ensures NameValidatorAccepts(name)
  {
    NameKept(name);
    var kept := Without(Without(name, '_'), '-');
    var c :| c in name && IsAlnum(c);
    assert c in kept;
    forall i | 0 <= i < |kept|
      ensures IsAlnum(kept[i])
    {
      assert kept[i] in kept;
    }
  }

  /**
   * A name passes the validator exactly when it is made of letters, digits,
   * '_' and '-' and has at least one letter or digit.
   */
  lemma NameValidatorIff(name: string)
    ensures NameValidatorAccepts(name) <==> NameCharsAllowed(name) && HasAlnum(name)
  {
    if NameValidatorAccepts(name) {
      NameValidatorSound(name);
    }
    if NameCharsAllowed(name) && HasAlnum(name) {
      NameValidatorComplete(name);
    }
  }

  /** `name`: 1 to 100 characters, passing the validator, kept lowercased. */
  function ProjectName(data: Data): (r: Result<string, FieldError>)
    ensures r.Ok? <==>
              "name" in data && data["name"].Str? && 1 <= |data["name"].s| <= 100 && NameValidatorAccepts(data["name"].s)
    ensures r.Ok? ==> r.value == Lower(data["name"].s)
  {
    var raw := LengthBounded(RequiredString(data, "name"), "name", 1, 100);
    if raw.Err? then raw
    else if !NameValidatorAccepts(raw.value) then
      Err(FieldError("name", Raised("Project name must contain only alphanumeric characters, hyphens, and underscores")))
    else Ok(Lower(raw.value))
  }

  function ValidateProjectDevelopment(data: Data): (r: Result<Request, seq<FieldError>>)
    ensures r.Ok? ==> r.value.ProjectDevelopment? && r.value.language in Languages
    ensures r.Ok? ==> "name" in data && data["name"].Str?
    ensures r.Ok? ==> r.value.name == Lower(data["name"].s) && NameValidatorAccepts(data["name"].s)
    ensures r.Ok? ==> r.value.description.Some? ==> |r.value.description.value| <= 500
    ensures r.Ok? && "template" !in data ==> r.value.template == "default"
    ensures r.Err? ==> r.error != []
  {
    var name := ProjectName(data);
    var language := OneOf(RequiredString(data, "language"), "language", Languages, "");
    var description := OptionalLengthBounded(OptionalString(data, "description"), "description", 500);
    var template := StringWithDefault(data, "template", "default");
    var github := BoolWithDefault(data, "github", false);
    var tests := BoolWithDefault(data, "tests", false);
    var build := BoolWithDefault(data, "build", false);
    var errors := ErrorsOf(name) + ErrorsOf(language) + ErrorsOf(description) + ErrorsOf(template)
                   + ErrorsOf(github) + ErrorsOf(tests) + ErrorsOf(build);
    if errors != [] then Err(errors)
    else Ok(ProjectDevelopment(name.value, language.value, description.value, template.value,
                               github.value, tests.value, build.value))
  }

  // ---------------------------------------------------------------- analysis

  /** `path`: non-empty and existing; `pathExists` stands for `os.path.exists`. */
  function AnalysisPath(data: Data, pathExists: string -> bool): (r: Result<string, FieldError>)
    ensures r.Ok? <==> "path" in data && data["path"].Str? && |data["path"].s| >= 1 && pathExists(data["path"].s)
  {
    var raw := RequiredString(data, "path");
    if raw.Err? then raw
    else if |raw.value| < 1 then Err(FieldError("path", TooShort(1)))
    else if !pathExists(raw.value) then Err(FieldError("path", Raised("Path does not exist: " + raw.value)))
    else raw
  }

  function OptionalLanguage(data: Data): (r: Result<Option<string>, FieldError>)
    ensures r.Ok? && r.value.Some? ==> r.value.value in Languages
  {
    var raw := OptionalString(data, "language");
    if raw.Err? || raw.value.None? || raw.value.value in Languages then raw
    else Err(FieldError("language", NotAMember))
  }

  function ValidateAnalysis(data: Data, pathExists: string -> bool): (r: Result<Request, seq<FieldError>>)
    ensures r.Ok? ==> r.value.Analysis? && pathExists(r.value.path)
    ensures r.Ok? ==> r.value.analysisLanguage.Some? ==> r.value.analysisLanguage.value in Languages
    ensures r.Err? ==> r.error != []
  {
    var path := AnalysisPath(data, pathExists);
    var language := OptionalLanguage(data);
    var hidden := BoolWithDefault(data, "include_hidden", false);
    var goals := ListWithDefault(data, "improvement_goals");
    var errors := ErrorsOf(path) + ErrorsOf(language) + ErrorsOf(hidden) + ErrorsOf(goals);
    if errors != [] then Err(errors)
    else Ok(Analysis(path.value, language.value, hidden.value, goals.value))
  }

  // ---------------------------------------------------------------- GitHub

  const GitHubOperations: set<string> := {"create_repo", "clone", "push", "pull", "create_pr"}

  const GitHubOperationPattern := "^(create_repo|clone|push|pull|create_pr)$"

  /**
   * The repository validator: creating or cloning needs a non-empty name when
   * one is given (an absent repository keeps its `None` default unchecked). It
   * sees the operation only when the operation itself validated.
   */
  function Repository(data: Data, operation: Option<string>): (r: Result<Option<string>, FieldError>)
    ensures "repository" !in data ==> r == Ok(None)
    ensures "repository" in data && operation.Some? && operation.value in {"create_repo", "clone"} && r.Ok? ==>
              r.value.Some? && r.value.value != ""
    ensures (operation.None? || operation.value !in {"create_repo", "clone"}) ==> r == OptionalString(data, "repository")
  {
    var raw := OptionalString(data, "repository");
    if raw.Err? || "repository" !in data then raw
    else if operation.Some? && operation.value in {"create_repo", "clone"} && (raw.value.None? || raw.value.value == "") then
      Err(FieldError("repository", Raised("Repository name is required for this operation")))
    else raw
  }

  function ValidateGitHub(data: Data): (r: Result<Request, seq<FieldError>>)
    ensures r.Ok? ==> r.value.GitHub? && r.value.operation in GitHubOperations
    ensures r.Ok? && "repository" in data && r.value.operation in {"create_repo", "clone"} ==>
              r.value.repository.Some? && r.value.repository.value != ""
    ensures r.Ok? && "repository" !in data ==> r.value.repository.None?
    ensures r.Ok? && "branch" !in data ==> r.value.branch == "main"
    ensures r.Err? ==> r.error != []
  {
    var operation := OneOf(RequiredString(data, "operation"), "operation", GitHubOperations,
                           GitHubOperationPattern);
    var repository := Repository(data, if operation.Ok? then Some(operation.value) else None);
    var branch := StringWithDefault(data, "branch", "main");
    var private := BoolWithDefault(data, "private", false);
    var description := OptionalLengthBounded(OptionalString(data, "description"), "description", 500);
    var errors := ErrorsOf(operation) + ErrorsOf(repository) + ErrorsOf(branch) + ErrorsOf(private) + ErrorsOf(description);
    if errors != [] then Err(errors)
    else Ok(GitHub(operation.value, repository.value, branch.value, private.value, description.value))
  }

  // ---------------------------------------------------------------- workflows

  const WorkflowNames: set<string> := {
    "complete_project_development", "ai_planning_with_implementation", "code_analysis_and_improvement"}

  const WorkflowPattern := "^(complete_project_development|ai_planning_with_implementation|code_analysis_and_improvement)$"

  /**
   * The requirements validator: the fields each workflow needs, the first
   * missing one reported, when requirements are given (absent ones keep
   * their `{}` default unchecked).
   */
  function WorkflowRequirements(data: Data, workflowName: Option<string>): (r: Result<set<string>, FieldError>)
    ensures "requirements" !in data ==> r == Ok({})
    ensures r.Ok? && "requirements" in data && workflowName == Some("complete_project_development") ==>
              "project_name" in r.value && "language" in r.value
    ensures r.Ok? && "requirements" in data && workflowName == Some("code_analysis_and_improvement") ==>
              "project_path" in r.value
    ensures workflowName.None? || workflowName.value !in {"complete_project_development", "code_analysis_and_improvement"} ==>
              r == DictWithDefault(data, "requirements")
  {
    var raw := DictWithDefault(data, "requirements");
    if raw.Err? || "requirements" !in data || workflowName.None? then raw
    else if workflowName.value == "complete_project_development" then
      if "project_name" !in raw.value then
        Err(FieldError("requirements", Raised("Field project_name is required for project development workflow")))
      else if "language" !in raw.value then
        Err(FieldError("requirements", Raised("Field language is required for project development workflow")))
      else raw
    else if workflowName.value == "code_analysis_and_improvement" && "project_path" !in raw.value then
      Err(FieldError("requirements", Raised("project_path is required for code analysis workflow")))
    else raw
  }

  function ValidateWorkflow(data: Data): (r: Result<Request, seq<FieldError>>)
    ensures r.Ok? ==> r.value.Workflow? && r.value.workflowName in WorkflowNames
    ensures r.Ok? && "requirements" in data && r.value.workflowName == "complete_project_development" ==>
              {"project_name", "language"} <= r.value.workflowRequirements
    ensures r.Ok? && "requirements" in data && r.value.workflowName == "code_analysis_and_improvement" ==>
              "project_path" in r.value.workflowRequirements
    ensures r.Ok? && "requirements" !in data ==> r.value.workflowRequirements == {}
    ensures r.Err? ==> r.error != []
  {
    var name := OneOf(RequiredString(data, "workflow_name"), "workflow_name", WorkflowNames,
                      WorkflowPattern);
    var requirements := WorkflowRequirements(data, if name.Ok? then Some(name.value) else None);
    var errors := ErrorsOf(name) + ErrorsOf(requirements);
    if errors != [] then Err(errors)
    else Ok(Workflow(name.value, requirements.value))
  }

  /**
   * Cloning or creating with no repository field validates: the validator is
   * skipped for the absent field, while an explicit `None` or `""` is refused.
   */
  lemma AbsentRepositoryAccepted(op: string)
    requires op in {"create_repo", "clone"}
    ensures ValidateGitHub(map["operation" := Str(op)]) == Ok(GitHub(op, None, "main", false, None))
    ensures ValidateGitHub(map["operation" := Str(op), "repository" := Null]).Err?
    ensures ValidateGitHub(map["operation" := Str(op), "repository" := Str("")]).Err?
  {
    var absent := map["operation" := Str(op)];
    assert OneOf(RequiredString(absent, "operation"), "operation", GitHubOperations, GitHubOperationPattern) == Ok(op);
    assert Repository(absent, Some(op)) == Ok(None);
    var given := map["operation" := Str(op), "repository" := Null];
    assert Repository(given, Some(op)).Err?;
    var empty := map["operation" := Str(op), "repository" := Str("")];
    assert Repository(empty, Some(op)).Err?;
  }

  /**
   * A workflow with no requirements field validates with `{}` whatever it
   * needs, while an explicitly empty requirements dictionary is refused.
   */
  lemma AbsentRequirementsAccepted(name: string)
    requires name in {"complete_project_development", "code_analysis_and_improvement"}
    ensures ValidateWorkflow(map["workflow_name" := Str(name)]) == Ok(Workflow(name, {}))
    ensures ValidateWorkflow(map["workflow_name" := Str(name), "requirements" := Dict({})]).Err?
  {
    var given := map["workflow_name" := Str(name), "requirements" := Dict({})];
    assert WorkflowRequirements(given, Some(name)).Err?;
  }

  // ---------------------------------------------------------------- API keys

  const Services: set<string> := {"deepseek", "github", "openai", "anthropic"}

  const ServicePattern := "^(deepseek|github|openai|anthropic)$"

  /** The prefix each service's keys must carry. */
  predicate KeyFormatOk(service: string, key: string) {
    (service == "deepseek" ==> StartsWith(key, "sk-"))
    && (service == "github" ==> StartsWith(key, "ghp_") || StartsWith(key, "ghs_"))
    && (service == "openai" ==> StartsWith(key, "sk-"))
  }

  function Key(data: Data, service: Option<string>): (r: Result<string, FieldError>)
    ensures r.Ok? <==> "key" in data && data["key"].Str? && |data["key"].s| >= 10
                       && (service.Some? ==> KeyFormatOk(service.value, data["key"].s))
  {
    var raw := RequiredString(data, "key");
    if raw.Err? then raw
    else if |raw.value| < 10 then Err(FieldError("key", TooShort(10)))
    else if service == Some("deepseek") && !StartsWith(raw.value, "sk-") then
      Err(FieldError("key", Raised("DeepSeek API key must start with \"sk-\"")))
    else if service == Some("github") && !(StartsWith(raw.value, "ghp_") || StartsWith(raw.value, "ghs_")) then
      Err(FieldError("key", Raised("GitHub token must start with \"ghp_\" or \"ghs_\"")))
    else if service == Some("openai") && !StartsWith(raw.value, "sk-") then
      Err(FieldError("key", Raised("OpenAI API key must start with \"sk-\"")))
    else raw
  }

  function ValidateApiKey(data: Data): (r: Result<Request, seq<FieldError>>)
    ensures r.Ok? ==> r.value.ApiKey? && r.value.service in Services && |r.value.key| >= 10
    ensures r.Ok? ==> KeyFormatOk(r.value.service, r.value.key)
    ensures r.Err? ==> r.error != []
  {
    var service := OneOf(RequiredString(data, "service"), "service", Services, ServicePattern);
    var key := Key(data, if service.Ok? then Some(service.value) else None);
    var errors := ErrorsOf(service) + ErrorsOf(key);
    if errors != [] then Err(errors)
    else Ok(ApiKey(service.value, key.value))
  }

  /** Anthropic keys only need ten characters. */
  lemma AnthropicHasNoPrefixRule(key: string)
    requires |key| >= 10
    ensures ValidateApiKey(map["service" := Str("anthropic"), "key" := Str(key)]).Ok?
  {
    var data := map["service" := Str("anthropic"), "key" := Str(key)];
    assert "anthropic" in Services;
    assert KeyFormatOk("anthropic", key);
  }

  // ---------------------------------------------------------------- dispatch

  const RequestTypes: set<string> := {"planning", "code_execution", "project_development", "analysis", "github", "workflow", "api_key"}

  datatype Failure = UnknownRequestType(requestType: string) | Invalid(errors: seq<FieldError>)

  /** `validate_request`: the model for the type, or the unknown-type error. */
  function ValidateRequest(requestType: string, data: Data, pathExists: string -> bool): (r: Result<Request, Failure>)
    ensures r == Err(UnknownRequestType(requestType)) <==> requestType !in RequestTypes
    ensures r.Err? && r.error.Invalid? ==> r.error.errors != []
  {
    var v :=
      if requestType == "planning" then ValidatePlanning(data)
      else if requestType == "code_execution" then ValidateCodeExecution(data)
      else if requestType == "project_development" then ValidateProjectDevelopment(data)
      else if requestType == "analysis" then ValidateAnalysis(data, pathExists)
      else if requestType == "github" then ValidateGitHub(data)
      else if requestType == "workflow" then ValidateWorkflow(data)
      else if requestType == "api_key" then ValidateApiKey(data)
      else Err([]);
    if requestType !in RequestTypes then Err(UnknownRequestType(requestType))
    else if v.Err? then Err(Invalid(v.error))
    else Ok(v.value)
  }

  /** A validated request is of the model its type names. */
  lemma RequestOfNamedModel(requestType: string, data: Data, pathExists: string -> bool)
    ensures var r := ValidateRequest(requestType, data, pathExists);
      r.Ok? ==> ((requestType == "planning" <==> r.value.Planning?)
                 && (requestType == "code_execution" <==> r.value.CodeExecution?)
                 && (requestType == "project_development" <==> r.value.ProjectDevelopment?)
                 && (requestType == "analysis" <==> r.value.Analysis?)
                 && (requestType == "github" <==> r.value.GitHub?)
                 && (requestType == "workflow" <==> r.value.Workflow?)
                 && (requestType == "api_key" <==> r.value.ApiKey?))
  {
  }

  function ErrorMessage(kind: ErrorKind): string {
    match kind
    case Missing => "field required"
    case NoneNotAllowed => "none is not an allowed value"
    case NotAString => "str type expected"
    case NotAnInteger => "value is not a valid integer"
    case NotABool => "value could not be parsed to a boolean"
    case NotADict => "value is not a valid dict"
    case NotAList => "value is not a valid list"
    case TooSmall(bound) => "ensure this value is greater than or equal to " + IntToString(bound)
    case TooLarge(bound) => "ensure this value is less than or equal to " + IntToString(bound)
    case TooShort(limit) => "ensure this value has at least " + NatToString(limit) + " characters"
    case TooLong(limit) => "ensure this value has at most " + NatToString(limit) + " characters"
    case NoMatch(pattern) => "string does not match regex \"" + pattern + "\""
    case NotAMember => "value is not a valid enumeration member"
    case Raised(message) => message
  }

  datatype ValidationResult = ValidationResult(success: bool, data: Option<Request>, errors: seq<string>)

  /** `safe_validate`: never raises; one "field: message" line per field error, or the unknown-type message. */
  function SafeValidate(requestType: string, data: Data, pathExists: string -> bool): (v: ValidationResult)
    ensures v.success <==> ValidateRequest(requestType, data, pathExists).Ok?
    ensures v.success ==> v.data == Some(ValidateRequest(requestType, data, pathExists).value) && v.errors == []
    ensures !v.success ==> v.data.None? && v.errors != []
    ensures requestType !in RequestTypes ==> v.errors == ["Unknown request type: " + requestType]
  {
    match ValidateRequest(requestType, data, pathExists)
    case Ok(request) => ValidationResult(true, Some(request), [])
    case Err(UnknownRequestType(t)) => ValidationResult(false, None, ["Unknown request type: " + t])
    case Err(Invalid(errors)) =>
      ValidationResult(false, None,
        seq(|errors|, i requires 0 <= i < |errors| => errors[i].field + ": " + ErrorMessage(errors[i].kind)))
  }

  /** The planning request of the module's own example validates, with its three iterations. */
  lemma PlanningExampleValidates()
    ensures var r := ValidateRequest("planning",
              map["domain" := Str("web_development"), "iterations" := Int(3), "requirements" := Dict({"target_users"})],
              _ => false);
      r.Ok? && r.value.Planning? && r.value.iterations == 3
  {
    assert "web_development" in Domains;
  }

  /** Empty code with a 500-second timeout fails on both fields. */
  lemma InvalidCodeExampleFails()
    ensures var r := ValidateCodeExecution(map["code" := Str(""), "language" := Str("python"), "timeout" := Int(500)]);
      r == Err([FieldError("code", TooShort(1)), FieldError("timeout", TooLarge(300))])
  {
    var data := map["code" := Str(""), "language" := Str("python"), "timeout" := Int(500)];
    assert "python" in Languages;
    assert Code(data) == Err(FieldError("code", TooShort(1)));
    assert BoundedInt(data, "timeout", 30, 1, 300) == Err(FieldError("timeout", TooLarge(300)));
    assert "working_dir" !in data && "environment" !in data;
    assert OneOf(RequiredString(data, "language"), "language", Languages, "").Ok?;
    assert ErrorsOf(OptionalString(data, "working_dir")) == [] && ErrorsOf(DictWithDefault(data, "environment")) == [];
    var e1 := FieldError("code", TooShort(1));
    var e2 := FieldError("timeout", TooLarge(300));
    assert [e1] + [] + [e2] + [] + [] == [e1, e2];
  }
}
