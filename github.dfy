/**
 * Git and GitHub integration: parsing of `git status --porcelain` and
 * `git rev-list --left-right --count` output, the argument vectors of clone,
 * push and pull, the GitHub request headers and search parameters, the
 * repository registry of `GitManager`, and the workflow log of
 * `GitHubIntegration` with its owner/repo extraction.
 *
 * A git invocation is a function `GitRunner` from (argv, cwd) to its return
 * code and output. GitHub API calls, commits, branch switches and file writes
 * inside the workflows are abstracted to whether, and after how many recorded
 * steps, they raise.
 */
module GitHub {
  import opened Wrappers
  import opened Text

  datatype GitResult = GitResult(returnCode: int, stdout: string, stderr: string)

  /** Runs a git command line in a directory ("" for the current one). */
  type GitRunner = (seq<string>, string) -> GitResult

  datatype GitRepository = GitRepository(
    name: string,
    url: string,
    branch: string,
    localPath: string,
    remote: string,
    isClean: bool,
    aheadCommits: int,
    behindCommits: int,
    modifiedFiles: seq<string>,
    untrackedFiles: seq<string>)

  /** Python truthiness of an optional string argument. */
  predicate Given(o: Option<string>) {
    o.Some? && o.value != ""
  }

  // ---------------------------------------------------------------- git status --porcelain

  /** `line[:2].strip() == '??'` */
  predicate IsUntracked(line: string) {
    Strip(line[..if |line| < 2 then |line| else 2]) == "??"
  }

  /** `line[3:]` */
  function FileNameOf(line: string): string {
    SliceFrom(line, 3)
  }

  function NonEmptyLines(lines: seq<string>): nat {
    if lines == [] then 0
    else NonEmptyLines(lines[..|lines| - 1]) + (if lines[|lines| - 1] != "" then 1 else 0)
  }

  /** The (modified, untracked) lists built from the lines, in order; empty lines are skipped. */
  function Classify(lines: seq<string>): (seq<string>, seq<string>) {
    if lines == [] then ([], [])
    else
      var (modified, untracked) := Classify(lines[..|lines| - 1]);
      var line := lines[|lines| - 1];
      if line == "" then (modified, untracked)
      else if IsUntracked(line) then (modified, untracked + [FileNameOf(line)])
      else (modified + [FileNameOf(line)], untracked)
  }

  /** The lists of `get_repository_status`: the stripped output split on '\n', or nothing when git failed. */
  function StatusLists(status: GitResult): (seq<string>, seq<string>) {
    if status.returnCode == 0 then Classify(Split(Strip(status.stdout), '\n')) else ([], [])
  }

  /** One line more: an empty line changes nothing, any other is appended to the list its status code picks. */
  lemma ClassifyStep(lines: seq<string>, i: nat)
    requires i < |lines|
    ensures var (modified, untracked) := Classify(lines[..i]);
      var line := lines[i];
      Classify(lines[..i + 1])
        == if line == "" then (modified, untracked)
           else if IsUntracked(line) then (modified, untracked + [FileNameOf(line)])
           else (modified + [FileNameOf(line)], untracked)
  {
    assert lines[..i + 1][..i] == lines[..i];
  }

  lemma {:induction false} ClassifyCount(lines: seq<string>)
    ensures |Classify(lines).0| + |Classify(lines).1| == NonEmptyLines(lines)
  {
    if lines != [] {
      ClassifyCount(lines[..|lines| - 1]);
    }
  }

  lemma {:induction false} UntrackedFrom(lines: seq<string>, x: string)
    requires x in Classify(lines).1
    ensures exists line | line in lines :: line != "" && IsUntracked(line) && x == FileNameOf(line)
  {
    var init := lines[..|lines| - 1];
    var last := lines[|lines| - 1];
    if x in Classify(init).1 {
      UntrackedFrom(init, x);
      var line :| line in init && line != "" && IsUntracked(line) && x == FileNameOf(line);
      assert line in lines;
    } else {
      assert last in lines;
    }
  }

  lemma {:induction false} ModifiedFrom(lines: seq<string>, x: string)
    requires x in Classify(lines).0
    ensures exists line | line in lines :: line != "" && !IsUntracked(line) && x == FileNameOf(line)
  {
    var init := lines[..|lines| - 1];
    var last := lines[|lines| - 1];
    if x in Classify(init).0 {
      ModifiedFrom(init, x);
      var line :| line in init && line != "" && !IsUntracked(line) && x == FileNameOf(line);
      assert line in lines;
    } else {
      assert last in lines;
    }
  }

  /**
   * Every non-empty line lands in exactly one of the two lists: untracked
   * entries come from lines whose status code is "??", modified entries from
   * all others, each named by the line from its fourth character on.
   */
  lemma ClassifyExactly(lines: seq<string>)
    ensures var (modified, untracked) := Classify(lines);
      |modified| + |untracked| == NonEmptyLines(lines)
      && (forall x | x in untracked :: exists line | line in lines :: line != "" && IsUntracked(line) && x == FileNameOf(line))
      && (forall x | x in modified :: exists line | line in lines :: line != "" && !IsUntracked(line) && x == FileNameOf(line))
  {
    ClassifyCount(lines);
    forall x | x in Classify(lines).1
      ensures exists line | line in lines :: line != "" && IsUntracked(line) && x == FileNameOf(line)
    {
      UntrackedFrom(lines, x);
    }
    forall x | x in Classify(lines).0
      ensures exists line | line in lines :: line != "" && !IsUntracked(line) && x == FileNameOf(line)
    {
      ModifiedFrom(lines, x);
    }
  }

  /** A failing `git status` leaves both lists empty, so the repository is reported clean. */
  lemma FailedStatusIsClean(status: GitResult)
    requires status.returnCode != 0
    ensures StatusLists(status) == ([], [])
  {
  }

  /**
   * The output is stripped as a whole before it is split, so a first line
   * " M a.txt" loses its leading blank and is read as the file ".txt".
   */
  lemma LeadingBlankShiftsName()
    ensures StatusLists(GitResult(0, " M a.txt", "")) == ([".txt"], [])
  {
    StatusLine();
    ClassifyLine();
  }

  lemma StatusLine()
    ensures Split(Strip(" M a.txt"), '\n') == ["M a.txt"]
  {
    var t := "M a.txt";
    assert " M a.txt" == [' '] + t;
    StripLeadingBlank(t);
    assert '\n' !in t;
    SplitAbsent(t, '\n');
  }

  lemma ClassifyLine()
    ensures Classify(["M a.txt"]) == ([".txt"], [])
  {
    var t := "M a.txt";
    UntrackedCode();
    var one: seq<string> := [t];
    assert one[..0] == [] && one[0] == t && |one| == 1;
    assert Classify(one[..0]) == ([], []);
    assert t != "" && !IsUntracked(one[|one| - 1]);
    assert FileNameOf(t) == ".txt" by {
      assert t[3..] == ".txt";
    }
    assert Classify(one) == ([] + [FileNameOf(t)], []);
    assert ([] + [".txt"]) == [".txt"];
  }

  lemma StripLeadingBlank(x: string)
    requires x != [] && !IsSpace(x[0]) && !IsSpace(x[|x| - 1])
    ensures Strip([' '] + x) == x
  {
    assert ([' '] + x)[1..] == x;
    StripTrimmed(x);
  }

  lemma UntrackedCode()
    ensures !IsUntracked("M a.txt")
  {
    var t := "M a.txt";
    assert t[..2] == ['M', ' '];
    assert ['M', ' '][..1] == ['M'];
    assert Strip(['M', ' ']) == ['M'];
  }

  /** The parsing loop of `get_repository_status`. */
  method ParsePorcelain(status: GitResult) returns (modified: seq<string>, untracked: seq<string>)
    ensures (modified, untracked) == StatusLists(status)
  {
    modified, untracked := [], [];
    if status.returnCode != 0 {
      return;
    }
    var lines := Split(Strip(status.stdout), '\n');
    var i := 0;
    while i < |lines|
      invariant 0 <= i <= |lines|
      invariant (modified, untracked) == Classify(lines[..i])
    {
      ClassifyStep(lines, i);
      var line := lines[i];
      if line != "" {
        if IsUntracked(line) {
          untracked := untracked + [FileNameOf(line)];
        } else {
          modified := modified + [FileNameOf(line)];
        }
      }
      i := i + 1;
    }
    assert lines[..i] == lines;
  }

  // ---------------------------------------------------------------- git rev-list --left-right --count

  function RevListArgv(branch: string): seq<string> {
    ["git", "rev-list", "--left-right", "--count", "origin/" + branch + "...HEAD"]
  }

  /**
   * `_get_ahead_behind_count`: the output "behind<TAB>ahead" read as
   * (ahead, behind); a failed command, a wrong number of fields or a field
   * `int()` rejects gives (0, 0).
   */
  function AheadBehind(result: GitResult): (counts: (int, int))
    ensures result.returnCode != 0 ==> counts == (0, 0)
  {
    if result.returnCode != 0 then (0, 0)
    else
      var fields := Split(Strip(result.stdout), '\t');
      if |fields| != 2 then (0, 0)
      else
        match (ParseInt(fields[1]), ParseInt(fields[0]))
        case (Some(ahead), Some(behind)) => (ahead, behind)
        case _ => (0, 0)
  }

  /** The two counts git prints come back swapped into (ahead, behind). */
  lemma RevListRoundTrip(ahead: nat, behind: nat)
    ensures AheadBehind(GitResult(0, NatToString(behind) + "\t" + NatToString(ahead) + "\n", "")) == (ahead, behind)
  {
    var b := NatToString(behind);
    var a := NatToString(ahead);
    RevListFields(b, a);
    IntRoundTrip(ahead);
    IntRoundTrip(behind);
    assert ParseInt(a) == Some(ahead) && ParseInt(b) == Some(behind);
  }

  /** "b<TAB>a<LF>" strips and splits into the two digit strings. */
  lemma RevListFields(b: string, a: string)
    requires |b| >= 1 && forall k :: 0 <= k < |b| ==> IsDigit(b[k])
    requires |a| >= 1 && forall k :: 0 <= k < |a| ==> IsDigit(a[k])
    ensures Split(Strip(b + "\t" + a + "\n"), '\t') == [b, a]
  {
    var core := b + "\t" + a;
    assert core[0] == b[0] && core[|core| - 1] == a[|a| - 1];
    StripLineEnd(core);
    NoTab(a);
    NoTab(b);
    assert core == b + ['\t'] + a;
    SplitAround(b, '\t', a);
    SplitAbsent(a, '\t');
  }

  /** A line with no blank at either end is what `strip` leaves of it with its line break. */
  lemma StripLineEnd(core: string)
    requires core != [] && !IsSpace(core[0]) && !IsSpace(core[|core| - 1])
    ensures Strip(core + "\n") == core
  {
    var s := core + "\n";
    assert s[0] == core[0];
    assert StripLeft(s) == s;
    assert s[..|s| - 1] == core;
    assert StripRight(s) == StripRight(core);
  }

  lemma NoTab(digits: string)
    requires forall k :: 0 <= k < |digits| ==> IsDigit(digits[k])
    ensures '\t' !in digits
  {
  }

  // ---------------------------------------------------------------- argument vectors

  /** `clone_repository`: "-b <branch>" only for a given branch, then the URL and the local path. */
  function CloneArgv(url: string, localPath: string, branch: Option<string>): (argv: seq<string>)
    ensures |argv| >= 4 && argv[..2] == ["git", "clone"] && argv[|argv| - 2..] == [url, NormPath(localPath)]
    ensures argv[2..|argv| - 2] == if Given(branch) then ["-b", branch.value] else []
  {
    ["git", "clone"] + (if Given(branch) then ["-b", branch.value] else []) + [url, NormPath(localPath)]
  }

  /** `push_changes`: "origin <branch>" only for a given branch. */
  function PushArgv(branch: Option<string>): (argv: seq<string>)
    ensures |argv| >= 2 && argv[..2] == ["git", "push"]
    ensures argv[2..] == if Given(branch) then ["origin", branch.value] else []
  {
    ["git", "push"] + (if Given(branch) then ["origin", branch.value] else [])
  }

  /** `pull_changes`: "origin <branch>" only for a given branch. */
  function PullArgv(branch: Option<string>): (argv: seq<string>)
    ensures |argv| >= 2 && argv[..2] == ["git", "pull"]
    ensures argv[2..] == if Given(branch) then ["origin", branch.value] else []
  {
    ["git", "pull"] + (if Given(branch) then ["origin", branch.value] else [])
  }

  // ---------------------------------------------------------------- GitHub API requests

  /** `token or os.getenv("GITHUB_TOKEN")` */
  function ResolveToken(argument: Option<string>, environment: Option<string>): (token: Option<string>)
    ensures Given(token) <==> Given(argument) || Given(environment)
  {
    if Given(argument) then argument else environment
  }

  /** `_get_headers`: the fixed Accept and User-Agent, plus Authorization exactly when a token is set. */
  function Headers(token: Option<string>): (h: map<string, string>)
    ensures "Accept" in h && h["Accept"] == "application/vnd.github.v3+json"
    ensures "User-Agent" in h && h["User-Agent"] == "Ideation-Assistant/1.0"
    ensures "Authorization" in h <==> Given(token)
    ensures Given(token) ==> h["Authorization"] == "token " + token.value
    ensures h.Keys <= {"Accept", "User-Agent", "Authorization"}
  {
    var base := map["Accept" := "application/vnd.github.v3+json", "User-Agent" := "Ideation-Assistant/1.0"];
    if Given(token) then base["Authorization" := "token " + token.value] else base
  }

  datatype SearchParams = SearchParams(q: string, sort: string, order: string, perPage: int)

  /** `search_repositories` parameters (defaults: sort "stars", order "desc", limit 30). */
  function SearchParamsFor(query: string, language: Option<string>, sort: string, order: string, limit: int): (p: SearchParams)
    ensures p.perPage <= 100 && (p.perPage == limit || p.perPage == 100) && (limit <= 100 ==> p.perPage == limit)
    ensures p.q == if Given(language) then query + " language:" + language.value else query
    ensures p.sort == sort && p.order == order
  {
    SearchParams(if Given(language) then query + " language:" + language.value else query, sort, order,
                 if limit < 100 then limit else 100)
  }

  // ---------------------------------------------------------------- owner and repository

  datatype RepoRef =
    | NotOnGitHub                          // the URL does not mention github.com: no pull request
    | OwnerRepo(owner: string, repo: string)
    | MissingOwner                         // `parts[-2]` raises IndexError: fewer than two pieces

  /**
   * The owner/repo extraction of `automated_code_update_workflow`: every
   * ".git" is removed, the rest split on '/', and the last two pieces are
   * owner and repository.
   */
  function RepoRefOf(url: string): (r: RepoRef)
    ensures r.NotOnGitHub? <==> !Contains(url, "github.com")
    ensures r.MissingOwner? <==> Contains(url, "github.com") && '/' !in Replace(url, ".git", "")
    ensures r.OwnerRepo? ==>
              '/' !in r.owner && '/' !in r.repo && EndsWith(Replace(url, ".git", ""), r.owner + "/" + r.repo)
    ensures r.OwnerRepo? ==>
              var parts := Split(Replace(url, ".git", ""), '/');
              |parts| >= 2 && r.owner == parts[|parts| - 2] && r.repo == parts[|parts| - 1]
  {
    if !Contains(url, "github.com") then NotOnGitHub
    else
      var s := Replace(url, ".git", "");
      var parts := Split(s, '/');
      SplitPieces(s, '/');
      if |parts| < 2 then MissingOwner
      else
        JoinSplit(s, '/');
        JoinSuffix(parts, "/");
        OwnerRepo(parts[|parts| - 2], parts[|parts| - 1])
  }

  // ---------------------------------------------------------------- local repositories

  /** What `get_repository_status` reports for a repository at `repoPath`. */
  function RepositoryStatus(repoPath: string, isRepository: bool, run: GitRunner): Result<GitRepository, string> {
    var root := NormPath(repoPath);
    if !isRepository then Err("Not a git repository: " + root)
    else
      var remote := run(["git", "remote", "get-url", "origin"], root);
      var url := if remote.returnCode == 0 then Strip(remote.stdout) else "";
      var current := run(["git", "branch", "--show-current"], root);
      var branch := if current.returnCode == 0 then Strip(current.stdout) else "main";
      var (modified, untracked) := StatusLists(run(["git", "status", "--porcelain"], root));
      var (ahead, behind) := AheadBehind(run(RevListArgv(branch), root));
      Ok(GitRepository(PathName(root), url, branch, root, "origin", modified == [] && untracked == [],
                       ahead, behind, modified, untracked))
  }

  /** A repository reported clean has no modified and no untracked file. */
  lemma CleanIffNoChanges(repoPath: string, isRepository: bool, run: GitRunner)
    ensures var r := RepositoryStatus(repoPath, isRepository, run);
      r.Ok? ==> (r.value.isClean <==> r.value.modifiedFiles == [] && r.value.untrackedFiles == [])
  {
  }

  /** The record `init_repository` registers: named after the directory, on "main", clean, with the remote if one is given. */
  function InitializedRepository(root: string, remoteUrl: Option<string>): (repo: GitRepository)
    ensures repo.localPath == root && repo.branch == "main" && repo.isClean
    ensures repo.url == (if Given(remoteUrl) then remoteUrl.value else "")
    ensures repo.modifiedFiles == [] && repo.untrackedFiles == [] && repo.aheadCommits == 0 && repo.behindCommits == 0
  {
    GitRepository(PathName(root), if Given(remoteUrl) then remoteUrl.value else "", "main", root,
                  "origin", true, 0, 0, [], [])
  }

  class GitManager {
    /** Known repositories by normalised local path. */
    var repositories: map<string, GitRepository>

    constructor ()
      ensures repositories == map[]
    {
      repositories := map[];
    }

    /** `init_repository`: run `git init`; on success add the remote if one is given and register the repository. */
    method InitRepository(path: string, remoteUrl: Option<string>, run: GitRunner) returns (r: Result<GitRepository, string>)
      modifies this`repositories
      ensures var init := run(["git", "init"], NormPath(path));
        (init.returnCode != 0 ==>
           r == Err("Failed to initialize git repository: " + init.stderr) && repositories == old(repositories))
        && (init.returnCode == 0 ==>
              r == Ok(InitializedRepository(NormPath(path), remoteUrl))
              && repositories == old(repositories)[NormPath(path) := r.value])
    {
      var root := NormPath(path);
      var init := run(["git", "init"], root);
      if init.returnCode != 0 {
        return Err("Failed to initialize git repository: " + init.stderr);
      }
      if Given(remoteUrl) {
        var _ := run(["git", "remote", "add", "origin", remoteUrl.value], root);
      }
      var repo := GitRepository(PathName(root), if Given(remoteUrl) then remoteUrl.value else "", "main", root,
                                "origin", true, 0, 0, [], []);
      repositories := repositories[root := repo];
      r := Ok(repo);
    }

    /** `get_repository_status` */
    method GetRepositoryStatus(repoPath: string, isRepository: bool, run: GitRunner) returns (r: Result<GitRepository, string>)
      ensures r == RepositoryStatus(repoPath, isRepository, run)
      ensures r.Err? <==> !isRepository
    {
      var root := NormPath(repoPath);
      if !isRepository {
        return Err("Not a git repository: " + root);
      }
      var remote := run(["git", "remote", "get-url", "origin"], root);
      var url := if remote.returnCode == 0 then Strip(remote.stdout) else "";
      var current := run(["git", "branch", "--show-current"], root);
      var branch := if current.returnCode == 0 then Strip(current.stdout) else "main";
      var status := run(["git", "status", "--porcelain"], root);
      var modified, untracked := ParsePorcelain(status);
      var counts := AheadBehind(run(RevListArgv(branch), root));
      r := Ok(GitRepository(PathName(root), url, branch, root, "origin", |modified| == 0 && |untracked| == 0,
                            counts.0, counts.1, modified, untracked));
      ghost var lists := StatusLists(status);
      assert modified == lists.0 && untracked == lists.1;
      assert (|modified| == 0 && |untracked| == 0) == (lists.0 == [] && lists.1 == []);
    }

    /** `clone_repository`: clone, then read the clone's status and register it under its path. */
    method CloneRepository(url: string, localPath: string, branch: Option<string>, isRepository: bool, run: GitRunner)
      returns (r: Result<GitRepository, string>)
      modifies this`repositories
      ensures var clone := run(CloneArgv(url, localPath, branch), "");
        (clone.returnCode != 0 ==>
           r == Err("Failed to clone repository: " + clone.stderr) && repositories == old(repositories))
        && (clone.returnCode == 0 ==> r == RepositoryStatus(localPath, isRepository, run))
        && (r.Ok? ==> repositories == old(repositories)[NormPath(localPath) := r.value])
        && (r.Err? ==> repositories == old(repositories))
    {
      var clone := run(CloneArgv(url, localPath, branch), "");
      if clone.returnCode != 0 {
        return Err("Failed to clone repository: " + clone.stderr);
      }
      r := GetRepositoryStatus(localPath, isRepository, run);
      if r.Ok? {
        repositories := repositories[NormPath(localPath) := r.value];
      }
    }

    /** `push_changes`: success is a zero return code. */
    method PushChanges(repoPath: string, branch: Option<string>, run: GitRunner) returns (ok: bool)
      ensures ok <==> run(PushArgv(branch), NormPath(repoPath)).returnCode == 0
    {
      var result := run(PushArgv(branch), NormPath(repoPath));
      ok := result.returnCode == 0;
    }

    /** `pull_changes`: success is a zero return code. */
    method PullChanges(repoPath: string, branch: Option<string>, run: GitRunner) returns (ok: bool)
      ensures ok <==> run(PullArgv(branch), NormPath(repoPath)).returnCode == 0
    {
      var result := run(PullArgv(branch), NormPath(repoPath));
      ok := result.returnCode == 0;
    }
  }

  // ---------------------------------------------------------------- workflows

  /** One entry of the workflow log (timestamps and the repository objects it carries are not modelled). */
  datatype Workflow = Workflow(
    operation: string,
    subject: string,
    steps: seq<string>,
    status: string,
    error: string,
    pullRequest: Option<(string, string)>,
    changesPulled: bool)

  /** An exception raised after `afterSteps` step labels were recorded. */
  datatype Failure = Failure(afterSteps: nat, message: string)

  /** The log entry of a workflow whose steps are `steps`, completed or cut short by `failure`. */
  function Logged(operation: string, subject: string, steps: seq<string>, failure: Option<Failure>,
                  pullRequest: Option<(string, string)>): (w: Workflow)
    ensures w.status == (if failure.None? then "completed" else "failed")
    ensures failure.None? ==> w.steps == steps && w.error == ""
    ensures failure.Some? ==> |w.steps| <= |steps| && w.steps == steps[..|w.steps|] && w.error == failure.value.message
    ensures failure.Some? && failure.value.afterSteps <= |steps| ==> |w.steps| == failure.value.afterSteps
  {
    match failure
    case None => Workflow(operation, subject, steps, "completed", "", pullRequest, false)
    case Some(f) =>
      var k := if f.afterSteps < |steps| then f.afterSteps else |steps|;
      Workflow(operation, subject, steps[..k], "failed", f.message, None, false)
  }

  const CreateSteps: seq<string> := ["Creating GitHub repository", "Cloning repository locally"]

  const SetupSteps: seq<string> := [
    "Creating feature branch", "Adding development files", "Committing initial development setup", "Pushing to remote"]

  function UpdateSteps(updateBranch: string, withPullRequest: bool): (steps: seq<string>)
    ensures |steps| == if withPullRequest then 5 else 4
  {
    ["Creating update branch: " + updateBranch, "Applying code changes", "Committing changes", "Pushing changes"]
    + (if withPullRequest then ["Creating pull request"] else [])
  }

  /**
   * The exception that ends the update workflow: one from a step, or the
   * IndexError of the owner/repo extraction, which comes right after the
   * fifth label and before the pull request is created.
   */
  function UpdateFailure(url: string, withPullRequest: bool, failure: Option<Failure>): (f: Option<Failure>)
    ensures f.None? ==> failure.None?
    ensures failure.Some? && failure.value.afterSteps < 5 ==> f == failure
  {
    if withPullRequest && RepoRefOf(url).MissingOwner? && (failure.None? || failure.value.afterSteps >= 5)
    then Some(Failure(5, "list index out of range"))
    else failure
  }

  class GitHubIntegration {
    /** Whether the GitHub client was opened (`github_manager` set by `__aenter__`). */
    const hasGitHubManager: bool
    /** Every workflow run, oldest first. */
    var workflowHistory: seq<Workflow>

    constructor (hasGitHubManager: bool)
      ensures this.hasGitHubManager == hasGitHubManager && workflowHistory == []
    {
      this.hasGitHubManager := hasGitHubManager;
      workflowHistory := [];
    }

    /** `create_project_with_github`: logged once; a failure is raised again. */
    method CreateProjectWithGitHub(projectName: string, failure: Option<Failure>) returns (r: Result<Workflow, string>)
      modifies this`workflowHistory
      ensures var w := Logged("create_project_with_github", projectName, CreateSteps, failure, None);
        workflowHistory == old(workflowHistory) + [w]
        && (failure.None? ==> r == Ok(w))
        && (failure.Some? ==> r == Err(failure.value.message))
    {
      var w := Logged("create_project_with_github", projectName, CreateSteps, failure, None);
      workflowHistory := workflowHistory + [w];
      r := if failure.None? then Ok(w) else Err(failure.value.message);
    }

    /** `setup_development_workflow`: logged once; a failure is raised again. */
    method SetupDevelopmentWorkflow(repoPath: string, failure: Option<Failure>) returns (r: Result<Workflow, string>)
      modifies this`workflowHistory
      ensures var w := Logged("setup_development_workflow", repoPath, SetupSteps, failure, None);
        workflowHistory == old(workflowHistory) + [w]
        && (failure.None? ==> r == Ok(w))
        && (failure.Some? ==> r == Err(failure.value.message))
    {
      var w := Logged("setup_development_workflow", repoPath, SetupSteps, failure, None);
      workflowHistory := workflowHistory + [w];
      r := if failure.None? then Ok(w) else Err(failure.value.message);
    }

    /**
     * `automated_code_update_workflow`: with `createPr` and an open client a
     * pull request is opened against the owner/repo of the repository URL when
     * it is on GitHub; logged once; a failure is raised again.
     */
    method AutomatedCodeUpdateWorkflow(repoPath: string, repoUrl: string, updateBranch: string, createPr: bool,
                                       failure: Option<Failure>)
      returns (r: Result<Workflow, string>)
      modifies this`workflowHistory
      ensures var withPr := createPr && hasGitHubManager;
        var actual := UpdateFailure(repoUrl, withPr, failure);
        var ref := RepoRefOf(repoUrl);
        var pr := if withPr && ref.OwnerRepo? then Some((ref.owner, ref.repo)) else None;
        var w := Logged("automated_code_update", repoPath, UpdateSteps(updateBranch, withPr), actual, pr);
        workflowHistory == old(workflowHistory) + [w]
        && (actual.None? ==> r == Ok(w))
        && (actual.Some? ==> r == Err(actual.value.message))
    {
      var withPr := createPr && hasGitHubManager;
      var actual := UpdateFailure(repoUrl, withPr, failure);
      var ref := RepoRefOf(repoUrl);
      var pr := if withPr && ref.OwnerRepo? then Some((ref.owner, ref.repo)) else None;
      var w := Logged("automated_code_update", repoPath, UpdateSteps(updateBranch, withPr), actual, pr);
      workflowHistory := workflowHistory + [w];
      r := if actual.None? then Ok(w) else Err(actual.value.message);
    }

    /**
     * `sync_repository`: never raises. An exception while reading the status
     * (`failure`) or a failed pull marks the entry failed; otherwise it records
     * whether the behind count changed.
     */
    method SyncRepository(repoPath: string, failure: Option<string>, pullOk: bool, behindBefore: int, behindAfter: int)
      returns (w: Workflow)
      modifies this`workflowHistory
      ensures workflowHistory == old(workflowHistory) + [w]
      ensures w.status == "completed" <==> failure.None? && pullOk
      ensures w.status == "completed" || w.status == "failed"
      ensures failure.None? && !pullOk ==> w.error == "Pull operation failed"
      ensures w.changesPulled <==> w.status == "completed" && behindAfter != behindBefore
    {
      if failure.Some? {
        w := Workflow("sync_repository", repoPath, [], "failed", failure.value, None, false);
      } else if !pullOk {
        w := Workflow("sync_repository", repoPath, [], "failed", "Pull operation failed", None, false);
      } else {
        w := Workflow("sync_repository", repoPath, [], "completed", "", None, behindAfter != behindBefore);
      }
      workflowHistory := workflowHistory + [w];
    }

    /** `get_workflow_history(limit)`: the slice `[-limit:]` of the log (20 by default). */
    function GetWorkflowHistory(limit: int): (r: seq<Workflow>)
      reads this
      ensures |r| <= |workflowHistory| && r == workflowHistory[|workflowHistory| - |r|..]
      ensures limit > 0 ==> |r| == (if limit < |workflowHistory| then limit else |workflowHistory|)
      ensures limit == 0 ==> r == workflowHistory
    {
      LastN(workflowHistory, limit)
    }
  }
}
