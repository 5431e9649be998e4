# ideation-assistant, modelled in Dafny

This project models the deterministic core of the ideation-assistant
development toolkit and proves properties of that model. It covers these parts:

- **Code execution engine** (`SafeCodeExecutor`, `CodeInteractionEngine`),
  in `code_execution.dfy`:
  - the temp-file name probe and its extension table;
  - the language command table and its executable allow-list;
  - the child environment;
  - turning a run's outcome into an `ExecutionResult`, with exit codes -1
    and -2 and output truncation;
  - the live-process registry, the execution history and per-session
    histories;
  - the pytest summary parser.
- **MCP server registry** (`MCPServerManager`, `EnhancedMCPIntegration`), in
  `mcp_servers.dfy`:
  - the seven predefined servers with their tools and resources;
  - start and stop, status, tool calls;
  - the capability map, health check, tool recommendation and planning
    workflow.
- **Filesystem manager**, in `filesystem.dfy`:
  - the project scan and its language histogram;
  - the nested structure map;
  - text search and replace;
  - project statistics and the statistics cache;
  - template projects;
  - one polling step of the directory watcher;
  - the operation log.
- **Git and GitHub integration**, in `github.dfy`:
  - porcelain status and rev-list parsing;
  - the clone, push and pull argument vectors;
  - request headers and search parameters;
  - the repository registry;
  - the workflow log with owner/repo extraction.
- **Secure configuration**, in `secure_config.dfy`:
  - file values ranked below non-empty environment values;
  - sensitive keys kept out of config.json;
  - the credential queries.
- **Framework planner** decision tables, in `framework_planner.dfy`.
- **Smart coding engine**, in `smart_coding.dfy`: the phase schedule, phase
  tasks, one iteration and the bounded iteration loop.
- **Iterative coder**, in `iterative_coder.dfy`:
  - the phase schedule and the project skeleton;
  - the project context it updates;
  - the bounded development loop and the final summary.
- **Request validation**, in `validation.dfy`: the field bounds and
  validators of the seven request models, `validate_request` and
  `safe_validate`.
- **DeepSeek client**, in `deepseek.dfy`:
  - the mock path;
  - the reasoning depth;
  - JSON brace slicing with its fallback;
  - plan convergence;
  - the bounded planning loop.
- **The ideation assistant's `KEY=VALUE` configuration and its
  Hugging Face retry loop**, in `ideation.dfy`.

`wrappers.dfy` holds `Option` and `Result`. `text.dfy` holds the Python
string operations the core relies on: strip, lower, find, split, replace,
`int()`, `str(int)` and `[-n:]` slicing. It also holds the POSIX `pathlib` helpers:
`NormPath` (`str(Path(p))`, keeping a leading "//"), `PathJoin` (`Path(a) / b`),
`PathName`, `PathParent`, `PathSuffix` and `Components`. `bounded_loop.dfy` holds the shape
shared by the bounded loops that stop early.

### How the model is shaped

- Objects whose fields the source updates in place are classes with those
  fields: the executor, the session engine, the server manager, the
  filesystem manager, the git manager, the workflow integration, the
  configuration, the project context and the planning context.
- The decision tables are functions.
- The source's loops are methods with loop invariants, each proved equal
  to a function that specifies it. The lemmas then state the source's
  promises about that function.

### What the model takes as inputs

Everything outside the program is a parameter of the model:

- a child process, given as a function from argv, working directory and
  environment to `Completed`, `TimedOut`, `SpawnFailed` or `WaitFailed`;
- a git invocation;
- an HTTP exchange;
- the clock and random ids;
- JSON decoding and `float()`;
- a directory walk, given as its sequence of entries;
- glob matching.

Whitespace for `str.strip`, `str.split` and `int()` is Python's full `str.isspace` table. `str.lower`, `str.isalnum` and the digits `int()` accepts are modelled over ASCII. `int()` accepts single underscores between digits, as Python does.

One detail is modelled as the code behaves. In the ideation assistant, a
response that is not valid JSON raises inside `call_hf_api`'s own
`except Exception`. It is therefore retried there like any other failure
(`Ideation.DecodeFailureIsRetried`). The `JSONDecodeError` handler of
`generate_suggestions` never sees it, and `Ideation.GenerateSuggestions`
has no such error path.

## Model

| member | source | states |
|---|---|---|
| CodeExecution.ExtensionFor | code_execution.py:124-136 | the temp file's extension is the table entry of the lower-cased language, ".txt" for any other language, and always starts with a dot |
| CodeExecution.ProbeFrom | code_execution.py:147-151 | the name probe stops at the first candidate counter from `k` whose name is free, or at 100; every candidate it skipped is taken |
| CodeExecution.ProbeExhausted | code_execution.py:149 | when all 101 candidate names are taken the probe ends at counter 100 on a name that already exists |
| CodeExecution.ProbeName | code_execution.py:144-151 | the probe loop returns `code_<id>` or `code_<id>_<n>` with n ≤ 100, free unless n = 100, after skipping only taken names |
| CodeExecution.ExecutionCommand | code_execution.py:163-208 | a command exists exactly for python, javascript, java, cpp, c and go (lower-cased); unknown languages raise "Unsupported language", the others "Command not allowed"; an accepted command starts with an allowed executable; java runs `java -cp <dir> <stem>`, cpp and c compile to `<dir>/<stem>` with g++ or gcc and then run it |
| CodeExecution.RefusedByAllowList | code_execution.py:172-187 | typescript, rust and shell are refused because `npx`, `rustc` and `bash` are not in the allow-list |
| CodeExecution.TxtNeverRuns | code_execution.py:136-183 | a language whose file falls back to ".txt" is always "Unsupported language" |
| CodeExecution.Truncate | code_execution.py:250-254 | output up to 1 MiB is kept as is; longer output keeps its first 1 MiB followed by the marker |
| CodeExecution.ChildEnvironment | code_execution.py:219-225 | the child's environment is the host's, overridden by the caller's variables, with PYTHONDONTWRITEBYTECODE and PYTHONUNBUFFERED forced to "1" |
| CodeExecution.ResultFor | code_execution.py:240-318 | success iff the process completed with return code 0; a timeout gives exit code -1 and the timeout message, a spawn or wait error gives -2 and "Execution error: …"; stdout is capped and the command is the argv joined by spaces |
| CodeExecution.EffectiveTimeout | code_execution.py:89 | `timeout or 30`: an absent or zero timeout becomes 30, any other value is kept |
| CodeExecution.ScriptCommand | code_execution.py:351-363 | .py runs with python3, .js/.mjs with node, .sh with bash (suffix lower-cased), anything else directly; the script path and then the arguments end the command |
| CodeExecution.FirstWord | code_execution.py:477 | `split()[0]` raises exactly when the text is all whitespace; otherwise it is a maximal run of non-space characters with only whitespace before it |
| CodeExecution.PytestErrorSticks | code_execution.py:474-488 | once a result line raises, the lines after it do not change the outcome |
| CodeExecution.ParseTestOutput | code_execution.py:466-490 | only the "pytest" framework yields results, collected from the output's lines in order; any other framework gives an empty list |
| CodeExecution.ResultLines | code_execution.py:474-475 | the lines the loop turns into results are exactly the input lines that hold "::" and a status word |
| CodeExecution.PytestResultsComplete | code_execution.py:472-488 | the parse fails exactly when some result line has no word after its last "::"; otherwise there is one result per result line, in order, carrying that line and named by that word |
| CodeExecution.PytestResultsSound | code_execution.py:474-488 | every result comes from a line holding "::" and a status word, its passed/failed/skipped flags are that line's, its name is non-empty, and there are no more results than lines |
| CodeExecution.Executor.constructor | code_execution.py:65-79 | a new executor records its workspace as `str(Path(workspace))` and has an empty history and no active processes |
| CodeExecution.Executor.CreateTempFile | code_execution.py:121-161 | the code is written under the probed name with the language's extension, overwriting an existing file when the probe gave up |
| CodeExecution.Executor.SafeExecute | code_execution.py:210-318 | the result is the one for the process outcome in the child environment; the process id is registered only after a successful spawn and removed on every path out |
| CodeExecution.Executor.ExecuteCode | code_execution.py:81-119 | the temp file is gone afterwards; a refused language is an error that leaves the history unchanged; otherwise the result of running the file name in the temp directory is appended to the history |
| CodeExecution.Executor.ExecuteScript | code_execution.py:338-370 | the script path is taken as `str(Path(path))`; a missing script raises "Script not found: <that path>"; otherwise the result is that of the script command on that path, run in its parent directory with no extra environment, the process leaves the active set unless it failed to spawn, and the history is not touched |
| CodeExecution.Executor.RunScript | code_execution.py:350-370 | an existing script at a normalised path runs the command its suffix selects, in its parent directory with no extra environment; the process leaves the active set unless it failed to spawn |
| CodeExecution.Executor.KillProcess | code_execution.py:372-388 | returns true iff the id was registered, and the id is no longer registered afterwards |
| CodeExecution.Executor.ActiveProcesses | code_execution.py:390-392 | exactly the registered process ids |
| CodeExecution.Executor.ExecutionHistory | code_execution.py:394-396 | `history[-limit:]`: a suffix of the history, of length min(limit, |history|) for a positive limit, the whole history for 0 |
| CodeExecution.InteractionEngine.constructor | code_execution.py:700-705 | a new engine has no sessions |
| CodeExecution.InteractionEngine.StartSession | code_execution.py:761-783 | the id is `session_<now>` and maps to a fresh session with an empty history in `workspace_dir / id`, replacing a session started in the same second |
| CodeExecution.InteractionEngine.ExecuteInSession | code_execution.py:785-805 | an unknown id raises "Session not found" and changes nothing; a known id runs the code as `execute_code` would in the session's language with the default timeout and no extra environment (same result, temp file removed, process out of the active set unless it failed to spawn); a success appends the one result to the executor's and that session's history and leaves every other session alone |
| CodeExecution.InteractionEngine.GetSessionInfo | code_execution.py:807-821 | "Session not found" iff the id is unknown; otherwise the session's language and creation time, its execution count and its last execution |
| McpServers.PredefinedConfig | mcp_server_config.py:77-159 | each predefined server is enabled, carries its own name and at least five capabilities |
| McpServers.PredefinedServerNames | mcp_server_config.py:77-159 | the registry holds exactly the seven predefined servers, each under its own name and enabled |
| McpServers.PredefinedToolsAndResources | mcp_server_config.py:164-315 | eight tools with distinct names and three resources are registered, and each names one of the configured servers |
| McpServers.FindTool | mcp_server_config.py:457-460 | the lookup fails exactly when no tool has that name, and otherwise returns a registered tool of that name |
| McpServers.ToolsOf | mcp_server_config.py:419-442 | the tools of one server: exactly the registered tools whose server is that one |
| McpServers.ResourcesOf | mcp_server_config.py:420-450 | the resources of one server: exactly the registered resources whose server is that one |
| McpServers.ServerManager.constructor | mcp_server_config.py:66-75 | a new manager holds the predefined servers, tools and resources and runs nothing |
| McpServers.ServerManager.StartServer | mcp_server_config.py:317-353 | an unknown server gives false, a running one true without a second start, a disabled one or a failed spawn false; only a successful start adds the server to the running set |
| McpServers.ServerManager.StopServer | mcp_server_config.py:355-379 | a server that is not running gives true and no change; otherwise the answer is whether the stop succeeded, and only a successful stop removes it |
| McpServers.ServerManager.StartAllServers | mcp_server_config.py:381-392 | one answer per configured server: true iff it is enabled and was running or starts; the running set grows by exactly the enabled servers that start |
| McpServers.ServerManager.StopAllServers | mcp_server_config.py:394-402 | one answer per server running at the call, each the outcome of its stop; only the servers whose stop failed stay running |
| McpServers.ServerManager.GetServerStatus | mcp_server_config.py:404-428 | "not found" iff the server is unknown; otherwise its enabled flag, whether it runs, and the numbers of its tools and resources |
| McpServers.ServerManager.GetAvailableTools | mcp_server_config.py:438-444 | all tools for no or an empty server name, else exactly that server's tools |
| McpServers.ServerManager.CallTool | mcp_server_config.py:454-476 | "Tool … not found" for an unknown tool, "Server … not running" when its server is stopped, and a successful mock result echoing the tool, its server and the arguments otherwise |
| McpServers.AddAllMembers | mcp_server_config.py:542-545 | adding a tool under a list of capabilities lists it under exactly those capabilities and keeps every earlier entry |
| McpServers.CapabilityMapMembers | mcp_server_config.py:538-545 | when every tool's server is known, tool n is listed under capability c exactly when c is a capability of the server of a tool named n |
| McpServers.BuildCapabilityMap | mcp_server_config.py:538-545 | the nested loops build the capability map of the tools in order, and fail (the `KeyError`) exactly when some tool's server is unknown |
| McpServers.CapabilityMapStuck | mcp_server_config.py:542 | once a tool with an unknown server is reached, building the whole map fails |
| McpServers.GetRecommendedTools | mcp_server_config.py:601-613 | the six task types have two or three recommended tools; any other task type has none |
| McpServers.HealthCheck | mcp_server_config.py:615-633 | a status for every configured server; "degraded" iff some enabled server is not running, "healthy" otherwise; the tool and resource counts are the registry's |
| McpServers.Registered | mcp_server_config.py:560-586 | the names kept are exactly those in the list that have a registered tool |
| McpServers.PlanningWorkflowSteps | mcp_server_config.py:559-597 | the tools used are the registered ones of analyze_code, web_search and create_project_plan, in that order; step k is that tool's label and the result of calling it with its arguments; the final output is the plan call's result, present exactly when create_project_plan was used |
| McpServers.PlanningWorkflow | mcp_server_config.py:547-599 | code analysis, research and planning each run exactly when their tool is registered, in that order; only registered tools are recorded, and the plan is the final output exactly when the planning tool exists |
| Filesystem.LanguageOf | filesystem_integration.py:71-153 | a file's bucket is the language mapped to its extension, and "Other" exactly for an unmapped extension |
| Filesystem.TallyCounts | filesystem_integration.py:154 | the `get(k, 0) + 1` counting loop has one bucket per distinct label, holding that label's multiplicity |
| Filesystem.TallyTotal | filesystem_integration.py:154 | the buckets of such a count add up to the number of labels counted |
| Filesystem.ScannedFiles | filesystem_integration.py:127-150 | a scan records no more files than the walk meets |
| Filesystem.ScannedFilesExactly | filesystem_integration.py:118-157 | a file is recorded exactly when the walk meets it outside hidden names (unless hidden ones are included) and it can be stat'ed |
| Filesystem.ScannedDirectoriesExactly | filesystem_integration.py:117-124 | a directory is recorded exactly when the walk reaches it without passing a hidden name (unless hidden ones are included) |
| Filesystem.ScanEntries | filesystem_integration.py:108-157 | the walk loop collects exactly the kept files and directories, sums the file sizes and counts one language per file |
| Filesystem.LanguageHistogram | filesystem_integration.py:149-166 | each recorded file lands in exactly one language bucket, so the buckets add up to `total_files` |
| Filesystem.InsertReaches | filesystem_integration.py:204-227 | after walking a path into the map, the path leads to the new file leaf, or to a directory |
| Filesystem.InsertKeepsFolder | filesystem_integration.py:204-218 | walking another path in keeps every directory already present, unless a file is put on or above it |
| Filesystem.InsertKeepsLeaf | filesystem_integration.py:215-227 | walking another path in keeps every file leaf not on that path and not under it |
| Filesystem.BuildStructureMap | filesystem_integration.py:191-229 | the two loops insert the directories first and then the files, each from the root |
| Filesystem.StructureMapComplete | filesystem_integration.py:191-229 | for a real directory tree every directory path is a chain of nested directories and every file path ends at that file's size, extension and time |
| Filesystem.ReadLines | filesystem_integration.py:428 | `readlines` splits the text into non-empty lines that rejoin to it, each but the last ending in a newline |
| Filesystem.MatchesExactly | filesystem_integration.py:430-440 | a file's matches are exactly its lines containing the query (lower-cased unless case-sensitive), each with its 1-based number, the stripped line and the query's first column |
| Filesystem.SearchLines | filesystem_integration.py:430-440 | the per-line loop yields exactly the matches of the file's lines, in line order |
| Filesystem.SearchResultsExactly | filesystem_integration.py:404-449 | a path is in the result iff a walked file there matches a pattern, can be read and has a matching line; its entry is that file's match list |
| Filesystem.CountsExactly | filesystem_integration.py:466-499 | a path gets a count iff a walked file there matches a pattern, decodes strictly, contains the text and (on a real run) can be written; the count is its positive number of occurrences |
| Filesystem.Rewrites | filesystem_integration.py:479-484 | one write per edited file |
| Filesystem.RewriteLengths | filesystem_integration.py:479-480 | each rewrite goes to the edited path and changes its length by `len(replace) - len(search)` per occurrence counted |
| Filesystem.StatsOf | filesystem_integration.py:555-580 | the statistics carry the scan's totals, and the average size is the floor of the total size over `max(1, total_files)` |
| Filesystem.StatsFor | filesystem_integration.py:549-552 | "Project not scanned" exactly when the key is not in the cache |
| Filesystem.StatsHistograms | filesystem_integration.py:553-578 | both the language and the extension histogram ("no_extension" for none) add up to the number of files |
| Filesystem.StatsMissTrailingSlash | filesystem_integration.py:546-552 | as written, a project scanned as "demo/" is reported as not scanned when asked for as "demo/" |
| Filesystem.StatsFoundNormalized | filesystem_integration.py:546-552 | looking up the normalised path finds every scanned project, however its path was written |
| Filesystem.TemplateLayout | filesystem_integration.py:271-314 | every template has README.md and requirements.txt; an unknown template is the default one; only web_app has a frontend |
| Filesystem.Snapshot | filesystem_integration.py:618-629 | a poll records only walked files that could be stat'ed |
| Filesystem.PollChanges | filesystem_integration.py:618-641 | one poll reports a path "modified" iff it is new or its time changed, and "deleted" iff it was seen last time and is gone; the new scan is kept |
| Filesystem.FilesystemManager.constructor | filesystem_integration.py:63-68 | a new manager has an empty operation log and an empty cache |
| Filesystem.FilesystemManager.ScanProject | filesystem_integration.py:99-177 | a missing root raises "Project path does not exist"; otherwise the scan's files, directories, totals and structure map are built and cached under the normalised path, and nothing else is cached |
| Filesystem.FilesystemManager.SearchInFiles | filesystem_integration.py:404-449 | the nested loops return exactly the search results of the walked files |
| Filesystem.FilesystemManager.LogReplace | filesystem_integration.py:486-491 | appends exactly one completed "replace" operation for the file and keeps the earlier history |
| Filesystem.FilesystemManager.ReplaceInFiles | filesystem_integration.py:451-499 | the counts of the edited files; a dry run writes nothing and logs nothing, a real run rewrites each edited file and logs one completed "replace" per file |
| Filesystem.FilesystemManager.ReplaceOne | filesystem_integration.py:469-483 | a file is edited exactly when a pattern matches its name, it reads as strict UTF-8, it contains the search text and, outside a dry run, it can be written; its count is the number of occurrences and its new content has every occurrence replaced |
| Filesystem.FilesystemManager.GetProjectStats | filesystem_integration.py:546-580 | as written: the statistics of the structure cached under the raw argument |
| Filesystem.FilesystemManager.GetProjectStatsNormalized | filesystem_integration.py:546-580 | corrected: the statistics of the structure cached under the normalised path |
| Filesystem.FilesystemManager.StatsFromCache | filesystem_integration.py:549-580 | the extension-counting loop yields the statistics of the cached structure |
| Filesystem.CountExtensions | filesystem_integration.py:576-578 | the counting loop yields the extension histogram: each file counted once under its extension, "no_extension" when it has none |
| Filesystem.FilesystemManager.CreateProjectStructure | filesystem_integration.py:231-269 | the project path is `workspace_root / project_name`, an absolute name replacing the workspace; an existing project raises "Project already exists" and logs nothing; a failing root mkdir raises and logs nothing; otherwise the custom structure or the template is laid out and exactly one "create_project" operation is logged, completed or failed, with the failure raised again |
| Filesystem.FilesystemManager.GetOperationHistory | filesystem_integration.py:591-594 | `history[-limit:]`: the last `limit` operations for a positive limit, all of them for 0 |
| Filesystem.FilesystemManager.ClearCache | filesystem_integration.py:596-600 | the cache is empty afterwards |
| GitHub.ClassifyExactly | github_integration.py:188-196 | every non-empty status line lands in exactly one list: untracked for a "??" code, modified otherwise, named from its fourth character on |
| GitHub.FailedStatusIsClean | github_integration.py:184-198 | a failing `git status` leaves both lists empty, so the repository is reported clean |
| GitHub.LeadingBlankShiftsName | github_integration.py:188-191 | because the whole output is stripped first, a first line " M a.txt" is read as the modified file ".txt" |
| GitHub.ParsePorcelain | github_integration.py:184-196 | the parsing loop builds the two lists of the stripped output split on newlines, and nothing when git failed |
| GitHub.AheadBehind | github_integration.py:217-232 | a failed command gives (0, 0); otherwise "behind<TAB>ahead" is read as (ahead, behind), and any parse failure gives (0, 0) |
| GitHub.RevListRoundTrip | github_integration.py:222-228 | the two counts git prints come back swapped into (ahead, behind) for every pair of naturals |
| GitHub.CloneArgv | github_integration.py:136-139 | `git clone`, then "-b <branch>" only for a given branch, then the URL and the local path |
| GitHub.PushArgv | github_integration.py:278-280 | `git push`, then "origin <branch>" only for a given branch |
| GitHub.PullArgv | github_integration.py:303-305 | `git pull`, then "origin <branch>" only for a given branch |
| GitHub.ResolveToken | github_integration.py:380 | a token is set iff the argument or the GITHUB_TOKEN variable is non-empty |
| GitHub.Headers | github_integration.py:395-406 | fixed Accept and User-Agent headers, and an Authorization header "token …" exactly when a token is set |
| GitHub.SearchParamsFor | github_integration.py:644-653 | the query gains " language:<l>" only for a given language, and `per_page` is min(limit, 100) |
| GitHub.RepoRefOf | github_integration.py:879-883 | no pull request unless the URL contains "github.com"; otherwise, after removing every ".git", the owner is exactly the second-to-last and the repo the last "/"-piece (`parts[-2]`, `parts[-1]`), and a URL with no "/" raises the IndexError |
| GitHub.CleanIffNoChanges | github_integration.py:198 | a repository is reported clean iff it has no modified and no untracked file |
| GitHub.GitManager.constructor | github_integration.py:94-95 | a new manager knows no repository |
| GitHub.GitManager.InitRepository | github_integration.py:97-127 | a failed `git init` raises and registers nothing; otherwise a clean repository on "main" with the given remote URL is registered under its path |
| GitHub.GitManager.GetRepositoryStatus | github_integration.py:153-215 | "Not a git repository" exactly when there is no .git; otherwise the repository with its URL, branch, lists and counts as read from git |
| GitHub.GitManager.CloneRepository | github_integration.py:129-151 | a failed clone raises and registers nothing; otherwise the clone's status is returned and registered under its path |
| GitHub.GitManager.PushChanges | github_integration.py:270-293 | true exactly when the push command returns 0 |
| GitHub.GitManager.PullChanges | github_integration.py:295-318 | true exactly when the pull command returns 0 |
| GitHub.Logged | github_integration.py:743-756 | a workflow record is "completed" with all its steps, or "failed" with the steps recorded before the failure and its message |
| GitHub.UpdateSteps | github_integration.py:847-876 | the update workflow has four steps, five when a pull request is created |
| GitHub.UpdateFailure | github_integration.py:875-907 | a step failure before the pull-request step is the workflow's failure; with no failure at all there may still be the owner/repo IndexError |
| GitHub.GitHubIntegration.constructor | github_integration.py:693-698 | a new integration has an empty workflow log |
| GitHub.GitHubIntegration.CreateProjectWithGitHub | github_integration.py:709-758 | exactly one record is logged, completed or failed, and a failure is raised again |
| GitHub.GitHubIntegration.SetupDevelopmentWorkflow | github_integration.py:760-822 | exactly one record is logged, completed or failed, and a failure is raised again |
| GitHub.GitHubIntegration.AutomatedCodeUpdateWorkflow | github_integration.py:824-912 | exactly one record is logged; a pull request only with `create_pr` and an open client; a failure, including the owner/repo IndexError, is raised again |
| GitHub.GitHubIntegration.SyncRepository | github_integration.py:914-955 | never raises and logs exactly one record: completed iff the status read and the pull succeed, with changes pulled iff the behind count changed |
| GitHub.GitHubIntegration.GetWorkflowHistory | github_integration.py:957-960 | `history[-limit:]`: the last `limit` records for a positive limit, all of them for 0 |
| SecureConfiguration.SensitiveByFirstFive | secure_config.py:82-88 | a key is sensitive exactly when its lower-cased form contains one of the eight keywords, and the last three add nothing beyond "key" and "token" |
| SecureConfiguration.TestKeyIsSensitive | secure_config.py:84-88 | "test_key", "github_token" and "deepseek_api_key" are sensitive |
| SecureConfiguration.SensitiveByKeyword | secure_config.py:84-88 | a key with no upper-case letter in which some keyword occurs is sensitive |
| SecureConfiguration.UsernameNotSensitive | secure_config.py:43-88 | "github_username" is not sensitive |
| SecureConfiguration.ServiceKeysSensitive | secure_config.py:46-88 | "openai_api_key" and "brave_api_key" are sensitive, so they never reach config.json |
| SecureConfiguration.SafeConfig | secure_config.py:70-73 | the saved map holds exactly the cached entries whose key is not sensitive, with their values |
| SecureConfiguration.SavedEnvironmentKeys | secure_config.py:42-77 | of the five environment settings only `github_username` can ever reach config.json |
| SecureConfiguration.OverrideExactly | secure_config.py:51-53 | the override loop sets each key whose variable is non-empty to that value and leaves every other entry as it was |
| SecureConfiguration.LoadOrder | secure_config.py:29-53 | a non-empty environment variable wins over the file; otherwise the file's entry (or its absence) stays; a file that cannot be loaded counts as empty |
| SecureConfiguration.LoadConfig | secure_config.py:29-53 | the loading loop yields the file's entries overridden by the non-empty environment values |
| SecureConfiguration.SecureConfig.constructor | secure_config.py:19-27 | a new configuration holds exactly what loading gives and has written nothing |
| SecureConfiguration.SecureConfig.Get | secure_config.py:55-57 | the cached value of the key, or the default when it is missing |
| SecureConfiguration.SecureConfig.SaveConfig | secure_config.py:66-80 | a successful write stores exactly the non-sensitive entries; a failed one changes nothing; no sensitive key is ever written |
| SecureConfiguration.SecureConfig.Set | secure_config.py:59-64 | afterwards `get` returns the new value whatever the default; with `persist` the file is rewritten without sensitive keys |
| SecureConfiguration.SecureConfig.ValidateConfiguration | secure_config.py:174-183 | exactly github_username, github_token and deepseek_api_key, each true iff its value is non-empty |
| SecureConfiguration.MissingEnvironment | secure_config.py:241-244 | exactly the unset ones of GITHUB_USERNAME and GITHUB_TOKEN |
| SecureConfiguration.CheckSecurity | secure_config.py:217-253 | "secure" iff there is no issue; an issue iff the readable file mentions token, password or secret; a permissions warning for a mode other than 600; an environment warning iff a variable is missing |
| SecureConfiguration.GetGitHubCredentials | secure_config.py:258-267 | both values when both are non-empty, and nothing otherwise |
| SecureConfiguration.GetApiKey | secure_config.py:269-281 | deepseek, openai and brave, lower-cased, map to their settings; any other service gives None |
| SecureConfiguration.ApiKeyIgnoresCase | secure_config.py:277 | "DeepSeek" and "OPENAI" find their keys; "github" finds none |
| FrameworkPlanning.DetermineArchitecturePattern | framework_planner.py:223-243 | the first matching rule decides, in the order microservices, monolithic, event-driven, serverless, JAMstack; LAYERED when none matches; hexagonal and CQRS are never chosen |
| FrameworkPlanning.DefaultsAreMonolithic | framework_planner.py:226-235 | with every key absent the defaults (web_app, medium, 3, 5) select MONOLITHIC |
| FrameworkPlanning.TierForUsers | framework_planner.py:250-257 | STARTUP below 1000 users, GROWTH below 100000, SCALE below 1000000, ENTERPRISE from there |
| FrameworkPlanning.DetermineScalabilityTier | framework_planner.py:245-257 | a missing user count counts as 1000, giving GROWTH |
| FrameworkPlanning.TierMonotone | framework_planner.py:250-257 | more users never give a lower tier |
| FrameworkPlanning.DetermineDeploymentStrategy | framework_planner.py:259-274 | SINGLE_SERVER iff STARTUP on a "low" budget, CONTAINERIZED iff GROWTH, KUBERNETES iff SCALE or ENTERPRISE, LOAD_BALANCED otherwise |
| FrameworkPlanning.ExpertiseIgnored | framework_planner.py:265-274 | the team's expertise never changes the deployment strategy |
| FrameworkPlanning.SelectTechnologyStack | framework_planner.py:276-366 | corrected: exactly one backend and one database; a frontend only for web_app and full_stack, React iff preferred else Next.js; Docker from GROWTH up |
| FrameworkPlanning.GenerateArchitectureDecisions | framework_planner.py:389-458 | API design first and authentication last, with state management in between exactly when React is in the frontend: two or three records |
| FrameworkPlanning.DefinePerformanceRequirements | framework_planner.py:508-567 | corrected: a CDN from GROWTH up; the concurrency is the tier's, and the throughputs are ten and five times it per minute |
| FrameworkPlanning.ConcurrencyGrowsWithTier | framework_planner.py:513-541 | a higher tier asks for strictly more concurrent users |
| FrameworkPlanning.SumWeeks | framework_planner.py:821-824 | the weeks add up only when every duration's leading number parses, as `int()` would raise otherwise |
| FrameworkPlanning.LeadingWeeks | framework_planner.py:822 | the leading number of a duration "a-…" is a |
| FrameworkPlanning.WeeksOfDurations | framework_planner.py:821-824 | summing the leading numbers of "low-high weeks" durations gives the sum of the lows |
| FrameworkPlanning.FixedPhasesTimeline | framework_planner.py:618-825 | the five fixed phases add up to 11 weeks, so the timeline reads "11-15 weeks" |
| FrameworkPlanning.BaseComplexityRange | framework_planner.py:802-809 | a selected stack weighs between 5 and 9 |
| FrameworkPlanning.CalculateEstimates | framework_planner.py:795-854 | the complexity is capped at 10, the team is 2 + complexity // 3 (2 to 5), specialised roles iff complexity ≥ 8, the cost range is 15000 and 25000 per member; a duration that does not parse raises |
| FrameworkPlanning.EstimatedTimeline | framework_planner.py:820-825 | with the fixed phases the estimate's timeline is "11-15 weeks" |
| FrameworkPlanning.GenerateRiskMitigation | framework_planner.py:856-885 | corrected: the eight base risks, two more for microservices, two more from SCALE up |
| FrameworkPlanning.EnumOrderingAlwaysRaises | framework_planner.py:351 | as written, each tier comparison raises TypeError, and so does the whole plan |
| FrameworkPlanning.CreateComprehensivePlan | framework_planner.py:144-221 | corrected: the plan's tier, pattern and stack are the decision functions' results; two or three decisions; a CDN iff above STARTUP; infrastructure exactly for container and Kubernetes deployments |
| SmartCoding.DetermineCurrentPhase | smart_coding_engine.py:432-448 | the phase is the ten-entry table at index min(iteration, 9): MAINTENANCE from iteration 8 on, never IDEATION |
| SmartCoding.PhaseTasksShape | smart_coding_engine.py:450-482 | MAINTENANCE and IDEATION have no entry and get ["Continue development"]; every phase has one to four tasks, four only for IMPLEMENTATION |
| SmartCoding.EveryIterationHasTasks | smart_coding_engine.py:386-482 | every iteration works on at least one task |
| SmartCoding.ExecuteTaskFiles | smart_coding_engine.py:484-505 | a completed task whose files come from the first keyword in the lower-cased task: "structure", then "api", then "interface"; none when no keyword occurs |
| SmartCoding.Completion | smart_coding_engine.py:419 | the completion is min(85, (i+1)·15) |
| SmartCoding.TaskResults | smart_coding_engine.py:403-407 | each task executed in order |
| SmartCoding.IterationOf | smart_coding_engine.py:377-430 | iteration i reports number i+1 and its completion; complete iff completion ≥ 80 and no issues; human input iff more than three issues or completion above 60 |
| SmartCoding.ExecuteTasks | smart_coding_engine.py:403-407 | the task loop yields each task's result in order and their files concatenated in the same order |
| SmartCoding.ExecuteDevelopmentIteration | smart_coding_engine.py:377-430 | the task loop and the flags give exactly the iteration's result for the test run's outcome |
| SmartCoding.StartIterativeCoding | smart_coding_engine.py:177-210 | the loop produces exactly the bounded run of iteration results, stopping after the first that is complete or needs human input, and reports the last iteration's completion (0 when none ran) |
| SmartCoding.IterativeRunShape | smart_coding_engine.py:192-208 | a run has at most `max_iterations` results; none before the last stops the loop; a run shorter than the bound ends with one that is complete or needs human input |
| SmartCoding.MockRunStopsAtFive | smart_coding_engine.py:419-426 | with the engine's mock test run the loop stops after five iterations at 75%, asking for human input without being complete |
| SmartCoding.ManyIssuesStop | smart_coding_engine.py:423-426 | an iteration with more than three issues ends the loop at once |
| SmartCoding.GenerateMilestones | smart_coding_engine.py:363-375 | one milestone per phase, in order, numbered i+1, named "<phase> Complete" with that phase's deliverables |
| SmartCoding.CalculateResources | smart_coding_engine.py:350-361 | the team is two people plus complexity // 3, and the time is the idea's timeline |
| SmartCoding.RecommendTechStack | smart_coding_engine.py:245-274 | the API-service stack exactly for API services, the web-app stack for every other project type |
| SmartCoding.SmartCodingEngine.constructor | smart_coding_engine.py:93-107 | a new engine has no current project |
| SmartCoding.SmartCodingEngine.CreateAdvancedFrameworkPlan | smart_coding_engine.py:141-175 | the plan has the recommended stack, the four phases, their four milestones and the resources, and becomes the current project |
| IterativeCoding.DetermineCurrentPhase | iterative_coder.py:474-483 | the phase is `phases[min(i // 2, 8)]`: "deployment" from iteration 16 on |
| IterativeCoding.PhasesComeInPairs | iterative_coder.py:482 | iterations 2j and 2j+1 share a phase |
| IterativeCoding.GetProjectDirectories | iterative_coder.py:192-212 | src, tests, docs and config always come first; web_app and api_service add eight directories, cli_tool four, any other type none |
| IterativeCoding.GenerateConfigFiles | iterative_coder.py:214-264 | README.md and .gitignore always; package.json iff javascript is a frontend or node.js a backend; requirements.txt iff python is a backend; Dockerfile and docker-compose.yml iff docker is infrastructure |
| IterativeCoding.EstimateExpectedFiles | iterative_coder.py:593-603 | ten base files plus three (web_app), two (api_service) or one per feature; never fewer than ten |
| IterativeCoding.ExpectedFilesMonotone | iterative_coder.py:593-603 | more features never mean fewer expected files |
| IterativeCoding.GenerateCodeForPhase | iterative_coder.py:485-543 | models.py only for a python backend, main.py only for fastapi, `src/components/<name>.jsx` for each component, in order, when the frontend stack has react and nothing without it, the test files in the testing phase, nothing in other phases |
| IterativeCoding.ExecuteDevelopmentIteration | iterative_coder.py:408-472 | the iteration is numbered i+1 with its phase and files; successful iff quality ≥ 0.7; human review iff quality < 0.8, a critical issue, or completion > 80 |
| IterativeCoding.CriteriaImplyReview | iterative_coder.py:642-654 | meeting the completion criteria needs completion ≥ 90, which already asks for review, so the review flag alone decides when the loop stops |
| IterativeCoding.Remaining | iterative_coder.py:635 | the remaining features are exactly the target features not yet completed, in order |
| IterativeCoding.NewlyCompleted | iterative_coder.py:634-638 | the features marked completed are the first remaining ones, at most one per 20% of completion beyond those already completed |
| IterativeCoding.NewlyCompletedWithinTarget | iterative_coder.py:634-638 | completed features stay a sub-multiset of the target features |
| IterativeCoding.FeaturesAddedAsWritten | iterative_coder.py:629-632 | as written, the progress is stored before the comparison against it, so no feature is ever added |
| IterativeCoding.UpdateLosesFeatures | iterative_coder.py:629-638 | from 0% to 40% with two target features, the intended update completes both while the written one completes none |
| IterativeCoding.ProjectContext.constructor | iterative_coder.py:65-81 | a new context has no completed features, phase "initialization" and progress 0 |
| IterativeCoding.ProjectContext.UpdateProjectContextAsWritten | iterative_coder.py:623-640 | as written: the progress becomes the iteration's completion and the completed features never change |
| IterativeCoding.ProjectContext.UpdateProjectContext | iterative_coder.py:623-640 | corrected: the new progress is stored and, when it rose, the newly completed features are appended; completed features stay within the target |
| IterativeCoding.ContextAfterShape | iterative_coder.py:623-640 | corrected, per the `_update_project_context` row under "## Findings" (the source never completes a feature): after a run the progress is the last iteration's completion, completed features only grow, and they stay within the target |
| IterativeCoding.TotalFilesCountsAll | iterative_coder.py:662 | the summary's file count is the number of files all iterations created |
| IterativeCoding.FinalRecommendation | iterative_coder.py:678-690 | the recommendation falls in the bands of 90, 70 and 50 percent, each band's text exactly there |
| IterativeCoding.FinalSummary | iterative_coder.py:656-676 | the iteration and file counts are the run's; completed plus remaining features make the target; the average quality exists iff some iteration ran |
| IterativeCoding.RemainingNonNegative | iterative_coder.py:674 | while completed features stay within the target, the remaining count is never negative |
| IterativeCoding.StartIterativeDevelopment | iterative_coder.py:112-166 | corrected, per the `_update_project_context` row under "## Findings" (the loop uses the fixed context update): at most `max_iterations` iterations, stopping after one that meets the criteria or asks for review; the context is updated after each; the summary describes the final context |
| Validation.RequiredString | validation.py:52-132 | a required string field validates exactly when present and a string, and keeps its value |
| Validation.OptionalString | validation.py:41-97 | an optional string field is `None` exactly when absent or null, and fails only on another kind of value |
| Validation.StringWithDefault | validation.py:69-98 | an absent string field takes its default |
| Validation.BoolWithDefault | validation.py:70-99 | an absent flag takes its default; a present one must be a boolean |
| Validation.BoundedInt | validation.py:40-54 | an absent integer takes its default; a present one validates exactly when it is an integer within the inclusive bounds, and keeps its value |
| Validation.DictWithDefault | validation.py:39-111 | an absent dictionary is empty; a present one must be a dictionary |
| Validation.ListWithDefault | validation.py:85 | an absent list is empty; a present one must be a list |
| Validation.LengthBounded | validation.py:52-132 | a string validates exactly when its length lies within the bounds |
| Validation.OptionalLengthBounded | validation.py:68-100 | an optional string validates exactly when absent or no longer than the limit |
| Validation.OneOf | validation.py:38-131 | an enumeration or alternatives pattern accepts exactly its members |
| Validation.ExpectedUsers | validation.py:42 | `expected_users` is `None` exactly when absent or null, and at least 1 when given |
| Validation.ValidatePlanning | validation.py:36-48 | a valid planning request has a known domain and 1 to 10 iterations (3 by default), and expected users of at least 1; an invalid one reports at least one error |
| Validation.Code | validation.py:52-62 | the code validates exactly when it has 1 to 50000 characters and is not blank; the result is the stripped code |
| Validation.ValidateCodeExecution | validation.py:50-62 | a valid request has a known language, a timeout from 1 to 300 (30 by default) and the stripped, non-empty code |
| Validation.NameValidatorSound | validation.py:74-78 | a name the validator accepts is made of letters, digits, '_' and '-' and has a letter or digit |
| Validation.NameValidatorComplete | validation.py:74-78 | every such name is accepted |
| Validation.NameValidatorIff | validation.py:74-78 | both directions: the validator accepts exactly the names of letters, digits, '_' and '-' with at least one letter or digit |
| Validation.ProjectName | validation.py:66-78 | the name validates exactly when it has 1 to 100 characters and passes the validator; the result is lowercased |
| Validation.ValidateProjectDevelopment | validation.py:64-78 | a valid request has a known language, the lowercased accepted name, a description of at most 500 characters and template "default" when absent |
| Validation.AnalysisPath | validation.py:82-92 | the path validates exactly when it is a non-empty string that exists |
| Validation.OptionalLanguage | validation.py:83 | a given analysis language is a known one |
| Validation.ValidateAnalysis | validation.py:80-92 | a valid analysis request names an existing path and, if any, a known language |
| Validation.Repository | validation.py:97-106 | an absent repository is `None` without running the validator; a given one must be non-empty for create_repo and clone; other operations, or an operation that failed, leave the plain optional field |
| Validation.ValidateGitHub | validation.py:94-106 | a valid request has one of the five operations, a non-empty repository for create_repo and clone whenever the field is given, `None` when it is absent, and branch "main" by default |
| Validation.AbsentRepositoryAccepted | validation.py:97-106 | cloning or creating with no repository field validates, while an explicit `None` or `""` is refused |
| Validation.WorkflowRequirements | validation.py:111-127 | absent requirements are `{}` without running the validator; given ones must hold project_name and language for complete_project_development and project_path for code_analysis_and_improvement; any other workflow needs only a dictionary |
| Validation.ValidateWorkflow | validation.py:108-127 | a valid workflow request names one of the three workflows and, when requirements are given, carries the ones that workflow needs; absent requirements validate as `{}` |
| Validation.AbsentRequirementsAccepted | validation.py:108-127 | a workflow needing fields validates with no requirements field, while an explicitly empty requirements dictionary is refused |
| Validation.Key | validation.py:132-146 | the key validates exactly when it has at least ten characters and the prefix its service demands |
| Validation.ValidateApiKey | validation.py:129-146 | a valid key belongs to one of the four services, has at least ten characters and its service's prefix |
| Validation.AnthropicHasNoPrefixRule | validation.py:138-146 | any anthropic key of ten characters or more validates |
| Validation.ValidateRequest | validation.py:148-176 | an unknown request type, and only that, gives the unknown-type error; a failed validation carries at least one field error |
| Validation.RequestOfNamedModel | validation.py:148-176 | a validated request is of the model its type names, and of no other, for each of the seven types |
| Validation.SafeValidate | validation.py:187-213 | succeeds exactly when the request validates, with its data and no errors; otherwise no data and at least one "field: message" line, or the unknown-type message |
| Validation.PlanningExampleValidates | validation.py:218-228 | the module's planning example validates with three iterations |
| Validation.InvalidCodeExampleFails | validation.py:235-245 | the module's empty-code, 500-second example fails on exactly `code` and `timeout` |
| DeepSeek.MockResponse | deepseek_client.py:371-381 | the mock carries the given content, usage 100/200/300, model deepseek-chat, depth 5 and confidence 0.8 |
| DeepSeek.CountFound | deepseek_client.py:347 | no more indicators are found than there are |
| DeepSeek.AnalyzeReasoningDepth | deepseek_client.py:338-348 | the depth is the number of the eleven indicator phrases in the lowered content, capped at 10, so it lies in 0..10 |
| DeepSeek.CountFoundMonotone | deepseek_client.py:347 | a text containing another finds at least the indicators the other finds |
| DeepSeek.DepthMonotone | deepseek_client.py:338-348 | appending content never lowers the reasoning depth |
| DeepSeek.ChatCompletion | deepseek_client.py:73-119 | without a key the "not configured" mock and no request; on status 200 the first choice's content with its depth; on another status or a failed connection the mock naming the status or the error |
| DeepSeek.BraceSlice | deepseek_client.py:292-296 | a slice exists exactly when the first '{' precedes the last '}', and then runs from one to the other inclusive |
| DeepSeek.Fallback | deepseek_client.py:301-311 | the fallback plan has exactly the seven section keys and `raw_response`, which holds the whole response |
| DeepSeek.FallbackSectionsExtracted | deepseek_client.py:302-309 | each of the seven sections holds what extraction finds for that section's own keywords |
| DeepSeek.ParsePlanningResponse | deepseek_client.py:287-311 | a slice that decodes gives the decoded object's keys; otherwise the fallback plan |
| DeepSeek.NoBraceFallsBack | deepseek_client.py:292-311 | a response without '{' always gives the fallback plan |
| DeepSeek.CheckConvergence | deepseek_client.py:326-336 | two plans converge exactly when more than 80% of all their keys are shared; two empty key sets divide by zero |
| DeepSeek.SameKeysConverge | deepseek_client.py:326-336 | plans with the same non-empty keys converge |
| DeepSeek.ConvergenceSymmetric | deepseek_client.py:330-333 | the order of the two plans does not matter |
| DeepSeek.PlanOf | deepseek_client.py:132-143 | every plan carries iteration, timestamp, confidence and depth, and is numbered from 1 |
| DeepSeek.PlansNeverDivideByZero | deepseek_client.py:140-152 | the convergence test never sees two empty plans inside the loop |
| DeepSeek.PlansShape | deepseek_client.py:128-154 | a run from iteration k has at most the remaining bound of plans, in iteration order; no plan but the last converged; a run ending early ends on a converged plan |
| DeepSeek.PlansNumbered | deepseek_client.py:128-145 | the plans of a run are numbered 1, 2, ... in order |
| DeepSeek.EarlyStop | deepseek_client.py:128-156 | a run never exceeds `max_iterations`, and one that ends earlier ends on two plans the convergence test accepts (with `Plans` and `Converges`, the run `IterativePlanning` returns) |
| DeepSeek.MockPlanHasFixedKeys | deepseek_client.py:301-311 | without a key every plan has the fallback keys plus the four annotations |
| DeepSeek.NoKeyStopsAfterTwo | deepseek_client.py:128-156 | without a key and with a bound of at least two, the run stops after exactly two plans |
| DeepSeek.PlanningContext.constructor | deepseek_client.py:40-51 | a new context has its domain, requirements and constraints, iteration count 0 and no previous plans |
| DeepSeek.PlanningContext.Record | deepseek_client.py:148-149 | after iteration k the count is k+1 and the plan is appended to the previous plans |
| DeepSeek.DeepSeekClient.constructor | deepseek_client.py:56-57 | the key is the explicit one when non-empty, otherwise the environment's |
| DeepSeek.DeepSeekClient.IterativePlanning | deepseek_client.py:121-156 | the plans returned are the run's; the context's previous plans gain them in order and its iteration count is the number of plans |
| DeepSeek.PlanningLoop | deepseek_client.py:126-156 | the loop produces exactly the bounded run stopping at the first converged plan, and records every plan in the context |
| Ideation.KeyValue | ideation_assistant.py:35 | a stripped line without '=' cannot be unpacked; otherwise key and value are split at the first '=', the key holding none |
| Ideation.ApplyLine | ideation_assistant.py:35-43 | a line fails exactly when it has no '=' or carries an unparsable TEMPERATURE or MAX_RETRIES; an unknown key changes nothing |
| Ideation.LoadConfigOf | ideation_assistant.py:23-47 | a missing file is an error; a loaded configuration is the lines applied to the defaults and always has a token |
| Ideation.LastTextWins | ideation_assistant.py:26-39 | the token and the model are the values of the last line with their key, the defaults staying otherwise |
| Ideation.LastNumberWins | ideation_assistant.py:26-43 | the temperature and retry count are the parsed values of the last line with their key, the defaults staying otherwise |
| Ideation.EveryLineNeedsSeparator | ideation_assistant.py:34-35 | the file loads only when every stripped line holds a '=' |
| Ideation.BlankLineFails | ideation_assistant.py:34-35 | a blank line anywhere in the file makes loading fail |
| Ideation.LoadConfig | ideation_assistant.py:23-47 | the loop over the lines computes exactly the configuration, or the first error, that applying the lines to the defaults gives |
| Ideation.CallFrom | ideation_assistant.py:74-93 | no call is made exactly when `max_retries` is at most 0; a 404 error names the configured model |
| Ideation.AttemptsUsed | ideation_assistant.py:74-93 | at least one and at most `max_retries` calls are made when `max_retries` is positive |
| Ideation.OnlyMadeAttemptsMatter | ideation_assistant.py:74-93 | the outcome depends only on the attempts actually made |
| Ideation.NotFoundRaisesAtOnce | ideation_assistant.py:87-88 | an error mentioning 404 ends the call after one attempt with the model-not-found error |
| Ideation.DecodeFailureIsRetried | ideation_assistant.py:85-92 | a response that is not valid JSON is retried like any other failure |
| Ideation.PersistentFailureExhaustsRetries | ideation_assistant.py:89-93 | when every attempt fails without a 404, all `max_retries` calls are made and the last error is raised |
| Ideation.CallHfApi | ideation_assistant.py:71-93 | the retry loop gives exactly the outcome and the number of calls that `CallFrom` and `AttemptsUsed` describe |
| Ideation.GenerateSuggestions | ideation_assistant.py:95-112 | an error comes out exactly when the call ended with model-not-found or exhausted retries; no result exactly when `max_retries` is at most 0 |

## Left out

- **Operating-system process machinery.** This covers `asyncio` subprocesses, the `wait_for` timeout race, terminate/kill escalation, `setrlimit` limits and byte decoding with `errors='replace'`. These are concurrency and OS behaviour; a run is an abstract outcome instead.
- **Clock, randomness and generated ids.** Timestamps, `execution_time`, `random.randint` and ids built from `time.time()` are parameters or are not modelled. Ids that collide within one second are taken as given.
- **Wrappers with no logic of their own.**
  - Not modelled: `BuildSystem`, `TestRunner.run_python_tests` and `run_javascript_tests`, `_parse_js_test_output` and `CodeInteractionEngine.create_and_run_project`.
  - They only forward to subprocesses.
- **`GitManager._run_git_command` fails on every call.** It passes `text=True` to `asyncio.create_subprocess_exec` (github_integration.py:359-365), which raises `ValueError` for that argument, so every git operation in the source reports an error. The model takes the git invocation as an input that may succeed, so its git operations and the workflows built on them describe the intended behaviour rather than that failure.
- **Network clients: the GitHub REST calls, the DeepSeek HTTP exchange and streaming, and the Hugging Face `InferenceClient`.**
  - These are foreign calls.
  - For the GitHub API methods (`get_user_repositories`, `create_repository`, pull requests, issues) only the headers and search parameters are modelled.
- **Floating-point scoring.**
  - Completion and quality scores in the iterative coder are inputs of an iteration.
  - Also not modelled: `_calculate_confidence`, the planner's complexity multiplier and `_human_readable_size`.
  - TEMPERATURE parsing is an input function.
- **JSON encoding and decoding, and regular-expression section extraction.**
  - Decoding is a function that returns the decoded object's keys or fails; extraction is a function too.
  - MCP `save_configuration` and `load_configuration` are not modelled.
- **Filesystem side effects.**
  - The walk is an input.
  - Not modelled: file contents written by templates, `copy_files`, zip archives, MD5 checksums, chmod, and `readlines`' universal newlines.
- **File ordering in `get_project_stats`.** The largest-file and recent-file lists are not modelled; they are sorts by size and by floating-point modification time.
- **`watch_directory`.** Only one polling step is modelled; the endless loop and its sleep are not. Callback order is not modelled, because changes are sets.
- **Git commands without parsing logic.** The bodies of `commit_changes` and `create_branch` are not modelled. Inside the workflows they appear only as steps that may fail.
- **MCP queries.** `get_available_resources` is not modelled. `get_all_servers_status` is covered only through `McpServers.HealthCheck`.
- **Interactive setup in secure_config.py.** `setup_github_credentials`, `setup_api_keys` and `create_env_template` read the terminal and print.
- **Descriptive texts.**
  - Not modelled: prompts, README and Dockerfile templates, generated code, and the planner's security and workflow planning texts.
  - Only the presence, structure and counts of these texts are modelled.
- **Non-ASCII digits and case.** Python's `int()` also accepts other Unicode decimal digits, and `str.lower` and `str.isalnum` cover all of Unicode. The model reads only ASCII digits, letters and case; a string that uses other scripts is outside it.
- **Pydantic machinery.** Type coercion (a numeric string accepted as an integer, say) and error-message wording are not modelled. A value of another kind is a type error.
- **Whole files not modelled.** These are mostly LLM/MCP orchestration, floating-point scores, random mock data, command-line glue, a test script and packaging:
  - enhanced_planning_mode.py
  - ideation_system.py
  - main_engine.py
  - tool_integration.py
  - main_interface.py
  - build_and_test.py
  - setup.py
- DeepSeek.ChatCompletion: on a successful request the contract states the content and reasoning depth. It leaves the usage, the served model name and the confidence unconstrained; the confidence is a floating-point input.
- IterativeCoding.FinalSummary: with zero iterations the source divides by zero when it computes the average quality. The model reports no average instead, because the loop's bound is 15 and a run always has an iteration.
- SecureConfiguration.SecureConfig.SaveConfig: a failed write of config.json is an input flag. The error message printed is not modelled.

## Findings

| source | as written | input that shows it | evidently intended | confidence | as-written member | corrected member |
|---|---|---|---|---|---|---|
| framework_planner.py:351 | `ScalabilityTier` is a plain `Enum`, and `>=` between its members raises `TypeError`, so infrastructure selection, the CDN flag, the scale risks and the whole comprehensive plan always raise | any requirements, e.g. `{}` | compare tiers by rank (startup < growth < scale < enterprise) | high, not executed | FrameworkPlanning.EnumOrderingAlwaysRaises | FrameworkPlanning.CreateComprehensivePlan |
| filesystem_integration.py:546-552 | `scan_project` caches a structure under the normalized `str(Path(p))`, but `get_project_stats` looks it up under the raw argument | scan and ask for stats of "demo/" | look the structure up under the same normalized path | high, not executed | Filesystem.StatsMissTrailingSlash | Filesystem.StatsFoundNormalized |
| iterative_coder.py:629-638 | `_update_project_context` stores the new progress before comparing the new completion against it, so the comparison is always false and no feature is ever completed | two target features, progress 0, an iteration reporting 40% | compare against the previous progress, then store it | high, not executed | IterativeCoding.UpdateLosesFeatures | IterativeCoding.ProjectContext.UpdateProjectContext |
