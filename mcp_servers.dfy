/**
 * The MCP server registry (`MCPServerManager`) and the planning helpers of
 * `EnhancedMCPIntegration`. Server, tool and resource tables are fixed when the
 * manager is built; what changes is the set of running servers. Starting a
 * process and stopping it are abstract: a flag or a function says whether the
 * spawn (or the stop) raised.
 */
module McpServers {
  import opened Wrappers

  datatype ServerConfig = ServerConfig(
    name: string,
    command: seq<string>,
    args: seq<string>,
    env: map<string, string>,
    description: string,
    capabilities: seq<string>,
    enabled: bool)

  datatype Tool = Tool(name: string, handler: string, server: string)

  datatype Resource = Resource(uri: string, name: string, mimeType: string, server: string)

  /** Registration order of the servers (the iteration order of the `servers` dict). */
  const ServerOrder: seq<string> := ["filesystem", "git", "search", "database", "code_analysis", "planning", "api_integration"]

  const ServerNames: set<string> := {"filesystem", "git", "search", "database", "code_analysis", "planning", "api_integration"}

  // The seven registered configurations; the working directory and the Brave
  // key are filled in from the process environment by `PredefinedConfig`.

  const FilesystemServer := ServerConfig("filesystem", ["npx", "-y", "@modelcontextprotocol/server-filesystem"], [], map[],
    "File system operations and management",
    ["file_read", "file_write", "directory_list", "file_search", "file_operations"], true)

  const GitServer := ServerConfig("git", ["npx", "-y", "@modelcontextprotocol/server-git"], [], map[],
    "Git repository operations and version control",
    ["git_status", "git_log", "git_diff", "git_branch", "git_commit", "git_push", "git_pull"], true)

  const SearchServer := ServerConfig("search", ["npx", "-y", "@modelcontextprotocol/server-brave-search"], [], map[],
    "Web search and information retrieval",
    ["web_search", "news_search", "image_search", "local_search", "video_search"], true)

  const DatabaseServer := ServerConfig("database", ["npx", "-y", "@modelcontextprotocol/server-sqlite"], ["./data/ideation.db"], map[],
    "Database operations and data management",
    ["sql_query", "table_operations", "data_analysis", "schema_management", "backup_restore"], true)

  const CodeAnalysisServer := ServerConfig("code_analysis", ["python", "-m", "mcp_servers.code_analysis"], [], map[],
    "Code analysis and quality assessment",
    ["code_complexity", "code_quality", "security_scan", "dependency_analysis", "test_coverage"], true)

  const PlanningServer := ServerConfig("planning", ["python", "-m", "mcp_servers.planning"], [], map[],
    "Project planning and management capabilities",
    ["project_planning", "resource_estimation", "risk_analysis", "timeline_planning", "dependency_mapping"], true)

  const ApiIntegrationServer := ServerConfig("api_integration", ["python", "-m", "mcp_servers.api_integration"], [], map[],
    "External API integration and management",
    ["api_discovery", "api_testing", "webhook_management", "rate_limiting", "api_documentation"], true)

  /** The configuration `_load_predefined_servers` registers under `name`; `cwd` and `braveKey` come from the process environment. */
  function PredefinedConfig(name: string, cwd: string, braveKey: string): (c: ServerConfig)
    ensures c.enabled && |c.capabilities| >= 5
    ensures name in ServerNames ==> c.name == name
  {
    if name == "filesystem" then FilesystemServer.(args := [cwd])
    else if name == "git" then GitServer.(args := [cwd])
    else if name == "search" then SearchServer.(env := map["BRAVE_API_KEY" := braveKey])
    else if name == "database" then DatabaseServer
    else if name == "code_analysis" then CodeAnalysisServer
    else if name == "planning" then PlanningServer
    else ApiIntegrationServer
  }

  /** The seven predefined servers, keyed by name. */
  function PredefinedServers(cwd: string, braveKey: string): map<string, ServerConfig> {
    map s | s in ServerNames :: PredefinedConfig(s, cwd, braveKey)
  }

  /** The eight predefined tools in registration order. */
  const PredefinedTools: seq<Tool> := [
    Tool("read_file", "filesystem.read_file", "filesystem"),
    Tool("write_file", "filesystem.write_file", "filesystem"),
    Tool("git_status", "git.status", "git"),
    Tool("git_commit", "git.commit", "git"),
    Tool("web_search", "search.web_search", "search"),
    Tool("sql_query", "database.query", "database"),
    Tool("analyze_code", "code_analysis.analyze", "code_analysis"),
    Tool("create_project_plan", "planning.create_plan", "planning")
  ]

  /** The three predefined resources in registration order. */
  const PredefinedResources: seq<Resource> := [
    Resource("file://project/*", "Project Files", "text/plain", "filesystem"),
    Resource("git://history", "Git History", "application/json", "git"),
    Resource("search://results/*", "Search Results", "application/json", "search")
  ]

  predicate DistinctToolNames(tools: seq<Tool>) {
    forall i, j :: 0 <= i < j < |tools| ==> tools[i].name != tools[j].name
  }

  /** The seven server names are distinct: the name set has seven members, the registration order's. */
  lemma ServerNamesSize()
    ensures |ServerNames| == 7 && ServerNames == set s | s in ServerOrder
  {
    var k := {"filesystem"};
    k := k + {"git"};
    assert |k| == 2;
    k := k + {"search"};
    assert |k| == 3;
    k := k + {"database"};
    assert |k| == 4;
    k := k + {"code_analysis"};
    assert |k| == 5;
    k := k + {"planning"};
    assert |k| == 6;
    k := k + {"api_integration"};
    assert |k| == 7;
    assert k == ServerNames;
  }

  /** The predefined registry has seven servers, each enabled and keyed by its own name. */
  lemma PredefinedServerNames(cwd: string, braveKey: string)
    ensures PredefinedServers(cwd, braveKey).Keys == ServerNames == set s | s in ServerOrder
    ensures |PredefinedServers(cwd, braveKey)| == 7
    ensures forall s :: s in PredefinedServers(cwd, braveKey) ==>
      PredefinedServers(cwd, braveKey)[s].name == s && PredefinedServers(cwd, braveKey)[s].enabled
  {
    var servers := PredefinedServers(cwd, braveKey);
    ServerNamesSize();
    assert servers.Keys == ServerNames;
    assert |servers| == |servers.Keys|;
  }

  /** The eight tool names differ pairwise. */
  lemma PredefinedToolNamesDistinct()
    ensures DistinctToolNames(PredefinedTools)
  {
  }

  /** Eight tools with distinct names and three resources, every one of them naming a configured server. */
  lemma PredefinedToolsAndResources(cwd: string, braveKey: string)
    ensures |PredefinedTools| == 8 && DistinctToolNames(PredefinedTools) && |PredefinedResources| == 3
    ensures forall t :: t in PredefinedTools ==> t.server in PredefinedServers(cwd, braveKey)
    ensures forall r :: r in PredefinedResources ==> r.server in PredefinedServers(cwd, braveKey)
  {
    PredefinedToolNamesDistinct();
    assert PredefinedServers(cwd, braveKey).Keys == ServerNames;
  }

  /** The tool registered under `name`. */
  function FindTool(tools: seq<Tool>, name: string): (r: Option<Tool>)
    ensures r.None? <==> forall t :: t in tools ==> t.name != name
    ensures r.Some? ==> r.value in tools && r.value.name == name
  {
    if |tools| == 0 then None
    else if tools[0].name == name then Some(tools[0])
    else FindTool(tools[1..], name)
  }

  /** The tools whose `server` is `server`, in order. */
  function ToolsOf(tools: seq<Tool>, server: string): (r: seq<Tool>)
    ensures |r| <= |tools|
    ensures forall t :: t in r <==> t in tools && t.server == server
  {
    if |tools| == 0 then []
    else (if tools[0].server == server then [tools[0]] else []) + ToolsOf(tools[1..], server)
  }

  function ResourcesOf(resources: seq<Resource>, server: string): (r: seq<Resource>)
    ensures |r| <= |resources|
    ensures forall x :: x in r <==> x in resources && x.server == server
  {
    if |resources| == 0 then []
    else (if resources[0].server == server then [resources[0]] else []) + ResourcesOf(resources[1..], server)
  }

  datatype ServerStatus =
    | NotFound
    | Status(name: string, enabled: bool, running: bool, description: string, capabilities: seq<string>,
             toolsCount: nat, resourcesCount: nat)

  datatype Arg = Str(s: string) | Num(n: int) | Dict(d: map<string, string>)

  datatype CallResult =
    | CallError(error: string)
    | CallOk(tool: string, server: string, input: map<string, Arg>, timestamp: string, result: string, success: bool)

  class ServerManager {
    const servers: map<string, ServerConfig>
    const tools: seq<Tool>
    const resources: seq<Resource>
    var running: set<string>

    ghost predicate Valid()
      reads this
    {
      running <= servers.Keys && DistinctToolNames(tools)
    }

    /** `__init__` with `_load_predefined_servers`: the predefined tables and nothing running. */
    constructor (cwd: string, braveKey: string)
      ensures servers == PredefinedServers(cwd, braveKey) && tools == PredefinedTools && resources == PredefinedResources
      ensures running == {} && Valid()
    {
      servers := PredefinedServers(cwd, braveKey);
      tools := PredefinedTools;
      resources := PredefinedResources;
      running := {};
      new;
      PredefinedToolsAndResources(cwd, braveKey);
    }

    /**
     * `start_server`: unknown → false; already running → true without a
     * second spawn; disabled → false; a spawn that raises → false and no
     * entry; otherwise the server is added and the answer is true.
     */
    method StartServer(name: string, spawnOk: bool) returns (ok: bool)
      requires Valid()
      modifies this`running
      ensures Valid()
      ensures name !in servers ==> !ok && running == old(running)
      ensures name in old(running) ==> ok && running == old(running)
      ensures name in servers && name !in old(running) ==>
        ok == (servers[name].enabled && spawnOk)
        && running == if ok then old(running) + {name} else old(running)
    {
      if name !in servers {
        return false;
      }
      if name in running {
        return true;
      }
      if !servers[name].enabled {
        return false;
      }
      if !spawnOk {
        return false;
      }
      running := running + {name};
      return true;
    }

    /** `stop_server`: a server not running → true, no change; a stop that raises → false, entry kept; else removed, true. */
    method StopServer(name: string, stopOk: bool) returns (ok: bool)
      requires Valid()
      modifies this`running
      ensures Valid()
      ensures name !in old(running) ==> ok && running == old(running)
      ensures name in old(running) ==> ok == stopOk && running == if stopOk then old(running) - {name} else old(running)
    {
      if name !in running {
        return true;
      }
      if !stopOk {
        return false;
      }
      running := running - {name};
      return true;
    }

    /** `start_all_servers`: one answer per configured server, false for disabled ones. */
    method StartAllServers(spawnOk: string -> bool) returns (results: map<string, bool>)
      requires Valid()
      modifies this`running
      ensures Valid()
      ensures results.Keys == servers.Keys
      ensures forall s :: s in servers ==> results[s] == (servers[s].enabled && (s in old(running) || spawnOk(s)))
      ensures running == old(running) + set s | s in servers && servers[s].enabled && spawnOk(s)
    {
      results := map[];
      var todo := servers.Keys;
      ghost var started: set<string> := {};
      while todo != {}
        invariant Valid() && todo <= servers.Keys
        invariant results.Keys == servers.Keys - todo
        invariant forall s :: s in results ==> results[s] == (servers[s].enabled && (s in old(running) || spawnOk(s)))
        invariant running == old(running) + set s | s in results && servers[s].enabled && spawnOk(s)
        decreases todo
      {
        var s :| s in todo;
        if servers[s].enabled {
          var ok := StartServer(s, spawnOk(s));
          results := results[s := ok];
        } else {
          results := results[s := false];
        }
        todo := todo - {s};
      }
    }

    /** `stop_all_servers`: each server running at the call is stopped once; only those whose stop raised remain. */
    method StopAllServers(stopOk: string -> bool) returns (results: map<string, bool>)
      requires Valid()
      modifies this`running
      ensures Valid()
      ensures results.Keys == old(running)
      ensures forall s :: s in results ==> results[s] == stopOk(s)
      ensures running == set s | s in old(running) && !stopOk(s)
    {
      results := map[];
      var todo := running;
      while todo != {}
        invariant Valid() && todo <= old(running)
        invariant results.Keys == old(running) - todo
        invariant forall s :: s in results ==> results[s] == stopOk(s)
        invariant running == todo + set s | s in results && !stopOk(s)
        decreases todo
      {
        var s :| s in todo;
        var ok := StopServer(s, stopOk(s));
        results := results[s := ok];
        todo := todo - {s};
      }
    }

    /** `get_server_status`. */
    function GetServerStatus(name: string): (st: ServerStatus)
      reads this
      ensures st.NotFound? <==> name !in servers
      ensures st.Status? ==> (st.name == name && st.enabled == servers[name].enabled
        && (st.running <==> name in running)
        && st.toolsCount == |ToolsOf(tools, name)| && st.resourcesCount == |ResourcesOf(resources, name)|)
    {
      if name !in servers then NotFound
      else Status(name, servers[name].enabled, name in running, servers[name].description,
                  servers[name].capabilities, |ToolsOf(tools, name)|, |ResourcesOf(resources, name)|)
    }

    /** `get_available_tools`: filtered by a non-empty server name, else all. */
    function GetAvailableTools(server: Option<string>): (r: seq<Tool>)
      reads this
      ensures server.None? || server.value == "" ==> r == tools
      ensures server.Some? && server.value != "" ==> forall t :: t in r <==> t in tools && t.server == server.value
    {
      if server.Some? && server.value != "" then ToolsOf(tools, server.value) else tools
    }

    /** `call_tool`: unknown tool → error; its server not running → error; else a mock success echoing the arguments. */
    function CallTool(toolName: string, kwargs: map<string, Arg>, timestamp: string): (r: CallResult)
      reads this
      ensures FindTool(tools, toolName).None? ==> r == CallError("Tool " + toolName + " not found")
      ensures FindTool(tools, toolName).Some? && FindTool(tools, toolName).value.server !in running ==>
        r == CallError("Server " + FindTool(tools, toolName).value.server + " not running")
      ensures r.CallOk? <==> FindTool(tools, toolName).Some? && FindTool(tools, toolName).value.server in running
      ensures r.CallOk? ==> (r.tool == toolName && r.input == kwargs && r.success
        && r.server == FindTool(tools, toolName).value.server)
    {
      match FindTool(tools, toolName)
      case None => CallError("Tool " + toolName + " not found")
      case Some(tool) =>
        if tool.server !in running then CallError("Server " + tool.server + " not running")
        else CallOk(toolName, tool.server, kwargs, timestamp, "Mock tool execution result", true)
    }
  }

  // ---------------------------------------------------------------- EnhancedMCPIntegration

  /** Append `name` to the list under `capability`, creating the list if needed. */
  function AddEntry(m: map<string, seq<string>>, capability: string, name: string): map<string, seq<string>> {
    m[capability := (if capability in m then m[capability] else []) + [name]]
  }

  /** The capability map after adding `name` under each of `caps`, left to right. */
  function AddAll(m: map<string, seq<string>>, caps: seq<string>, name: string): map<string, seq<string>>
  {
    if |caps| == 0 then m else AddEntry(AddAll(m, caps[..|caps| - 1], name), caps[|caps| - 1], name)
  }

  /** The capability map built from `tools`, in order, when every tool's server is known. */
  function CapabilityMap(tools: seq<Tool>, servers: map<string, ServerConfig>): Option<map<string, seq<string>>>
  {
    if |tools| == 0 then Some(map[])
    else match CapabilityMap(tools[..|tools| - 1], servers)
      case None => None
      case Some(m) =>
        var t := tools[|tools| - 1];
        if t.server !in servers then None else Some(AddAll(m, servers[t.server].capabilities, t.name))
  }

  predicate Listed(m: map<string, seq<string>>, c: string, n: string) {
    c in m && n in m[c]
  }

  lemma AddEntryMembers(m: map<string, seq<string>>, capability: string, name: string)
    ensures forall c, n :: Listed(AddEntry(m, capability, name), c, n) <==>
      Listed(m, c, n) || (n == name && c == capability)
  {
  }

  lemma {:induction false} AddAllMembers(m: map<string, seq<string>>, caps: seq<string>, name: string)
    ensures forall c, n :: Listed(AddAll(m, caps, name), c, n) <==> Listed(m, c, n) || (n == name && c in caps)
  {
    if |caps| > 0 {
      var init := caps[..|caps| - 1];
      AddAllMembers(m, init, name);
      AddEntryMembers(AddAll(m, init, name), caps[|caps| - 1], name);
      assert forall c :: c in caps <==> c in init || c == caps[|caps| - 1];
    }
  }

  /** Tool `n` is listed under capability `c` exactly when `c` is a capability of the server of a tool named `n`. */
  lemma {:induction false} CapabilityMapMembers(tools: seq<Tool>, servers: map<string, ServerConfig>)
    requires forall t :: t in tools ==> t.server in servers
    ensures CapabilityMap(tools, servers).Some?
    ensures forall c, n :: Listed(CapabilityMap(tools, servers).value, c, n) <==>
      exists t :: t in tools && t.name == n && c in servers[t.server].capabilities
  {
    if |tools| > 0 {
      var init := tools[..|tools| - 1];
      var last := tools[|tools| - 1];
      assert forall x :: x in tools <==> x in init || x == last;
      CapabilityMapMembers(init, servers);
      var m := CapabilityMap(init, servers).value;
      AddAllMembers(m, servers[last.server].capabilities, last.name);
      forall c, n
        ensures Listed(CapabilityMap(tools, servers).value, c, n) <==>
          exists t :: t in tools && t.name == n && c in servers[t.server].capabilities
      {
        if Listed(CapabilityMap(tools, servers).value, c, n) {
          if Listed(m, c, n) {
            var t :| t in init && t.name == n && c in servers[t.server].capabilities;
            assert t in tools;
          } else {
            assert last in tools;
          }
        }
      }
    }
  }

  /** `_build_capability_map`: the nested loops over tools and their server's capabilities; `None` where a server is missing (`KeyError`). */
  method BuildCapabilityMap(tools: seq<Tool>, servers: map<string, ServerConfig>) returns (r: Option<map<string, seq<string>>>)
    ensures r == CapabilityMap(tools, servers)
  {
    var m: map<string, seq<string>> := map[];
    var i := 0;
    while i < |tools|
      invariant 0 <= i <= |tools|
      invariant CapabilityMap(tools[..i], servers) == Some(m)
    {
      var t := tools[i];
      assert tools[..i + 1][..i] == tools[..i];
      if t.server !in servers {
        CapabilityMapStuck(tools, servers, i + 1);
        return None;
      }
      var caps := servers[t.server].capabilities;
      var j := 0;
      ghost var m0 := m;
      while j < |caps|
        invariant 0 <= j <= |caps|
        invariant m == AddAll(m0, caps[..j], t.name)
      {
        assert caps[..j + 1][..j] == caps[..j];
        m := AddEntry(m, caps[j], t.name);
        j := j + 1;
      }
      assert caps[..j] == caps;
      i := i + 1;
    }
    assert tools[..i] == tools;
    return Some(m);
  }

  lemma {:induction false} CapabilityMapStuck(tools: seq<Tool>, servers: map<string, ServerConfig>, k: nat)
    requires k <= |tools| && CapabilityMap(tools[..k], servers).None?
    ensures CapabilityMap(tools, servers).None?
    decreases |tools| - k
  {
    if k == |tools| {
      assert tools[..k] == tools;
    } else {
      assert tools[..k + 1][..k] == tools[..k];
      CapabilityMapStuck(tools, servers, k + 1);
    }
  }

  const TaskTypes: set<string> := {"file_operations", "code_analysis", "project_planning", "research", "version_control", "data_management"}

  /** `get_recommended_tools`: a fixed table of two or three names, empty for other task types. */
  function GetRecommendedTools(taskType: string): (r: seq<string>)
    ensures r == [] <==> taskType !in TaskTypes
    ensures taskType in TaskTypes ==> 2 <= |r| <= 3
  {
    if taskType == "file_operations" then ["file_read", "file_write", "directory_list"]
    else if taskType == "code_analysis" then ["analyze_code", "code_quality", "security_scan"]
    else if taskType == "project_planning" then ["create_project_plan", "resource_estimation"]
    else if taskType == "research" then ["web_search", "api_discovery"]
    else if taskType == "version_control" then ["git_status", "git_commit", "git_diff"]
    else if taskType == "data_management" then ["sql_query", "backup_restore"]
    else []
  }

  datatype Health = Health(overallStatus: string, servers: map<string, ServerStatus>, availableTools: nat, availableResources: nat)

  /** `health_check`: "degraded" exactly when some enabled server is not running. */
  function HealthCheck(m: ServerManager): (h: Health)
    reads m
    ensures h.servers.Keys == m.servers.Keys
    ensures h.overallStatus == "degraded" <==> exists s :: s in m.servers && m.servers[s].enabled && s !in m.running
    ensures h.overallStatus == "healthy" <==> forall s :: s in m.servers && m.servers[s].enabled ==> s in m.running
    ensures h.availableTools == |m.tools| && h.availableResources == |m.resources|
  {
    var degraded := exists s :: s in m.servers && m.servers[s].enabled && s !in m.running;
    Health(if degraded then "degraded" else "healthy",
           map s | s in m.servers :: m.GetServerStatus(s), |m.tools|, |m.resources|)
  }

  datatype WorkflowResult = WorkflowResult(steps: seq<(string, CallResult)>, toolsUsed: seq<string>, finalOutput: Option<CallResult>)

  function GetOr(d: map<string, string>, key: string, default: string): string {
    if key in d then d[key] else default
  }

  // The arguments of the workflow's three tool calls, with the defaults for
  // missing requirements.

  function AnalysisArguments(requirements: map<string, string>): map<string, Arg> {
    map["path" := Str(GetOr(requirements, "project_path", ".")), "language" := Str(GetOr(requirements, "language", "python"))]
  }

  function ResearchArguments(requirements: map<string, string>): map<string, Arg> {
    map["query" := Str(GetOr(requirements, "domain", "software") + " best practices architecture"), "count" := Num(5)]
  }

  function PlanArguments(requirements: map<string, string>): map<string, Arg> {
    map["requirements" := Dict(requirements), "domain" := Str(GetOr(requirements, "domain", "software_development"))]
  }

  /** The tools the planning workflow may call, in the order it calls them. */
  const WorkflowTools: seq<string> := ["analyze_code", "web_search", "create_project_plan"]

  /** The step name recorded for each workflow tool. */
  function StepLabel(tool: string): string {
    if tool == "analyze_code" then "code_analysis" else if tool == "web_search" then "research" else "planning"
  }

  function ToolArguments(tool: string, requirements: map<string, string>): map<string, Arg> {
    if tool == "analyze_code" then AnalysisArguments(requirements)
    else if tool == "web_search" then ResearchArguments(requirements)
    else PlanArguments(requirements)
  }

  /** The names among `names` that have a registered tool, in their order. */
  function Registered(tools: seq<Tool>, names: seq<string>): (r: seq<string>)
    ensures forall n :: n in r <==> n in names && FindTool(tools, n).Some?
  {
    if |names| == 0 then []
    else (if FindTool(tools, names[0]).Some? then [names[0]] else []) + Registered(tools, names[1..])
  }

  /**
   * `execute_planning_workflow` step selection: code analysis, research and
   * planning, each exactly when its tool is registered; the plan is the final output.
   */
  function PlanningWorkflow(m: ServerManager, requirements: map<string, string>, timestamp: string): (w: WorkflowResult)
    reads m
    ensures |w.steps| == |w.toolsUsed| <= 3
    ensures forall name :: name in w.toolsUsed ==> FindTool(m.tools, name).Some?
    ensures w.finalOutput.Some? <==> FindTool(m.tools, "create_project_plan").Some?
    ensures "analyze_code" in w.toolsUsed <==> FindTool(m.tools, "analyze_code").Some?
    ensures "web_search" in w.toolsUsed <==> FindTool(m.tools, "web_search").Some?
  {
    var analysis := if FindTool(m.tools, "analyze_code").Some? then
      [("code_analysis", m.CallTool("analyze_code", AnalysisArguments(requirements), timestamp))]
      else [];
    var research := if FindTool(m.tools, "web_search").Some? then
      [("research", m.CallTool("web_search", ResearchArguments(requirements), timestamp))]
      else [];
    var plan := if FindTool(m.tools, "create_project_plan").Some? then
      Some(m.CallTool("create_project_plan", PlanArguments(requirements), timestamp))
      else None;
    var planning := if plan.Some? then [("planning", plan.value)] else [];
    WorkflowResult(analysis + research + planning,
      (if analysis != [] then ["analyze_code"] else []) + (if research != [] then ["web_search"] else [])
        + (if planning != [] then ["create_project_plan"] else []),
      plan)
  }

  /** The workflow step for `tool`: its label and the result of calling it with its arguments. */
  function Step(m: ServerManager, tool: string, requirements: map<string, string>, timestamp: string): (string, CallResult)
    reads m
  {
    (StepLabel(tool), m.CallTool(tool, ToolArguments(tool, requirements), timestamp))
  }

  /**
   * The workflow's steps are the registered ones of its three tools, in call
   * order, each labelled and called with its own arguments; the plan step's
   * result is the final output.
   */
  lemma PlanningWorkflowSteps(m: ServerManager, requirements: map<string, string>, timestamp: string)
    ensures var w := PlanningWorkflow(m, requirements, timestamp);
      && w.toolsUsed == Registered(m.tools, WorkflowTools)
      && |w.steps| == |w.toolsUsed|
      && (forall k :: 0 <= k < |w.steps| ==> w.steps[k] == Step(m, w.toolsUsed[k], requirements, timestamp))
      && (w.finalOutput.Some? ==> w.finalOutput.value == m.CallTool("create_project_plan", PlanArguments(requirements), timestamp))
      && ("create_project_plan" in w.toolsUsed <==> w.finalOutput.Some?)
  {
    var w := PlanningWorkflow(m, requirements, timestamp);
    PlanningWorkflowShape(m, requirements, timestamp);
    RegisteredWorkflowTools(m.tools);
    StepsFollowTools(m, requirements, timestamp, w.steps, w.toolsUsed);
  }

  /** Two lists built from the same registrations pair each tool with its step. */
  lemma StepsFollowTools(m: ServerManager, requirements: map<string, string>, timestamp: string,
                         steps: seq<(string, CallResult)>, toolsUsed: seq<string>)
    requires var a, r, p := "analyze_code", "web_search", "create_project_plan";
      var hasA, hasR, hasP := FindTool(m.tools, a).Some?, FindTool(m.tools, r).Some?, FindTool(m.tools, p).Some?;
      && steps == Present(hasA, Step(m, a, requirements, timestamp)) + Present(hasR, Step(m, r, requirements, timestamp))
                  + Present(hasP, Step(m, p, requirements, timestamp))
      && toolsUsed == Present(hasA, a) + Present(hasR, r) + Present(hasP, p)
    ensures |steps| == |toolsUsed|
    ensures forall k :: 0 <= k < |steps| ==> steps[k] == Step(m, toolsUsed[k], requirements, timestamp)
  {
    var a, r, p := "analyze_code", "web_search", "create_project_plan";
    var sa, sr, sp := Step(m, a, requirements, timestamp), Step(m, r, requirements, timestamp), Step(m, p, requirements, timestamp);
    PresentPairs(FindTool(m.tools, a).Some?, FindTool(m.tools, r).Some?, FindTool(m.tools, p).Some?, a, r, p, sa, sr, sp);
  }

  /** The workflow's three optional steps, tool names and final output, spelled out. */
  lemma PlanningWorkflowShape(m: ServerManager, requirements: map<string, string>, timestamp: string)
    ensures var w := PlanningWorkflow(m, requirements, timestamp);
      var a, r, p := "analyze_code", "web_search", "create_project_plan";
      var hasA, hasR, hasP := FindTool(m.tools, a).Some?, FindTool(m.tools, r).Some?, FindTool(m.tools, p).Some?;
      && w.steps == Present(hasA, Step(m, a, requirements, timestamp)) + Present(hasR, Step(m, r, requirements, timestamp))
                    + Present(hasP, Step(m, p, requirements, timestamp))
      && w.toolsUsed == Present(hasA, a) + Present(hasR, r) + Present(hasP, p)
      && w.finalOutput == (if hasP then Some(m.CallTool(p, PlanArguments(requirements), timestamp)) else None)
  {
  }

  /** `[x]` when `b` holds, else empty. */
  function Present<T>(b: bool, x: T): seq<T> {
    if b then [x] else []
  }

  /** Two lists built by the same three choices pair up position by position. */
  lemma PresentPairs<T, U>(b1: bool, b2: bool, b3: bool, x1: T, x2: T, x3: T, y1: U, y2: U, y3: U)
    ensures var xs := Present(b1, x1) + Present(b2, x2) + Present(b3, x3);
      var ys := Present(b1, y1) + Present(b2, y2) + Present(b3, y3);
      && |ys| == |xs|
      && forall k :: 0 <= k < |xs| ==>
           (xs[k] == x1 && ys[k] == y1) || (xs[k] == x2 && ys[k] == y2) || (xs[k] == x3 && ys[k] == y3)
  {
  }

  /** Registration decides, tool by tool, which of the three the workflow uses. */
  lemma RegisteredWorkflowTools(tools: seq<Tool>)
    ensures Registered(tools, WorkflowTools) ==
      (if FindTool(tools, "analyze_code").Some? then ["analyze_code"] else [])
      + (if FindTool(tools, "web_search").Some? then ["web_search"] else [])
      + (if FindTool(tools, "create_project_plan").Some? then ["create_project_plan"] else [])
  {
    var ws := WorkflowTools;
    assert ws[1..][1..][1..] == [];
    assert Registered(tools, ws[1..][1..]) ==
      (if FindTool(tools, "create_project_plan").Some? then ["create_project_plan"] else []);
    assert ws[1..][0] == "web_search";
    assert Registered(tools, ws[1..]) ==
      (if FindTool(tools, "web_search").Some? then ["web_search"] else []) + Registered(tools, ws[1..][1..]);
  }
}
