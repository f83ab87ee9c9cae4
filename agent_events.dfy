/** The agent's lifecycle events (the producer side of the stream) and the
    closed set of eighteen custom kinds that travel in `data` envelopes and
    become message parts on the client. */
module AgentEvents {
  import opened Common

  /** Status of a todo as the agent reports it. */
  datatype TodoStatus = TodoPending | TodoInProgress | TodoCompleted | TodoCancelled

  /** A todo item as the agent reports it (`id`, `content`, `status`). */
  datatype AgentTodo = AgentTodo(id: string, content: string, status: TodoStatus)

  /** The eighteen file, execution, web and subagent kinds. */
  datatype DataKind =
    | FileWriteStartKind | FileWrittenKind | FileEditedKind | FileReadKind
    | LsKind | GlobKind | GrepKind
    | ExecuteStartKind | ExecuteFinishKind
    | WebSearchStartKind | WebSearchFinishKind
    | HttpRequestStartKind | HttpRequestFinishKind
    | FetchUrlStartKind | FetchUrlFinishKind
    | SubagentStartKind | SubagentFinishKind | SubagentStepKind

  /** The wire name of a custom kind. */
  function KindName(k: DataKind): string
  {
    match k
    case FileWriteStartKind => "file-write-start"
    case FileWrittenKind => "file-written"
    case FileEditedKind => "file-edited"
    case FileReadKind => "file-read"
    case LsKind => "ls"
    case GlobKind => "glob"
    case GrepKind => "grep"
    case ExecuteStartKind => "execute-start"
    case ExecuteFinishKind => "execute-finish"
    case WebSearchStartKind => "web-search-start"
    case WebSearchFinishKind => "web-search-finish"
    case HttpRequestStartKind => "http-request-start"
    case HttpRequestFinishKind => "http-request-finish"
    case FetchUrlStartKind => "fetch-url-start"
    case FetchUrlFinishKind => "fetch-url-finish"
    case SubagentStartKind => "subagent-start"
    case SubagentFinishKind => "subagent-finish"
    case SubagentStepKind => "subagent-step"
  }

  /** Recognising a name as one of the eighteen kinds: the lists the client
      checks with `includes` before it appends a part. */
  function KindOfName(name: string): (r: Option<DataKind>)
    ensures r.Some? ==> KindName(r.value) == name
  {
    if name == "file-write-start" then Some(FileWriteStartKind)
    else if name == "file-written" then Some(FileWrittenKind)
    else if name == "file-edited" then Some(FileEditedKind)
    else if name == "file-read" then Some(FileReadKind)
    else if name == "ls" then Some(LsKind)
    else if name == "glob" then Some(GlobKind)
    else if name == "grep" then Some(GrepKind)
    else if name == "execute-start" then Some(ExecuteStartKind)
    else if name == "execute-finish" then Some(ExecuteFinishKind)
    else if name == "web-search-start" then Some(WebSearchStartKind)
    else if name == "web-search-finish" then Some(WebSearchFinishKind)
    else if name == "http-request-start" then Some(HttpRequestStartKind)
    else if name == "http-request-finish" then Some(HttpRequestFinishKind)
    else if name == "fetch-url-start" then Some(FetchUrlStartKind)
    else if name == "fetch-url-finish" then Some(FetchUrlFinishKind)
    else if name == "subagent-start" then Some(SubagentStartKind)
    else if name == "subagent-finish" then Some(SubagentFinishKind)
    else if name == "subagent-step" then Some(SubagentStepKind)
    else None
  }

  /** Every kind is recognised under its own name, so names and kinds are in
      one-to-one correspondence; `todos-changed` is not one of them. */
  lemma KindNamesRoundTrip(k: DataKind)
    ensures KindOfName(KindName(k)) == Some(k)
    ensures KindName(k) != "todos-changed"
  {
  }

  /** One event of an agent run. Payload fields are opaque JSON values. */
  datatype AgentEvent =
    // flow
    | StepStart
    | StepFinish
    | Text(text: string)
    // tools
    | ToolCall(toolCallId: string, toolName: string, args: Json)
    | ToolResult(toolCallId: string, result: Json, isError: bool)
    // planning
    | TodosChanged(todos: Json)
    // file system
    | FileWriteStart(path: Json, content: Json)
    | FileWritten(path: Json, content: Json)
    | FileEdited(path: Json, occurrences: Json)
    | FileRead(path: Json, lines: Json)
    | Ls(path: Json, count: Json)
    | Glob(pattern: Json, count: Json)
    | Grep(pattern: Json, count: Json)
    // execution
    | ExecuteStart(command: Json, sandboxId: Json)
    | ExecuteFinish(command: Json, exitCode: Json, truncated: Json, sandboxId: Json)
    // web
    | WebSearchStart(query: Json)
    | WebSearchFinish(query: Json, resultCount: Json)
    | HttpRequestStart(url: Json, httpMethod: Json)
    | HttpRequestFinish(url: Json, statusCode: Json)
    | FetchUrlStart(url: Json)
    | FetchUrlFinish(url: Json, success: Json)
    // subagents
    | SubagentStart(name: Json, task: Json)
    | SubagentFinish(name: Json, result: Json)
    | SubagentStep(stepIndex: Json, toolCalls: Json)
    // control
    | Error(message: string)
    | Done
    // any kind the mapper does not list (text-segment, user-message,
    // approval and checkpoint events)
    | Unlisted(kind: string)

  /** The custom kind of an event, when it is one of the eighteen. */
  function DataKindOf(e: AgentEvent): Option<DataKind>
  {
    match e
    case FileWriteStart(_, _) => Some(FileWriteStartKind)
    case FileWritten(_, _) => Some(FileWrittenKind)
    case FileEdited(_, _) => Some(FileEditedKind)
    case FileRead(_, _) => Some(FileReadKind)
    case Ls(_, _) => Some(LsKind)
    case Glob(_, _) => Some(GlobKind)
    case Grep(_, _) => Some(GrepKind)
    case ExecuteStart(_, _) => Some(ExecuteStartKind)
    case ExecuteFinish(_, _, _, _) => Some(ExecuteFinishKind)
    case WebSearchStart(_) => Some(WebSearchStartKind)
    case WebSearchFinish(_, _) => Some(WebSearchFinishKind)
    case HttpRequestStart(_, _) => Some(HttpRequestStartKind)
    case HttpRequestFinish(_, _) => Some(HttpRequestFinishKind)
    case FetchUrlStart(_) => Some(FetchUrlStartKind)
    case FetchUrlFinish(_, _) => Some(FetchUrlFinishKind)
    case SubagentStart(_, _) => Some(SubagentStartKind)
    case SubagentFinish(_, _) => Some(SubagentFinishKind)
    case SubagentStep(_, _) => Some(SubagentStepKind)
    case _ => None
  }

  /** The fields the mapper copies into the `data` object of a custom event,
      in the order it lists them. */
  function DataFields(e: AgentEvent): seq<(string, Json)>
    requires DataKindOf(e).Some?
  {
    match e
    case FileWriteStart(path, content) => [("path", path), ("content", content)]
    case FileWritten(path, content) => [("path", path), ("content", content)]
    case FileEdited(path, occurrences) => [("path", path), ("occurrences", occurrences)]
    case FileRead(path, lines) => [("path", path), ("lines", lines)]
    case Ls(path, count) => [("path", path), ("count", count)]
    case Glob(pattern, count) => [("pattern", pattern), ("count", count)]
    case Grep(pattern, count) => [("pattern", pattern), ("count", count)]
    case ExecuteStart(command, sandboxId) => [("command", command), ("sandboxId", sandboxId)]
    case ExecuteFinish(command, exitCode, truncated, sandboxId) =>
      [("command", command), ("exitCode", exitCode), ("truncated", truncated), ("sandboxId", sandboxId)]
    case WebSearchStart(query) => [("query", query)]
    case WebSearchFinish(query, resultCount) => [("query", query), ("resultCount", resultCount)]
    case HttpRequestStart(url, httpMethod) => [("url", url), ("method", httpMethod)]
    case HttpRequestFinish(url, statusCode) => [("url", url), ("statusCode", statusCode)]
    case FetchUrlStart(url) => [("url", url)]
    case FetchUrlFinish(url, success) => [("url", url), ("success", success)]
    case SubagentStart(name, task) => [("name", name), ("task", task)]
    case SubagentFinish(name, result) => [("name", name), ("result", result)]
    case SubagentStep(stepIndex, toolCalls) => [("stepIndex", stepIndex), ("toolCalls", toolCalls)]
  }
}
