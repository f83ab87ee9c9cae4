/** The basic chat hook: task cards built from the tool parts, the todo
    queue, the event log with its `event-<n>` ids, and the reader that turns
    the streamed agent events into log entries, streaming text and a status. */
module ChatApi {
  import opened Common
  import opened ToolPairing
  import opened ChatApiUtils
  import opened Transport

  // ---------------------------------------------------------------------------
  // Formatting of task items
  // ---------------------------------------------------------------------------

  /** formatToolInput; `stringify(v)` is the text `JSON.stringify(v)` puts
      into a template literal. */
  function FormatToolInput(toolName: Json, args: Json, stringify: Json -> string): (r: string)
    ensures StartsWith(r, "Running with")
    ensures r == "Running with parameters" <==> IsObject(args) && |ObjectEntries(args)| != 1
    ensures IsObject(args) && |ObjectEntries(args)| == 1 ==>
      r == "Running with " + ObjectEntries(args)[0].0 + ": " + stringify(ObjectEntries(args)[0].1)
    ensures !IsObject(args) ==> r == "Running with: " + stringify(args)
  {
    if IsObject(args) then
      var entries := ObjectEntries(args);
      if |entries| == 1 then
        var r := "Running with " + entries[0].0 + ": " + stringify(entries[0].1);
        assert r[13 + |entries[0].0|] == ':';
        assert r[..12] == "Running with";
        r
      else "Running with parameters"
    else
      var r := "Running with: " + stringify(args);
      assert r[12] == ':';
      assert r[..12] == "Running with";
      r
  }

  /** formatToolResult */
  function FormatToolResult(result: Json): (r: string)
    ensures r == "Completed" <==> IsObject(result)
    ensures !IsObject(result) ==> r == "Completed: " + JsString(result)
  {
    if IsObject(result) then "Completed" else "Completed: " + JsString(result)
  }

  // ---------------------------------------------------------------------------
  // Task cards
  // ---------------------------------------------------------------------------

  /** The card of one map entry. */
  function TaskOf(e: Entry, uiStatus: UIStatus, stringify: Json -> string): (t: Task)
    ensures t.toolCallId == e.call.toolCallId && t.toolName == e.call.toolName
    ensures t.status == TaskError <==> e.result.Some? && Truthy(e.result.value.isError)
    ensures t.status == TaskCompleted <==> e.result.Some? && !Truthy(e.result.value.isError)
    ensures t.status == TaskInProgress <==> e.result.None? && Busy(uiStatus)
    ensures (|t.items| > 0 && t.items[0].kind == InputItem) <==> Truthy(e.call.args)
    ensures |t.items| == (if Truthy(e.call.args) then 1 else 0) + (if t.status == TaskPending then 0 else 1)
    ensures t.status != TaskPending ==> t.items[|t.items| - 1].kind == StatusItemKind(t.status)
    ensures Truthy(e.call.args) ==>
      t.items[0] == TaskItem(InputItem, FormatToolInput(e.call.toolName, e.call.args, stringify), e.call.args)
    ensures t.status == TaskError ==>
      t.items[|t.items| - 1] == TaskItem(ErrorItem, JsString(e.result.value.result), e.result.value.result)
    ensures t.status == TaskCompleted ==>
      t.items[|t.items| - 1] == TaskItem(ResultItem, FormatToolResult(e.result.value.result), e.result.value.result)
    ensures t.status == TaskInProgress ==>
      t.items[|t.items| - 1] == TaskItem(ProcessingItem, "Running...", Undefined)
  {
    var input :=
      if Truthy(e.call.args) then [TaskItem(InputItem, FormatToolInput(e.call.toolName, e.call.args, stringify), e.call.args)]
      else [];
    var statusAndItem: (TaskStatus, seq<TaskItem>) :=
      if e.result.Some? then
        var res := e.result.value;
        if Truthy(res.isError) then (TaskError, [TaskItem(ErrorItem, JsString(res.result), res.result)])
        else (TaskCompleted, [TaskItem(ResultItem, FormatToolResult(res.result), res.result)])
      else if uiStatus == Submitted || uiStatus == UIStreaming then
        (TaskInProgress, [TaskItem(ProcessingItem, "Running...", Undefined)])
      else (TaskPending, []);
    Task(e.call.toolCallId, e.call.toolName, statusAndItem.0, input + statusAndItem.1)
  }

  function TasksOf(entries: seq<Entry>, uiStatus: UIStatus, stringify: Json -> string): (r: seq<Task>)
    ensures |r| == |entries|
    ensures forall i :: 0 <= i < |entries| ==> r[i] == TaskOf(entries[i], uiStatus, stringify)
  {
    seq(|entries|, i requires 0 <= i < |entries| => TaskOf(entries[i], uiStatus, stringify))
  }

  /** convertToolPartsToTasks: fills the map part by part, then makes one
      card per entry in the map's order. */
  method ConvertToolPartsToTasks(toolParts: seq<UIMessagePart>, uiStatus: UIStatus, stringify: Json -> string)
    returns (tasks: seq<Task>)
    ensures tasks == TasksOf(Group(ToolEvents(toolParts)), uiStatus, stringify)
  {
    var toolMap: seq<Entry> := [];
    var i := 0;
    while i < |toolParts|
      invariant 0 <= i <= |toolParts|
      invariant toolMap == Group(ToolEvents(toolParts[..i]))
    {
      var ev := ToolEventOf(toolParts[i]);
      toolMap := RecordEvent(toolMap, ev);
      GroupSnoc(ToolEvents(toolParts[..i]), ev);
      assert ToolEvents(toolParts[..i + 1]) == ToolEvents(toolParts[..i]) + [ev];
      i := i + 1;
    }
    assert toolParts[..i] == toolParts;
    tasks := TasksOf(toolMap, uiStatus, stringify);
  }

  /** One card per id that some tool call carries, in the order of each id's
      first call, and no card for an id no call carries (a result without an
      earlier call is dropped); each card is made from the last call for its
      id and the last result after it. */
  lemma TasksFollowCalls(toolParts: seq<UIMessagePart>, uiStatus: UIStatus, stringify: Json -> string)
    ensures var evs := ToolEvents(toolParts); var tasks := TasksOf(Group(evs), uiStatus, stringify);
      && (forall i :: 0 <= i < |tasks| ==>
            Expected(evs, tasks[i].toolCallId).Some?
            && tasks[i] == TaskOf(Expected(evs, tasks[i].toolCallId).value, uiStatus, stringify))
      && (forall i, j :: 0 <= i < j < |tasks| ==>
            && FirstCall(evs, tasks[i].toolCallId).Some? && FirstCall(evs, tasks[j].toolCallId).Some?
            && FirstCall(evs, tasks[i].toolCallId).value < FirstCall(evs, tasks[j].toolCallId).value)
      && (forall id :: Expected(evs, id).None? ==> forall i :: 0 <= i < |tasks| ==> tasks[i].toolCallId != id)
  {
    var evs := ToolEvents(toolParts);
    var g := Group(evs);
    GroupIsExpected(evs);
    GroupOrder(evs);
    forall i | 0 <= i < |g|
      ensures Expected(evs, Key(g[i])) == Some(g[i])
    {
      FindIndex(g, Key(g[i]), i);
      assert At(g, Key(g[i])) == Some(g[i]);
    }
  }

  // ---------------------------------------------------------------------------
  // The todo queue
  // ---------------------------------------------------------------------------

  predicate IsCancelled(todo: Json)
  {
    Get(todo, "status") == Str("cancelled")
  }

  /** `todos.filter(todo => todo.status !== "cancelled")` */
  function KeptTodos(todos: seq<Json>): (r: seq<Json>)
    ensures |r| <= |todos|
    decreases |todos|
  {
    if todos == [] then []
    else
      var init := todos[..|todos| - 1];
      var t := todos[|todos| - 1];
      assert forall i :: 0 <= i < |init| ==> init[i] == todos[i];
      KeptTodos(init) + (if IsCancelled(t) then [] else [t])
  }

  lemma {:induction false} KeptTodosAppend(a: seq<Json>, b: seq<Json>)
    ensures KeptTodos(a + b) == KeptTodos(a) + KeptTodos(b)
    decreases |b|
  {
    if b == [] {
      assert a + b == a;
    } else {
      assert (a + b)[..|a + b| - 1] == a + b[..|b| - 1];
      KeptTodosAppend(a, b[..|b| - 1]);
    }
  }

  /** The queue keeps exactly the todos that are not cancelled. */
  lemma {:induction false} KeptTodosFilter(todos: seq<Json>)
    ensures forall x :: x in KeptTodos(todos) <==> x in todos && !IsCancelled(x)
    decreases |todos|
  {
    if todos != [] {
      var init := todos[..|todos| - 1];
      KeptTodosFilter(init);
      assert todos == init + [todos[|todos| - 1]];
    }
  }

  /** `{id, title: content, status}` with `completed` kept and every other
      status shown as pending. */
  function QueueTodoOf(todo: Json): (q: QueueTodo)
    ensures q.id == Get(todo, "id") && q.title == Get(todo, "content")
    ensures q.status == QueueCompleted <==> Get(todo, "status") == Str("completed")
  {
    QueueTodo(Get(todo, "id"), Get(todo, "content"),
      if Get(todo, "status") == Str("completed") then QueueCompleted else QueuePending)
  }

  /** No item is null or undefined. */
  predicate NoNullish(todos: seq<Json>)
  {
    forall i :: 0 <= i < |todos| ==> !IsNullish(todos[i])
  }

  /** convertToQueueTodos. Reading `status` of a null or undefined item
      throws, which is None here. */
  function ConvertToQueueTodos(todos: seq<Json>): (r: Option<seq<QueueTodo>>)
    ensures r.None? <==> !NoNullish(todos)
    ensures r.Some? ==> (|r.value| == |KeptTodos(todos)|
      && forall i :: 0 <= i < |r.value| ==> r.value[i] == QueueTodoOf(KeptTodos(todos)[i]))
  {
    if !NoNullish(todos) then None
    else
      var kept := KeptTodos(todos);
      Some(seq(|kept|, i requires 0 <= i < |kept| => QueueTodoOf(kept[i])))
  }

  lemma NoNullishAppend(a: seq<Json>, b: seq<Json>)
    ensures NoNullish(a + b) <==> NoNullish(a) && NoNullish(b)
  {
    if NoNullish(a) && NoNullish(b) {
      forall i | 0 <= i < |a + b|
        ensures !IsNullish((a + b)[i])
      {
        if i >= |a| {
          assert (a + b)[i] == b[i - |a|];
        }
      }
    }
    if NoNullish(a + b) {
      forall i | 0 <= i < |a|
        ensures !IsNullish(a[i])
      {
        assert (a + b)[i] == a[i];
      }
      forall i | 0 <= i < |b|
        ensures !IsNullish(b[i])
      {
        assert (a + b)[|a| + i] == b[i];
      }
    }
  }

  lemma ConvertByKept(a: seq<Json>, b: seq<Json>)
    requires KeptTodos(a) == KeptTodos(b) && (NoNullish(a) <==> NoNullish(b))
    ensures ConvertToQueueTodos(a) == ConvertToQueueTodos(b)
  {
  }

  lemma {:induction false} CancelledKeepsNothing(t: Json)
    requires IsCancelled(t)
    ensures KeptTodos([t]) == [] && NoNullish([t])
  {
    assert [t][..0] == [];
  }

  /** A cancelled todo is dropped from the queue, not shown as completed:
      the queue is the one built without it. */
  lemma {:induction false} CancelledTodoIsDropped(before: seq<Json>, t: Json, after: seq<Json>)
    requires IsCancelled(t)
    ensures ConvertToQueueTodos(before + [t] + after) == ConvertToQueueTodos(before + after)
  {
    var with := before + [t] + after;
    var without := before + after;
    assert KeptTodos(with) == KeptTodos(without) by {
      CancelledKeepsNothing(t);
      KeptTodosAppend(before, [t]);
      KeptTodosAppend(before + [t], after);
      KeptTodosAppend(before, after);
    }
    assert NoNullish(with) <==> NoNullish(without) by {
      CancelledKeepsNothing(t);
      NoNullishAppend(before, [t]);
      NoNullishAppend(before + [t], after);
      NoNullishAppend(before, after);
    }
    ConvertByKept(with, without);
  }

  // ---------------------------------------------------------------------------
  // The hook's state
  // ---------------------------------------------------------------------------

  /** `event-<n>` */
  function EventId(n: nat): string
  {
    "event-" + NatToString(n)
  }

  /** Ids made from different counter values differ. */
  lemma EventIdsDistinct(a: nat, b: nat)
    requires a != b
    ensures EventId(a) != EventId(b)
  {
    if EventId(a) == EventId(b) {
      assert EventId(a)[6..] == NatToString(a);
      assert EventId(b)[6..] == NatToString(b);
      NatToStringInjective(a, b);
    }
  }

  /** Everything the hook keeps: status, streaming text, event log, todos,
      the accumulated-text ref, whether an abort controller is held, how
      many file refreshes were started, and the module's event counter. */
  datatype ApiState = ApiState(
    status: AgentStatus,
    streamingText: string,
    events: seq<EventLog>,
    todos: seq<QueueTodo>,
    accumulated: string,
    controller: bool,
    refreshes: nat,
    eventCounter: nat)

  /** addEvent: log the event under the next id. */
  function AddEventSpec(s: ApiState, event: Json): ApiState
  {
    s.(events := s.events + [EventLog(EventId(s.eventCounter + 1), event)], eventCounter := s.eventCounter + 1)
  }

  function TextSegmentEvent(text: string): Json
  {
    Obj([("type", Str("text-segment")), ("text", Str(text))])
  }

  function UserMessageEvent(text: string): Json
  {
    Obj([("type", Str("user-message")), ("content", Str(text))])
  }

  function ErrorEvent(e: Thrown): Json
  {
    Obj([("type", Str("error")), ("error", Str(ErrorText(e)))])
  }

  /** flushTextSegment */
  function Flush(s: ApiState): ApiState
  {
    if !IsBlank(s.accumulated) then
      AddEventSpec(s, TextSegmentEvent(s.accumulated)).(accumulated := "", streamingText := "")
    else s
  }

  /** `event.stepNumber > 1`, for a numeric step number. */
  predicate StepAboveOne(v: Json)
  {
    v.Num? && v.n > 1
  }

  /** The switch on one parsed event. */
  function Dispatch(s: ApiState, event: Json): ApiState
  {
    var t := Get(event, "type");
    if t == Str("text") then
      var acc := s.accumulated + JsString(Get(event, "text"));
      s.(status := AgentStreaming, accumulated := acc, streamingText := acc)
    else if t == Str("step-start") then
      if StepAboveOne(Get(event, "stepNumber")) then AddEventSpec(s, event) else s
    else if t == Str("tool-call") then
      AddEventSpec(Flush(s).(status := AgentToolCall), event)
    else if t == Str("tool-result") then
      AddEventSpec(s, event).(refreshes := s.refreshes + 1)
    else if t == Str("todos-changed") then
      var logged := AddEventSpec(Flush(s).(status := AgentToolCall), event);
      var todos := Get(event, "todos");
      if Truthy(todos) && todos.Arr? then
        var converted := ConvertToQueueTodos(todos.items);
        if converted.Some? then logged.(todos := converted.value) else logged
      else logged
    else if t == Str("done") then
      AddEventSpec(Flush(s).(status := AgentDone), event)
    else if t == Str("error") then
      AddEventSpec(Flush(s).(status := AgentError), event)
    else AddEventSpec(s, event)
  }

  /** One line of a chunk: the state after it, and whether it was the
      `[DONE]` sentinel that ends the line loop. `parse` is `JSON.parse`,
      None where it throws. A payload that does not parse, or parses to
      null, is logged to the console and skipped. */
  function HandleLine(s: ApiState, line: string, parse: string -> Option<Json>): (ApiState, bool)
  {
    if !StartsWith(line, "data: ") then (s, false)
    else
      var data := line[6..];
      if data == "[DONE]" then (s.(status := AgentIdle), true)
      else
        var event := parse(data);
        if event.None? || IsNullish(event.value) then (s, false)
        else (Dispatch(s, event.value), false)
  }

  function HandleLines(s: ApiState, lines: seq<string>, parse: string -> Option<Json>): ApiState
    decreases |lines|
  {
    if lines == [] then s
    else
      var r := HandleLine(s, lines[0], parse);
      if r.1 then r.0 else HandleLines(r.0, lines[1..], parse)
  }

  /** One chunk: its lines split on "\n" with nothing carried over from the
      previous chunk, then the status is set to idle. */
  function HandleChunk(s: ApiState, chunk: string, parse: string -> Option<Json>): ApiState
  {
    HandleLines(s, Split(chunk, '\n'), parse).(status := AgentIdle)
  }

  function ReadChunks(s: ApiState, chunks: seq<string>, parse: string -> Option<Json>): ApiState
    decreases |chunks|
  {
    if chunks == [] then s else ReadChunks(HandleChunk(s, chunks[0], parse), chunks[1..], parse)
  }

  /** The catch block of sendMessage. */
  function Caught(s: ApiState, e: Thrown): ApiState
  {
    if IsAbort(e) then Flush(s).(status := AgentIdle)
    else AddEventSpec(Flush(s).(status := AgentError), ErrorEvent(e))
  }

  /** sendMessage, from the check of the text to the `finally` block. */
  function Send(s: ApiState, text: string, response: Response, parse: string -> Option<Json>): ApiState
  {
    if IsBlank(text) then s
    else
      var started := SendStarted(s, text);
      var ended :=
        match response
        case Rejected(e) => Caught(started, e)
        case HttpStatus(code, _) => Caught(started, PlainError("HTTP error! status: " + IntToString(code)))
        case NoReader => Caught(started, PlainError("No reader available"))
        case Body(chunks, failure) => BodyRead(started, chunks, failure, parse);
      ended.(controller := false)
  }

  /** sendMessage up to the request: thinking, both text buffers emptied,
      the user's message logged, a controller held. */
  function SendStarted(s: ApiState, text: string): ApiState
  {
    AddEventSpec(s.(status := AgentThinking, streamingText := "", accumulated := ""), UserMessageEvent(text))
      .(controller := true)
  }

  /** The streamed body, chunk by chunk; a failure while reading goes to the
      catch block. */
  function BodyRead(s: ApiState, chunks: seq<string>, failure: Option<Thrown>, parse: string -> Option<Json>): ApiState
  {
    var read := ReadChunks(s, chunks, parse);
    if failure.Some? then Caught(read, failure.value) else read
  }

  /** abort: only when a request holds a controller. */
  function Aborted(s: ApiState): ApiState
  {
    if s.controller then s.(status := AgentIdle) else s
  }

  /** clear */
  function Cleared(s: ApiState): ApiState
  {
    s.(events := [], streamingText := "", todos := [], status := AgentIdle, refreshes := s.refreshes + 1)
  }

  /** The derived values the hook returns: UI status, messages, tool parts
      and task cards. */
  function UiMessages(s: ApiState, clock: nat -> int): seq<UIMessage>
  {
    Convert(s.events, s.streamingText, MapAgentStatusToUIStatus(s.status), clock)
  }

  function TaskParts(s: ApiState, clock: nat -> int, stringify: Json -> string): seq<Task>
  {
    var uiStatus := MapAgentStatusToUIStatus(s.status);
    TasksOf(Group(ToolEvents(ExtractToolParts(UiMessages(s, clock)))), uiStatus, stringify)
  }

  // ---------------------------------------------------------------------------
  // Properties of the reader
  // ---------------------------------------------------------------------------

  /** The event types before which the pending text is written to the log. */
  predicate IsBoundary(event: Json)
  {
    TypeIs(event, "tool-call") || TypeIs(event, "todos-changed") || TypeIs(event, "done") || TypeIs(event, "error")
  }

  /** At a tool call, a todo update, `done` or `error` the pending text, unless
      it is blank, is logged as one text segment just before the event, and
      the streaming text is cleared; blank pending text is neither logged nor
      cleared. */
  lemma BoundaryFlushesFirst(s: ApiState, event: Json)
    requires IsBoundary(event)
    ensures var r := Dispatch(s, event); var c := s.eventCounter;
      && (!IsBlank(s.accumulated) ==>
            && r.events == s.events + [EventLog(EventId(c + 1), TextSegmentEvent(s.accumulated)), EventLog(EventId(c + 2), event)]
            && r.accumulated == "" && r.streamingText == "")
      && (IsBlank(s.accumulated) ==>
            && r.events == s.events + [EventLog(EventId(c + 1), event)]
            && r.accumulated == s.accumulated && r.streamingText == s.streamingText)
      && r.status == (if TypeIs(event, "done") then AgentDone else if TypeIs(event, "error") then AgentError else AgentToolCall)
  {
  }

  /** A text event only extends the pending text and shows it; it logs
      nothing. */
  lemma TextAccumulates(s: ApiState, event: Json)
    requires TypeIs(event, "text")
    ensures var r := Dispatch(s, event);
      && r.accumulated == s.accumulated + JsString(Get(event, "text"))
      && r.streamingText == r.accumulated
      && r.events == s.events && r.status == AgentStreaming
  {
  }

  /** Every other event leaves the pending text and the status alone; it is
      logged under the next id, except a step start for the first step. */
  lemma OtherEventsKeepText(s: ApiState, event: Json)
    requires !IsBoundary(event) && !TypeIs(event, "text")
    ensures var r := Dispatch(s, event);
      && r.accumulated == s.accumulated && r.streamingText == s.streamingText && r.status == s.status
      && (TypeIs(event, "step-start") && !StepAboveOne(Get(event, "stepNumber")) ==> r.events == s.events)
      && (!TypeIs(event, "step-start") || StepAboveOne(Get(event, "stepNumber")) ==>
            r.events == s.events + [EventLog(EventId(s.eventCounter + 1), event)])
      && (r.refreshes == s.refreshes + 1 <==> TypeIs(event, "tool-result"))
  {
  }

  /** `s2` continues `s1`'s log: the old entries stay, and each new one
      carries the next value of the counter. */
  predicate Extends(s1: ApiState, s2: ApiState)
  {
    && s1.events <= s2.events
    && s2.eventCounter == s1.eventCounter + (|s2.events| - |s1.events|)
    && forall i :: |s1.events| <= i < |s2.events| ==> s2.events[i].id == EventId(s1.eventCounter + 1 + (i - |s1.events|))
  }

  lemma ExtendsTransitive(s1: ApiState, s2: ApiState, s3: ApiState)
    requires Extends(s1, s2) && Extends(s2, s3)
    ensures Extends(s1, s3)
  {
    forall i | |s1.events| <= i < |s3.events|
      ensures s3.events[i].id == EventId(s1.eventCounter + 1 + (i - |s1.events|))
    {
      if i < |s2.events| {
        assert s3.events[i] == s2.events[i];
      }
    }
  }

  lemma FlushExtends(s: ApiState)
    ensures Extends(s, Flush(s))
  {
  }

  lemma AddEventExtends(s: ApiState, event: Json)
    ensures Extends(s, AddEventSpec(s, event))
  {
  }

  /** Flush, a status change, then the event logged. */
  lemma FlushThenLogExtends(s: ApiState, st: AgentStatus, event: Json)
    ensures Extends(s, AddEventSpec(Flush(s).(status := st), event))
  {
    var f := Flush(s).(status := st);
    FlushExtends(s);
    AddEventExtends(f, event);
    ExtendsTransitive(s, f, AddEventSpec(f, event));
  }

  lemma DispatchExtends(s: ApiState, event: Json)
    ensures Extends(s, Dispatch(s, event))
  {
    var t := Get(event, "type");
    if t == Str("text") {
    } else if t == Str("step-start") {
      AddEventExtends(s, event);
    } else if t == Str("tool-call") {
      FlushThenLogExtends(s, AgentToolCall, event);
    } else if t == Str("tool-result") {
      AddEventExtends(s, event);
    } else if t == Str("todos-changed") {
      FlushThenLogExtends(s, AgentToolCall, event);
      var logged := AddEventSpec(Flush(s).(status := AgentToolCall), event);
      assert Dispatch(s, event).events == logged.events && Dispatch(s, event).eventCounter == logged.eventCounter;
    } else if t == Str("done") {
      FlushThenLogExtends(s, AgentDone, event);
    } else if t == Str("error") {
      FlushThenLogExtends(s, AgentError, event);
    } else {
      AddEventExtends(s, event);
    }
  }

  lemma {:induction false} HandleLinesExtends(s: ApiState, lines: seq<string>, parse: string -> Option<Json>)
    ensures Extends(s, HandleLines(s, lines, parse))
    decreases |lines|
  {
    if lines != [] {
      var r := HandleLine(s, lines[0], parse);
      if StartsWith(lines[0], "data: ") && lines[0][6..] != "[DONE]" {
        var event := parse(lines[0][6..]);
        if event.Some? && !IsNullish(event.value) {
          DispatchExtends(s, event.value);
        }
      }
      assert Extends(s, r.0);
      if !r.1 {
        HandleLinesExtends(r.0, lines[1..], parse);
        ExtendsTransitive(s, r.0, HandleLines(r.0, lines[1..], parse));
      }
    }
  }

  lemma {:induction false} ReadChunksExtends(s: ApiState, chunks: seq<string>, parse: string -> Option<Json>)
    ensures Extends(s, ReadChunks(s, chunks, parse))
    decreases |chunks|
  {
    if chunks != [] {
      var h := HandleChunk(s, chunks[0], parse);
      HandleLinesExtends(s, Split(chunks[0], '\n'), parse);
      ReadChunksExtends(h, chunks[1..], parse);
      ExtendsTransitive(s, h, ReadChunks(h, chunks[1..], parse));
    }
  }

  lemma CaughtExtends(s: ApiState, e: Thrown)
    ensures Extends(s, Caught(s, e))
  {
    FlushExtends(s);
    if !IsAbort(e) {
      var f := Flush(s).(status := AgentError);
      ExtendsTransitive(s, f, AddEventSpec(f, ErrorEvent(e)));
    }
  }

  /** A send never drops or rewrites a logged entry: it logs the user's
      message first, then the stream's entries, each under the next id, and
      it always releases the controller. A blank message changes nothing. */
  lemma SendExtends(s: ApiState, text: string, response: Response, parse: string -> Option<Json>)
    ensures var r := Send(s, text, response, parse);
      && Extends(s, r)
      && (IsBlank(text) ==> r == s)
      && (!IsBlank(text) ==>
            && |r.events| > |s.events|
            && r.events[|s.events|] == EventLog(EventId(s.eventCounter + 1), UserMessageEvent(text))
            && !r.controller)
  {
    if !IsBlank(text) {
      var started := AddEventSpec(s.(status := AgentThinking, streamingText := "", accumulated := ""), UserMessageEvent(text))
        .(controller := true);
      assert Extends(s, started);
      var ended :=
        match response
        case Rejected(e) => Caught(started, e)
        case HttpStatus(code, _) => Caught(started, PlainError("HTTP error! status: " + IntToString(code)))
        case NoReader => Caught(started, PlainError("No reader available"))
        case Body(chunks, failure) =>
          var read := ReadChunks(started, chunks, parse);
          if failure.Some? then Caught(read, failure.value) else read;
      match response {
        case Rejected(e) => CaughtExtends(started, e);
        case HttpStatus(code, _) => CaughtExtends(started, PlainError("HTTP error! status: " + IntToString(code)));
        case NoReader => CaughtExtends(started, PlainError("No reader available"));
        case Body(chunks, failure) =>
          var read := ReadChunks(started, chunks, parse);
          ReadChunksExtends(started, chunks, parse);
          if failure.Some? {
            CaughtExtends(read, failure.value);
            ExtendsTransitive(started, read, Caught(read, failure.value));
          }
      }
      ExtendsTransitive(s, started, ended);
      assert ended.events[|s.events|] == started.events[|s.events|];
    }
  }

  /** Log ids are pairwise distinct and none is an id the counter has yet to
      hand out. */
  ghost predicate IdsUnique(s: ApiState)
  {
    && (forall i, j :: 0 <= i < j < |s.events| ==> s.events[i].id != s.events[j].id)
    && (forall i, k: nat :: 0 <= i < |s.events| && k > s.eventCounter ==> s.events[i].id != EventId(k))
  }

  lemma ExtendsKeepsIdsUnique(s1: ApiState, s2: ApiState)
    requires Extends(s1, s2) && IdsUnique(s1)
    ensures IdsUnique(s2)
  {
    var n := |s1.events|;
    var c := s1.eventCounter;
    forall i, k: nat | 0 <= i < |s2.events| && k > s2.eventCounter
      ensures s2.events[i].id != EventId(k)
    {
      if i < n {
        assert s2.events[i] == s1.events[i];
      } else {
        EventIdsDistinct(c + 1 + (i - n), k);
      }
    }
    forall i, j | 0 <= i < j < |s2.events|
      ensures s2.events[i].id != s2.events[j].id
    {
      if j < n {
        assert s2.events[i] == s1.events[i] && s2.events[j] == s1.events[j];
      } else if i < n {
        assert s2.events[i] == s1.events[i];
        assert s2.events[j].id == EventId(c + 1 + (j - n));
      } else {
        EventIdsDistinct(c + 1 + (i - n), c + 1 + (j - n));
      }
    }
  }

  /** Sending, aborting and clearing keep every id in the log unique. */
  lemma OperationsKeepIdsUnique(s: ApiState, text: string, response: Response, parse: string -> Option<Json>)
    requires IdsUnique(s)
    ensures IdsUnique(Send(s, text, response, parse))
    ensures IdsUnique(Aborted(s))
    ensures IdsUnique(Cleared(s))
  {
    SendExtends(s, text, response, parse);
    ExtendsKeepsIdsUnique(s, Send(s, text, response, parse));
  }

  /** A `[DONE]` line ends the handling of its chunk: the lines after it are
      not read, and only the status changes. */
  lemma DoneSkipsRestOfChunk(s: ApiState, rest: string, parse: string -> Option<Json>)
    ensures HandleChunk(s, "data: [DONE]\n" + rest, parse) == s.(status := AgentIdle)
  {
    var line := "data: [DONE]";
    assert "data: [DONE]\n" + rest == line + ['\n'] + rest;
    SplitPrefix(line, rest, '\n');
    assert StartsWith(line, "data: ") && line[6..] == "[DONE]";
    assert HandleLine(s, line, parse) == (s.(status := AgentIdle), true);
  }

  /** The status is idle after every chunk, so a `done` or `error` status
      set by the chunk's events does not survive it. */
  lemma {:induction false} ChunksEndIdle(s: ApiState, chunks: seq<string>, parse: string -> Option<Json>)
    requires chunks != []
    ensures ReadChunks(s, chunks, parse).status == AgentIdle
    decreases |chunks|
  {
    if chunks[1..] != [] {
      ChunksEndIdle(HandleChunk(s, chunks[0], parse), chunks[1..], parse);
    }
  }

  /** A stream that ends normally leaves the hook idle after at least one
      chunk, and still thinking after none. */
  lemma StreamEndStatus(s: ApiState, text: string, chunks: seq<string>, parse: string -> Option<Json>)
    requires !IsBlank(text)
    ensures chunks != [] ==> Send(s, text, Body(chunks, None), parse).status == AgentIdle
    ensures chunks == [] ==> Send(s, text, Body(chunks, None), parse).status == AgentThinking
  {
    if chunks != [] {
      var started := AddEventSpec(s.(status := AgentThinking, streamingText := "", accumulated := ""), UserMessageEvent(text))
        .(controller := true);
      ChunksEndIdle(started, chunks, parse);
    }
  }

  /** A failed request ends in the error status with an error entry last in
      the log, carrying `String(error)`; an aborted one ends idle and logs
      no error entry. */
  lemma FailureIsLogged(s: ApiState, text: string, response: Response, parse: string -> Option<Json>)
    requires !IsBlank(text)
    requires response.Rejected? || response.HttpStatus? || response.NoReader?
    ensures var r := Send(s, text, response, parse);
      var e := match response
        case Rejected(e) => e
        case HttpStatus(code, _) => PlainError("HTTP error! status: " + IntToString(code))
        case NoReader => PlainError("No reader available")
        case Body(_, _) => PlainError("");
      && (IsAbort(e) ==> r.status == AgentIdle && r.events[|r.events| - 1].event == UserMessageEvent(text))
      && (!IsAbort(e) ==> r.status == AgentError && r.events[|r.events| - 1].event == ErrorEvent(e))
  {
  }

  // ---------------------------------------------------------------------------
  // The hook as an object
  // ---------------------------------------------------------------------------

  class ChatApiSession {
    var status: AgentStatus
    var streamingText: string
    var events: seq<EventLog>
    var todos: seq<QueueTodo>
    var accumulatedText: string
    var hasController: bool
    var refreshes: nat
    /** The module-level `eventCounter`. */
    var eventCounter: nat

    function State(): ApiState
      reads this
    {
      ApiState(status, streamingText, events, todos, accumulatedText, hasController, refreshes, eventCounter)
    }

    /** A fresh hook; `counter` is the module's counter at that time. */
    constructor (counter: nat)
      ensures State() == ApiState(AgentIdle, "", [], [], "", false, 0, counter)
    {
      status := AgentIdle;
      streamingText := "";
      events := [];
      todos := [];
      accumulatedText := "";
      hasController := false;
      refreshes := 0;
      eventCounter := counter;
    }

    /** createEventId */
    method CreateEventId() returns (id: string)
      modifies this
      ensures State() == old(State()).(eventCounter := old(eventCounter) + 1)
      ensures id == EventId(eventCounter)
    {
      eventCounter := eventCounter + 1;
      id := "event-" + NatToString(eventCounter);
    }

    method AddEvent(event: Json)
      modifies this
      ensures State() == AddEventSpec(old(State()), event)
    {
      var id := CreateEventId();
      events := events + [EventLog(id, event)];
    }

    method FlushTextSegment()
      modifies this
      ensures State() == Flush(old(State()))
    {
      if !IsBlank(accumulatedText) {
        AddEvent(TextSegmentEvent(accumulatedText));
        accumulatedText := "";
        streamingText := "";
      }
    }

    method HandleEvent(event: Json)
      modifies this
      ensures State() == Dispatch(old(State()), event)
    {
      var t := Get(event, "type");
      if t == Str("text") {
        status := AgentStreaming;
        accumulatedText := accumulatedText + JsString(Get(event, "text"));
        streamingText := accumulatedText;
      } else if t == Str("step-start") {
        if StepAboveOne(Get(event, "stepNumber")) {
          AddEvent(event);
        }
      } else if t == Str("tool-call") {
        FlushTextSegment();
        status := AgentToolCall;
        AddEvent(event);
      } else if t == Str("tool-result") {
        AddEvent(event);
        refreshes := refreshes + 1;
      } else if t == Str("todos-changed") {
        FlushTextSegment();
        status := AgentToolCall;
        AddEvent(event);
        var list := Get(event, "todos");
        if Truthy(list) && list.Arr? {
          var converted := ConvertToQueueTodos(list.items);
          if converted.Some? {
            todos := converted.value;
          }
        }
      } else if t == Str("done") {
        FlushTextSegment();
        status := AgentDone;
        AddEvent(event);
      } else if t == Str("error") {
        FlushTextSegment();
        status := AgentError;
        AddEvent(event);
      } else {
        AddEvent(event);
      }
    }

    /** One decoded chunk of the response body. */
    method ReadChunk(chunk: string, parse: string -> Option<Json>)
      modifies this
      ensures State() == HandleChunk(old(State()), chunk, parse)
    {
      var lines := Split(chunk, '\n');
      var i := 0;
      while i < |lines|
        invariant 0 <= i <= |lines|
        invariant HandleLines(State(), lines[i..], parse) == HandleLines(old(State()), lines, parse)
      {
        var line := lines[i];
        if StartsWith(line, "data: ") {
          var data := line[6..];
          if data == "[DONE]" {
            status := AgentIdle;
            break;
          }
          var event := parse(data);
          if event.Some? && !IsNullish(event.value) {
            HandleEvent(event.value);
          }
        }
        i := i + 1;
      }
      status := AgentIdle;
    }

    method Catch(e: Thrown)
      modifies this
      ensures State() == Caught(old(State()), e)
    {
      if IsAbort(e) {
        FlushTextSegment();
        status := AgentIdle;
      } else {
        FlushTextSegment();
        status := AgentError;
        AddEvent(ErrorEvent(e));
      }
    }

    /** sendMessage */
    method SendMessage(text: string, response: Response, parse: string -> Option<Json>)
      modifies this
      ensures State() == Send(old(State()), text, response, parse)
    {
      if IsBlank(text) {
        return;
      }
      Begin(text);
      match response {
        case Rejected(e) =>
          Catch(e);
        case HttpStatus(code, _) =>
          Catch(PlainError("HTTP error! status: " + IntToString(code)));
        case NoReader =>
          Catch(PlainError("No reader available"));
        case Body(chunks, failure) =>
          ReadBody(chunks, failure, parse);
      }
      hasController := false;
    }

    method Begin(text: string)
      modifies this
      ensures State() == SendStarted(old(State()), text)
    {
      status := AgentThinking;
      streamingText := "";
      accumulatedText := "";
      AddEvent(UserMessageEvent(text));
      hasController := true;
    }

    method ReadBody(chunks: seq<string>, failure: Option<Thrown>, parse: string -> Option<Json>)
      modifies this
      ensures State() == BodyRead(old(State()), chunks, failure, parse)
    {
      var i := 0;
      while i < |chunks|
        invariant 0 <= i <= |chunks|
        invariant ReadChunks(State(), chunks[i..], parse) == ReadChunks(old(State()), chunks, parse)
      {
        ReadChunk(chunks[i], parse);
        assert chunks[i..][1..] == chunks[i + 1..];
        i := i + 1;
      }
      if failure.Some? {
        Catch(failure.value);
      }
    }

    method Abort()
      modifies this
      ensures State() == Aborted(old(State()))
    {
      if hasController {
        status := AgentIdle;
      }
    }

    method Clear()
      modifies this
      ensures State() == Cleared(old(State()))
    {
      events := [];
      streamingText := "";
      todos := [];
      status := AgentIdle;
      refreshes := refreshes + 1;
    }
  }
}
