/** The full-events chat hook: it adds the user's message and an empty
    assistant message, reads the protocol stream, writes the streamed text
    into the assistant message, appends one part per custom `data` event to
    the message the cursor names, and derives task cards from the tool parts
    of the assistant messages. */
module FullEventsClient {
  import opened Common
  import opened ToolPairing
  import opened ChatApiUtils
  import opened Transport
  import AgentEvents
  import ChatApi

  /** A message as this hook keeps it; its parts are the JSON objects the
      hook builds. */
  datatype Message = Message(id: string, role: Role, parts: seq<Json>)

  /** Everything the hook keeps: messages, UI status, todos, error message,
      the id of the message data parts go to (`currentMessageIdRef`), whether
      an abort controller is held, how many file refreshes were started, how
      many times it has read the clock, and `currentText`, the text the
      request in flight has streamed so far (a local of sendMessage that
      every chunk handler extends). */
  datatype FullState = FullState(
    messages: seq<Message>,
    status: UIStatus,
    todos: seq<QueueTodo>,
    errorMessage: Option<string>,
    cursor: Option<string>,
    controller: bool,
    refreshes: nat,
    ticks: nat,
    currentText: string)

  // ---------------------------------------------------------------------------
  // Parts
  // ---------------------------------------------------------------------------

  /** `{type: "text", text}` */
  function TextObj(text: string): Json
  {
    Obj([("type", Str("text")), ("text", Str(text))])
  }

  predicate IsTextPart(p: Json)
  {
    Get(p, "type") == Str("text")
  }

  /** `{type: name, ...data, timestamp}` */
  function EventPart(name: string, data: Json, timestamp: int): Json
  {
    Obj(SetField(Spread([("type", Str(name))], SpreadEntries(data)), "timestamp", Num(timestamp)))
  }

  /** An event part carries the timestamp, every property of the payload
      except a `timestamp`, and the event's name as its type unless the
      payload has a `type` of its own. */
  lemma EventPartReads(name: string, data: Json, timestamp: int, k: string)
    ensures Get(EventPart(name, data, timestamp), k) ==
      if k == "timestamp" then Num(timestamp)
      else if HasKey(SpreadEntries(data), k) then Lookup(SpreadEntries(data), k)
      else if k == "type" then Str(name)
      else Undefined
  {
    var base := Spread([("type", Str(name))], SpreadEntries(data));
    SetFieldLookup(base, "timestamp", Num(timestamp), k);
    SpreadLookup([("type", Str(name))], SpreadEntries(data), k);
  }

  /** The text of the streamed text: the texts of the text parts, in order. */
  function TextOf(parts: seq<Json>): string
    decreases |parts|
  {
    if parts == [] then ""
    else
      var p := parts[|parts| - 1];
      TextOf(parts[..|parts| - 1]) + (if IsTextPart(p) then JsString(Get(p, "text")) else "")
  }

  /** The parts after the text of a text part at the end is set to `text`, or
      after a new text part holding `text` is added when the last part is not
      a text part. */
  function SetText(parts: seq<Json>, text: string): (r: seq<Json>)
    ensures |r| == |parts| || |r| == |parts| + 1
  {
    if |parts| > 0 && IsTextPart(parts[|parts| - 1]) then
      var last := parts[|parts| - 1];
      parts[..|parts| - 1] + [Obj(SetField(last.fields, "text", Str(text)))]
    else parts + [TextObj(text)]
  }

  /** The text of a text part at the end, "" when the last part is not one. */
  function TrailingText(parts: seq<Json>): string
  {
    if |parts| > 0 && IsTextPart(parts[|parts| - 1]) then JsString(Get(parts[|parts| - 1], "text")) else ""
  }

  /** The hook's text update: `currentText` gathers every delta of the
      request, and the part at the end is given all of it. */
  function SetTextAsWritten(parts: seq<Json>, currentText: string, delta: string): (seq<Json>, string)
  {
    var text := currentText + delta;
    (SetText(parts, text), text)
  }

  /** The corrected text update: a delta extends the text part at the end,
      or starts a new text part holding the delta alone after any other
      part. */
  function AddText(parts: seq<Json>, delta: string): seq<Json>
  {
    SetText(parts, TrailingText(parts) + delta)
  }

  lemma TextOfSnoc(parts: seq<Json>, p: Json)
    ensures TextOf(parts + [p]) == TextOf(parts) + (if IsTextPart(p) then JsString(Get(p, "text")) else "")
  {
    assert (parts + [p])[..|parts|] == parts;
  }

  /** With the corrected update, the text parts hold every delta once and in
      order. */
  lemma AddTextAppends(parts: seq<Json>, delta: string)
    ensures TextOf(AddText(parts, delta)) == TextOf(parts) + delta
  {
    if |parts| > 0 && IsTextPart(parts[|parts| - 1]) {
      ExtendTextPart(parts, delta);
    } else {
      assert TrailingText(parts) + delta == delta;
      TextObjFacts(delta);
      TextOfSnoc(parts, TextObj(delta));
    }
  }

  /** A delta after a text part extends that part's text. */
  lemma {:induction false} ExtendTextPart(parts: seq<Json>, delta: string)
    requires |parts| > 0 && IsTextPart(parts[|parts| - 1])
    ensures TextOf(AddText(parts, delta)) == TextOf(parts) + delta
  {
    var init := parts[..|parts| - 1];
    var before := JsString(Get(parts[|parts| - 1], "text"));
    TextOfRewritten(parts, delta);
    ConcatAssoc(TextOf(init), before, delta);
  }

  lemma ConcatAssoc(a: string, b: string, c: string)
    ensures a + (b + c) == (a + b) + c
  {
  }

  /** The parts after a delta end in the rewritten text part. */
  lemma {:induction false} TextOfRewritten(parts: seq<Json>, delta: string)
    requires |parts| > 0 && IsTextPart(parts[|parts| - 1])
    ensures TextOf(AddText(parts, delta))
      == TextOf(parts[..|parts| - 1]) + (JsString(Get(parts[|parts| - 1], "text")) + delta)
  {
    var init := parts[..|parts| - 1];
    var last := parts[|parts| - 1];
    var t := JsString(Get(last, "text")) + delta;
    var updated := Obj(SetField(last.fields, "text", Str(t)));
    assert AddText(parts, delta) == init + [updated];
    TextOfSnoc(init, updated);
    TextPartUpdated(last, t);
  }

  /** Setting the text field of a text part keeps it a text part. */
  lemma TextPartUpdated(last: Json, t: string)
    requires IsTextPart(last)
    ensures IsTextPart(Obj(SetField(last.fields, "text", Str(t))))
    ensures JsString(Get(Obj(SetField(last.fields, "text", Str(t))), "text")) == t
  {
    SetFieldLookup(last.fields, "text", Str(t), "type");
    SetFieldLookup(last.fields, "text", Str(t), "text");
  }

  /** A delta after a text part rewrites that part's text field. */
  lemma AddTextOnTextPart(init: seq<Json>, last: Json, delta: string)
    requires IsTextPart(last)
    ensures AddText(init + [last], delta)
      == init + [Obj(SetField(last.fields, "text", Str(JsString(Get(last, "text")) + delta)))]
  {
    var parts := init + [last];
    assert parts[..|parts| - 1] == init && parts[|parts| - 1] == last;
    assert TrailingText(parts) == JsString(Get(last, "text"));
  }

  lemma TextObjFacts(text: string)
    ensures IsTextPart(TextObj(text)) && Get(TextObj(text), "text") == Str(text)
  {
    var f := [("type", Str("text")), ("text", Str(text))];
    assert f[..1] == [("type", Str("text"))];
    assert Lookup(f, "type") == Lookup(f[..1], "type");
  }

  /** A part that is not a text part adds no text. */
  lemma OtherPartAddsNoText(parts: seq<Json>, p: Json)
    requires !IsTextPart(p)
    ensures TextOf(parts + [p]) == TextOf(parts)
  {
    TextOfSnoc(parts, p);
  }

  lemma {:induction false} TextOfAround(x: string, p: Json, y: string)
    requires !IsTextPart(p)
    ensures TextOf([TextObj(x), p, TextObj(y)]) == x + y
  {
    var one := [TextObj(x)];
    var two := one + [p];
    var three := two + [TextObj(y)];
    assert TextOf(one) == x by {
      TextObjFacts(x);
      TextOfSnoc([], TextObj(x));
      assert [] + [TextObj(x)] == one;
    }
    assert TextOf(two) == x by {
      TextOfSnoc(one, p);
    }
    assert TextOf(three) == x + y by {
      TextObjFacts(y);
      TextOfSnoc(two, TextObj(y));
    }
    assert three == [TextObj(x), p, TextObj(y)];
  }

  /** As written, text streamed after any other part is shown again: with
      deltas `a` and `b` around a part that is not a text part, the second
      text part holds `a + b`, so the message reads `a` twice. */
  lemma {:induction false} TextRepeatsAfterOtherPart(p: Json, a: string, b: string)
    requires !IsTextPart(p)
    ensures var s1 := SetTextAsWritten([], "", a); var s2 := SetTextAsWritten(s1.0 + [p], s1.1, b);
      && s2.0 == [TextObj(a), p, TextObj(a + b)]
      && TextOf(s2.0) == a + a + b
  {
    assert "" + a == a;
    assert SetText([], a) == [TextObj(a)];
    assert [TextObj(a)] + [p] == [TextObj(a), p];
    assert SetText([TextObj(a), p], a + b) == [TextObj(a), p, TextObj(a + b)];
    TextOfAround(a, p, a + b);
    ConcatAssoc(a, a, b);
  }

  /** With the corrected update the same stream gives the second text part
      `b` alone, and the message reads `a + b`. */
  lemma {:induction false} TextOnceAfterOtherPart(p: Json, a: string, b: string)
    requires !IsTextPart(p)
    ensures AddText(AddText([], a) + [p], b) == [TextObj(a), p, TextObj(b)]
    ensures TextOf(AddText(AddText([], a) + [p], b)) == a + b
  {
    assert "" + a == a && "" + b == b;
    assert AddText([], a) == [TextObj(a)];
    assert [TextObj(a)] + [p] == [TextObj(a), p];
    assert TrailingText([TextObj(a), p]) == "";
    assert AddText([TextObj(a), p], b) == [TextObj(a), p, TextObj(b)];
    TextOfAround(a, p, b);
  }

  /** The part of a custom event whose payload has no `type` is not a text
      part, whatever its name but "text". */
  lemma EventPartIsNotText(name: string, data: Json, timestamp: int)
    requires name != "text" && !HasKey(SpreadEntries(data), "type")
    ensures !IsTextPart(EventPart(name, data, timestamp))
  {
    EventPartReads(name, data, timestamp, "type");
  }

  // ---------------------------------------------------------------------------
  // Message updates
  // ---------------------------------------------------------------------------

  /** `prev.map(msg => msg.id === id ? {...msg, parts: [...msg.parts, part]} : msg)` */
  function AppendToMessages(messages: seq<Message>, id: string, part: Json): (r: seq<Message>)
    ensures |r| == |messages|
  {
    seq(|messages|, i requires 0 <= i < |messages| =>
      if messages[i].id == id then messages[i].(parts := messages[i].parts + [part]) else messages[i])
  }

  /** `prev.map(...)` of a text event: every message with the assistant's id
      gets `text` in the text part at its end, or in a new one. */
  function SetTextTo(messages: seq<Message>, id: string, text: string): (r: seq<Message>)
    ensures |r| == |messages|
  {
    seq(|messages|, i requires 0 <= i < |messages| =>
      if messages[i].id == id then messages[i].(parts := SetText(messages[i].parts, text)) else messages[i])
  }

  /** appendPartToCurrentMessage: nothing without a cursor. */
  function AppendPart(s: FullState, part: Json): FullState
  {
    if s.cursor.None? || s.cursor.value == "" then s
    else s.(messages := AppendToMessages(s.messages, s.cursor.value, part))
  }

  /** The todos of a `todos-changed` payload: `(data.todos || []).map(...)`.
      None where that throws: a null or undefined payload, a list that is not
      an array, or a null or undefined item. */
  function TodosFromData(data: Json): (r: Option<seq<QueueTodo>>)
    ensures r.Some? <==>
      (!IsNullish(data) && Or(Get(data, "todos"), Arr([])).Arr?
       && ChatApi.NoNullish(Or(Get(data, "todos"), Arr([])).items))
    ensures r.Some? ==> (!IsNullish(data) && Or(Get(data, "todos"), Arr([])).Arr?
      && var items := Or(Get(data, "todos"), Arr([])).items;
         |r.value| == |items| && forall i :: 0 <= i < |items| ==> r.value[i] == ChatApi.QueueTodoOf(items[i]))
  {
    if IsNullish(data) then None
    else
      var list := Or(Get(data, "todos"), Arr([]));
      if !list.Arr? || !ChatApi.NoNullish(list.items) then None
      else Some(seq(|list.items|, i requires 0 <= i < |list.items| => ChatApi.QueueTodoOf(list.items[i])))
  }

  /** handleDataEvent: reads the clock once, then appends a part for one of
      the eighteen custom kinds or replaces the todos for `todos-changed`;
      any other name changes nothing else. */
  function HandleData(s: FullState, name: Json, data: Json, clock: nat -> int): FullState
  {
    var timestamp := clock(s.ticks);
    var s1 := s.(ticks := s.ticks + 1);
    if name.Str? && AgentEvents.KindOfName(name.s).Some? then AppendPart(s1, EventPart(name.s, data, timestamp))
    else if name == Str("todos-changed") then
      var todos := TodosFromData(data);
      if todos.Some? then s1.(todos := todos.value) else s1
    else s1
  }

  /** The branch on one parsed event; `assistantId` is the id of this
      request's assistant message. */
  function Dispatch(s: FullState, assistantId: string, event: Json, clock: nat -> int): FullState
  {
    var t := Get(event, "type");
    if t == Str("text-delta") || t == Str("text") then
      var delta := JsString(Or(Get(event, "text"), Or(Get(event, "delta"), Str(""))));
      var text := s.currentText + delta;
      s.(messages := SetTextTo(s.messages, assistantId, text), currentText := text)
    else if t == Str("tool-output-available") then s.(refreshes := s.refreshes + 1)
    else if t == Str("data") then HandleData(s, Get(event, "name"), Get(event, "data"), clock)
    else s
  }

  /** One line: the state after it, and whether it was `[DONE]`, which ends
      the handling of its chunk (the reader loop goes on). */
  function HandleLine(s: FullState, assistantId: string, line: string, parse: string -> Option<Json>, clock: nat -> int): (FullState, bool)
  {
    if !StartsWith(line, "data: ") then (s, false)
    else
      var data := line[6..];
      if data == "[DONE]" then (s.(status := Ready, cursor := None), true)
      else
        var event := parse(data);
        if event.None? || IsNullish(event.value) then (s, false)
        else (Dispatch(s, assistantId, event.value, clock), false)
  }

  function HandleLines(s: FullState, assistantId: string, lines: seq<string>, parse: string -> Option<Json>, clock: nat -> int): FullState
    decreases |lines|
  {
    if lines == [] then s
    else
      var r := HandleLine(s, assistantId, lines[0], parse, clock);
      if r.1 then r.0 else HandleLines(r.0, assistantId, lines[1..], parse, clock)
  }

  function ReadChunks(s: FullState, assistantId: string, chunks: seq<string>, parse: string -> Option<Json>, clock: nat -> int): FullState
    decreases |chunks|
  {
    if chunks == [] then s
    else ReadChunks(HandleLines(s, assistantId, Split(chunks[0], '\n'), parse, clock), assistantId, chunks[1..], parse, clock)
  }

  /** The catch block: an abort leaves the hook ready, any other error shows
      its message (or a fallback for an empty one); both clear the cursor. */
  function Failed(s: FullState, e: Thrown): FullState
  {
    if !IsAbort(e) then
      s.(status := UIError, errorMessage := Some(if e.message != "" then e.message else "An unexpected error occurred"), cursor := None)
    else s.(status := Ready, cursor := None)
  }

  /** The message of the error thrown for a response that is not OK: the
      body's `error` when it parsed and that is truthy, the status line
      otherwise. */
  function HttpErrorMessage(code: int, body: Option<Json>): string
  {
    if body.Some? && !IsNullish(body.value) && Truthy(Get(body.value, "error")) then JsString(Get(body.value, "error"))
    else "HTTP error! status: " + IntToString(code)
  }

  function UserId(now: int): string
  {
    "msg-" + IntToString(now) + "-user"
  }

  function AssistantId(now: int): string
  {
    "msg-" + IntToString(now) + "-assistant"
  }

  /** The state once the request is set up: streaming, no error, a
      controller, and the user's message and an empty assistant message
      appended, the cursor on the latter; nothing streamed yet. */
  function Started(s: FullState, text: string, clock: nat -> int): FullState
  {
    SetUp(s, text, UserId(clock(s.ticks)), AssistantId(clock(s.ticks + 1)))
  }

  /** The ids `Started` reads are those of the clock at the state's tick
      count and the next one. */
  lemma StartedAt(s: FullState, text: string, clock: nat -> int, t: nat)
    requires s.ticks == t
    ensures Started(s, text, clock) == SetUp(s, text, UserId(clock(t)), AssistantId(clock(t + 1)))
  {
  }

  /** `Started` with the two message ids already read off the clock. */
  function SetUp(s: FullState, text: string, userId: string, assistantId: string): FullState
  {
    s.(status := UIStreaming, errorMessage := None, controller := true, cursor := Some(assistantId),
       messages := s.messages + [Message(userId, User, [TextObj(text)]), Message(assistantId, Assistant, [])],
       ticks := s.ticks + 2, currentText := "")
  }

  /** sendMessage */
  function Send(s: FullState, text: string, response: Response, parse: string -> Option<Json>, clock: nat -> int): FullState
  {
    if IsBlank(text) then s
    else Respond(Started(s, text, clock), AssistantId(clock(s.ticks + 1)), response, parse, clock)
  }

  /** A send that is not blank is its set-up followed by the response. */
  lemma SendResponds(s: FullState, text: string, response: Response, parse: string -> Option<Json>, clock: nat -> int)
    requires !IsBlank(text)
    ensures Send(s, text, response, parse, clock) == Respond(Started(s, text, clock), AssistantId(clock(s.ticks + 1)), response, parse, clock)
  {
  }

  /** What follows the set-up of a request: the failure a response that is
      not read ends in, or the body read chunk by chunk and then the failure
      that broke it off, if any. */
  function Respond(started: FullState, assistantId: string, response: Response, parse: string -> Option<Json>, clock: nat -> int): FullState
  {
    match response
    case Rejected(e) => Failed(started, e)
    case HttpStatus(code, body) => Failed(started, PlainError(HttpErrorMessage(code, body)))
    case NoReader => Failed(started, PlainError("No reader available"))
    case Body(chunks, failure) =>
      var read := ReadChunks(started, assistantId, chunks, parse, clock);
      if failure.Some? then Failed(read, failure.value) else read
  }

  /** abort */
  function Aborted(s: FullState): FullState
  {
    if s.controller then s.(status := Ready) else s
  }

  /** clear */
  function Cleared(s: FullState): FullState
  {
    s.(messages := [], todos := [], status := Ready, refreshes := s.refreshes + 1)
  }

  /** `eventTypes.includes(part.type)` */
  predicate IsEventPart(p: Json)
  {
    Get(p, "type").Str? && AgentEvents.KindOfName(Get(p, "type").s).Some?
  }

  /** `parts.filter(part => !eventTypes.includes(part.type))` */
  function WithoutEventParts(parts: seq<Json>): (r: seq<Json>)
    ensures |r| <= |parts|
    decreases |parts|
  {
    if parts == [] then []
    else
      var p := parts[|parts| - 1];
      WithoutEventParts(parts[..|parts| - 1]) + (if IsEventPart(p) then [] else [p])
  }

  /** clearEvents */
  function EventsCleared(s: FullState): FullState
  {
    s.(messages := seq(|s.messages|, i requires 0 <= i < |s.messages| =>
      s.messages[i].(parts := WithoutEventParts(s.messages[i].parts))))
  }

  // ---------------------------------------------------------------------------
  // Task cards
  // ---------------------------------------------------------------------------

  function ToolEventOfPart(p: Json): ToolEvent
  {
    if Get(p, "type") == Str("tool-call") then
      CallEvent(ToolCall(Get(p, "toolCallId"), Get(p, "toolName"), Get(p, "args")))
    else if Get(p, "type") == Str("tool-result") then
      ResultEvent(Get(p, "toolCallId"), ToolResult(Get(p, "result"), Get(p, "isError")))
    else NoToolEvent
  }

  function PartsToolEvents(parts: seq<Json>): (r: seq<ToolEvent>)
    ensures |r| == |parts|
    ensures forall i :: 0 <= i < |parts| ==> r[i] == ToolEventOfPart(parts[i])
  {
    seq(|parts|, i requires 0 <= i < |parts| => ToolEventOfPart(parts[i]))
  }

  lemma PartsSnoc(before: seq<ToolEvent>, parts: seq<Json>, j: nat)
    requires j < |parts|
    ensures before + PartsToolEvents(parts[..j + 1]) == before + PartsToolEvents(parts[..j]) + [ToolEventOfPart(parts[j])]
  {
    assert PartsToolEvents(parts[..j + 1]) == PartsToolEvents(parts[..j]) + [ToolEventOfPart(parts[j])];
  }

  /** The tool events of the assistant messages' parts, in order. */
  function MessagesToolEvents(messages: seq<Message>): seq<ToolEvent>
    decreases |messages|
  {
    if messages == [] then []
    else
      var m := messages[|messages| - 1];
      MessagesToolEvents(messages[..|messages| - 1]) + (if m.role == Assistant then PartsToolEvents(m.parts) else [])
  }

  /** A string as it is, anything else through `pretty`, which stands for
      `JSON.stringify(v, null, 2)`. */
  function Shown(v: Json, pretty: Json -> string): string
  {
    if v.Str? then v.s else pretty(v)
  }

  /** The card of one map entry. Without a result a task is in progress,
      whatever the status of the chat. */
  function FullTaskOf(e: Entry, pretty: Json -> string): (t: Task)
    ensures t.toolCallId == e.call.toolCallId && t.toolName == e.call.toolName
    ensures t.status == TaskError <==> e.result.Some? && Truthy(e.result.value.isError)
    ensures t.status == TaskCompleted <==> e.result.Some? && !Truthy(e.result.value.isError)
    ensures t.status == TaskInProgress <==> e.result.None?
    ensures t.status != TaskPending
    ensures (|t.items| > 0 && t.items[0].kind == InputItem) <==> Truthy(e.call.args)
    ensures |t.items| == (if Truthy(e.call.args) then 2 else 1)
    ensures t.items[|t.items| - 1].kind == StatusItemKind(t.status)
    ensures Truthy(e.call.args) ==> t.items[0] == TaskItem(InputItem, Shown(e.call.args, pretty), e.call.args)
    ensures t.status == TaskError ==>
      t.items[|t.items| - 1] == TaskItem(ErrorItem, JsString(e.result.value.result), e.result.value.result)
    ensures t.status == TaskCompleted ==>
      t.items[|t.items| - 1] == TaskItem(ResultItem, Shown(e.result.value.result, pretty), e.result.value.result)
    ensures t.status == TaskInProgress ==>
      t.items[|t.items| - 1] == TaskItem(ProcessingItem, "Running...", Undefined)
  {
    var input := if Truthy(e.call.args) then [TaskItem(InputItem, Shown(e.call.args, pretty), e.call.args)] else [];
    if e.result.Some? then
      var res := e.result.value;
      if Truthy(res.isError) then
        Task(e.call.toolCallId, e.call.toolName, TaskError, input + [TaskItem(ErrorItem, JsString(res.result), res.result)])
      else
        Task(e.call.toolCallId, e.call.toolName, TaskCompleted, input + [TaskItem(ResultItem, Shown(res.result, pretty), res.result)])
    else
      Task(e.call.toolCallId, e.call.toolName, TaskInProgress, input + [TaskItem(ProcessingItem, "Running...", Undefined)])
  }

  function FullTasksOf(entries: seq<Entry>, pretty: Json -> string): (r: seq<Task>)
    ensures |r| == |entries|
    ensures forall i :: 0 <= i < |entries| ==> r[i] == FullTaskOf(entries[i], pretty)
  {
    seq(|entries|, i requires 0 <= i < |entries| => FullTaskOf(entries[i], pretty))
  }

  /** The task cards the hook returns. */
  function TaskParts(messages: seq<Message>, pretty: Json -> string): seq<Task>
  {
    FullTasksOf(Group(MessagesToolEvents(messages)), pretty)
  }

  /** The inner loop of extractTaskParts over one message's parts. */
  method RecordParts(toolMap: seq<Entry>, parts: seq<Json>, ghost before: seq<ToolEvent>) returns (m: seq<Entry>)
    requires toolMap == Group(before)
    ensures m == Group(before + PartsToolEvents(parts))
  {
    m := toolMap;
    var j := 0;
    ghost var seen := before;
    assert before + PartsToolEvents(parts[..0]) == before;
    while j < |parts|
      invariant 0 <= j <= |parts|
      invariant seen == before + PartsToolEvents(parts[..j])
      invariant m == Group(seen)
    {
      var ev := ToolEventOfPart(parts[j]);
      m := RecordEvent(m, ev);
      GroupSnoc(seen, ev);
      PartsSnoc(before, parts, j);
      seen := seen + [ev];
      j := j + 1;
    }
    assert parts[..j] == parts;
  }

  // ---------------------------------------------------------------------------
  // Properties
  // ---------------------------------------------------------------------------

  /** Both hooks turn a todo into `{id, title: content, status}` with only
      `completed` kept; this one keeps a cancelled todo and shows it as
      pending, where the basic hook drops it. Without cancelled todos the two
      lists agree. */
  lemma TodoListsOfBothHooks(items: seq<Json>)
    requires ChatApi.NoNullish(items)
    ensures var r := TodosFromData(Obj([("todos", Arr(items))]));
      && r.Some? && |r.value| == |items|
      && (forall i :: 0 <= i < |items| && ChatApi.IsCancelled(items[i]) ==> r.value[i].status == QueuePending)
      && ((forall i :: 0 <= i < |items| ==> !ChatApi.IsCancelled(items[i])) ==> ChatApi.ConvertToQueueTodos(items) == r)
  {
    var data := Obj([("todos", Arr(items))]);
    assert Get(data, "todos") == Arr(items);
    if forall i :: 0 <= i < |items| ==> !ChatApi.IsCancelled(items[i]) {
      KeepsAll(items);
    }
  }

  lemma {:induction false} KeepsAll(items: seq<Json>)
    requires forall i :: 0 <= i < |items| ==> !ChatApi.IsCancelled(items[i])
    ensures ChatApi.KeptTodos(items) == items
    decreases |items|
  {
    if items != [] {
      var init := items[..|items| - 1];
      KeepsAll(init);
      assert init + [items[|items| - 1]] == items;
    }
  }

  /** `ms` differs from `ms0` at most in the parts of messages with the id
      `id`. */
  predicate Untouched(ms0: seq<Message>, ms: seq<Message>, id: string)
  {
    && |ms| == |ms0|
    && forall i :: 0 <= i < |ms| ==>
         ms[i].id == ms0[i].id && ms[i].role == ms0[i].role && (ms0[i].id != id ==> ms[i] == ms0[i])
  }

  lemma UntouchedTransitive(a: seq<Message>, b: seq<Message>, c: seq<Message>, id: string)
    requires Untouched(a, b, id) && Untouched(b, c, id)
    ensures Untouched(a, c, id)
  {
  }

  /** While a request streams, the cursor is on its assistant message and the
      status is streaming, or `[DONE]` has cleared the cursor and made the
      hook ready. */
  predicate InTurn(s: FullState, assistantId: string)
  {
    || (s.status == UIStreaming && s.cursor == Some(assistantId))
    || (s.status == Ready && s.cursor.None?)
  }

  lemma DispatchInTurn(s: FullState, assistantId: string, event: Json, clock: nat -> int)
    requires s.cursor.None? || s.cursor == Some(assistantId)
    ensures var r := Dispatch(s, assistantId, event, clock);
      Untouched(s.messages, r.messages, assistantId) && r.status == s.status && r.cursor == s.cursor
  {
    var t := Get(event, "type");
    if t == Str("text-delta") || t == Str("text") {
      var delta := JsString(Or(Get(event, "text"), Or(Get(event, "delta"), Str(""))));
      assert Untouched(s.messages, SetTextTo(s.messages, assistantId, s.currentText + delta), assistantId);
    } else if t == Str("data") {
      HandleDataInTurn(s, assistantId, Get(event, "name"), Get(event, "data"), clock);
    }
  }

  lemma HandleDataInTurn(s: FullState, assistantId: string, name: Json, data: Json, clock: nat -> int)
    requires s.cursor.None? || s.cursor == Some(assistantId)
    ensures var r := HandleData(s, name, data, clock);
      Untouched(s.messages, r.messages, assistantId) && r.status == s.status && r.cursor == s.cursor
  {
    if name.Str? && AgentEvents.KindOfName(name.s).Some? && s.cursor.Some? && s.cursor.value != "" {
      var part := EventPart(name.s, data, clock(s.ticks));
      assert Untouched(s.messages, AppendToMessages(s.messages, assistantId, part), assistantId);
    }
  }

  lemma {:induction false} HandleLinesInTurn(s: FullState, assistantId: string, lines: seq<string>, parse: string -> Option<Json>, clock: nat -> int)
    requires InTurn(s, assistantId)
    ensures var r := HandleLines(s, assistantId, lines, parse, clock);
      InTurn(r, assistantId) && Untouched(s.messages, r.messages, assistantId)
    decreases |lines|
  {
    if lines != [] {
      var line := lines[0];
      var h := HandleLine(s, assistantId, line, parse, clock);
      if StartsWith(line, "data: ") && line[6..] != "[DONE]" {
        var event := parse(line[6..]);
        if event.Some? && !IsNullish(event.value) {
          DispatchInTurn(s, assistantId, event.value, clock);
        }
      }
      assert InTurn(h.0, assistantId) && Untouched(s.messages, h.0.messages, assistantId);
      if !h.1 {
        HandleLinesInTurn(h.0, assistantId, lines[1..], parse, clock);
        UntouchedTransitive(s.messages, h.0.messages, HandleLines(h.0, assistantId, lines[1..], parse, clock).messages, assistantId);
      }
    }
  }

  lemma {:induction false} ReadChunksInTurn(s: FullState, assistantId: string, chunks: seq<string>, parse: string -> Option<Json>, clock: nat -> int)
    requires InTurn(s, assistantId)
    ensures var r := ReadChunks(s, assistantId, chunks, parse, clock);
      InTurn(r, assistantId) && Untouched(s.messages, r.messages, assistantId)
    decreases |chunks|
  {
    if chunks != [] {
      var h := HandleLines(s, assistantId, Split(chunks[0], '\n'), parse, clock);
      HandleLinesInTurn(s, assistantId, Split(chunks[0], '\n'), parse, clock);
      ReadChunksInTurn(h, assistantId, chunks[1..], parse, clock);
      UntouchedTransitive(s.messages, h.messages, ReadChunks(h, assistantId, chunks[1..], parse, clock).messages, assistantId);
    }
  }

  // ---------------------------------------------------------------------------
  // What a request has streamed
  // ---------------------------------------------------------------------------

  /** The delta of a parsed event when it is a text event (`text` or
      `text-delta`): its `text`, else its `delta`, else "". */
  function EventDelta(event: Json): Option<string>
  {
    var t := Get(event, "type");
    if t == Str("text-delta") || t == Str("text") then Some(JsString(Or(Get(event, "text"), Or(Get(event, "delta"), Str("")))))
    else None
  }

  predicate IsDoneLine(line: string)
  {
    StartsWith(line, "data: ") && line[6..] == "[DONE]"
  }

  /** The delta of one line: that of the text event it carries, "" for any
      other line. */
  function LineDelta(line: string, parse: string -> Option<Json>): string
  {
    if !StartsWith(line, "data: ") || IsDoneLine(line) then ""
    else
      var event := parse(line[6..]);
      if event.None? || IsNullish(event.value) || EventDelta(event.value).None? then "" else EventDelta(event.value).value
  }

  /** The deltas of the text events among a chunk's lines, in order, up to a
      `[DONE]` line. */
  function LineDeltas(lines: seq<string>, parse: string -> Option<Json>): string
    decreases |lines|
  {
    if lines == [] || IsDoneLine(lines[0]) then ""
    else LineDelta(lines[0], parse) + LineDeltas(lines[1..], parse)
  }

  /** The deltas of the text events of a response body, chunk by chunk. */
  function ChunkDeltas(chunks: seq<string>, parse: string -> Option<Json>): string
    decreases |chunks|
  {
    if chunks == [] then "" else LineDeltas(Split(chunks[0], '\n'), parse) + ChunkDeltas(chunks[1..], parse)
  }

  /** The last part is a text part holding `t`. */
  predicate EndsWithText(parts: seq<Json>, t: string)
  {
    |parts| > 0 && IsTextPart(parts[|parts| - 1]) && JsString(Get(parts[|parts| - 1], "text")) == t
  }

  lemma SetTextEnds(parts: seq<Json>, t: string)
    ensures EndsWithText(SetText(parts, t), t)
  {
    if |parts| > 0 && IsTextPart(parts[|parts| - 1]) {
      TextPartUpdated(parts[|parts| - 1], t);
    } else {
      TextObjFacts(t);
    }
  }

  /** A text event adds its delta to `currentText` and puts the whole of
      `currentText` in the text part at the end of the assistant message, so
      that part holds every delta of the request, not only those since the
      last other part; any other event leaves `currentText` as it was. */
  lemma DispatchStreams(s: FullState, assistantId: string, event: Json, clock: nat -> int)
    ensures var r := Dispatch(s, assistantId, event, clock);
      && r.currentText == s.currentText + (if EventDelta(event).Some? then EventDelta(event).value else "")
      && (EventDelta(event).Some? ==>
            forall i :: 0 <= i < |r.messages| && r.messages[i].id == assistantId ==> EndsWithText(r.messages[i].parts, r.currentText))
  {
    if EventDelta(event).Some? {
      var r := Dispatch(s, assistantId, event, clock);
      forall i | 0 <= i < |r.messages| && r.messages[i].id == assistantId
        ensures EndsWithText(r.messages[i].parts, r.currentText)
      {
        SetTextEnds(s.messages[i].parts, r.currentText);
      }
    }
  }

  /** One line ends its chunk exactly when it is `[DONE]`, and extends
      `currentText` by its delta. */
  lemma HandleLineStreams(s: FullState, assistantId: string, line: string, parse: string -> Option<Json>, clock: nat -> int)
    ensures HandleLine(s, assistantId, line, parse, clock).1 == IsDoneLine(line)
    ensures HandleLine(s, assistantId, line, parse, clock).0.currentText == s.currentText + LineDelta(line, parse)
  {
    if StartsWith(line, "data: ") && !IsDoneLine(line) {
      var event := parse(line[6..]);
      if event.Some? && !IsNullish(event.value) {
        DispatchStreams(s, assistantId, event.value, clock);
      } else {
        assert s.currentText + "" == s.currentText;
      }
    } else {
      assert s.currentText + "" == s.currentText;
    }
  }

  lemma {:induction false} HandleLinesStreams(s: FullState, assistantId: string, lines: seq<string>, parse: string -> Option<Json>, clock: nat -> int)
    ensures HandleLines(s, assistantId, lines, parse, clock).currentText == s.currentText + LineDeltas(lines, parse)
    decreases |lines|
  {
    if lines == [] {
      assert s.currentText + "" == s.currentText;
    } else {
      var h := HandleLine(s, assistantId, lines[0], parse, clock);
      HandleLineStreams(s, assistantId, lines[0], parse, clock);
      if h.1 {
        assert s.currentText + "" == s.currentText;
      } else {
        HandleLinesStreams(h.0, assistantId, lines[1..], parse, clock);
        ConcatAssoc(s.currentText, LineDelta(lines[0], parse), LineDeltas(lines[1..], parse));
      }
    }
  }

  lemma {:induction false} ReadChunksStreams(s: FullState, assistantId: string, chunks: seq<string>, parse: string -> Option<Json>, clock: nat -> int)
    ensures ReadChunks(s, assistantId, chunks, parse, clock).currentText == s.currentText + ChunkDeltas(chunks, parse)
    decreases |chunks|
  {
    if chunks != [] {
      var lines := Split(chunks[0], '\n');
      var h := HandleLines(s, assistantId, lines, parse, clock);
      HandleLinesStreams(s, assistantId, lines, parse, clock);
      ReadChunksStreams(h, assistantId, chunks[1..], parse, clock);
      ConcatAssoc(s.currentText, LineDeltas(lines, parse), ChunkDeltas(chunks[1..], parse));
    }
  }

  /** A send with a body reads its chunks after setting up the request. */
  lemma SendBody(s: FullState, text: string, chunks: seq<string>, failure: Option<Thrown>,
                 parse: string -> Option<Json>, clock: nat -> int)
    requires !IsBlank(text)
    ensures var read := ReadChunks(Started(s, text, clock), AssistantId(clock(s.ticks + 1)), chunks, parse, clock);
      Send(s, text, Body(chunks, failure), parse, clock) == if failure.Some? then Failed(read, failure.value) else read
  {
  }

  /** `currentText` starts empty with each request and ends holding every
      delta of its body, in order, however the stream ends. */
  lemma SendStreamsAllDeltas(s: FullState, text: string, chunks: seq<string>, failure: Option<Thrown>,
                             parse: string -> Option<Json>, clock: nat -> int)
    requires !IsBlank(text)
    ensures Send(s, text, Body(chunks, failure), parse, clock).currentText == ChunkDeltas(chunks, parse)
  {
    var started := Started(s, text, clock);
    var read := ReadChunks(started, AssistantId(clock(s.ticks + 1)), chunks, parse, clock);
    assert read.currentText == ChunkDeltas(chunks, parse) by {
      ReadChunksStreams(started, AssistantId(clock(s.ticks + 1)), chunks, parse, clock);
      assert started.currentText == "";
    }
    SendBody(s, text, chunks, failure, parse, clock);
  }

  lemma UserIdIsNotAssistantId(a: int, b: int)
    ensures UserId(a) != AssistantId(b)
  {
    assert UserId(a)[|UserId(a)| - 1] == 'r';
    assert AssistantId(b)[|AssistantId(b)| - 1] == 't';
  }

  /** A send appends the user's message and the assistant message and then
      writes only into messages with the assistant message's id: the user's
      message keeps its one text part and every earlier message with another
      id is left as it was. When the stream ends normally the hook is either
      ready with the cursor cleared (`[DONE]` arrived) or still streaming with
      the cursor on the assistant message (it did not). */
  lemma SendTouchesOnlyItsTurn(s: FullState, text: string, chunks: seq<string>, failure: Option<Thrown>,
                               parse: string -> Option<Json>, clock: nat -> int)
    requires !IsBlank(text)
    ensures var r := Send(s, text, Body(chunks, failure), parse, clock);
      var a := AssistantId(clock(s.ticks + 1));
      && |r.messages| == |s.messages| + 2
      && r.messages[|s.messages|] == Message(UserId(clock(s.ticks)), User, [TextObj(text)])
      && r.messages[|s.messages| + 1].id == a && r.messages[|s.messages| + 1].role == Assistant
      && (forall i :: 0 <= i < |s.messages| && s.messages[i].id != a ==> r.messages[i] == s.messages[i])
      && (failure.None? ==> InTurn(r, a))
  {
    var started := Started(s, text, clock);
    var a := AssistantId(clock(s.ticks + 1));
    UserIdIsNotAssistantId(clock(s.ticks), clock(s.ticks + 1));
    ReadChunksInTurn(started, a, chunks, parse, clock);
    var read := ReadChunks(started, a, chunks, parse, clock);
    assert read.messages[|s.messages|] == started.messages[|s.messages|];
  }

  /** Any other way a request ends clears the cursor: an abort leaves the
      hook ready with no error message, any other error shows its message, or
      the fallback for an empty one. A status that is not OK shows the
      response's `error` when it is truthy. */
  lemma FailureShowsMessage(s: FullState, text: string, response: Response, parse: string -> Option<Json>, clock: nat -> int)
    requires !IsBlank(text) && !response.Body?
    ensures var r := Send(s, text, response, parse, clock);
      var e := match response
        case Rejected(e) => e
        case HttpStatus(code, body) => PlainError(HttpErrorMessage(code, body))
        case NoReader => PlainError("No reader available")
        case Body(_, _) => PlainError("");
      && r.cursor.None?
      && (IsAbort(e) ==> r.status == Ready && r.errorMessage.None?)
      && (!IsAbort(e) ==> r.status == UIError && r.errorMessage == Some(if e.message != "" then e.message else "An unexpected error occurred"))
  {
  }

  /** The controller is never released, so once a message was sent an abort
      makes the hook ready even after its request has ended. */
  lemma AbortAfterRequestEnded(s: FullState, text: string, response: Response, parse: string -> Option<Json>, clock: nat -> int)
    requires !IsBlank(text)
    ensures Send(s, text, response, parse, clock).controller
    ensures Aborted(Send(s, text, response, parse, clock)).status == Ready
  {
    var started := Started(s, text, clock);
    if response.Body? {
      ReadChunksKeepsController(started, AssistantId(clock(s.ticks + 1)), response.chunks, parse, clock);
    }
  }

  lemma {:induction false} ReadChunksKeepsController(s: FullState, assistantId: string, chunks: seq<string>, parse: string -> Option<Json>, clock: nat -> int)
    ensures ReadChunks(s, assistantId, chunks, parse, clock).controller == s.controller
    decreases |chunks|
  {
    if chunks != [] {
      HandleLinesKeepsController(s, assistantId, Split(chunks[0], '\n'), parse, clock);
      ReadChunksKeepsController(HandleLines(s, assistantId, Split(chunks[0], '\n'), parse, clock), assistantId, chunks[1..], parse, clock);
    }
  }

  lemma {:induction false} HandleLinesKeepsController(s: FullState, assistantId: string, lines: seq<string>, parse: string -> Option<Json>, clock: nat -> int)
    ensures HandleLines(s, assistantId, lines, parse, clock).controller == s.controller
    decreases |lines|
  {
    if lines != [] {
      var h := HandleLine(s, assistantId, lines[0], parse, clock);
      assert h.0.controller == s.controller;
      if !h.1 {
        HandleLinesKeepsController(h.0, assistantId, lines[1..], parse, clock);
      }
    }
  }

  /** After `[DONE]` the cursor is cleared, so a later custom event adds no
      part, while a later text delta still lands in the assistant message,
      which text updates find by its id. */
  lemma AfterDoneOnlyTextLands(s: FullState, assistantId: string, name: string, data: Json, delta: string, clock: nat -> int)
    requires s.cursor.None?
    ensures Dispatch(s, assistantId, Obj([("type", Str("data")), ("name", Str(name)), ("data", data)]), clock).messages == s.messages
    ensures Dispatch(s, assistantId, Obj([("type", Str("text-delta")), ("delta", Str(delta))]), clock).messages
      == SetTextTo(s.messages, assistantId, s.currentText + delta)
  {
    var fd := [("type", Str("data")), ("name", Str(name)), ("data", data)];
    assert Dispatch(s, assistantId, Obj(fd), clock).messages == s.messages by {
      LookupUnique(fd, 0);
    }
    var ft := [("type", Str("text-delta")), ("delta", Str(delta))];
    assert Get(Obj(ft), "type") == Str("text-delta") by {
      LookupUnique(ft, 0);
    }
    assert Or(Get(Obj(ft), "text"), Or(Get(Obj(ft), "delta"), Str(""))) == Str(delta) by {
      LookupUnique(ft, 1);
      assert Get(Obj(ft), "text") == Undefined;
    }
  }

  /** A `[DONE]` line ends the handling of its chunk: the hook is ready, the
      cursor is cleared and the chunk's later lines are not read. */
  lemma DoneEndsChunk(s: FullState, assistantId: string, rest: string, parse: string -> Option<Json>, clock: nat -> int)
    ensures HandleLines(s, assistantId, Split("data: [DONE]\n" + rest, '\n'), parse, clock) == s.(status := Ready, cursor := None)
  {
    var line := "data: [DONE]";
    assert "data: [DONE]\n" + rest == line + ['\n'] + rest;
    SplitPrefix(line, rest, '\n');
    assert StartsWith(line, "data: ") && line[6..] == "[DONE]";
  }

  // clearEvents

  lemma {:induction false} WithoutEventPartsFilter(parts: seq<Json>)
    ensures forall p :: p in WithoutEventParts(parts) <==> p in parts && !IsEventPart(p)
    decreases |parts|
  {
    if parts != [] {
      WithoutEventPartsFilter(parts[..|parts| - 1]);
      assert parts == parts[..|parts| - 1] + [parts[|parts| - 1]];
    }
  }

  lemma {:induction false} WithoutEventPartsAppend(a: seq<Json>, b: seq<Json>)
    ensures WithoutEventParts(a + b) == WithoutEventParts(a) + WithoutEventParts(b)
    decreases |b|
  {
    if b == [] {
      assert a + b == a;
    } else {
      assert (a + b)[..|a + b| - 1] == a + b[..|b| - 1];
      WithoutEventPartsAppend(a, b[..|b| - 1]);
    }
  }

  lemma EventPartIsNotTextPart(p: Json)
    requires IsEventPart(p)
    ensures !IsTextPart(p)
  {
    assert AgentEvents.KindOfName("text").None?;
  }

  /** Clearing loses no streamed text. */
  lemma {:induction false} ClearEventsKeepsText(parts: seq<Json>)
    ensures TextOf(WithoutEventParts(parts)) == TextOf(parts)
    decreases |parts|
  {
    if parts != [] {
      var init := parts[..|parts| - 1];
      var p := parts[|parts| - 1];
      ClearEventsKeepsText(init);
      assert parts == init + [p];
      TextOfSnoc(init, p);
      if IsEventPart(p) {
        EventPartIsNotTextPart(p);
        assert WithoutEventParts(parts) == WithoutEventParts(init) + [];
        assert WithoutEventParts(init) + [] == WithoutEventParts(init);
        assert TextOf(parts) == TextOf(init) + "";
        assert TextOf(init) + "" == TextOf(init);
      } else {
        assert WithoutEventParts(parts) == WithoutEventParts(init) + [p];
        TextOfSnoc(WithoutEventParts(init), p);
      }
    }
  }

  /** A second clear changes nothing. */
  lemma {:induction false} ClearEventsIdempotent(parts: seq<Json>)
    ensures WithoutEventParts(WithoutEventParts(parts)) == WithoutEventParts(parts)
    decreases |parts|
  {
    if parts != [] {
      var init := parts[..|parts| - 1];
      var p := parts[|parts| - 1];
      ClearEventsIdempotent(init);
      if IsEventPart(p) {
        assert WithoutEventParts(parts) == WithoutEventParts(init) + [];
        assert WithoutEventParts(init) + [] == WithoutEventParts(init);
      } else {
        assert WithoutEventParts(parts) == WithoutEventParts(init) + [p];
        WithoutEventPartsAppend(WithoutEventParts(init), [p]);
        assert [p][..0] == [];
        assert WithoutEventParts([p]) == WithoutEventParts([]) + [p];
      }
    }
  }

  // Task cards

  predicate IsCallPart(p: Json)
  {
    Get(p, "type") == Str("tool-call")
  }

  /** No part of an assistant message is a tool call. */
  predicate NoCallParts(messages: seq<Message>)
  {
    forall i, j :: 0 <= i < |messages| && 0 <= j < |messages[i].parts| ==> !IsCallPart(messages[i].parts[j])
  }

  lemma {:induction false} GroupWithoutCalls(evs: seq<ToolEvent>)
    requires forall i :: 0 <= i < |evs| ==> !evs[i].CallEvent?
    ensures Group(evs) == []
    decreases |evs|
  {
    if evs != [] {
      GroupWithoutCalls(evs[..|evs| - 1]);
    }
  }

  lemma {:induction false} MessagesWithoutCalls(messages: seq<Message>)
    requires NoCallParts(messages)
    ensures forall i :: 0 <= i < |MessagesToolEvents(messages)| ==> !MessagesToolEvents(messages)[i].CallEvent?
    decreases |messages|
  {
    if messages != [] {
      var init := messages[..|messages| - 1];
      assert NoCallParts(init) by {
        forall i, j | 0 <= i < |init| && 0 <= j < |init[i].parts|
          ensures !IsCallPart(init[i].parts[j])
        {
          assert init[i] == messages[i];
        }
      }
      MessagesWithoutCalls(init);
      var m := messages[|messages| - 1];
      assert forall j :: 0 <= j < |m.parts| ==> !IsCallPart(m.parts[j]);
    }
  }

  /** Without a tool-call part there is no task card. */
  lemma NoCallsNoTasks(messages: seq<Message>, pretty: Json -> string)
    requires NoCallParts(messages)
    ensures TaskParts(messages, pretty) == []
  {
    MessagesWithoutCalls(messages);
    GroupWithoutCalls(MessagesToolEvents(messages));
  }

  /** The stream never adds a tool-call part: text updates keep the type
      "text" and a custom event's part takes its kind's name as its type, as
      long as its payload has no `type` of its own. So this hook shows no
      task card for what it streams. */
  lemma DispatchAddsNoCallPart(s: FullState, assistantId: string, event: Json, clock: nat -> int)
    requires NoCallParts(s.messages)
    requires Get(event, "type") == Str("data") ==> !HasKey(SpreadEntries(Get(event, "data")), "type")
    ensures NoCallParts(Dispatch(s, assistantId, event, clock).messages)
  {
    var t := Get(event, "type");
    if t == Str("text-delta") || t == Str("text") {
      var delta := JsString(Or(Get(event, "text"), Or(Get(event, "delta"), Str(""))));
      assert Dispatch(s, assistantId, event, clock).messages == SetTextTo(s.messages, assistantId, s.currentText + delta);
      TextKeepsNoCalls(s.messages, assistantId, s.currentText + delta);
    } else if t == Str("data") {
      assert Dispatch(s, assistantId, event, clock) == HandleData(s, Get(event, "name"), Get(event, "data"), clock);
      DataAddsNoCallPart(s, Get(event, "name"), Get(event, "data"), clock);
    } else {
      assert Dispatch(s, assistantId, event, clock).messages == s.messages;
    }
  }

  lemma KindNameIsNotToolCall(k: AgentEvents.DataKind)
    ensures AgentEvents.KindName(k) != "tool-call"
  {
  }

  lemma DataAddsNoCallPart(s: FullState, name: Json, data: Json, clock: nat -> int)
    requires NoCallParts(s.messages) && !HasKey(SpreadEntries(data), "type")
    ensures NoCallParts(HandleData(s, name, data, clock).messages)
  {
    var s1 := s.(ticks := s.ticks + 1);
    if name.Str? && AgentEvents.KindOfName(name.s).Some? {
      var part := EventPart(name.s, data, clock(s.ticks));
      assert HandleData(s, name, data, clock) == AppendPart(s1, part);
      assert !IsCallPart(part) by {
        EventPartReads(name.s, data, clock(s.ticks), "type");
        KindNameIsNotToolCall(AgentEvents.KindOfName(name.s).value);
      }
      if s1.cursor.Some? && s1.cursor.value != "" {
        AppendKeepsNoCalls(s.messages, s1.cursor.value, part);
      }
    } else {
      assert HandleData(s, name, data, clock).messages == s.messages;
    }
  }

  lemma TextKeepsNoCalls(messages: seq<Message>, id: string, text: string)
    requires NoCallParts(messages)
    ensures NoCallParts(SetTextTo(messages, id, text))
  {
    var ms := SetTextTo(messages, id, text);
    forall i | 0 <= i < |messages|
      ensures forall j :: 0 <= j < |ms[i].parts| ==> !IsCallPart(ms[i].parts[j])
    {
      if messages[i].id == id {
        SetTextAddsNoCall(messages[i].parts, text);
      }
    }
  }

  lemma AppendKeepsNoCalls(messages: seq<Message>, id: string, part: Json)
    requires NoCallParts(messages) && !IsCallPart(part)
    ensures NoCallParts(AppendToMessages(messages, id, part))
  {
    var ms := AppendToMessages(messages, id, part);
    forall i, j | 0 <= i < |ms| && 0 <= j < |ms[i].parts|
      ensures !IsCallPart(ms[i].parts[j])
    {
      if j < |messages[i].parts| {
        assert ms[i].parts[j] == messages[i].parts[j];
      }
    }
  }

  lemma SetTextAddsNoCall(parts: seq<Json>, t: string)
    requires forall j :: 0 <= j < |parts| ==> !IsCallPart(parts[j])
    ensures forall j :: 0 <= j < |SetText(parts, t)| ==> !IsCallPart(SetText(parts, t)[j])
  {
    var r := SetText(parts, t);
    if |parts| > 0 && IsTextPart(parts[|parts| - 1]) {
      var last := parts[|parts| - 1];
      SetFieldLookup(last.fields, "text", Str(t), "type");
      assert !IsCallPart(r[|r| - 1]);
    } else {
      TextObjFacts(t);
      assert !IsCallPart(r[|r| - 1]);
    }
    assert forall j :: 0 <= j < |r| - 1 ==> r[j] == parts[j];
  }

  /** Each card stands for an id some tool call carries, in the order of
      each id's first call, and is made from the last call for its id and
      the last result after it; an id no call carries gets no card. */
  lemma FullTasksFollowCalls(messages: seq<Message>, pretty: Json -> string)
    ensures var evs := MessagesToolEvents(messages); var tasks := TaskParts(messages, pretty);
      && (forall i :: 0 <= i < |tasks| ==>
            Expected(evs, tasks[i].toolCallId).Some?
            && tasks[i] == FullTaskOf(Expected(evs, tasks[i].toolCallId).value, pretty))
      && (forall i, j :: 0 <= i < j < |tasks| ==>
            && FirstCall(evs, tasks[i].toolCallId).Some? && FirstCall(evs, tasks[j].toolCallId).Some?
            && FirstCall(evs, tasks[i].toolCallId).value < FirstCall(evs, tasks[j].toolCallId).value)
      && (forall id :: Expected(evs, id).None? ==> forall i :: 0 <= i < |tasks| ==> tasks[i].toolCallId != id)
  {
    var evs := MessagesToolEvents(messages);
    var g := Group(evs);
    GroupIsExpected(evs);
    GroupOrder(evs);
    forall i | 0 <= i < |g|
      ensures Expected(evs, Key(g[i])) == Some(g[i])
    {
      FindIndex(g, Key(g[i]), i);
      assert At(g, Key(g[i])) == Some(g[i]);
    }
  }

  // ---------------------------------------------------------------------------
  // The hook as an object
  // ---------------------------------------------------------------------------

  class FullEventsSession {
    var messages: seq<Message>
    var status: UIStatus
    var todos: seq<QueueTodo>
    var errorMessage: Option<string>
    var currentMessageId: Option<string>
    var hasController: bool
    var refreshes: nat
    var ticks: nat
    /** sendMessage's `currentText` while a request streams. */
    var currentText: string

    function State(): FullState
      reads this
    {
      FullState(messages, status, todos, errorMessage, currentMessageId, hasController, refreshes, ticks, currentText)
    }

    /** A mounted hook: empty, ready, and one file refresh started by the
        mount effect. */
    constructor ()
      ensures State() == FullState([], Ready, [], None, None, false, 1, 0, "")
    {
      messages := [];
      status := Ready;
      todos := [];
      errorMessage := None;
      currentMessageId := None;
      hasController := false;
      refreshes := 1;
      ticks := 0;
      currentText := "";
    }

    method AppendPartToCurrentMessage(part: Json)
      modifies this
      ensures State() == AppendPart(old(State()), part)
    {
      if currentMessageId.None? || currentMessageId.value == "" {
        return;
      }
      messages := AppendToMessages(messages, currentMessageId.value, part);
    }

    method HandleDataEvent(name: Json, data: Json, clock: nat -> int)
      modifies this
      ensures State() == HandleData(old(State()), name, data, clock)
    {
      var timestamp := clock(ticks);
      ticks := ticks + 1;
      if name.Str? && AgentEvents.KindOfName(name.s).Some? {
        AppendPartToCurrentMessage(EventPart(name.s, data, timestamp));
        return;
      }
      if name == Str("todos-changed") {
        var transformed := TodosFromData(data);
        if transformed.Some? {
          todos := transformed.value;
        }
      }
    }

    method HandleEvent(assistantId: string, event: Json, clock: nat -> int)
      modifies this
      ensures State() == Dispatch(old(State()), assistantId, event, clock)
    {
      var t := Get(event, "type");
      if t == Str("text-delta") || t == Str("text") {
        var delta := JsString(Or(Get(event, "text"), Or(Get(event, "delta"), Str(""))));
        currentText := currentText + delta;
        messages := SetTextTo(messages, assistantId, currentText);
      } else if t == Str("tool-input-available") {
      } else if t == Str("tool-output-available") {
        refreshes := refreshes + 1;
      } else if t == Str("data") {
        HandleDataEvent(Get(event, "name"), Get(event, "data"), clock);
      }
    }

    /** The lines of one decoded chunk. */
    method ReadChunk(assistantId: string, chunk: string, parse: string -> Option<Json>, clock: nat -> int)
      modifies this
      ensures State() == HandleLines(old(State()), assistantId, Split(chunk, '\n'), parse, clock)
    {
      var lines := Split(chunk, '\n');
      var i := 0;
      while i < |lines|
        invariant 0 <= i <= |lines|
        invariant HandleLines(State(), assistantId, lines[i..], parse, clock) == HandleLines(old(State()), assistantId, lines, parse, clock)
      {
        var line := lines[i];
        if StartsWith(line, "data: ") {
          var data := line[6..];
          if data == "[DONE]" {
            status := Ready;
            currentMessageId := None;
            break;
          }
          var event := parse(data);
          if event.Some? && !IsNullish(event.value) {
            HandleEvent(assistantId, event.value, clock);
          }
        }
        i := i + 1;
      }
    }

    method Fail(e: Thrown)
      modifies this
      ensures State() == Failed(old(State()), e)
    {
      if !IsAbort(e) {
        status := UIError;
        errorMessage := Some(if e.message != "" then e.message else "An unexpected error occurred");
      } else {
        status := Ready;
      }
      currentMessageId := None;
    }

    /** sendMessage */
    method SendMessage(text: string, response: Response, parse: string -> Option<Json>, clock: nat -> int)
      modifies this
      ensures State() == Send(old(State()), text, response, parse, clock)
    {
      if IsBlank(text) {
        return;
      }
      ghost var before := State();
      var assistantMessageId := Begin(text, clock);
      Answer(assistantMessageId, response, parse, clock);
      SendResponds(before, text, response, parse, clock);
    }

    /** Reads the two message ids off the clock and sets up the request;
        gives the assistant message's id. */
    method Begin(text: string, clock: nat -> int) returns (assistantMessageId: string)
      modifies this
      ensures assistantMessageId == AssistantId(clock(old(ticks) + 1))
      ensures State() == Started(old(State()), text, clock)
    {
      var t := ticks;
      var userMessageId := UserId(clock(t));
      assistantMessageId := AssistantId(clock(t + 1));
      StartedAt(State(), text, clock, t);
      Start(text, userMessageId, assistantMessageId);
    }

    /** The response's branch of sendMessage, after the set-up. */
    method Answer(assistantId: string, response: Response, parse: string -> Option<Json>, clock: nat -> int)
      modifies this
      ensures State() == Respond(old(State()), assistantId, response, parse, clock)
    {
      match response {
        case Rejected(e) =>
          Fail(e);
        case HttpStatus(code, body) =>
          Fail(PlainError(HttpErrorMessage(code, body)));
        case NoReader =>
          Fail(PlainError("No reader available"));
        case Body(chunks, failure) =>
          ReadBody(assistantId, chunks, parse, clock);
          if failure.Some? {
            Fail(failure.value);
          }
      }
    }

    /** The part of sendMessage before the fetch: streaming status, fresh
        ids, and the user message with an empty assistant message. */
    method Start(text: string, userMessageId: string, assistantMessageId: string)
      modifies this
      ensures State() == SetUp(old(State()), text, userMessageId, assistantMessageId)
    {
      status := UIStreaming;
      errorMessage := None;
      hasController := true;
      ticks := ticks + 2;
      currentMessageId := Some(assistantMessageId);
      messages := messages + [Message(userMessageId, User, [TextObj(text)]), Message(assistantMessageId, Assistant, [])];
      currentText := "";
    }

    /** The reader loop, until `reader.read()` reports the end. */
    method ReadBody(assistantId: string, chunks: seq<string>, parse: string -> Option<Json>, clock: nat -> int)
      modifies this
      ensures State() == ReadChunks(old(State()), assistantId, chunks, parse, clock)
    {
      var i := 0;
      while i < |chunks|
        invariant 0 <= i <= |chunks|
        invariant ReadChunks(State(), assistantId, chunks[i..], parse, clock)
          == ReadChunks(old(State()), assistantId, chunks, parse, clock)
      {
        ReadChunk(assistantId, chunks[i], parse, clock);
        i := i + 1;
      }
    }

    method Abort()
      modifies this
      ensures State() == Aborted(old(State()))
    {
      if hasController {
        status := Ready;
      }
    }

    method Clear()
      modifies this
      ensures State() == Cleared(old(State()))
    {
      messages := [];
      todos := [];
      status := Ready;
      refreshes := refreshes + 1;
    }

    method ClearEvents()
      modifies this
      ensures State() == EventsCleared(old(State()))
    {
      var ms := messages;
      messages := seq(|ms|, i requires 0 <= i < |ms| => ms[i].(parts := WithoutEventParts(ms[i].parts)));
    }

    /** extractTaskParts: groups the tool parts of the assistant messages,
        then makes one card per entry. */
    method ExtractTaskParts(pretty: Json -> string) returns (tasks: seq<Task>)
      ensures tasks == TaskParts(messages, pretty)
    {
      var toolMap: seq<Entry> := [];
      var i := 0;
      while i < |messages|
        invariant 0 <= i <= |messages|
        invariant toolMap == Group(MessagesToolEvents(messages[..i]))
      {
        var msg := messages[i];
        assert messages[..i + 1][..i] == messages[..i];
        assert messages[..i + 1][i] == msg;
        assert MessagesToolEvents(messages[..i + 1])
          == MessagesToolEvents(messages[..i]) + (if msg.role == Assistant then PartsToolEvents(msg.parts) else []);
        if msg.role == Assistant {
          toolMap := RecordParts(toolMap, msg.parts, MessagesToolEvents(messages[..i]));
        } else {
          assert MessagesToolEvents(messages[..i + 1]) == MessagesToolEvents(messages[..i]);
        }
        i := i + 1;
      }
      assert messages[..i] == messages;
      tasks := FullTasksOf(toolMap, pretty);
    }
  }
}
