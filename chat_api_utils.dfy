/** The message adapter of the basic chat hook: agent status to UI status,
    the event log to a list of UI messages, and the tool parts of the last
    assistant message. */
module ChatApiUtils {
  import opened Common
  import opened ToolPairing

  /** The agent's own status as the basic hook tracks it. */
  datatype AgentStatus =
    | AgentIdle | AgentThinking | AgentStreaming | AgentToolCall
    | AgentDone | AgentError | AgentSubagent

  /** Status of the chat as the UI components see it. */
  datatype UIStatus = Submitted | UIStreaming | Ready | UIError

  /** The agent is at work: thinking, streaming text, in a tool or in a
      subagent. */
  predicate Working(s: AgentStatus)
  {
    s in {AgentThinking, AgentStreaming, AgentToolCall, AgentSubagent}
  }

  /** The UI shows work in progress. */
  predicate Busy(u: UIStatus)
  {
    u == Submitted || u == UIStreaming
  }

  /** mapAgentStatusToUIStatus */
  function MapAgentStatusToUIStatus(s: AgentStatus): (r: UIStatus)
    ensures r == Submitted <==> s in {AgentThinking, AgentToolCall, AgentSubagent}
    ensures r == UIStreaming <==> s == AgentStreaming
    ensures r == UIError <==> s == AgentError
    ensures r == Ready <==> s in {AgentIdle, AgentDone}
  {
    match s
    case AgentThinking => Submitted
    case AgentToolCall => Submitted
    case AgentSubagent => Submitted
    case AgentStreaming => UIStreaming
    case AgentError => UIError
    case AgentIdle => Ready
    case AgentDone => Ready
  }

  /** The UI shows work in progress exactly while the agent is working. */
  lemma BusyIffWorking(s: AgentStatus)
    ensures Busy(MapAgentStatusToUIStatus(s)) <==> Working(s)
  {
  }

  datatype Role = User | Assistant

  /** A todo as the queue component shows it: `{id, title, status}`. */
  datatype QueueStatus = QueuePending | QueueCompleted

  datatype QueueTodo = QueueTodo(id: Json, title: Json, status: QueueStatus)

  /** A part of a UI message. Field values come from logged events, so they
      are JSON values. */
  datatype UIMessagePart =
    | TextPart(text: Json)
    | ToolCallPart(toolCallId: Json, toolName: Json, args: Json)
    | ToolResultPart(toolCallId: Json, toolName: Json, result: Json, isError: Json)

  datatype UIMessage = UIMessage(id: string, role: Role, parts: seq<UIMessagePart>, status: UIStatus)

  /** One entry of the hook's event log: its `event-<n>` id and the event
      object. */
  datatype EventLog = EventLog(id: string, event: Json)

  /** `event.type === name` */
  predicate TypeIs(event: Json, name: string)
  {
    Get(event, "type") == Str(name)
  }

  /** The assistant part a logged event contributes, if any: text segments,
      tool calls and tool results do; every other type is ignored. */
  function PartOf(event: Json): Option<UIMessagePart>
  {
    if TypeIs(event, "text-segment") then Some(TextPart(Get(event, "text")))
    else if TypeIs(event, "tool-call") then
      Some(ToolCallPart(Get(event, "toolCallId"), Get(event, "toolName"), Get(event, "args")))
    else if TypeIs(event, "tool-result") then
      Some(ToolResultPart(Get(event, "toolCallId"), Get(event, "toolName"), Get(event, "result"), Get(event, "isError")))
    else None
  }

  /** `msg-<Date.now()>-<n>`; `clock(n)` is what `Date.now()` returns when
      the n-th id is made. */
  function MessageId(clock: nat -> int, n: nat): string
  {
    "msg-" + IntToString(clock(n)) + "-" + NatToString(n)
  }

  /** Loop state of convertEventsToUIMessages: messages emitted, pending
      assistant parts, and the id counter. */
  datatype ConvState = ConvState(messages: seq<UIMessage>, parts: seq<UIMessagePart>, counter: nat)

  /** One iteration of the loop over the event log. */
  function ConvStep(st: ConvState, log: EventLog, clock: nat -> int): ConvState
  {
    if TypeIs(log.event, "user-message") then
      var flushed :=
        if |st.parts| > 0 then
          ConvState(st.messages + [UIMessage(MessageId(clock, st.counter + 1), Assistant, st.parts, Ready)], [], st.counter + 1)
        else st;
      flushed.(messages := flushed.messages + [UIMessage(log.id, User, [TextPart(Get(log.event, "content"))], Ready)])
    else
      var p := PartOf(log.event);
      if p.Some? then st.(parts := st.parts + [p.value]) else st
  }

  function ConvFold(events: seq<EventLog>, clock: nat -> int): ConvState
    decreases |events|
  {
    if events == [] then ConvState([], [], 0)
    else ConvStep(ConvFold(events[..|events| - 1], clock), events[|events| - 1], clock)
  }

  /** The status the trailing assistant message gets from the UI status. */
  function TrailingStatus(uiStatus: UIStatus): (r: UIStatus)
    ensures r == uiStatus
  {
    if uiStatus == UIStreaming then UIStreaming
    else if uiStatus == Submitted then Submitted
    else if uiStatus == UIError then UIError
    else assert uiStatus.Ready?; Ready
  }

  /** The messages convertEventsToUIMessages returns. */
  function Convert(events: seq<EventLog>, streamingText: string, uiStatus: UIStatus, clock: nat -> int): seq<UIMessage>
  {
    Trailing(ConvFold(events, clock), streamingText, uiStatus, clock)
  }

  /** After the loop: the pending assistant parts and the streaming text, if
      there are any, become one last assistant message. */
  function Trailing(st: ConvState, streamingText: string, uiStatus: UIStatus, clock: nat -> int): seq<UIMessage>
  {
    if streamingText != "" || |st.parts| > 0 then
      var parts := st.parts + (if streamingText != "" then [TextPart(Str(streamingText))] else []);
      st.messages + [UIMessage(MessageId(clock, st.counter + 1), Assistant, parts, TrailingStatus(uiStatus))]
    else st.messages
  }

  lemma ConvFoldSnoc(events: seq<EventLog>, i: nat, clock: nat -> int)
    requires i < |events|
    ensures ConvFold(events[..i + 1], clock) == ConvStep(ConvFold(events[..i], clock), events[i], clock)
  {
    assert events[..i + 1][..i] == events[..i];
  }

  /** The body of the loop in convertEventsToUIMessages for one logged
      event. */
  method ConvertLoggedEvent(messages: seq<UIMessage>, currentAssistantParts: seq<UIMessagePart>, messageIdCounter: nat,
                            eventLog: EventLog, clock: nat -> int)
    returns (messages': seq<UIMessage>, currentAssistantParts': seq<UIMessagePart>, messageIdCounter': nat)
    ensures ConvState(messages', currentAssistantParts', messageIdCounter')
      == ConvStep(ConvState(messages, currentAssistantParts, messageIdCounter), eventLog, clock)
  {
    messages', currentAssistantParts', messageIdCounter' := messages, currentAssistantParts, messageIdCounter;
    var event := eventLog.event;
    if TypeIs(event, "user-message") {
      if |currentAssistantParts'| > 0 {
        messageIdCounter' := messageIdCounter' + 1;
        messages' := messages' + [UIMessage(MessageId(clock, messageIdCounter'), Assistant, currentAssistantParts', Ready)];
        currentAssistantParts' := [];
      }
      messages' := messages' + [UIMessage(eventLog.id, User, [TextPart(Get(event, "content"))], Ready)];
    } else if TypeIs(event, "text-segment") {
      currentAssistantParts' := currentAssistantParts' + [TextPart(Get(event, "text"))];
    } else if TypeIs(event, "tool-call") {
      currentAssistantParts' := currentAssistantParts'
        + [ToolCallPart(Get(event, "toolCallId"), Get(event, "toolName"), Get(event, "args"))];
    } else if TypeIs(event, "tool-result") {
      currentAssistantParts' := currentAssistantParts'
        + [ToolResultPart(Get(event, "toolCallId"), Get(event, "toolName"), Get(event, "result"), Get(event, "isError"))];
    }
  }

  /** convertEventsToUIMessages */
  method ConvertEventsToUIMessages(events: seq<EventLog>, streamingText: string, uiStatus: UIStatus, clock: nat -> int)
    returns (messages: seq<UIMessage>)
    ensures messages == Convert(events, streamingText, uiStatus, clock)
  {
    messages := [];
    var currentAssistantParts: seq<UIMessagePart> := [];
    var messageIdCounter: nat := 0;
    var i := 0;
    while i < |events|
      invariant 0 <= i <= |events|
      invariant ConvFold(events[..i], clock) == ConvState(messages, currentAssistantParts, messageIdCounter)
    {
      messages, currentAssistantParts, messageIdCounter :=
        ConvertLoggedEvent(messages, currentAssistantParts, messageIdCounter, events[i], clock);
      ConvFoldSnoc(events, i, clock);
      i := i + 1;
    }
    assert events[..i] == events;
    messages := AppendTrailing(messages, currentAssistantParts, messageIdCounter, streamingText, uiStatus, clock);
  }

  /** The end of convertEventsToUIMessages: flush what is left as the last
      assistant message, with the streaming text as its last part. */
  method AppendTrailing(messages: seq<UIMessage>, currentAssistantParts: seq<UIMessagePart>, messageIdCounter: nat,
                        streamingText: string, uiStatus: UIStatus, clock: nat -> int)
    returns (messages': seq<UIMessage>)
    ensures messages' == Trailing(ConvState(messages, currentAssistantParts, messageIdCounter), streamingText, uiStatus, clock)
  {
    messages' := messages;
    var parts := currentAssistantParts;
    if streamingText != "" || |parts| > 0 {
      if streamingText != "" {
        parts := parts + [TextPart(Str(streamingText))];
      }
      var messageStatus := Ready;
      if uiStatus == UIStreaming {
        messageStatus := UIStreaming;
      } else if uiStatus == Submitted {
        messageStatus := Submitted;
      } else if uiStatus == UIError {
        messageStatus := UIError;
      }
      assert messageStatus == TrailingStatus(uiStatus) by {
        if uiStatus.Ready? {
          assert messageStatus == Ready;
        }
      }
      assert parts == currentAssistantParts + (if streamingText != "" then [TextPart(Str(streamingText))] else []);
      messages' := messages' + [UIMessage(MessageId(clock, messageIdCounter + 1), Assistant, parts, messageStatus)];
    }
  }

  // ---------------------------------------------------------------------------
  // Properties of the conversion
  // ---------------------------------------------------------------------------

  /** The parts of all assistant messages, in order. */
  function AssistantParts(messages: seq<UIMessage>): seq<UIMessagePart>
    decreases |messages|
  {
    if messages == [] then []
    else
      var m := messages[|messages| - 1];
      AssistantParts(messages[..|messages| - 1]) + (if m.role == Assistant then m.parts else [])
  }

  /** The parts the events of the log contribute, in order. */
  function EventParts(events: seq<EventLog>): seq<UIMessagePart>
    decreases |events|
  {
    if events == [] then []
    else
      var p := PartOf(events[|events| - 1].event);
      EventParts(events[..|events| - 1]) + (if p.Some? then [p.value] else [])
  }

  function CountUserEvents(events: seq<EventLog>): nat
    decreases |events|
  {
    if events == [] then 0
    else CountUserEvents(events[..|events| - 1]) + (if TypeIs(events[|events| - 1].event, "user-message") then 1 else 0)
  }

  function CountUsers(messages: seq<UIMessage>): nat
    decreases |messages|
  {
    if messages == [] then 0
    else CountUsers(messages[..|messages| - 1]) + (if messages[|messages| - 1].role == User then 1 else 0)
  }

  predicate NoEmptyAssistant(messages: seq<UIMessage>)
  {
    forall i :: 0 <= i < |messages| ==> messages[i].role == Assistant ==> |messages[i].parts| > 0
  }

  lemma AppendMessage(messages: seq<UIMessage>, m: UIMessage)
    ensures AssistantParts(messages + [m]) == AssistantParts(messages) + (if m.role == Assistant then m.parts else [])
    ensures CountUsers(messages + [m]) == CountUsers(messages) + (if m.role == User then 1 else 0)
  {
    assert (messages + [m])[..|messages|] == messages;
  }

  /** One event extends the assistant parts (emitted and pending) by the
      part it contributes, adds a user message exactly when it is a
      user-message event, and never emits an empty assistant message. */
  lemma ConvStepFacts(st: ConvState, log: EventLog, clock: nat -> int)
    requires NoEmptyAssistant(st.messages)
    ensures var st' := ConvStep(st, log, clock); var p := PartOf(log.event);
      && AssistantParts(st'.messages) + st'.parts == AssistantParts(st.messages) + st.parts + (if p.Some? then [p.value] else [])
      && CountUsers(st'.messages) == CountUsers(st.messages) + (if TypeIs(log.event, "user-message") then 1 else 0)
      && NoEmptyAssistant(st'.messages)
  {
    if TypeIs(log.event, "user-message") {
      UserMessageStep(st, log, clock);
    } else {
      PartStep(st, log, clock);
    }
  }

  /** A user message flushes the pending parts and adds the user's turn. */
  lemma UserMessageStep(st: ConvState, log: EventLog, clock: nat -> int)
    requires NoEmptyAssistant(st.messages) && TypeIs(log.event, "user-message")
    ensures var st' := ConvStep(st, log, clock);
      && PartOf(log.event).None?
      && AssistantParts(st'.messages) + st'.parts == AssistantParts(st.messages) + st.parts
      && CountUsers(st'.messages) == CountUsers(st.messages) + 1
      && NoEmptyAssistant(st'.messages)
  {
    UserMessageHasNoPart(log.event);
    var st' := ConvStep(st, log, clock);
    var a := UIMessage(MessageId(clock, st.counter + 1), Assistant, st.parts, Ready);
    var u := UIMessage(log.id, User, [TextPart(Get(log.event, "content"))], Ready);
    var ms := if |st.parts| > 0 then st.messages + [a] + [u] else st.messages + [u];
    assert st'.messages == ms && st'.parts == [] by {
      UserMessageShape(st, log, clock);
    }
    assert AssistantParts(ms) == AssistantParts(st.messages) + st.parts
      && CountUsers(ms) == CountUsers(st.messages) + 1 && NoEmptyAssistant(ms) by {
      UserStepFacts(st, a, u);
    }
    assert AssistantParts(ms) + [] == AssistantParts(ms);
  }

  lemma UserMessageHasNoPart(event: Json)
    requires TypeIs(event, "user-message")
    ensures PartOf(event).None?
  {
  }

  lemma UserMessageShape(st: ConvState, log: EventLog, clock: nat -> int)
    requires TypeIs(log.event, "user-message")
    ensures var a := UIMessage(MessageId(clock, st.counter + 1), Assistant, st.parts, Ready);
      var u := UIMessage(log.id, User, [TextPart(Get(log.event, "content"))], Ready);
      ConvStep(st, log, clock) ==
        if |st.parts| > 0 then ConvState(st.messages + [a] + [u], [], st.counter + 1)
        else ConvState(st.messages + [u], [], st.counter)
  {
    var a := UIMessage(MessageId(clock, st.counter + 1), Assistant, st.parts, Ready);
    var u := UIMessage(log.id, User, [TextPart(Get(log.event, "content"))], Ready);
    var flushed := if |st.parts| > 0 then ConvState(st.messages + [a], [], st.counter + 1) else st;
    assert ConvStep(st, log, clock) == flushed.(messages := flushed.messages + [u]);
  }

  /** Any other event only adds the part it contributes to the pending ones. */
  lemma PartStep(st: ConvState, log: EventLog, clock: nat -> int)
    requires !TypeIs(log.event, "user-message")
    ensures var st' := ConvStep(st, log, clock); var p := PartOf(log.event);
      && st'.messages == st.messages
      && st'.parts == st.parts + (if p.Some? then [p.value] else [])
  {
  }

  lemma UserStepFacts(st: ConvState, a: UIMessage, u: UIMessage)
    requires NoEmptyAssistant(st.messages)
    requires a.role == Assistant && a.parts == st.parts && u.role == User
    ensures var ms := if |st.parts| > 0 then st.messages + [a] + [u] else st.messages + [u];
      && AssistantParts(ms) == AssistantParts(st.messages) + st.parts
      && CountUsers(ms) == CountUsers(st.messages) + 1
      && NoEmptyAssistant(ms)
  {
    if |st.parts| > 0 {
      var m1 := st.messages + [a];
      assert AssistantParts(m1) == AssistantParts(st.messages) + st.parts
        && CountUsers(m1) == CountUsers(st.messages) && NoEmptyAssistant(m1) by {
        AppendMessage(st.messages, a);
        AppendKeepsNonEmpty(st.messages, a);
      }
      assert AssistantParts(m1 + [u]) == AssistantParts(m1) + []
        && CountUsers(m1 + [u]) == CountUsers(m1) + 1 && NoEmptyAssistant(m1 + [u]) by {
        AppendMessage(m1, u);
        AppendKeepsNonEmpty(m1, u);
      }
    } else {
      assert AssistantParts(st.messages + [u]) == AssistantParts(st.messages) + []
        && CountUsers(st.messages + [u]) == CountUsers(st.messages) + 1 && NoEmptyAssistant(st.messages + [u]) by {
        AppendMessage(st.messages, u);
        AppendKeepsNonEmpty(st.messages, u);
      }
    }
  }

  lemma AppendKeepsNonEmpty(messages: seq<UIMessage>, m: UIMessage)
    requires NoEmptyAssistant(messages) && (m.role == Assistant ==> |m.parts| > 0)
    ensures NoEmptyAssistant(messages + [m])
  {
    forall i | 0 <= i < |messages + [m]|
      ensures (messages + [m])[i].role == Assistant ==> |(messages + [m])[i].parts| > 0
    {
      if i < |messages| {
        assert (messages + [m])[i] == messages[i];
      }
    }
  }

  /** What the loop keeps: the emitted assistant parts followed by the
      pending ones are the parts of the events so far, the user messages
      match the user-message events one for one, and no assistant message
      is empty. */
  lemma {:induction false} ConvFoldInvariant(events: seq<EventLog>, clock: nat -> int)
    ensures AssistantParts(ConvFold(events, clock).messages) + ConvFold(events, clock).parts == EventParts(events)
    ensures CountUsers(ConvFold(events, clock).messages) == CountUserEvents(events)
    ensures NoEmptyAssistant(ConvFold(events, clock).messages)
    decreases |events|
  {
    if events != [] {
      var init := events[..|events| - 1];
      ConvFoldInvariant(init, clock);
      ConvStepFacts(ConvFold(init, clock), events[|events| - 1], clock);
    }
  }

  /** The conversion loses, duplicates and reorders no part: the assistant
      messages hold exactly the parts of the logged text segments, tool calls
      and tool results in log order, then the streaming text when there is
      any. */
  lemma {:induction false} ConvertKeepsParts(events: seq<EventLog>, streamingText: string, uiStatus: UIStatus, clock: nat -> int)
    ensures AssistantParts(Convert(events, streamingText, uiStatus, clock))
      == EventParts(events) + (if streamingText != "" then [TextPart(Str(streamingText))] else [])
  {
    var st := ConvFold(events, clock);
    assert AssistantParts(st.messages) + st.parts == EventParts(events) by {
      ConvFoldInvariant(events, clock);
    }
    TrailingKeepsParts(st, streamingText, uiStatus, clock);
  }

  /** The trailing message carries the pending parts, then the streaming text. */
  lemma TrailingKeepsParts(st: ConvState, streamingText: string, uiStatus: UIStatus, clock: nat -> int)
    ensures AssistantParts(Trailing(st, streamingText, uiStatus, clock))
      == AssistantParts(st.messages) + st.parts + (if streamingText != "" then [TextPart(Str(streamingText))] else [])
  {
    var tail: seq<UIMessagePart> := if streamingText != "" then [TextPart(Str(streamingText))] else [];
    if streamingText != "" || |st.parts| > 0 {
      var m := UIMessage(MessageId(clock, st.counter + 1), Assistant, st.parts + tail, TrailingStatus(uiStatus));
      AppendMessage(st.messages, m);
      assert AssistantParts(st.messages) + (st.parts + tail) == (AssistantParts(st.messages) + st.parts) + tail;
    } else {
      assert tail == [] && st.parts == [];
    }
  }

  /** One user message per user-message event, and no assistant message
      without parts. */
  lemma ConvertShape(events: seq<EventLog>, streamingText: string, uiStatus: UIStatus, clock: nat -> int)
    ensures CountUsers(Convert(events, streamingText, uiStatus, clock)) == CountUserEvents(events)
    ensures NoEmptyAssistant(Convert(events, streamingText, uiStatus, clock))
  {
    ConvFoldInvariant(events, clock);
    var st := ConvFold(events, clock);
    if streamingText != "" || |st.parts| > 0 {
      var parts := st.parts + (if streamingText != "" then [TextPart(Str(streamingText))] else []);
      AppendMessage(st.messages, UIMessage(MessageId(clock, st.counter + 1), Assistant, parts, TrailingStatus(uiStatus)));
    }
  }

  /** A trailing assistant message is added exactly when there is streaming
      text or pending parts; the streaming text is its last part and its
      status is the UI status. */
  lemma ConvertTrailing(events: seq<EventLog>, streamingText: string, uiStatus: UIStatus, clock: nat -> int)
    ensures var st := ConvFold(events, clock); var r := Convert(events, streamingText, uiStatus, clock);
      && (|r| == |st.messages| + 1 <==> streamingText != "" || |st.parts| > 0)
      && (|r| > |st.messages| ==> r[|r| - 1].role == Assistant && r[|r| - 1].status == uiStatus)
      && (streamingText != "" ==> r[|r| - 1].parts[|r[|r| - 1].parts| - 1] == TextPart(Str(streamingText)))
      && r[..|st.messages|] == st.messages
  {
  }

  /** A user-message event first closes the pending assistant parts into a
      `ready` message (only when there are some), then adds the user message
      with the log entry's id and one text part. */
  lemma UserMessageFlushes(events: seq<EventLog>, log: EventLog, clock: nat -> int)
    requires TypeIs(log.event, "user-message")
    ensures var st := ConvFold(events, clock); var st' := ConvFold(events + [log], clock);
      && st'.parts == []
      && st'.messages[|st'.messages| - 1] == UIMessage(log.id, User, [TextPart(Get(log.event, "content"))], Ready)
      && (|st.parts| > 0 ==>
            st'.messages == st.messages
              + [UIMessage(MessageId(clock, st.counter + 1), Assistant, st.parts, Ready)]
              + [UIMessage(log.id, User, [TextPart(Get(log.event, "content"))], Ready)])
      && (|st.parts| == 0 ==> st'.messages == st.messages + [UIMessage(log.id, User, [TextPart(Get(log.event, "content"))], Ready)])
  {
    assert (events + [log])[..|events|] == events;
    assert ConvFold(events + [log], clock) == ConvStep(ConvFold(events, clock), log, clock);
  }

  // ---------------------------------------------------------------------------
  // extractToolParts
  // ---------------------------------------------------------------------------

  /** `[...messages].reverse().find(m => m.role === "assistant")`: the
      position of the last assistant message. */
  function LastAssistant(messages: seq<UIMessage>): (r: Option<nat>)
    ensures r.Some? ==> (r.value < |messages| && messages[r.value].role == Assistant
      && forall j :: r.value < j < |messages| ==> messages[j].role != Assistant)
    ensures r.None? ==> forall j :: 0 <= j < |messages| ==> messages[j].role != Assistant
    decreases |messages|
  {
    if messages == [] then None
    else if messages[|messages| - 1].role == Assistant then Some(|messages| - 1)
    else LastAssistant(messages[..|messages| - 1])
  }

  predicate IsToolPart(p: UIMessagePart)
  {
    p.ToolCallPart? || p.ToolResultPart?
  }

  /** The tool-call and tool-result parts, in order. */
  function ToolPartsOf(parts: seq<UIMessagePart>): (r: seq<UIMessagePart>)
    ensures |r| <= |parts|
    ensures forall i :: 0 <= i < |r| ==> IsToolPart(r[i])
    ensures forall i :: 0 <= i < |parts| ==> IsToolPart(parts[i]) ==> parts[i] in r
    ensures forall i :: 0 <= i < |r| ==> r[i] in parts
    decreases |parts|
  {
    if parts == [] then []
    else
      var rest := ToolPartsOf(parts[..|parts| - 1]);
      var p := parts[|parts| - 1];
      assert forall i :: 0 <= i < |parts| - 1 ==> parts[..|parts| - 1][i] == parts[i];
      if IsToolPart(p) then rest + [p] else rest
  }

  lemma {:induction false} ToolPartsOfAppend(a: seq<UIMessagePart>, b: seq<UIMessagePart>)
    ensures ToolPartsOf(a + b) == ToolPartsOf(a) + ToolPartsOf(b)
    decreases |b|
  {
    if b == [] {
      assert a + b == a;
    } else {
      var init := b[..|b| - 1];
      assert (a + b)[..|a + b| - 1] == a + init;
      ToolPartsOfAppend(a, init);
    }
  }

  /** extractToolParts: nothing without an assistant message, otherwise the
      tool parts of the last assistant message, copied field for field. */
  function ExtractToolParts(messages: seq<UIMessage>): (r: seq<UIMessagePart>)
    ensures LastAssistant(messages).None? ==> r == []
    ensures LastAssistant(messages).Some? ==> r == ToolPartsOf(messages[LastAssistant(messages).value].parts)
  {
    var k := LastAssistant(messages);
    if k.None? then []
    else
      var ps := ToolPartsOf(messages[k.value].parts);
      seq(|ps|, i requires 0 <= i < |ps| =>
        match ps[i]
        case ToolCallPart(id, name, args) => ToolCallPart(id, name, args)
        case ToolResultPart(id, name, result, isError) => ToolResultPart(id, name, result, isError)
        case TextPart(t) => TextPart(t))
  }

  /** Tool parts of the basic hook, seen by the grouping loop. */
  function ToolEventOf(p: UIMessagePart): ToolEvent
  {
    match p
    case ToolCallPart(id, name, args) => CallEvent(ToolCall(id, name, args))
    case ToolResultPart(id, _, result, isError) => ResultEvent(id, ToolResult(result, isError))
    case TextPart(_) => NoToolEvent
  }

  function ToolEvents(parts: seq<UIMessagePart>): (r: seq<ToolEvent>)
    ensures |r| == |parts|
    ensures forall i :: 0 <= i < |parts| ==> r[i] == ToolEventOf(parts[i])
  {
    seq(|parts|, i requires 0 <= i < |parts| => ToolEventOf(parts[i]))
  }
}
