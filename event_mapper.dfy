/** The server-side mapper: each agent event becomes zero, one or two wire
    events, and the mapper threads the id of the open text span
    (`currentTextId`) from one event to the next. The execute loop feeds a
    whole agent run through the mapper into a writer whose output only grows,
    and closes a span left open at the end, whether the run completed or
    threw. */
module EventMapper {
  import opened Common
  import opened AgentEvents

  /** The UI message stream chunks the mapper writes. */
  datatype WireEvent =
    | TextStart(id: string)
    | TextDelta(id: string, delta: string)
    | TextEnd(id: string)
    | StartStep
    | FinishStep
    | ToolInputAvailable(toolCallId: string, toolName: string, input: Json)
    | ToolOutputAvailable(toolCallId: string, output: Json)
    | ToolOutputError(toolCallId: string, errorText: string)
    | Data(name: string, data: seq<(string, Json)>)
    | ErrorChunk(errorText: string)
    | Finish(finishReason: string)

  /** `if (currentTextId)`: a span is open when the id is a non-empty string. */
  predicate IsOpen(cur: Option<string>)
  {
    cur.Some? && cur.value != ""
  }

  /** What the mapper writes for one event, the span id it returns, and
      whether it called the id generator. */
  datatype Step = Step(writes: seq<WireEvent>, next: Option<string>, usedId: bool)

  /** The `text-end` written before a tool call, an error or the end of the
      run when a span is open. */
  function Close(cur: Option<string>): seq<WireEvent>
  {
    if IsOpen(cur) then [TextEnd(cur.value)] else []
  }

  /** mapEventToProtocol: `newId` is the id `genId()` returns if the mapper
      calls it. A `text` event that opens a span writes its own text as the
      span's first delta (see `MapEventAsWritten` for the source's text
      case, which does not). */
  function MapEvent(e: AgentEvent, cur: Option<string>, newId: string): Step
  {
    match e
    case StepStart => Step([StartStep], cur, false)
    case StepFinish => Step([FinishStep], cur, false)
    case Text(text) =>
      if !IsOpen(cur) then Step([TextStart(newId), TextDelta(newId, text)], Some(newId), true)
      else Step([TextDelta(cur.value, text)], cur, false)
    case ToolCall(toolCallId, toolName, args) =>
      Step(Close(cur) + [ToolInputAvailable(toolCallId, toolName, args)], None, false)
    case ToolResult(toolCallId, result, isError) =>
      if isError then Step([ToolOutputError(toolCallId, JsString(result))], cur, false)
      else Step([ToolOutputAvailable(toolCallId, result)], cur, false)
    case TodosChanged(todos) => Step([Data("todos-changed", [("todos", todos)])], cur, false)
    case Error(message) => Step(Close(cur) + [ErrorChunk(message)], None, false)
    case Done => Step(Close(cur) + [Finish("stop")], None, false)
    case Unlisted(_) => Step([], cur, false)
    case _ => Step([Data(KindName(DataKindOf(e).value), DataFields(e))], cur, false)
  }

  /** mapEventToProtocol as written: a `text` event that finds no span open
      writes only the `text-start` and returns, so its text is never
      written; every other event maps as in `MapEvent`. */
  function MapEventAsWritten(e: AgentEvent, cur: Option<string>, newId: string): (r: Step)
    ensures e.Text? && !IsOpen(cur) ==>
      r.writes == [TextStart(newId)] && r.writes == MapEvent(e, cur, newId).writes[..1]
      && r.next == MapEvent(e, cur, newId).next && r.usedId
    ensures !(e.Text? && !IsOpen(cur)) ==> r == MapEvent(e, cur, newId)
  {
    if e.Text? && !IsOpen(cur) then Step([TextStart(newId)], Some(newId), true)
    else MapEvent(e, cur, newId)
  }

  /** As written, the text of the event that opens a span reaches the wire
      in no chunk at all, and the client, which reads text only from
      `text-delta` chunks, never shows it; `MapEvent` writes it as the
      span's first delta. Otherwise the two agree. */
  lemma FirstTextDroppedAsWritten(t: string, newId: string)
    requires t != ""
    ensures MapEventAsWritten(Text(t), None, newId).writes == [TextStart(newId)]
    ensures Deltas(MapEventAsWritten(Text(t), None, newId).writes) == []
    ensures Deltas(MapEvent(Text(t), None, newId).writes) == [t]
    ensures MapEventAsWritten(Text(t), None, newId).next == MapEvent(Text(t), None, newId).next
  {
    assert [TextStart(newId)][1..] == [];
    var ws := MapEvent(Text(t), None, newId).writes;
    assert ws[1..][1..] == [];
  }

  /** Which text case a run is mapped with: the source's, or the corrected
      one. */
  datatype Mapper = AsWritten | Corrected

  function StepOf(m: Mapper, e: AgentEvent, cur: Option<string>, newId: string): Step
  {
    if m.AsWritten? then MapEventAsWritten(e, cur, newId) else MapEvent(e, cur, newId)
  }

  // ---------------------------------------------------------------------------
  // Well-bracketed output
  // ---------------------------------------------------------------------------

  /** Replays a stream of wire events against the span that is open before
      it: `text-start` only when no span is open, `text-delta` and `text-end`
      only with the open span's id. Gives the span open afterwards, or None
      when the stream breaks one of these rules. */
  function Scan(ws: seq<WireEvent>, open: Option<string>): Option<Option<string>>
    decreases |ws|
  {
    if ws == [] then Some(open)
    else
      match ws[0]
      case TextStart(id) => if open.None? then Scan(ws[1..], Some(id)) else None
      case TextDelta(id, _) => if open == Some(id) then Scan(ws[1..], open) else None
      case TextEnd(id) => if open == Some(id) then Scan(ws[1..], None) else None
      case _ => Scan(ws[1..], open)
  }

  /** Every `text-start` is matched by exactly one `text-end` with its id
      before the next `text-start`, every `text-delta` carries the open id,
      and no span is left open. */
  predicate WellBracketed(ws: seq<WireEvent>)
  {
    Scan(ws, None) == Some(None)
  }

  function Then(r: Option<Option<string>>, ws: seq<WireEvent>): Option<Option<string>>
  {
    if r.None? then None else Scan(ws, r.value)
  }

  lemma {:induction false} ScanAppend(a: seq<WireEvent>, b: seq<WireEvent>, open: Option<string>)
    ensures Scan(a + b, open) == Then(Scan(a, open), b)
    decreases |a|
  {
    if a == [] {
      assert a + b == b;
    } else {
      assert (a + b)[0] == a[0];
      assert (a + b)[1..] == a[1..] + b;
      match a[0]
      case TextStart(id) => if open.None? { ScanAppend(a[1..], b, Some(id)); }
      case TextDelta(id, _) => if open == Some(id) { ScanAppend(a[1..], b, open); }
      case TextEnd(id) => if open == Some(id) { ScanAppend(a[1..], b, None); }
      case _ => ScanAppend(a[1..], b, open);
    }
  }

  /** A span id the loop can hold: none, or a non-empty (truthy) id. */
  predicate Sane(cur: Option<string>)
  {
    cur.None? || cur.value != ""
  }

  /** One event keeps the output well-bracketed, with either text case:
      replayed from the span open before it, its writes are legal and leave
      open exactly the span the mapper returns. */
  lemma StepKeepsBracketing(m: Mapper, e: AgentEvent, cur: Option<string>, newId: string)
    requires Sane(cur) && newId != ""
    ensures Scan(StepOf(m, e, cur, newId).writes, cur) == Some(StepOf(m, e, cur, newId).next)
    ensures Sane(StepOf(m, e, cur, newId).next)
  {
    if m.AsWritten? && e.Text? && !IsOpen(cur) {
      assert cur == None && StepOf(m, e, cur, newId).writes == [TextStart(newId)];
      assert [TextStart(newId)][1..] == [];
    } else {
      MapEventKeepsBracketing(e, cur, newId);
    }
  }

  /** The same for the step of `MapEvent`. */
  lemma MapEventKeepsBracketing(e: AgentEvent, cur: Option<string>, newId: string)
    requires Sane(cur) && newId != ""
    ensures Scan(MapEvent(e, cur, newId).writes, cur) == Some(MapEvent(e, cur, newId).next)
    ensures Sane(MapEvent(e, cur, newId).next)
  {
    match e
    case ToolCall(id, name, args) => CloseThen(cur, ToolInputAvailable(id, name, args));
    case Error(m) => CloseThen(cur, ErrorChunk(m));
    case Done => CloseThen(cur, Finish("stop"));
    case Text(t) => TextKeepsBracketing(t, cur, newId);
    case _ => OtherKeepsBracketing(e, cur, newId);
  }

  /** Events that neither write text nor close the span leave it open as it
      was. */
  lemma OtherKeepsBracketing(e: AgentEvent, cur: Option<string>, newId: string)
    requires !e.ToolCall? && !e.Error? && !e.Done? && !e.Text?
    ensures MapEvent(e, cur, newId).next == cur
    ensures Scan(MapEvent(e, cur, newId).writes, cur) == Some(cur)
  {
    var ws := MapEvent(e, cur, newId).writes;
    assert forall w | w in ws :: !w.TextStart? && !w.TextDelta? && !w.TextEnd?;
    PassThrough(ws, cur);
  }

  /** A `text` event opens a span with its first delta, or continues the
      open one. */
  lemma TextKeepsBracketing(t: string, cur: Option<string>, newId: string)
    requires Sane(cur) && newId != ""
    ensures Scan(MapEvent(Text(t), cur, newId).writes, cur) == Some(MapEvent(Text(t), cur, newId).next)
  {
    var ws := MapEvent(Text(t), cur, newId).writes;
    if !IsOpen(cur) {
      assert cur == None && ws == [TextStart(newId), TextDelta(newId, t)];
      assert ws[1..] == [TextDelta(newId, t)] && ws[1..][1..] == [];
      assert Scan(ws[1..], Some(newId)) == Some(Some(newId));
    } else {
      assert ws == [TextDelta(cur.value, t)] && ws[1..] == [];
    }
  }

  /** Chunks that are not text chunks leave the open span as it is. */
  lemma {:induction false} PassThrough(ws: seq<WireEvent>, cur: Option<string>)
    requires forall w | w in ws :: !w.TextStart? && !w.TextDelta? && !w.TextEnd?
    ensures Scan(ws, cur) == Some(cur)
    decreases |ws|
  {
    if ws != [] {
      assert ws[0] in ws;
      assert forall w | w in ws[1..] :: w in ws;
      PassThrough(ws[1..], cur);
    }
  }

  /** Closing the open span and then writing a chunk that is not a text chunk
      leaves no span open. */
  lemma CloseThen(cur: Option<string>, w: WireEvent)
    requires Sane(cur) && !w.TextStart? && !w.TextDelta? && !w.TextEnd?
    ensures Scan(Close(cur) + [w], cur) == Some(None)
  {
    assert [w][1..] == [];
    assert Scan([w], None) == Some(None);
    ScanAppend(Close(cur), [w], cur);
    CloseScan(cur);
  }

  /** The closing `text-end` leaves no span open. */
  lemma CloseScan(cur: Option<string>)
    requires Sane(cur)
    ensures Scan(Close(cur), cur) == Some(None)
  {
    if IsOpen(cur) {
      assert Close(cur)[1..] == [];
    }
  }

  /** Shape of one mapping step. Only `text` opens a span and only
      `tool-call`, `error` and `done` close one; a closing `text-end` is
      always written first; every other event writes exactly one chunk
      (none for an unlisted kind) and returns the span unchanged. A
      `text-start` is the whole of the source's step, and is followed by the
      event's text in the corrected one. */
  lemma MapEventShape(m: Mapper, e: AgentEvent, cur: Option<string>, newId: string)
    ensures var s := StepOf(m, e, cur, newId);
      && (s.usedId <==> e.Text? && !IsOpen(cur))
      && (e.ToolCall? || e.Error? || e.Done? ==>
            s.next == None && |s.writes| == |Close(cur)| + 1 && s.writes[..|Close(cur)|] == Close(cur))
      && (!e.Text? && !e.ToolCall? && !e.Error? && !e.Done? ==>
            s.next == cur && |s.writes| == (if e.Unlisted? then 0 else 1))
      && (forall w | w in s.writes :: w.TextEnd? ==> IsOpen(cur) && w == TextEnd(cur.value) && s.writes[0] == w)
      && (forall w | w in s.writes :: w.TextStart? ==>
            e.Text? && w == TextStart(newId) && s.writes == (if m.AsWritten? then [w] else [w, TextDelta(newId, e.text)]))
  {
    if m.AsWritten? && e.Text? && !IsOpen(cur) {
      assert StepOf(m, e, cur, newId) == Step([TextStart(newId)], Some(newId), true);
    } else {
      assert StepOf(m, e, cur, newId) == MapEvent(e, cur, newId);
      MapEventShapeCorrected(e, cur, newId);
    }
  }

  /** The same for the step of `MapEvent`, where a `text-start` is written
      only when no span is open. */
  lemma MapEventShapeCorrected(e: AgentEvent, cur: Option<string>, newId: string)
    ensures var s := MapEvent(e, cur, newId);
      && (s.usedId <==> e.Text? && !IsOpen(cur))
      && (e.ToolCall? || e.Error? || e.Done? ==>
            s.next == None && |s.writes| == |Close(cur)| + 1 && s.writes[..|Close(cur)|] == Close(cur))
      && (!e.Text? && !e.ToolCall? && !e.Error? && !e.Done? ==>
            s.next == cur && |s.writes| == (if e.Unlisted? then 0 else 1))
      && (forall w | w in s.writes :: w.TextEnd? ==> IsOpen(cur) && w == TextEnd(cur.value) && s.writes[0] == w)
      && (forall w | w in s.writes :: w.TextStart? ==>
            e.Text? && !IsOpen(cur) && w == TextStart(newId) && s.writes == [w, TextDelta(newId, e.text)])
  {
  }

  // ---------------------------------------------------------------------------
  // The execute loop
  // ---------------------------------------------------------------------------

  /** State of the loop after a prefix of the run: all chunks written so
      far, `currentTextId`, and how many ids the generator has handed out. */
  datatype LoopState = LoopState(written: seq<WireEvent>, cur: Option<string>, used: nat)

  /** The loop over the agent's events, as a left fold. `gen(k)` is the
      k-th id the generator returns. */
  function MapAll(m: Mapper, events: seq<AgentEvent>, gen: nat -> string): LoopState
    decreases |events|
  {
    if events == [] then LoopState([], None, 0)
    else Advance(m, MapAll(m, events[..|events| - 1], gen), events[|events| - 1], gen)
  }

  /** One iteration of the loop: map the event, write its chunks, keep the
      returned span id, and count the id if one was generated. */
  function Advance(m: Mapper, st: LoopState, e: AgentEvent, gen: nat -> string): LoopState
  {
    var s := StepOf(m, e, st.cur, gen(st.used));
    LoopState(st.written + s.writes, s.next, st.used + (if s.usedId then 1 else 0))
  }

  /** A loop state seen through a writer that already held `prefix`. */
  function After(prefix: seq<WireEvent>, st: LoopState): (r: LoopState)
    ensures |r.written| == |prefix| + |st.written|
    ensures r.written[..|prefix|] == prefix && r.written[|prefix|..] == st.written
    ensures r.cur == st.cur && r.used == st.used
  {
    st.(written := prefix + st.written)
  }

  /** What was written before the loop does not change what it writes. */
  lemma AdvanceAfter(m: Mapper, prefix: seq<WireEvent>, st: LoopState, e: AgentEvent, gen: nat -> string)
    ensures Advance(m, After(prefix, st), e, gen) == After(prefix, Advance(m, st, e, gen))
  {
    var s := StepOf(m, e, st.cur, gen(st.used));
    assert prefix + st.written + s.writes == prefix + (st.written + s.writes);
  }

  /** The fold over one more event is one more `Advance`. */
  lemma MapAllSnoc(m: Mapper, events: seq<AgentEvent>, i: nat, gen: nat -> string)
    requires i < |events|
    ensures MapAll(m, events[..i + 1], gen) == Advance(m, MapAll(m, events[..i], gen), events[i], gen)
  {
    assert events[..i + 1][..i] == events[..i];
  }

  /** Everything the execute callback writes for a run of `events`: the
      mapped events, then a `text-end` if a span is still open. It is the
      same whether the run completes or throws after these events. */
  function RunOutput(m: Mapper, events: seq<AgentEvent>, gen: nat -> string): seq<WireEvent>
  {
    var st := MapAll(m, events, gen);
    st.written + Close(st.cur)
  }

  /** The writer handed to the execute callback: its output only grows. */
  class Writer {
    var written: seq<WireEvent>

    constructor ()
      ensures written == []
    {
      written := [];
    }

    method Write(w: WireEvent)
      modifies this
      ensures written == old(written) + [w]
    {
      written := written + [w];
    }

    /** Writes a step's chunks one by one, in order. */
    method WriteAll(ws: seq<WireEvent>)
      modifies this
      ensures written == old(written) + ws
    {
      var j := 0;
      while j < |ws|
        invariant 0 <= j <= |ws|
        invariant written == old(written) + ws[..j]
      {
        Write(ws[j]);
        assert ws[..j + 1] == ws[..j] + [ws[j]];
        j := j + 1;
      }
      assert ws[..j] == ws;
    }
  }

  /** An agent run: the events it yields, and whether iteration then throws
      instead of completing. */
  datatype AgentRun = AgentRun(events: seq<AgentEvent>, throws: bool)

  datatype Outcome = Completed | Rethrown

  /** One pass of the execute loop: map the event with the current span and
      the next id, with the source's text case, and write the chunks it
      returns. */
  method WriteEvent(writer: Writer, e: AgentEvent, cur: Option<string>, used: nat, gen: nat -> string)
    returns (cur': Option<string>, used': nat)
    modifies writer
    ensures LoopState(writer.written, cur', used') == Advance(AsWritten, LoopState(old(writer.written), cur, used), e, gen)
  {
    var result := MapEventAsWritten(e, cur, gen(used));
    writer.WriteAll(result.writes);
    if result.usedId {
      used' := used + 1;
    } else {
      used' := used;
    }
    cur' := result.next;
  }

  /** The execute callback of createFullEventsHandler. */
  method Execute(writer: Writer, run: AgentRun, gen: nat -> string) returns (outcome: Outcome)
    modifies writer
    ensures writer.written == old(writer.written) + RunOutput(AsWritten, run.events, gen)
    ensures outcome == (if run.throws then Rethrown else Completed)
  {
    var currentTextId: Option<string> := None;
    var used: nat := 0;
    var i := 0;
    while i < |run.events|
      invariant 0 <= i <= |run.events|
      invariant LoopState(writer.written, currentTextId, used) == After(old(writer.written), MapAll(AsWritten, run.events[..i], gen))
    {
      currentTextId, used := WriteEvent(writer, run.events[i], currentTextId, used, gen);
      AdvanceAfter(AsWritten, old(writer.written), MapAll(AsWritten, run.events[..i], gen), run.events[i], gen);
      MapAllSnoc(AsWritten, run.events, i, gen);
      i := i + 1;
    }
    assert run.events[..i] == run.events;
    CloseSpan(writer, currentTextId);
    outcome := if run.throws then Rethrown else Completed;
  }

  /** The `text-end` written after the loop, whether it completed or threw. */
  method CloseSpan(writer: Writer, cur: Option<string>)
    modifies writer
    ensures writer.written == old(writer.written) + Close(cur)
  {
    if IsOpen(cur) {
      writer.Write(TextEnd(cur.value));
    }
  }

  // ---------------------------------------------------------------------------
  // Properties of a whole run
  // ---------------------------------------------------------------------------

  /** The loop keeps the output legal, with `currentTextId` as its open span,
      with either text case. */
  lemma {:induction false} MapAllBracketing(m: Mapper, events: seq<AgentEvent>, gen: nat -> string)
    requires forall k :: gen(k) != ""
    ensures Scan(MapAll(m, events, gen).written, None) == Some(MapAll(m, events, gen).cur)
    ensures Sane(MapAll(m, events, gen).cur)
    decreases |events|
  {
    if events != [] {
      var init := events[..|events| - 1];
      var prev := MapAll(m, init, gen);
      MapAllBracketing(m, init, gen);
      var s := StepOf(m, events[|events| - 1], prev.cur, gen(prev.used));
      StepKeepsBracketing(m, events[|events| - 1], prev.cur, gen(prev.used));
      ScanAppend(prev.written, s.writes, None);
    }
  }

  /** Whether the run completes or throws, the output is well-bracketed, as
      long as the id generator never returns the empty string (which would
      read as "no span" and leave its span unclosed). */
  lemma RunOutputWellBracketed(m: Mapper, events: seq<AgentEvent>, gen: nat -> string)
    requires forall k :: gen(k) != ""
    ensures WellBracketed(RunOutput(m, events, gen))
  {
    var st := MapAll(m, events, gen);
    MapAllBracketing(m, events, gen);
    ScanAppend(st.written, Close(st.cur), None);
    CloseScan(st.cur);
  }

  /** A text run is still going after `events`: some `text` event occurs
      after the last `tool-call`, `error` or `done`. */
  predicate InTextRun(events: seq<AgentEvent>)
    decreases |events|
  {
    if events == [] then false
    else
      var e := events[|events| - 1];
      if e.Text? then true
      else if e.ToolCall? || e.Error? || e.Done? then false
      else InTextRun(events[..|events| - 1])
  }

  /** The number of maximal text runs: `text` events not preceded by another
      `text` event since the last `tool-call`, `error` or `done`. */
  function TextRuns(events: seq<AgentEvent>): nat
    decreases |events|
  {
    if events == [] then 0
    else
      var init := events[..|events| - 1];
      TextRuns(init) + (if events[|events| - 1].Text? && !InTextRun(init) then 1 else 0)
  }

  function CountTextStarts(ws: seq<WireEvent>): nat
    decreases |ws|
  {
    if ws == [] then 0 else (if ws[0].TextStart? then 1 else 0) + CountTextStarts(ws[1..])
  }

  lemma {:induction false} CountTextStartsAppend(a: seq<WireEvent>, b: seq<WireEvent>)
    ensures CountTextStarts(a + b) == CountTextStarts(a) + CountTextStarts(b)
    decreases |a|
  {
    if a == [] {
      assert a + b == b;
    } else {
      assert (a + b)[0] == a[0];
      assert (a + b)[1..] == a[1..] + b;
      CountTextStartsAppend(a[1..], b);
    }
  }

  /** One event writes a `text-start` exactly when it is a `text` event with
      no span open, and it leaves a span open exactly when it is a `text`
      event, or an event that closes nothing while a span is open. A `text`
      event's text is written as a delta, except by the source's step when
      it opens the span. */
  lemma MapEventTextRuns(m: Mapper, e: AgentEvent, cur: Option<string>, newId: string)
    requires Sane(cur) && newId != ""
    ensures IsOpen(StepOf(m, e, cur, newId).next) <==>
      (e.Text? || (!e.ToolCall? && !e.Error? && !e.Done? && IsOpen(cur)))
    ensures CountTextStarts(StepOf(m, e, cur, newId).writes) == (if e.Text? && !IsOpen(cur) then 1 else 0)
    ensures Deltas(StepOf(m, e, cur, newId).writes) == (if e.Text? && (m.Corrected? || IsOpen(cur)) then [e.text] else [])
  {
    if m.AsWritten? && e.Text? && !IsOpen(cur) {
      var ws := StepOf(m, e, cur, newId).writes;
      assert ws == [TextStart(newId)] && ws[1..] == [];
    } else {
      assert StepOf(m, e, cur, newId) == MapEvent(e, cur, newId);
      MapEventTextRunsCorrected(e, cur, newId);
    }
  }

  /** The same for the step of `MapEvent`. */
  lemma MapEventTextRunsCorrected(e: AgentEvent, cur: Option<string>, newId: string)
    requires Sane(cur) && newId != ""
    ensures IsOpen(MapEvent(e, cur, newId).next) <==>
      (e.Text? || (!e.ToolCall? && !e.Error? && !e.Done? && IsOpen(cur)))
    ensures CountTextStarts(MapEvent(e, cur, newId).writes) == (if e.Text? && !IsOpen(cur) then 1 else 0)
    ensures Deltas(MapEvent(e, cur, newId).writes) == (if e.Text? then [e.text] else [])
  {
    var ws := MapEvent(e, cur, newId).writes;
    if |ws| == 2 {
      assert ws[1..][1..] == [];
      assert Deltas(ws[1..]) == (if ws[1].TextDelta? then [ws[1].delta] else []);
      assert CountTextStarts(ws[1..]) == (if ws[1].TextStart? then 1 else 0);
      if e.Text? && !IsOpen(cur) {
        assert ws == [TextStart(newId), TextDelta(newId, e.text)];
      }
    } else if |ws| == 1 {
      assert ws[1..] == [];
    }
  }

  /** Step, tool-result and data events never close a span, so a span is
      open exactly while a text run is going, and one `text-start` is written
      per text run. */
  lemma {:induction false} TextStartsCountRuns(m: Mapper, events: seq<AgentEvent>, gen: nat -> string)
    requires forall k :: gen(k) != ""
    ensures IsOpen(MapAll(m, events, gen).cur) <==> InTextRun(events)
    ensures CountTextStarts(MapAll(m, events, gen).written) == TextRuns(events)
    decreases |events|
  {
    if events != [] {
      var init := events[..|events| - 1];
      var prev := MapAll(m, init, gen);
      TextStartsCountRuns(m, init, gen);
      MapAllBracketing(m, init, gen);
      var e := events[|events| - 1];
      var s := StepOf(m, e, prev.cur, gen(prev.used));
      MapEventTextRuns(m, e, prev.cur, gen(prev.used));
      CountTextStartsAppend(prev.written, s.writes);
    }
  }

  /** The run output adds no `text-start`: the closing chunk is a `text-end`. */
  lemma RunOutputTextStarts(m: Mapper, events: seq<AgentEvent>, gen: nat -> string)
    requires forall k :: gen(k) != ""
    ensures CountTextStarts(RunOutput(m, events, gen)) == TextRuns(events)
  {
    var st := MapAll(m, events, gen);
    TextStartsCountRuns(m, events, gen);
    CountTextStartsAppend(st.written, Close(st.cur));
  }

  /** The payloads of the `text-delta` chunks, in order. */
  function Deltas(ws: seq<WireEvent>): seq<string>
    decreases |ws|
  {
    if ws == [] then [] else (if ws[0].TextDelta? then [ws[0].delta] else []) + Deltas(ws[1..])
  }

  lemma {:induction false} DeltasAppend(a: seq<WireEvent>, b: seq<WireEvent>)
    ensures Deltas(a + b) == Deltas(a) + Deltas(b)
    decreases |a|
  {
    if a == [] {
      assert a + b == b;
    } else {
      assert (a + b)[0] == a[0];
      assert (a + b)[1..] == a[1..] + b;
      DeltasAppend(a[1..], b);
    }
  }

  /** The texts of the `text` events, in order. */
  function Texts(events: seq<AgentEvent>): seq<string>
    decreases |events|
  {
    if events == [] then []
    else
      var e := events[|events| - 1];
      Texts(events[..|events| - 1]) + (if e.Text? then [e.text] else [])
  }

  /** The texts of the `text` events that continue a text run, in order: all
      but the first of each run. */
  function ContinuedTexts(events: seq<AgentEvent>): seq<string>
    decreases |events|
  {
    if events == [] then []
    else
      var init := events[..|events| - 1];
      var e := events[|events| - 1];
      ContinuedTexts(init) + (if e.Text? && InTextRun(init) then [e.text] else [])
  }

  /** Each text run gives up exactly its first text. */
  lemma {:induction false} OneTextLostPerRun(events: seq<AgentEvent>)
    ensures |Texts(events)| == |ContinuedTexts(events)| + TextRuns(events)
    decreases |events|
  {
    if events != [] {
      OneTextLostPerRun(events[..|events| - 1]);
    }
  }

  /** The deltas written by the loop: every text with the corrected step, the
      continuing texts with the source's. */
  lemma {:induction false} MapAllDeltas(m: Mapper, events: seq<AgentEvent>, gen: nat -> string)
    requires forall k :: gen(k) != ""
    ensures Deltas(MapAll(m, events, gen).written) == if m.Corrected? then Texts(events) else ContinuedTexts(events)
    decreases |events|
  {
    if events != [] {
      var init := events[..|events| - 1];
      var prev := MapAll(m, init, gen);
      MapAllDeltas(m, init, gen);
      MapAllBracketing(m, init, gen);
      TextStartsCountRuns(m, init, gen);
      var e := events[|events| - 1];
      var s := StepOf(m, e, prev.cur, gen(prev.used));
      MapEventTextRuns(m, e, prev.cur, gen(prev.used));
      DeltasAppend(prev.written, s.writes);
    }
  }

  /** With the corrected step no text is lost or reordered: the deltas on the
      wire are exactly the texts of the `text` events, in order. */
  lemma {:induction false} DeltasAreTexts(events: seq<AgentEvent>, gen: nat -> string)
    requires forall k :: gen(k) != ""
    ensures Deltas(RunOutput(Corrected, events, gen)) == Texts(events)
  {
    MapAllDeltas(Corrected, events, gen);
    var st := MapAll(Corrected, events, gen);
    DeltasAppend(st.written, Close(st.cur));
  }

  /** As written, the deltas on the wire are the texts that continue a run,
      in order: one text per run, its first, never reaches the wire. */
  lemma {:induction false} DeltasAsWritten(events: seq<AgentEvent>, gen: nat -> string)
    requires forall k :: gen(k) != ""
    ensures Deltas(RunOutput(AsWritten, events, gen)) == ContinuedTexts(events)
    ensures |Deltas(RunOutput(AsWritten, events, gen))| == |Texts(events)| - TextRuns(events)
  {
    MapAllDeltas(AsWritten, events, gen);
    var st := MapAll(AsWritten, events, gen);
    DeltasAppend(st.written, Close(st.cur));
    OneTextLostPerRun(events);
  }

  /** A reply made of one `text` event and `done`: as written, a span is
      opened and closed around no text at all; the corrected step puts the
      text inside the span. */
  lemma SingleTextReply(t: string, gen: nat -> string)
    requires gen(0) != ""
    ensures RunOutput(AsWritten, [Text(t), Done], gen) == [TextStart(gen(0)), TextEnd(gen(0)), Finish("stop")]
    ensures RunOutput(Corrected, [Text(t), Done], gen) == [TextStart(gen(0)), TextDelta(gen(0), t), TextEnd(gen(0)), Finish("stop")]
  {
    var events := [Text(t), Done];
    assert events[..1][..0] == [];
    assert MapAll(AsWritten, events[..1], gen) == LoopState([TextStart(gen(0))], Some(gen(0)), 1);
    assert MapAll(AsWritten, events, gen) == LoopState([TextStart(gen(0)), TextEnd(gen(0)), Finish("stop")], None, 1);
    assert MapAll(Corrected, events[..1], gen) == LoopState([TextStart(gen(0)), TextDelta(gen(0), t)], Some(gen(0)), 1);
    assert MapAll(Corrected, events, gen) == LoopState([TextStart(gen(0)), TextDelta(gen(0), t), TextEnd(gen(0)), Finish("stop")], None, 1);
  }

  /** The loop does not stop after an `error` event: later events are still
      mapped, and a later `text` opens a new span, which is closed at the
      end. */
  lemma ErrorDoesNotStopLoop(message: string, t: string, gen: nat -> string)
    requires gen(0) != ""
    ensures RunOutput(AsWritten, [Error(message), Text(t)], gen) == [ErrorChunk(message), TextStart(gen(0)), TextEnd(gen(0))]
  {
    var events := [Error(message), Text(t)];
    assert events[..1][..0] == [];
    assert MapAll(AsWritten, events[..1], gen) == LoopState([ErrorChunk(message)], None, 0);
    assert MapAll(AsWritten, events, gen) == LoopState([ErrorChunk(message), TextStart(gen(0))], Some(gen(0)), 1);
  }
}
