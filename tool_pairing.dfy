/** The pairing of tool calls with their results that both chat hooks do
    before they build task cards: a `Map` keyed by `toolCallId`, filled in
    part order. A `tool-call` part stores a new entry under its id (a
    repeated id replaces the whole entry, result included, but keeps the
    entry's place in the map's insertion order); a `tool-result` part sets
    the result of the entry stored under its id, and is dropped when there
    is none. */
module ToolPairing {
  import opened Common

  datatype ToolCall = ToolCall(toolCallId: Json, toolName: Json, args: Json)
  datatype ToolResult = ToolResult(result: Json, isError: Json)

  /** What one message part contributes to the grouping. */
  datatype ToolEvent =
    | CallEvent(call: ToolCall)
    | ResultEvent(toolCallId: Json, res: ToolResult)
    | NoToolEvent

  /** One value of the map: the call, and the result once one arrives. */
  datatype Entry = Entry(call: ToolCall, result: Option<ToolResult>)

  function Key(e: Entry): Json
  {
    e.call.toolCallId
  }

  /** The map's entries in insertion order; a `Map` holds each key once. */
  predicate UniqueKeys(entries: seq<Entry>)
  {
    forall i, j :: 0 <= i < j < |entries| ==> Key(entries[i]) != Key(entries[j])
  }

  /** Position of a key in the map. */
  function Find(entries: seq<Entry>, id: Json): (r: Option<nat>)
    ensures r.Some? ==> r.value < |entries| && Key(entries[r.value]) == id
    ensures r.None? <==> forall i :: 0 <= i < |entries| ==> Key(entries[i]) != id
    decreases |entries|
  {
    if entries == [] then None
    else if Key(entries[0]) == id then Some(0)
    else
      var r := Find(entries[1..], id);
      if r.Some? then Some(r.value + 1) else None
  }

  /** `toolMap.get(id)` */
  function At(entries: seq<Entry>, id: Json): Option<Entry>
  {
    var k := Find(entries, id);
    if k.Some? then Some(entries[k.value]) else None
  }

  lemma FindIndex(entries: seq<Entry>, id: Json, k: nat)
    requires UniqueKeys(entries) && k < |entries| && Key(entries[k]) == id
    ensures Find(entries, id) == Some(k)
  {
  }

  /** One iteration of the grouping loop. */
  function Record(entries: seq<Entry>, ev: ToolEvent): seq<Entry>
  {
    match ev
    case CallEvent(c) =>
      var k := Find(entries, c.toolCallId);
      if k.Some? then entries[k.value := Entry(c, None)] else entries + [Entry(c, None)]
    case ResultEvent(id, res) =>
      var k := Find(entries, id);
      if k.Some? then entries[k.value := entries[k.value].(result := Some(res))] else entries
    case NoToolEvent => entries
  }

  /** The body of both hooks' grouping loops, on the map itself: a call is
      `set` under its id, a result is added to the entry `get` finds. */
  method RecordEvent(toolMap: seq<Entry>, ev: ToolEvent) returns (m: seq<Entry>)
    ensures m == Record(toolMap, ev)
  {
    m := toolMap;
    match ev {
      case CallEvent(call) =>
        var k := Find(m, call.toolCallId);
        if k.Some? {
          m := m[k.value := Entry(call, None)];
        } else {
          m := m + [Entry(call, None)];
        }
      case ResultEvent(id, res) =>
        var existing := Find(m, id);
        if existing.Some? {
          m := m[existing.value := m[existing.value].(result := Some(res))];
        }
      case NoToolEvent =>
    }
  }

  /** The map after the loop has seen `evs`. */
  function Group(evs: seq<ToolEvent>): seq<Entry>
    decreases |evs|
  {
    if evs == [] then [] else Record(Group(evs[..|evs| - 1]), evs[|evs| - 1])
  }

  /** One more part is one more step of the loop. */
  lemma GroupSnoc(evs: seq<ToolEvent>, ev: ToolEvent)
    ensures Group(evs + [ev]) == Record(Group(evs), ev)
  {
    assert (evs + [ev])[..|evs|] == evs;
  }

  // ---------------------------------------------------------------------------
  // The same map, described by the parts alone
  // ---------------------------------------------------------------------------

  predicate IsCallFor(ev: ToolEvent, id: Json)
  {
    ev.CallEvent? && ev.call.toolCallId == id
  }

  predicate IsResultFor(ev: ToolEvent, id: Json)
  {
    ev.ResultEvent? && ev.toolCallId == id
  }

  /** Index of the first call with this id. */
  function FirstCall(evs: seq<ToolEvent>, id: Json): (r: Option<nat>)
    ensures r.Some? ==> (r.value < |evs| && IsCallFor(evs[r.value], id)
      && forall j :: 0 <= j < r.value ==> !IsCallFor(evs[j], id))
    ensures r.None? ==> forall j :: 0 <= j < |evs| ==> !IsCallFor(evs[j], id)
    decreases |evs|
  {
    if evs == [] then None
    else
      var r := FirstCall(evs[..|evs| - 1], id);
      if r.Some? then r
      else if IsCallFor(evs[|evs| - 1], id) then Some(|evs| - 1)
      else None
  }

  /** Index of the last call with this id. */
  function LastCall(evs: seq<ToolEvent>, id: Json): (r: Option<nat>)
    ensures r.Some? ==> (r.value < |evs| && IsCallFor(evs[r.value], id)
      && forall j :: r.value < j < |evs| ==> !IsCallFor(evs[j], id))
    ensures r.None? ==> forall j :: 0 <= j < |evs| ==> !IsCallFor(evs[j], id)
    decreases |evs|
  {
    if evs == [] then None
    else if IsCallFor(evs[|evs| - 1], id) then Some(|evs| - 1)
    else LastCall(evs[..|evs| - 1], id)
  }

  /** Index of the last result with this id at or after `from`. */
  function LastResultFrom(evs: seq<ToolEvent>, id: Json, from: nat): (r: Option<nat>)
    ensures r.Some? ==> (from <= r.value < |evs| && IsResultFor(evs[r.value], id)
      && forall j :: r.value < j < |evs| ==> !IsResultFor(evs[j], id))
    ensures r.None? ==> forall j :: from <= j < |evs| ==> !IsResultFor(evs[j], id)
    decreases |evs|
  {
    if |evs| <= from then None
    else if IsResultFor(evs[|evs| - 1], id) then Some(|evs| - 1)
    else LastResultFrom(evs[..|evs| - 1], id, from)
  }

  /** What the map holds under `id`: the last call with that id, paired with
      the last result for it that comes after that call; nothing when no
      call has that id. */
  function Expected(evs: seq<ToolEvent>, id: Json): Option<Entry>
  {
    var c := LastCall(evs, id);
    if c.None? then None else Some(Pair(evs, id, c.value))
  }

  /** The call at index `c`, paired with the last result for `id` after it. */
  function Pair(evs: seq<ToolEvent>, id: Json, c: nat): Entry
    requires c < |evs| && evs[c].CallEvent?
  {
    var r := LastResultFrom(evs, id, c + 1);
    Entry(evs[c].call, if r.None? then None else Some(evs[r.value].res))
  }

  // ---------------------------------------------------------------------------
  // The loop computes that map
  // ---------------------------------------------------------------------------

  /** Replacing an entry by one with the same key changes only what the map
      holds under that key. */
  lemma ReplaceAt(entries: seq<Entry>, k: nat, e: Entry, id: Json)
    requires UniqueKeys(entries) && k < |entries| && Key(e) == Key(entries[k])
    ensures UniqueKeys(entries[k := e])
    ensures At(entries[k := e], id) == if id == Key(e) then Some(e) else At(entries, id)
  {
    var r := entries[k := e];
    assert forall i :: 0 <= i < |r| ==> Key(r[i]) == Key(entries[i]);
    FindIndex(r, Key(e), k);
    if id != Key(e) && At(entries, id).Some? {
      FindIndex(r, id, Find(entries, id).value);
    }
  }

  /** Appending an entry under a new key changes only what the map holds
      under that key. */
  lemma AppendAt(entries: seq<Entry>, e: Entry, id: Json)
    requires UniqueKeys(entries) && Find(entries, Key(e)).None?
    ensures UniqueKeys(entries + [e])
    ensures At(entries + [e], id) == if id == Key(e) then Some(e) else At(entries, id)
  {
    var r := entries + [e];
    assert forall i :: 0 <= i < |entries| ==> r[i] == entries[i];
    FindIndex(r, Key(e), |entries|);
    if id != Key(e) && At(entries, id).Some? {
      FindIndex(r, id, Find(entries, id).value);
    }
  }

  /** One part changes only the entry under its own id. */
  lemma RecordAt(entries: seq<Entry>, ev: ToolEvent, id: Json)
    requires UniqueKeys(entries)
    ensures UniqueKeys(Record(entries, ev))
    ensures At(Record(entries, ev), id) ==
      if IsCallFor(ev, id) then Some(Entry(ev.call, None))
      else if IsResultFor(ev, id) && At(entries, id).Some? then Some(At(entries, id).value.(result := Some(ev.res)))
      else At(entries, id)
  {
    match ev
    case CallEvent(c) =>
      var k := Find(entries, c.toolCallId);
      if k.Some? {
        ReplaceAt(entries, k.value, Entry(c, None), id);
      } else {
        AppendAt(entries, Entry(c, None), id);
      }
    case ResultEvent(rid, res) =>
      var k := Find(entries, rid);
      if k.Some? {
        ReplaceAt(entries, k.value, entries[k.value].(result := Some(res)), id);
      }
    case NoToolEvent =>
  }

  /** The description by the parts follows the same step equations. */
  lemma {:induction false} ExpectedStep(evs: seq<ToolEvent>, id: Json)
    requires evs != []
    ensures var init := evs[..|evs| - 1]; var ev := evs[|evs| - 1];
      Expected(evs, id) ==
        if IsCallFor(ev, id) then Some(Entry(ev.call, None))
        else if IsResultFor(ev, id) && Expected(init, id).Some? then Some(Expected(init, id).value.(result := Some(ev.res)))
        else Expected(init, id)
  {
    if IsCallFor(evs[|evs| - 1], id) {
      ExpectedAtCall(evs, id);
    } else {
      ExpectedAfterCall(evs, id);
    }
  }

  /** A call replaces the whole entry: no result yet. */
  lemma {:induction false} ExpectedAtCall(evs: seq<ToolEvent>, id: Json)
    requires evs != [] && IsCallFor(evs[|evs| - 1], id)
    ensures Expected(evs, id) == Some(Entry(evs[|evs| - 1].call, None))
  {
    assert LastCall(evs, id) == Some(|evs| - 1);
    assert LastResultFrom(evs, id, |evs|).None?;
  }

  /** Any other part keeps the last call, and a result for it becomes the
      entry's result. */
  lemma {:induction false} ExpectedAfterCall(evs: seq<ToolEvent>, id: Json)
    requires evs != [] && !IsCallFor(evs[|evs| - 1], id)
    ensures var init := evs[..|evs| - 1]; var ev := evs[|evs| - 1];
      Expected(evs, id) ==
        if IsResultFor(ev, id) && Expected(init, id).Some? then Some(Expected(init, id).value.(result := Some(ev.res)))
        else Expected(init, id)
  {
    LastCallStep(evs, id);
    var c := LastCall(evs[..|evs| - 1], id);
    if c.Some? {
      PairStep(evs, id, c.value);
    }
  }

  /** The entry built from an earlier call, one part later: a result for
      `id` becomes its result, any other part leaves it alone. */
  lemma {:induction false} PairStep(evs: seq<ToolEvent>, id: Json, c: nat)
    requires c < |evs| - 1 && evs[c].CallEvent?
    ensures var init := evs[..|evs| - 1]; var ev := evs[|evs| - 1];
      Pair(evs, id, c) ==
        if IsResultFor(ev, id) then Pair(init, id, c).(result := Some(ev.res)) else Pair(init, id, c)
  {
    var init := evs[..|evs| - 1];
    LastResultStep(evs, id, c + 1);
    assert evs[c] == init[c];
    var r := LastResultFrom(init, id, c + 1);
    if r.Some? {
      assert evs[r.value] == init[r.value];
    }
  }

  /** A part that is no call for `id` leaves its last call where it was. */
  lemma {:induction false} LastCallStep(evs: seq<ToolEvent>, id: Json)
    requires evs != [] && !IsCallFor(evs[|evs| - 1], id)
    ensures LastCall(evs, id) == LastCall(evs[..|evs| - 1], id)
  {
  }

  /** The last result at or after `from`, one part later. */
  lemma {:induction false} LastResultStep(evs: seq<ToolEvent>, id: Json, from: nat)
    requires evs != [] && from < |evs|
    ensures LastResultFrom(evs, id, from) ==
      if IsResultFor(evs[|evs| - 1], id) then Some(|evs| - 1) else LastResultFrom(evs[..|evs| - 1], id, from)
  {
  }

  /** The grouping loop builds exactly the map described by the parts: every
      id that some call carries is a key, no other id is, and the value under
      it is the last call for that id with the last later result. */
  lemma {:induction false} GroupIsExpected(evs: seq<ToolEvent>)
    ensures UniqueKeys(Group(evs))
    ensures forall id :: At(Group(evs), id) == Expected(evs, id)
    decreases |evs|
  {
    if evs != [] {
      var init := evs[..|evs| - 1];
      GroupIsExpected(init);
      forall id
        ensures At(Group(evs), id) == Expected(evs, id)
      {
        RecordAt(Group(init), evs[|evs| - 1], id);
        ExpectedStep(evs, id);
      }
      RecordAt(Group(init), evs[|evs| - 1], Undefined);
    }
  }

  /** Entries keep the order in which their ids were first called: a repeated
      call replaces an entry without moving it. */
  lemma {:induction false} GroupOrder(evs: seq<ToolEvent>)
    ensures forall i :: 0 <= i < |Group(evs)| ==> FirstCall(evs, Key(Group(evs)[i])).Some?
    ensures forall i, j :: 0 <= i < j < |Group(evs)| ==>
      FirstCall(evs, Key(Group(evs)[i])).value < FirstCall(evs, Key(Group(evs)[j])).value
    decreases |evs|
  {
    if evs != [] {
      var init := evs[..|evs| - 1];
      var ev := evs[|evs| - 1];
      var g := Group(init);
      GroupOrder(init);
      GroupIsExpected(init);
      var r := Group(evs);
      assert r == Record(g, ev);
      assert forall i :: 0 <= i < |g| ==> FirstCall(evs, Key(g[i])) == FirstCall(init, Key(g[i]));
      if ev.CallEvent? && Find(g, ev.call.toolCallId).None? {
        assert r == g + [Entry(ev.call, None)];
        assert FirstCall(init, ev.call.toolCallId).None? by {
          assert Expected(init, ev.call.toolCallId).None?;
        }
        assert FirstCall(evs, ev.call.toolCallId) == Some(|init|);
      } else {
        RecordKeepsKeys(g, ev);
      }
    }
  }

  /** A part that adds no entry leaves every key in its place. */
  lemma RecordKeepsKeys(g: seq<Entry>, ev: ToolEvent)
    requires !(ev.CallEvent? && Find(g, ev.call.toolCallId).None?)
    ensures |Record(g, ev)| == |g|
    ensures forall i :: 0 <= i < |g| ==> Key(Record(g, ev)[i]) == Key(g[i])
  {
  }

  // ---------------------------------------------------------------------------
  // Task cards
  // ---------------------------------------------------------------------------

  datatype TaskStatus = TaskPending | TaskInProgress | TaskCompleted | TaskError

  datatype ItemKind = InputItem | ProcessingItem | ResultItem | ErrorItem

  /** One line of a task card; `data` is undefined for the processing item. */
  datatype TaskItem = TaskItem(kind: ItemKind, content: string, data: Json)

  datatype Task = Task(toolCallId: Json, toolName: Json, status: TaskStatus, items: seq<TaskItem>)

  /** The item that shows a task's outcome, for each status but pending. */
  function StatusItemKind(st: TaskStatus): ItemKind
  {
    match st
    case TaskInProgress => ProcessingItem
    case TaskCompleted => ResultItem
    case TaskError => ErrorItem
    case TaskPending => InputItem
  }
}
