/** What one assistant turn does with each streamed record
    (`handleSendMessage`, src/App.tsx): text and error markers are appended
    to the content, tools are upserted by id into an insertion-ordered map,
    and the timestamp is overwritten. */
module Turn {
  import opened ChatTypes

  /** The marker appended for an `error` record: the error text on a new
      line, bracketed and labelled, and recoverable from the marker. */
  function ErrorMarker(content: string): (r: string)
    ensures |r| == |content| + 10
    ensures r[..9] == "\n[Error: " && r[|r| - 1] == ']'
    ensures r[9..|r| - 1] == content
  {
    "\n[Error: " + content + "]"
  }

  /** The marker appended when the transport fails. */
  const ConnectionErrorMarker: string := "\n[Connection error occurred]"

  /** A JavaScript `Map<string, Tool>` as its keys in first-insertion order
      plus its entries: every key once, the same keys on both sides, and
      each tool filed under its own id. */
  ghost predicate ToolMapInvariant(keys: seq<string>, entries: map<string, Tool>) {
    && (forall i, j | 0 <= i < j < |keys| :: keys[i] != keys[j])
    && (forall id :: id in entries <==> id in keys)
    && (forall id | id in entries :: entries[id].id == id)
  }

  /** `Array.from(map.values())`: the tools in key order, one per id, and
      every tool in the map among them. */
  function ToolValues(keys: seq<string>, entries: map<string, Tool>): (r: seq<Tool>)
    requires ToolMapInvariant(keys, entries)
    ensures |r| == |keys|
    ensures forall i | 0 <= i < |r| :: r[i] == entries[keys[i]] && r[i].id == keys[i]
    ensures forall i, j | 0 <= i < j < |r| :: r[i].id != r[j].id
    ensures forall id | id in entries :: entries[id] in r
  {
    var r := seq(|keys|, i requires 0 <= i < |keys| => entries[keys[i]]);
    assert forall id | id in entries :: exists i | 0 <= i < |keys| :: keys[i] == id && r[i] == entries[id];
    r
  }

  /** The tool map `handleSendMessage` fills with `toolsMap.set`. */
  class ToolsMap {
    var keys: seq<string>
    var entries: map<string, Tool>

    ghost predicate Valid()
      reads this
    {
      ToolMapInvariant(keys, entries)
    }

    constructor ()
      ensures Valid() && keys == [] && entries == map[]
    {
      keys := [];
      entries := map[];
    }

    /** `map.set(tool.id, tool)`: the entry is replaced whole; a new key goes
        to the end, an existing key keeps its place. */
    method Set(tool: Tool)
      requires Valid()
      modifies this
      ensures Valid()
      ensures entries == old(entries)[tool.id := tool]
      ensures keys == if tool.id in old(entries) then old(keys) else old(keys) + [tool.id]
    {
      if tool.id !in entries {
        keys := keys + [tool.id];
      }
      entries := entries[tool.id := tool];
    }

    /** `Array.from(map.values())`: one value per key, in key order, each
        the entry filed under its key. */
    function Values(): (r: seq<Tool>)
      reads this
      requires Valid()
      ensures |r| == |keys| && forall i | 0 <= i < |keys| :: r[i] == entries[keys[i]]
    {
      ToolValues(keys, entries)
    }
  }

  /** The in-flight assistant message, with its tool map. */
  datatype Draft = Draft(content: string, timestamp: string, toolIds: seq<string>, tools: map<string, Tool>)

  /** A draft as the turn creates it: empty content, no tools. */
  function StartDraft(timestamp: string): Draft {
    Draft([], timestamp, [], map[])
  }

  ghost predicate WellFormed(d: Draft) {
    ToolMapInvariant(d.toolIds, d.tools)
  }

  /** `toolsMap.set(tool.id, tool)` on a draft: the entry under the id is
      replaced whole, a new id goes to the end of the key order and a known
      one keeps its place, the map stays well formed, and the content and
      timestamp are untouched. */
  function Upsert(d: Draft, tool: Tool): (r: Draft)
    ensures r.tools == d.tools[tool.id := tool]
    ensures r.toolIds == if tool.id in d.tools then d.toolIds else d.toolIds + [tool.id]
    ensures WellFormed(d) ==> WellFormed(r)
    ensures r.content == d.content && r.timestamp == d.timestamp
  {
    if tool.id in d.tools then d.(tools := d.tools[tool.id := tool])
    else d.(toolIds := d.toolIds + [tool.id], tools := d.tools[tool.id := tool])
  }

  /** The loop body for one record: the branch on its type, then the
      timestamp, which every record overwrites. */
  function Step(d: Draft, rec: StreamResponse): (r: Draft)
    ensures r.timestamp == rec.timestamp
    ensures r.content == d.content + Addition(rec)
    ensures (rec.kind.ToolCall? || rec.kind.ToolResult?) && rec.tool.Some? ==>
      r.toolIds == Upsert(d, rec.tool.value).toolIds && r.tools == Upsert(d, rec.tool.value).tools
    ensures !((rec.kind.ToolCall? || rec.kind.ToolResult?) && rec.tool.Some?) ==>
      r.toolIds == d.toolIds && r.tools == d.tools
  {
    assert d.content + [] == d.content;
    var updated :=
      if rec.kind.Text? then d.(content := d.content + rec.content)
      else if rec.kind.ToolCall? && rec.tool.Some? then Upsert(d, rec.tool.value)
      else if rec.kind.ToolResult? && rec.tool.Some? then Upsert(d, rec.tool.value)
      else if rec.kind.Error? then d.(content := d.content + ErrorMarker(rec.content))
      else d;
    updated.(timestamp := rec.timestamp)
  }

  /** The draft after the records `recs`, in arrival order. It keeps the map
      well formed, never forgets a tool, and carries the timestamp of the
      last record, or the starting one when there was none. */
  function Run(d: Draft, recs: seq<StreamResponse>): (r: Draft)
    ensures WellFormed(d) ==> WellFormed(r)
    ensures d.tools.Keys <= r.tools.Keys
    ensures r.timestamp == if recs == [] then d.timestamp else recs[|recs| - 1].timestamp
    decreases |recs|
  {
    if recs == [] then d else Step(Run(d, recs[..|recs| - 1]), recs[|recs| - 1])
  }

  /** One more record of a run is one more step. */
  lemma RunPrefix(d: Draft, recs: seq<StreamResponse>, i: nat)
    requires i < |recs|
    ensures Run(d, recs[..i + 1]) == Step(Run(d, recs[..i]), recs[i])
  {
    assert recs[..i + 1][..i] == recs[..i];
  }

  /** The published form of a draft: `{ ...assistantMessage }` with its tool list. */
  function Snapshot(id: string, d: Draft): (m: Message)
    requires WellFormed(d)
    ensures m.id == id && m.role == Assistant
    ensures m.content == d.content && m.timestamp == d.timestamp
    ensures m.tools.Some? && |m.tools.value| == |d.toolIds|
    ensures forall i | 0 <= i < |d.toolIds| :: m.tools.value[i] == d.tools[d.toolIds[i]]
  {
    Message(id, Assistant, d.content, d.timestamp, Some(ToolValues(d.toolIds, d.tools)))
  }

  /** `assistantMessage` while the turn runs, together with the `toolsMap`
      its tool list is copied from. */
  class AssistantDraft {
    const id: string
    var content: string
    var timestamp: string
    var tools: seq<Tool>
    const toolsMap: ToolsMap

    ghost predicate Valid()
      reads this, toolsMap
    {
      toolsMap.Valid() && tools == ToolValues(toolsMap.keys, toolsMap.entries)
    }

    /** The draft this object stands for. */
    ghost function State(): Draft
      reads this, toolsMap
    {
      Draft(content, timestamp, toolsMap.keys, toolsMap.entries)
    }

    constructor (id: string, timestamp: string)
      ensures Valid() && fresh(toolsMap)
      ensures this.id == id && State() == StartDraft(timestamp)
    {
      this.id := id;
      content := [];
      this.timestamp := timestamp;
      tools := [];
      toolsMap := new ToolsMap();
    }

    /** The loop body for one record, applied in place. */
    method Absorb(rec: StreamResponse)
      requires Valid()
      modifies this, toolsMap
      ensures Valid()
      ensures State() == Step(old(State()), rec)
    {
      if rec.kind.Text? {
        content := content + rec.content;
      } else if rec.kind.ToolCall? && rec.tool.Some? {
        toolsMap.Set(rec.tool.value);
      } else if rec.kind.ToolResult? && rec.tool.Some? {
        toolsMap.Set(rec.tool.value);
      } else if rec.kind.Error? {
        content := content + ErrorMarker(rec.content);
      }
      tools := toolsMap.Values();
      timestamp := rec.timestamp;
    }

    /** The catch block: append the connection-error marker. */
    method MarkConnectionLost()
      requires Valid()
      modifies this
      ensures Valid()
      ensures State() == old(State()).(content := old(content) + ConnectionErrorMarker)
    {
      content := content + ConnectionErrorMarker;
    }

    /** `{ ...assistantMessage }`. */
    function Copy(): (m: Message)
      reads this, toolsMap
      requires Valid()
      ensures WellFormed(State()) && m == Snapshot(id, State())
    {
      Message(id, Assistant, content, timestamp, Some(tools))
    }
  }

  // ----- Reference definitions the reducer is checked against -----

  /** The text one record adds to the content. */
  function Addition(rec: StreamResponse): string {
    match rec.kind
    case Text => rec.content
    case Error => ErrorMarker(rec.content)
    case _ => []
  }

  /** The text a run of records adds, record by record. */
  function Transcript(recs: seq<StreamResponse>): string
    decreases |recs|
  {
    if recs == [] then [] else Addition(recs[0]) + Transcript(recs[1..])
  }

  /** The tools carried by `tool_call` and `tool_result` records, in order. */
  function Updates(recs: seq<StreamResponse>): seq<Tool>
    decreases |recs|
  {
    if recs == [] then []
    else
      var last := recs[|recs| - 1];
      Updates(recs[..|recs| - 1])
        + (if (last.kind.ToolCall? || last.kind.ToolResult?) && last.tool.Some? then [last.tool.value] else [])
  }

  /** The ids of a list of tools. */
  function IdsOf(tools: seq<Tool>): (r: seq<string>)
    ensures |r| == |tools|
    ensures forall i | 0 <= i < |tools| :: r[i] == tools[i].id
  {
    seq(|tools|, i requires 0 <= i < |tools| => tools[i].id)
  }

  /** The latest tool in `tools` with the given id, if any. */
  function Latest(tools: seq<Tool>, id: string): (r: Option<Tool>)
    ensures r.Some? <==> id in IdsOf(tools)
    ensures r.Some? ==> r.value in tools && r.value.id == id
    decreases |tools|
  {
    if tools == [] then None
    else if tools[|tools| - 1].id == id then Some(tools[|tools| - 1])
    else
      assert IdsOf(tools) == IdsOf(tools[..|tools| - 1]) + [tools[|tools| - 1].id];
      Latest(tools[..|tools| - 1], id)
  }

  /** The position of the first occurrence of `x` in `s`. */
  function FirstIndex(s: seq<string>, x: string): (k: nat)
    requires x in s
    ensures k < |s| && s[k] == x && x !in s[..k]
  {
    if s[0] == x then 0
    else
      assert s[1..][..FirstIndex(s[1..], x)] == s[1..FirstIndex(s[1..], x) + 1];
      1 + FirstIndex(s[1..], x)
  }

  /** A position with `x` and no earlier `x` is the first occurrence. */
  lemma FirstIndexUnique(s: seq<string>, x: string, k: nat)
    requires k < |s| && s[k] == x && x !in s[..k]
    ensures FirstIndex(s, x) == k
  {
  }

  /** Content grows by exactly the text of the records, in arrival order:
      `text` contributes its content, `error` its marker, nothing else
      contributes. */
  lemma {:induction false} RunContent(d: Draft, recs: seq<StreamResponse>)
    ensures Run(d, recs).content == d.content + Transcript(recs)
    decreases |recs|
  {
    if recs != [] {
      var init, last := recs[..|recs| - 1], recs[|recs| - 1];
      var prev := Run(d, init);
      assert Run(d, recs) == Step(prev, last);
      RunContent(d, init);
      assert init + [last] == recs;
      TranscriptSnoc(init, last);
      assert (d.content + Transcript(init)) + Addition(last) == d.content + (Transcript(init) + Addition(last));
    }
  }

  /** Transcript of one more record. */
  lemma {:induction false} TranscriptSnoc(recs: seq<StreamResponse>, rec: StreamResponse)
    ensures Transcript(recs + [rec]) == Transcript(recs) + Addition(rec)
    decreases |recs|
  {
    if recs == [] {
      assert [rec][1..] == [];
    } else {
      assert (recs + [rec])[1..] == recs[1..] + [rec];
      TranscriptSnoc(recs[1..], rec);
    }
  }

  /** From an empty map: the keys are exactly the ids of the tool updates,
      and each entry is the latest update with its id (a full replace, both
      record kinds alike). */
  lemma {:induction false} RunToolEntries(d: Draft, recs: seq<StreamResponse>)
    requires d.toolIds == [] && d.tools == map[]
    ensures forall id :: id in Run(d, recs).tools <==> id in IdsOf(Updates(recs))
    ensures forall id | id in Run(d, recs).tools :: Latest(Updates(recs), id) == Some(Run(d, recs).tools[id])
    decreases |recs|
  {
    if recs != [] {
      var init := recs[..|recs| - 1];
      var rec := recs[|recs| - 1];
      RunToolEntries(d, init);
      var us := Updates(init);
      if (rec.kind.ToolCall? || rec.kind.ToolResult?) && rec.tool.Some? {
        var t := rec.tool.value;
        assert Updates(recs) == us + [t];
        assert IdsOf(us + [t]) == IdsOf(us) + [t.id];
        forall id | id != t.id
          ensures Latest(us + [t], id) == Latest(us, id)
        {
          assert (us + [t])[..|us|] == us;
        }
      } else {
        assert Updates(recs) == us;
      }
    }
  }

  /** Appending to a sequence keeps the first occurrence of what was
      already there. */
  lemma FirstIndexSnoc(s: seq<string>, x: string, y: string)
    requires y in s
    ensures FirstIndex(s + [x], y) == FirstIndex(s, y)
  {
    var k := FirstIndex(s, y);
    assert (s + [x])[..k] == s[..k];
    FirstIndexUnique(s + [x], y, k);
  }

  /** A newcomer appended to a sequence is first seen at the end. */
  lemma FirstIndexNew(s: seq<string>, x: string)
    requires x !in s
    ensures FirstIndex(s + [x], x) == |s|
  {
    assert (s + [x])[..|s|] == s;
    FirstIndexUnique(s + [x], x, |s|);
  }

  /** Appending `x` to the seen ids keeps the first-seen order of a key list
      that gains `x` at the end exactly when `x` is new. */
  lemma FirstSeenStep(ids: seq<string>, keys: seq<string>, x: string)
    requires forall id :: id in keys <==> id in ids
    requires forall i, j | 0 <= i < j < |keys| :: FirstIndex(ids, keys[i]) < FirstIndex(ids, keys[j])
    ensures var keys' := if x in keys then keys else keys + [x];
      && (forall id :: id in keys' <==> id in ids + [x])
      && (forall i, j | 0 <= i < j < |keys'| :: FirstIndex(ids + [x], keys'[i]) < FirstIndex(ids + [x], keys'[j]))
  {
    var ids' := ids + [x];
    if x in keys {
      forall i, j | 0 <= i < j < |keys|
        ensures FirstIndex(ids', keys[i]) < FirstIndex(ids', keys[j])
      {
        FirstIndexSnoc(ids, x, keys[i]);
        FirstIndexSnoc(ids, x, keys[j]);
      }
    } else {
      var keys' := keys + [x];
      FirstIndexNew(ids, x);
      forall i, j | 0 <= i < j < |keys'|
        ensures FirstIndex(ids', keys'[i]) < FirstIndex(ids', keys'[j])
      {
        assert keys'[i] == keys[i] && keys[i] in ids;
        FirstIndexSnoc(ids, x, keys[i]);
        if j < |keys| {
          assert keys'[j] == keys[j];
          FirstIndexSnoc(ids, x, keys[j]);
        }
      }
    }
  }

  /** From an empty map: the key order is the order in which each id was
      first seen among the tool updates. */
  lemma {:induction false} RunToolOrder(d: Draft, recs: seq<StreamResponse>)
    requires d.toolIds == [] && d.tools == map[]
    ensures forall id :: id in Run(d, recs).toolIds <==> id in IdsOf(Updates(recs))
    ensures forall i, j | 0 <= i < j < |Run(d, recs).toolIds| ::
      FirstIndex(IdsOf(Updates(recs)), Run(d, recs).toolIds[i])
        < FirstIndex(IdsOf(Updates(recs)), Run(d, recs).toolIds[j])
    decreases |recs|
  {
    if recs != [] {
      var init, rec := recs[..|recs| - 1], recs[|recs| - 1];
      RunToolOrder(d, init);
      var prev := Run(d, init);
      assert Run(d, recs) == Step(prev, rec);
      assert WellFormed(d) && WellFormed(prev);
      UpdateIds(recs);
      var ids, ids' := IdsOf(Updates(init)), IdsOf(Updates(recs));
      var keys, keys' := prev.toolIds, Run(d, recs).toolIds;
      if (rec.kind.ToolCall? || rec.kind.ToolResult?) && rec.tool.Some? {
        var x := rec.tool.value.id;
        assert ids' == ids + [x];
        assert keys' == if x in keys then keys else keys + [x];
        FirstSeenStep(ids, keys, x);
      } else {
        assert ids' == ids + [] == ids;
        assert keys' == keys;
      }
    }
  }

  /** The ids of the tool updates grow by the id a tool record carries. */
  lemma UpdateIds(recs: seq<StreamResponse>)
    requires recs != []
    ensures var rec := recs[|recs| - 1];
      IdsOf(Updates(recs)) == IdsOf(Updates(recs[..|recs| - 1]))
        + (if (rec.kind.ToolCall? || rec.kind.ToolResult?) && rec.tool.Some? then [rec.tool.value.id] else [])
  {
    var init, rec := recs[..|recs| - 1], recs[|recs| - 1];
    if (rec.kind.ToolCall? || rec.kind.ToolResult?) && rec.tool.Some? {
      assert Updates(recs) == Updates(init) + [rec.tool.value];
      IdsOfSnoc(Updates(init), rec.tool.value);
    } else {
      assert Updates(recs) == Updates(init) + [];
      assert IdsOf(Updates(init)) + [] == IdsOf(Updates(init));
    }
  }

  /** One more tool, one more id at the end. */
  lemma IdsOfSnoc(tools: seq<Tool>, t: Tool)
    ensures IdsOf(tools + [t]) == IdsOf(tools) + [t.id]
  {
    var l, r := IdsOf(tools + [t]), IdsOf(tools) + [t.id];
    forall i | 0 <= i < |l|
      ensures l[i] == r[i]
    {
      if i < |tools| {
        assert (tools + [t])[i] == tools[i];
      }
    }
  }

  /** The tool list a snapshot publishes after `recs`, from a fresh draft:
      one tool per id that any tool record carried, each the latest carried
      under its id, ordered by the first time each id was seen. */
  lemma PublishedTools(id: string, timestamp: string, recs: seq<StreamResponse>)
    ensures var d := Run(StartDraft(timestamp), recs);
      WellFormed(d) &&
      var tools := Snapshot(id, d).tools.value;
      && (forall i | 0 <= i < |tools| :: Latest(Updates(recs), tools[i].id) == Some(tools[i]))
      && (forall t :: t in IdsOf(Updates(recs)) <==> t in IdsOf(tools))
      && (forall i, j | 0 <= i < j < |tools| ::
            FirstIndex(IdsOf(Updates(recs)), tools[i].id) < FirstIndex(IdsOf(Updates(recs)), tools[j].id))
  {
    var start := StartDraft(timestamp);
    assert WellFormed(start);
    var d := Run(start, recs);
    RunToolEntries(start, recs);
    RunToolOrder(start, recs);
    var tools := Snapshot(id, d).tools.value;
    assert tools == ToolValues(d.toolIds, d.tools);
    assert IdsOf(tools) == d.toolIds;
  }

  /** `text` records concatenate in arrival order: "Hello " then "world"
      gives "Hello world". */
  lemma HelloWorld(timestamp: string, t1: string, t2: string)
    ensures var recs := [StreamResponse(Text, "Hello ", None, t1), StreamResponse(Text, "world", None, t2)];
      Run(StartDraft(timestamp), recs).content == "Hello world"
  {
    var recs := [StreamResponse(Text, "Hello ", None, t1), StreamResponse(Text, "world", None, t2)];
    RunContent(StartDraft(timestamp), recs);
    assert recs[1..] == [recs[1]] && [recs[1]][1..] == [];
    assert Transcript(recs[1..]) == "world" + [];
    assert Transcript(recs) == "Hello " + "world";
  }

  /** A `tool_call` and then a `tool_result` for the same id leave one entry,
      the result, in the call's position. */
  lemma CallThenResult(timestamp: string, call: Tool, result: Tool, t1: string, t2: string)
    requires call.id == result.id
    ensures var recs := [StreamResponse(ToolCall, [], Some(call), t1), StreamResponse(ToolResult, [], Some(result), t2)];
      var d := Run(StartDraft(timestamp), recs);
      d.toolIds == [call.id] && d.tools.Keys == {call.id} && d.tools[call.id] == result
  {
    var recs := [StreamResponse(ToolCall, [], Some(call), t1), StreamResponse(ToolResult, [], Some(result), t2)];
    var start := StartDraft(timestamp);
    assert recs[..1] == [recs[0]] && recs[..1][..0] == [];
    var first := Run(start, recs[..1]);
    assert first == Step(Run(start, []), recs[0]);
    assert Run(start, recs) == Step(first, recs[1]);
    assert first.toolIds == [call.id] && first.tools == map[call.id := call];
  }
}
