/** `handleSendMessage` (src/App.tsx): one user turn from submission to the
    end of the assistant's stream, against the conversation history. */
module App {
  import opened ChatTypes
  import opened ChatApi
  import opened History
  import opened Turn

  /** The snapshots published after each record, in arrival order. */
  function Snapshots(id: string, start: Draft, recs: seq<StreamResponse>): (r: seq<Message>)
    requires WellFormed(start)
    ensures |r| == |recs|
    ensures recs != [] ==> r[|r| - 1] == Snapshot(id, Run(start, recs))
    decreases |recs|
  {
    if recs == [] then [] else Snapshots(id, start, recs[..|recs| - 1]) + [Snapshot(id, Run(start, recs))]
  }

  /** One more record publishes one more snapshot. */
  lemma SnapshotsPrefix(id: string, start: Draft, recs: seq<StreamResponse>, i: nat)
    requires WellFormed(start) && i < |recs|
    ensures Snapshots(id, start, recs[..i + 1])
         == Snapshots(id, start, recs[..i]) + [Snapshot(id, Run(start, recs[..i + 1]))]
  {
    assert recs[..i + 1][..i] == recs[..i];
  }

  /** The k-th publish shows the draft after exactly the first k + 1 records. */
  lemma {:induction false} SnapshotAt(id: string, start: Draft, recs: seq<StreamResponse>, k: nat)
    requires WellFormed(start) && k < |recs|
    ensures Snapshots(id, start, recs)[k] == Snapshot(id, Run(start, recs[..k + 1]))
    decreases |recs|
  {
    if k < |recs| - 1 {
      var init := recs[..|recs| - 1];
      SnapshotAt(id, start, init, k);
      assert init[..k + 1] == recs[..k + 1];
    } else {
      assert recs[..k + 1] == recs;
    }
  }

  /** Every assistant message a turn publishes, in order: one snapshot after
      each record, then one carrying the connection-error marker if the
      stream threw, so the error is published exactly once and last. */
  function TurnSnapshots(id: string, start: Draft, outcome: StreamOutcome): (r: seq<Message>)
    requires WellFormed(start)
    ensures |r| == |outcome.records| + (if outcome.failed then 1 else 0)
    ensures r[..|outcome.records|] == Snapshots(id, start, outcome.records)
    ensures outcome.failed ==> r[|r| - 1] == Snapshot(id, ConnectionLost(Run(start, outcome.records)))
  {
    var perRecord := Snapshots(id, start, outcome.records);
    var r := if outcome.failed then perRecord + [Snapshot(id, ConnectionLost(Run(start, outcome.records)))] else perRecord;
    assert r[..|perRecord|] == perRecord;
    r
  }

  /** The catch block's change to the draft. */
  function ConnectionLost(d: Draft): (r: Draft)
    ensures r.content == d.content + ConnectionErrorMarker
    ensures r.timestamp == d.timestamp && r.toolIds == d.toolIds && r.tools == d.tools
  {
    d.(content := d.content + ConnectionErrorMarker)
  }

  /** Sequence associativity for the publish log. It states nothing about
      the model: it only exists to help the solver. Called as a lemma, it keeps
      the regrouping out of the loop proofs of `ReceiveAll` and `Stream`,
      where an inline assertion of the same fact makes them much more
      expensive. */
  lemma AppendAssoc(a: seq<Message>, b: seq<Message>, c: seq<Message>)
    ensures (a + b) + c == a + (b + c)
  {
  }

  /** The application state `handleSendMessage` works on. */
  class ChatApp {
    /** The visible conversation, replaced wholesale on every update. */
    var messages: seq<Message>
    var isStreaming: bool
    /** Every assistant snapshot handed to the history so far. */
    ghost var published: seq<Message>

    constructor ()
      ensures messages == [] && !isStreaming && published == []
    {
      messages := [];
      isStreaming := false;
      published := [];
    }

    /** `setMessages((prev) => [...prev.filter((m) => m.id !== id), { ...msg }])`
        applied to the current history, which holds `before` and at most one
        earlier snapshot of the same message: the snapshot takes its place. */
    method SetMessagesPublish(snapshot: Message, ghost before: seq<Message>)
      requires !HasId(before, snapshot.id)
      requires messages == before || (|messages| == |before| + 1 && messages[..|before|] == before
                                      && messages[|before|].id == snapshot.id)
      modifies this
      ensures messages == before + [snapshot]
      ensures published == old(published) + [snapshot]
      ensures isStreaming == old(isStreaming)
    {
      if messages == before {
        PublishFresh(before, snapshot);
      } else {
        assert messages == before + [messages[|before|]];
        Republish(before, messages[|before|], snapshot);
      }
      messages := Publish(messages, snapshot);
      published := published + [snapshot];
    }

    /** The body of the `for await` loop: apply one record to the assistant
        message in place, then publish a copy of it. */
    method Receive(assistant: AssistantDraft, rec: StreamResponse, ghost before: seq<Message>)
      requires assistant.Valid() && !HasId(before, assistant.id)
      requires messages == before || (|messages| == |before| + 1 && messages[..|before|] == before
                                      && messages[|before|].id == assistant.id)
      modifies this, assistant, assistant.toolsMap
      ensures assistant.Valid()
      ensures assistant.State() == Step(old(assistant.State()), rec)
      ensures messages == before + [Snapshot(assistant.id, assistant.State())]
      ensures published == old(published) + [Snapshot(assistant.id, assistant.State())]
      ensures isStreaming == old(isStreaming)
    {
      assistant.Absorb(rec);
      var snapshot := assistant.Copy();
      SetMessagesPublish(snapshot, before);
    }

    /** The `for await` loop: every record in arrival order, each applied to
        the assistant message and then published. */
    method ReceiveAll(assistant: AssistantDraft, recs: seq<StreamResponse>, ghost before: seq<Message>)
      requires assistant.Valid() && !HasId(before, assistant.id) && messages == before
      modifies this, assistant, assistant.toolsMap
      ensures assistant.Valid()
      ensures assistant.State() == Run(old(assistant.State()), recs)
      ensures published == old(published) + Snapshots(assistant.id, old(assistant.State()), recs)
      ensures messages == before + (if recs == [] then [] else [Snapshot(assistant.id, assistant.State())])
      ensures isStreaming == old(isStreaming)
    {
      ghost var start := assistant.State();
      ghost var pub0 := published;
      var i := 0;
      while i < |recs|
        invariant 0 <= i <= |recs|
        invariant assistant.Valid()
        invariant assistant.State() == Run(start, recs[..i])
        invariant published == pub0 + Snapshots(assistant.id, start, recs[..i])
        invariant messages == before + (if i == 0 then [] else [Snapshot(assistant.id, Run(start, recs[..i]))])
        invariant isStreaming == old(isStreaming)
      {
        ghost var sofar := Snapshots(assistant.id, start, recs[..i]);
        Receive(assistant, recs[i], before);
        RunPrefix(start, recs, i);
        SnapshotsPrefix(assistant.id, start, recs, i);
        AppendAssoc(pub0, sofar, [Snapshot(assistant.id, Run(start, recs[..i + 1]))]);
        i := i + 1;
      }
      assert recs[..i] == recs;
    }

    /** The `try`/`catch` around the stream: the records that arrived, then
        the connection-error publish if the stream threw. */
    method Stream(assistant: AssistantDraft, outcome: StreamOutcome, ghost before: seq<Message>)
      requires assistant.Valid() && !HasId(before, assistant.id) && messages == before
      modifies this, assistant, assistant.toolsMap
      ensures WellFormed(old(assistant.State()))
      ensures var snapshots := TurnSnapshots(assistant.id, old(assistant.State()), outcome);
        && published == old(published) + snapshots
        && messages == before + (if snapshots == [] then [] else [snapshots[|snapshots| - 1]])
      ensures isStreaming == old(isStreaming)
    {
      ghost var start := assistant.State();
      ghost var pub0 := published;
      assert WellFormed(start) by { var _ := assistant.Copy(); }
      var recs := outcome.records;
      ReceiveAll(assistant, recs, before);
      ghost var perRecord := Snapshots(assistant.id, start, recs);
      ghost var all := TurnSnapshots(assistant.id, start, outcome);
      if outcome.failed {
        assistant.MarkConnectionLost();
        var snapshot := assistant.Copy();
        SetMessagesPublish(snapshot, before);
        assert all == perRecord + [snapshot];
        AppendAssoc(pub0, perRecord, [snapshot]);
      } else {
        assert all == perRecord;
      }
    }

    /** One turn. The user message is appended first. The assistant message
        enters the history with its first publish, always as the last and
        only message with its id, and leaves it holding the final state;
        a stream that yields nothing and does not fail adds no assistant
        message. Streaming is off again afterwards on every path.
        The send button and the input are disabled while streaming, so a
        turn starts only when none is running; ids are fresh UUIDs. */
    method HandleSendMessage(
      parse: Parser, transport: Transport, content: string,
      userId: string, userTimestamp: string, assistantId: string, assistantTimestamp: string)
      requires !isStreaming
      requires userId != assistantId
      requires !HasId(messages, assistantId)
      modifies this
      ensures !isStreaming
      ensures var snapshots := TurnSnapshots(assistantId, StartDraft(assistantTimestamp), Yielded(parse, transport));
        && published == old(published) + snapshots
        && messages == old(messages) + [Message(userId, User, content, userTimestamp, None)]
                       + (if snapshots == [] then [] else [snapshots[|snapshots| - 1]])
    {
      var userMessage := Message(userId, User, content, userTimestamp, None);
      messages := messages + [userMessage];
      isStreaming := true;
      ghost var before := messages;
      assert !HasId(before, assistantId);

      var assistant := new AssistantDraft(assistantId, assistantTimestamp);
      var outcome := StreamChat(parse, transport);
      Stream(assistant, outcome, before);
      isStreaming := false;
    }
  }
}
