/** The visible conversation history and the two ways `handleSendMessage`
    updates it (src/App.tsx): appending the user message, and publishing a
    copy of the in-flight assistant message by "drop every message with its
    id, then append". */
module History {
  import opened ChatTypes

  /** `prev.filter((m) => m.id !== id)`: no message with `id` is left. */
  function WithoutId(h: seq<Message>, id: string): (r: seq<Message>)
    ensures |r| <= |h|
    ensures !HasId(r, id)
    decreases |h|
  {
    if h == [] then []
    else WithoutId(h[..|h| - 1], id) + (if h[|h| - 1].id == id then [] else [h[|h| - 1]])
  }

  /** The messages that stay are exactly those under another id. */
  lemma {:induction false} WithoutIdMembers(h: seq<Message>, id: string)
    ensures forall m :: m in WithoutId(h, id) <==> m in h && m.id != id
    decreases |h|
  {
    if h != [] {
      var h' := h[..|h| - 1];
      WithoutIdMembers(h', id);
      assert h == h' + [h[|h| - 1]];
    }
  }

  /** Whether some message in `h` carries `id`. */
  predicate HasId(h: seq<Message>, id: string) {
    exists k | 0 <= k < |h| :: h[k].id == id
  }

  /** `[...filtered, { ...msg }]`: after a publish, `msg` is the last message
      and the only one with its id. */
  function Publish(h: seq<Message>, msg: Message): (r: seq<Message>)
    ensures |r| >= 1 && r[|r| - 1] == msg
    ensures !HasId(r[..|r| - 1], msg.id)
  {
    var filtered := WithoutId(h, msg.id);
    assert (filtered + [msg])[..|filtered|] == filtered;
    filtered + [msg]
  }

  /** Every message before the published one was already in the history
      under another id, and every such message is still there. */
  lemma PublishKeepsOthers(h: seq<Message>, msg: Message)
    ensures forall m :: m in Publish(h, msg)[..|Publish(h, msg)| - 1] <==> m in h && m.id != msg.id
  {
    WithoutIdMembers(h, msg.id);
    var filtered := WithoutId(h, msg.id);
    assert Publish(h, msg)[..|Publish(h, msg)| - 1] == filtered;
  }

  /** Filtering distributes over concatenation, so the messages that stay
      keep their relative order. */
  lemma {:induction false} WithoutIdAppend(a: seq<Message>, b: seq<Message>, id: string)
    ensures WithoutId(a + b, id) == WithoutId(a, id) + WithoutId(b, id)
    decreases |b|
  {
    if b == [] {
      assert a + b == a;
    } else {
      var b' := b[..|b| - 1];
      assert (a + b)[..|a + b| - 1] == a + b';
      WithoutIdAppend(a, b', id);
    }
  }

  /** Filtering out an id nobody carries changes nothing. */
  lemma {:induction false} WithoutAbsentId(h: seq<Message>, id: string)
    requires !HasId(h, id)
    ensures WithoutId(h, id) == h
    decreases |h|
  {
    if h != [] {
      var h' := h[..|h| - 1];
      assert !HasId(h', id);
      WithoutAbsentId(h', id);
      assert h[|h| - 1].id != id;
      assert h' + [h[|h| - 1]] == h;
    }
  }

  /** The first publish of a fresh id appends the message. */
  lemma PublishFresh(h: seq<Message>, msg: Message)
    requires !HasId(h, msg.id)
    ensures Publish(h, msg) == h + [msg]
  {
    WithoutAbsentId(h, msg.id);
  }

  /** A second publish under the same id replaces the first instead of
      adding to the history. */
  lemma PublishReplaces(h: seq<Message>, first: Message, second: Message)
    requires first.id == second.id
    ensures Publish(Publish(h, first), second) == Publish(h, second)
  {
    var id := second.id;
    var filtered := WithoutId(h, id);
    assert Publish(h, first) == filtered + [first];
    assert WithoutId([first], id) == [] by {
      assert [first][..0] == [];
    }
    calc {
      WithoutId(filtered + [first], id);
      { WithoutIdAppend(filtered, [first], id); }
      WithoutId(filtered, id) + [];
      { WithoutAbsentId(filtered, id); }
      filtered;
    }
  }

  /** Publishing again under the id of the message last published on top
      of `h` leaves `h` followed by the new message only. */
  lemma Republish(h: seq<Message>, previous: Message, msg: Message)
    requires previous.id == msg.id && !HasId(h, msg.id)
    ensures Publish(h + [previous], msg) == h + [msg]
  {
    PublishFresh(h, previous);
    PublishReplaces(h, previous, msg);
    PublishFresh(h, msg);
  }
}
