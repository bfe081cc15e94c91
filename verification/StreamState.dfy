/** The one state a streamed model reply is collected in: text, reasoning and tool
    calls of the current generation. */
module StreamState {
  import opened Text

  /** A tool call being collected; "" stands for an id or name not (yet) given. */
  datatype Call = Call(key: string, callId: string, name: string, args: string, complete: bool)

  datatype ToolCall = ToolCall(id: string, name: string, args: string)

  /** The message handed to the caller; absent parts are "" and []. */
  datatype Message = Message(content: string, reasoning: string, calls: seq<ToolCall>)

  /** The collected reply, parts joined. The table of calls keeps them in the order
      in which their keys first came up. */
  datatype Reply = Reply(generation: nat, text: string, reasoning: string, calls: seq<Call>) {
    predicate HasOutput() {
      text != "" || reasoning != "" || calls != []
    }
  }

  const EMPTY_REPLY := Reply(0, "", "", [])

  function IndexOf(calls: seq<Call>, key: string): (i: nat)
    ensures i <= |calls| && (i < |calls| ==> calls[i].key == key)
    ensures forall j :: 0 <= j < i ==> calls[j].key != key
  {
    if calls == [] || calls[0].key == key then 0 else 1 + IndexOf(calls[1..], key)
  }

  /** Merge what an event says about a call into the table. */
  function Upsert(calls: seq<Call>, key: string, callId: string, name: string, delta: string, whole: Option<string>): seq<Call> {
    var i := IndexOf(calls, key);
    var c := if i < |calls| then calls[i] else Call(key, "", "", "", false);
    var merged := Call(
      key,
      if callId != "" then callId else c.callId,
      if name != "" then name else c.name,
      if whole.Some? then whole.value else c.args + delta,
      c.complete);
    calls[..i] + [merged] + (if i < |calls| then calls[i + 1..] else [])
  }

  predicate DistinctKeys(calls: seq<Call>) {
    forall i, j :: 0 <= i < j < |calls| ==> calls[i].key != calls[j].key
  }

  /** One call of the table, the one under `key`, has taken up what was said; a new one has
      come last. All others are as they were, where they were. */
  predicate Merges(calls: seq<Call>, more: seq<Call>, key: string, callId: string, name: string, delta: string,
                   whole: Option<string>)
  {
    var i := IndexOf(calls, key);
    var args := if i < |calls| then calls[i].args else "";
    && |more| == (if i < |calls| then |calls| else |calls| + 1)
    && (DistinctKeys(calls) ==> DistinctKeys(more))
    && (forall j :: 0 <= j < |calls| && j != i ==> more[j] == calls[j])
    && more[i].key == key && more[i].args == (if whole.Some? then whole.value else args + delta)
    && (more[i].complete <==> i < |calls| && calls[i].complete)
    && (callId != "" ==> more[i].callId == callId) && (name != "" ==> more[i].name == name)
    && (i < |calls| && callId == "" ==> more[i].callId == calls[i].callId)
    && (i < |calls| && name == "" ==> more[i].name == calls[i].name)
  }

  lemma {:induction false} UpsertMerges(
    calls: seq<Call>, key: string, callId: string, name: string, delta: string, whole: Option<string>)
    ensures Merges(calls, Upsert(calls, key, callId, name, delta, whole), key, callId, name, delta, whole)
  {
    var i, more := IndexOf(calls, key), Upsert(calls, key, callId, name, delta, whole);
    assert forall j :: 0 <= j < |calls| && j != i ==> more[j] == calls[j];
    if DistinctKeys(calls) { StillDistinct(calls, more, i); }
  }

  /** A call whose key is met for the first time at `i` is put there. */
  lemma {:induction false} StillDistinct(calls: seq<Call>, more: seq<Call>, i: nat)
    requires DistinctKeys(calls) && i <= |calls| && i < |more|
    requires |more| == if i < |calls| then |calls| else |calls| + 1
    requires forall j :: 0 <= j < |calls| && j != i ==> more[j] == calls[j]
    requires if i < |calls| then more[i].key == calls[i].key else forall j :: 0 <= j < |calls| ==> calls[j].key != more[i].key
    ensures DistinctKeys(more)
  {
    assert forall j :: 0 <= j < |more| && j != i ==> more[j].key == calls[j].key;
  }

  function Finalize(calls: seq<Call>, key: string): seq<Call> {
    var i := IndexOf(calls, key);
    if i < |calls| then calls[i := calls[i].(complete := true)] else calls
  }

  /** The finished, named calls as the caller sees them. */
  function Finished(calls: seq<Call>): seq<ToolCall> {
    if calls == [] then []
    else
      var c := calls[0];
      (if c.complete && c.name != "" then [ToolCall(if c.callId != "" then c.callId else c.key, c.name, c.args)] else [])
      + Finished(calls[1..])
  }

  function Assembled(r: Reply): Option<Message> {
    var calls := Finished(r.calls);
    if r.text == "" && r.reasoning == "" && calls == [] then None
    else Some(Message(r.text, r.reasoning, calls))
  }

  class Collector {
    var generation: nat
    var textParts: seq<string>
    var reasoningParts: seq<string>
    var calls: seq<Call>

    /** No part is empty, so there is output exactly when a list is non-empty. */
    predicate Valid()
      reads this
    {
      "" !in textParts && "" !in reasoningParts
    }

    function Value(): Reply
      reads this
    {
      Reply(generation, Flatten(textParts), Flatten(reasoningParts), calls)
    }

    constructor ()
      ensures Valid() && Value() == EMPTY_REPLY
    {
      generation, textParts, reasoningParts, calls := 0, [], [], [];
    }

    lemma {:induction false} PartsNonEmpty(parts: seq<string>)
      requires "" !in parts
      ensures parts == [] <==> Flatten(parts) == ""
    {
      if parts != [] { assert parts[0] in parts; }
    }

    method HasOutput() returns (b: bool)
      requires Valid()
      ensures b == Value().HasOutput()
    {
      PartsNonEmpty(textParts);
      PartsNonEmpty(reasoningParts);
      b := textParts != [] || reasoningParts != [] || calls != [];
    }

    method AppendText(delta: string)
      requires Valid()
      modifies this
      ensures Valid() && Value() == old(Value()).(text := old(Value()).text + delta)
    {
      if delta != "" {
        FlattenLast(textParts, delta);
        textParts := textParts + [delta];
      }
    }

    method AppendReasoning(delta: string)
      requires Valid()
      modifies this
      ensures Valid() && Value() == old(Value()).(reasoning := old(Value()).reasoning + delta)
    {
      if delta != "" {
        FlattenLast(reasoningParts, delta);
        reasoningParts := reasoningParts + [delta];
      }
    }

    method UpsertToolCall(key: string, callId: string, name: string, delta: string, whole: Option<string>)
      requires Valid()
      modifies this
      ensures Valid() && Value() == old(Value()).(calls := Upsert(old(calls), key, callId, name, delta, whole))
      ensures Merges(old(calls), calls, key, callId, name, delta, whole)
    {
      UpsertMerges(calls, key, callId, name, delta, whole);
      calls := Upsert(calls, key, callId, name, delta, whole);
    }

    method FinalizeToolCall(key: string)
      requires Valid()
      modifies this
      ensures Valid() && Value() == old(Value()).(calls := Finalize(old(calls), key))
    {
      calls := Finalize(calls, key);
    }

    method ReplaceGeneration()
      requires Valid()
      modifies this
      ensures Valid() && Value() == Reply(old(generation) + 1, "", "", [])
    {
      generation := generation + 1;
      textParts, reasoningParts, calls := [], [], [];
    }

    method Assemble() returns (m: Option<Message>)
      requires Valid()
      ensures m == Assembled(Value())
    {
      var text, reasoning := Flatten(textParts), Flatten(reasoningParts);
      var finished: seq<ToolCall> := [];
      for i := 0 to |calls|
        invariant finished == Finished(calls[..i])
      {
        var c := calls[i];
        assert calls[..i + 1] == calls[..i] + [c];
        FinishedConcat(calls[..i], [c]);
        assert [c][1..] == [] && Finished([]) == [];
        if c.complete && c.name != "" {
          finished := finished + [ToolCall(if c.callId != "" then c.callId else c.key, c.name, c.args)];
        }
      }
      assert calls[..|calls|] == calls;
      m := if text == "" && reasoning == "" && finished == [] then None else Some(Message(text, reasoning, finished));
    }
  }

  lemma {:induction false} FinishedFirst(a: seq<Call>)
    requires a != []
    ensures Finished(a) == Finished([a[0]]) + Finished(a[1..])
  {
    assert [a[0]][1..] == [] && Finished([]) == [];
  }

  lemma {:induction false} FinishedConcat(a: seq<Call>, b: seq<Call>)
    ensures Finished(a + b) == Finished(a) + Finished(b)
  {
    if a == [] {
      assert a + b == b;
    } else {
      assert (a + b)[0] == a[0] && (a + b)[1..] == a[1..] + b;
      FinishedConcat(a[1..], b);
      FinishedFirst(a);
      FinishedFirst(a + b);
      assert Finished([a[0]]) + (Finished(a[1..]) + Finished(b)) == Finished([a[0]]) + Finished(a[1..]) + Finished(b);
    }
  }

  lemma {:induction false} UpsertNew(calls: seq<Call>, key: string, callId: string, name: string)
    requires forall c :: c in calls ==> c.key != key
    ensures Upsert(calls, key, callId, name, "", None) == calls + [Call(key, callId, name, "", false)]
  {
    assert IndexOf(calls, key) == |calls|;
  }

  lemma {:induction false} LastIndex(calls: seq<Call>, last: Call)
    requires forall c :: c in calls ==> c.key != last.key
    ensures IndexOf(calls + [last], last.key) == |calls|
  {

    assert (calls + [last])[|calls|] == last;
  }

  lemma {:induction false} UpsertLast(
      calls: seq<Call>, last: Call, callId: string, name: string, delta: string, whole: Option<string>)
    requires forall c :: c in calls ==> c.key != last.key
    ensures Upsert(calls + [last], last.key, callId, name, delta, whole) ==
            calls + [Call(last.key, if callId != "" then callId else last.callId, if name != "" then name else last.name,
                          if whole.Some? then whole.value else last.args + delta, last.complete)]
  {
    LastIndex(calls, last);
  }

  lemma {:induction false} FinalizeLast(calls: seq<Call>, last: Call)
    requires forall c :: c in calls ==> c.key != last.key
    ensures Finalize(calls + [last], last.key) == calls + [last.(complete := true)]
  {
    LastIndex(calls, last);
  }
}
