/** The streamed reply and the finished reply are the same message, however the
    provider cuts texts and arguments into deltas. */
module StreamAgreement {
  import opened Text
  import opened ResponseStream
  import S = StreamState

  // ---- The stream of a list of items ----

  /** An item together with the way its text or arguments are cut up. */
  datatype Streamed = Streamed(item: Item, deltas: seq<string>) {
    predicate Complete() {
      Flatten(deltas) == if item.CallItem? then item.args else item.text
    }
  }

  function TextDeltas(ds: seq<string>): seq<Event> {
    if ds == [] then [] else [TextDelta(ds[0])] + TextDeltas(ds[1..])
  }

  function ReasoningDeltas(id: Option<string>, ds: seq<string>): seq<Event> {
    if ds == [] then [] else [ReasoningDelta(id, ds[0])] + ReasoningDeltas(id, ds[1..])
  }

  function ArgsDeltas(ref: string, ds: seq<string>): seq<Event> {
    if ds == [] then [] else [ArgsDelta(ref, ds[0])] + ArgsDeltas(ref, ds[1..])
  }

  function EventsOf(x: Streamed): seq<Event> {
    var body := match x.item
      case TextItem(_, _) => TextDeltas(x.deltas)
      case ReasoningItem(id, _) => ReasoningDeltas(id, x.deltas)
      case CallItem(itemId, _, name, args) => ArgsDeltas(itemId, x.deltas) + [ArgsDone(itemId, Some(args), name)];
    [ItemAdded(x.item)] + body + [ItemDone(x.item)]
  }

  /** All items one after the other; the first `n` of them. */
  function EventsUpTo(xs: seq<Streamed>, n: nat): seq<Event>
    requires n <= |xs|
  {
    if n == 0 then [] else EventsUpTo(xs, n - 1) + EventsOf(xs[n - 1])
  }

  function StreamOf(xs: seq<Streamed>): seq<Event> {
    EventsUpTo(xs, |xs|) + [Completed]
  }

  function Items(xs: seq<Streamed>): (items: seq<Item>)
    ensures |items| == |xs| && forall i :: 0 <= i < |xs| ==> items[i] == xs[i].item
  {
    seq(|xs|, i requires 0 <= i < |xs| => xs[i].item)
  }

  function IdOf(i: Item): string {
    match i
    case TextItem(id, _) => if id.Some? then id.value else ""
    case ReasoningItem(id, _) => if id.Some? then id.value else ""
    case CallItem(itemId, _, _, _) => itemId
  }

  /** Every item has its own id, and calls follow the last message. */
  predicate Ordered(items: seq<Item>) {
    && (forall i :: 0 <= i < |items| ==> IdOf(items[i]) != "")
    && (forall i, j :: 0 <= i < j < |items| ==> IdOf(items[i]) != IdOf(items[j]))
    && (LastMessage(items) < |items| ==> forall i :: 0 <= i < LastMessage(items) ==> !items[i].CallItem?)
  }

  /** Besides, a message that is not the last one has text. */
  predicate Regular(items: seq<Item>) {
    && Ordered(items)
    && (LastMessage(items) < |items| ==>
          forall i :: 0 <= i < LastMessage(items) && items[i].TextItem? ==> items[i].text != "")
  }

  // ---- Running pieces of a stream ----

  lemma {:induction false} RunThen(s: Session, a: seq<Event>, t: Session, b: seq<Event>, u: Session)
    requires Run(s, a) == Going(t) && Run(t, b) == Going(u)
    ensures Run(s, a + b) == Going(u)
  {
    RunConcat(s, a, b);
  }

  lemma {:induction false} RunFirst(s: Session, e: Event, more: seq<Event>, t: Session)
    requires Step(s, e) == Going(t)
    ensures Run(s, [e] + more) == Run(t, more)
  {
    assert ([e] + more)[1..] == more;
  }

  lemma {:induction false} RunTextDeltas(s: Session, ds: seq<string>)
    ensures Run(s, TextDeltas(ds)) == Going(s.(reply := s.reply.(text := s.reply.text + Flatten(ds))))
    decreases |ds|
  {
    if ds == [] {
      assert s.reply.text + "" == s.reply.text;
    } else {
      var t := s.(reply := s.reply.(text := s.reply.text + ds[0]));
      RunTextDeltas(t, ds[1..]);
      RunFirst(s, TextDelta(ds[0]), TextDeltas(ds[1..]), t);
      assert s.reply.text + ds[0] + Flatten(ds[1..]) == s.reply.text + (ds[0] + Flatten(ds[1..]));
    }
  }

  function WithCall(s: Session, front: seq<S.Call>, c: S.Call): Session {
    s.(reply := s.reply.(calls := front + [c]))
  }

  lemma {:induction false} ArgsStep(s: Session, front: seq<S.Call>, c: S.Call, d: string)
    requires (forall x :: x in front ==> x.key != c.key) && KeyFor(s.ctx, c.key) == c.key
    ensures Step(WithCall(s, front, c), ArgsDelta(c.key, d)) == Going(WithCall(s, front, c.(args := c.args + d)))
  {
    S.UpsertLast(front, c, "", "", d, None);
  }

  /** A call item that is the last entry of the table collects its arguments. */
  lemma {:induction false} GatheredArgs(c: S.Call, ds: seq<string>)
    ensures ds == [] ==> c.(args := c.args + Flatten(ds)) == c
    ensures ds != [] ==>
              c.(args := c.args + ds[0] + Flatten(ds[1..])) == c.(args := c.args + Flatten(ds))
  {
    if ds == [] {
      assert c.args + "" == c.args;
    } else {
      assert c.args + ds[0] + Flatten(ds[1..]) == c.args + (ds[0] + Flatten(ds[1..]));
    }
  }

  lemma {:induction false} RunArgsDeltas(s: Session, front: seq<S.Call>, c: S.Call, ds: seq<string>)
    requires (forall x :: x in front ==> x.key != c.key) && KeyFor(s.ctx, c.key) == c.key
    ensures Run(WithCall(s, front, c), ArgsDeltas(c.key, ds)) ==
            Going(WithCall(s, front, c.(args := c.args + Flatten(ds))))
    decreases |ds|
  {
    GatheredArgs(c, ds);
    if ds == [] {
      RunNothing(WithCall(s, front, c));
    } else {
      var d := c.(args := c.args + ds[0]);
      ArgsStep(s, front, c, ds[0]);
      RunFirst(WithCall(s, front, c), ArgsDelta(c.key, ds[0]), ArgsDeltas(c.key, ds[1..]), WithCall(s, front, d));
      RunArgsDeltas(s, front, d, ds[1..]);
    }
  }

  lemma {:induction false} RunNothing(s: Session)
    ensures Run(s, []) == Going(s)
  {
  }

  /** The reasoning collected so far, wherever it is kept. */
  function Thoughts(s: Session): string {
    s.reply.reasoning + Flatten(s.ctx.pending)
  }

  predicate Late(s: Session) { s.ctx.messageSeen && s.reply.HasOutput() }

  lemma {:induction false} ReasoningDelta1(s: Session, id: string, d: string)
    requires id in s.ctx.knownReasoning && s.ctx.activeMessage != Some(id)
    ensures OnReasoningDelta(s, Some(id), d) == Going(
      if Late(s) then s.(ctx := s.ctx.(pending := s.ctx.pending + [d]))
      else s.(reply := s.reply.(reasoning := s.reply.reasoning + d)))
  {
  }

  /** Behind a message with output, all reasoning waits. */
  lemma {:induction false} LateDeltas(s: Session, id: string, ds: seq<string>)
    requires id in s.ctx.knownReasoning && s.ctx.activeMessage != Some(id) && Late(s)
    ensures Run(s, ReasoningDeltas(Some(id), ds)) == Going(s.(ctx := s.ctx.(pending := s.ctx.pending + ds)))
    decreases |ds|
  {
    if ds == [] {
      assert s.ctx.pending + ds == s.ctx.pending;
    } else {
      var t := s.(ctx := s.ctx.(pending := s.ctx.pending + [ds[0]]));
      ReasoningDelta1(s, id, ds[0]);
      LateDeltas(t, id, ds[1..]);
      RunFirst(s, ReasoningDelta(Some(id), ds[0]), ReasoningDeltas(Some(id), ds[1..]), t);
      assert s.ctx.pending + [ds[0]] + ds[1..] == s.ctx.pending + ds;
    }
  }

  /** The session after the first `n` deltas have been taken up and the rest wait. */
  function Taken(s: Session, ds: seq<string>, n: nat): Session
    requires n <= |ds|
  {
    Session(s.ctx.(pending := ds[n..]), s.reply.(reasoning := s.reply.reasoning + Flatten(ds[..n])))
  }

  lemma {:induction false} TakenFirst(s: Session, ds: seq<string>, n: nat)
    requires n < |ds|
    ensures Taken(s, ds, n + 1) == Taken(s.(reply := s.reply.(reasoning := s.reply.reasoning + ds[0])), ds[1..], n)
  {
    assert ds[1..][n..] == ds[n + 1..] && ds[..n + 1] == [ds[0]] + ds[1..][..n];
    assert Flatten(ds[..n + 1]) == ds[0] + Flatten(ds[1..][..n]);
    assert s.reply.reasoning + ds[0] + Flatten(ds[1..][..n]) == s.reply.reasoning + (ds[0] + Flatten(ds[1..][..n]));
  }

  lemma {:induction false} TakenNothing(s: Session, ds: seq<string>)
    ensures Taken(s, ds, 0) == s.(ctx := s.ctx.(pending := ds))
  {
    assert ds[0..] == ds && s.reply.reasoning + "" == s.reply.reasoning;
  }

  /** Otherwise it is taken up as it comes, until there is output behind a message. */
  lemma {:induction false} EarlyDeltas(s: Session, id: string, ds: seq<string>) returns (n: nat)
    requires id in s.ctx.knownReasoning && s.ctx.activeMessage != Some(id) && !Late(s) && s.ctx.pending == []
    ensures n <= |ds| && (!s.ctx.messageSeen ==> n == |ds|) && (ds != [] ==> n > 0)
    ensures Run(s, ReasoningDeltas(Some(id), ds)) == Going(Taken(s, ds, n)) && (n < |ds| ==> Late(Taken(s, ds, n)))
    decreases |ds|
  {
    if ds == [] {
      n := 0;
      TakenNothing(s, ds);
    } else {
      var u := s.(reply := s.reply.(reasoning := s.reply.reasoning + ds[0]));
      ReasoningDelta1(s, id, ds[0]);
      RunFirst(s, ReasoningDelta(Some(id), ds[0]), ReasoningDeltas(Some(id), ds[1..]), u);
      if Late(u) {
        n := 0;
        LateDeltas(u, id, ds[1..]);
        assert [] + ds[1..] == ds[1..];
        TakenNothing(u, ds[1..]);
      } else {
        n := EarlyDeltas(u, id, ds[1..]);
      }
      TakenFirst(s, ds, n);
      n := n + 1;
    }
  }

  /** What running the deltas of a reasoning item does to a session. */
  predicate TookUp(u: Session, t: Session, ds: seq<string>) {
    && t.ctx.(pending := []) == u.ctx.(pending := []) && t.reply.(reasoning := "") == u.reply.(reasoning := "")
    && Thoughts(t) == Thoughts(u) + Flatten(ds) && (t.ctx.pending != [] ==> Late(t))
    && (!u.ctx.messageSeen ==> t.ctx.pending == [])
    && (Late(u) ==> t.reply == u.reply && t.ctx.pending == u.ctx.pending + ds)
    && (!Late(u) && |ds| <= 1 ==> t.ctx.pending == [])
  }

  lemma {:induction false} RunLateDeltas(s: Session, id: string, ds: seq<string>) returns (t: Session)
    requires id in s.ctx.knownReasoning && s.ctx.activeMessage != Some(id) && Late(s)
    ensures Run(s, ReasoningDeltas(Some(id), ds)) == Going(t) && TookUp(s, t, ds)
  {
    LateDeltas(s, id, ds);
    t := s.(ctx := s.ctx.(pending := s.ctx.pending + ds));
    FlattenConcat(s.ctx.pending, ds);
    assert s.reply.reasoning + (Flatten(s.ctx.pending) + Flatten(ds)) == Thoughts(s) + Flatten(ds);
  }

  lemma {:induction false} RunEarlyDeltas(s: Session, id: string, ds: seq<string>) returns (t: Session)
    requires id in s.ctx.knownReasoning && s.ctx.activeMessage != Some(id) && !Late(s) && s.ctx.pending == []
    ensures Run(s, ReasoningDeltas(Some(id), ds)) == Going(t) && TookUp(s, t, ds)
  {
    var n := EarlyDeltas(s, id, ds);
    t := Taken(s, ds, n);
    FlattenConcat(ds[..n], ds[n..]);
    assert ds[..n] + ds[n..] == ds;
    assert Thoughts(s) == s.reply.reasoning + "" == s.reply.reasoning;
    assert s.reply.reasoning + Flatten(ds[..n]) + Flatten(ds[n..]) == s.reply.reasoning + (Flatten(ds[..n]) + Flatten(ds[n..]));
  }

  /** Reasoning of its own item is taken up in order, wherever it is kept. */
  lemma {:induction false} RunReasoningDeltas(s: Session, id: string, ds: seq<string>) returns (t: Session)
    requires id in s.ctx.knownReasoning && s.ctx.activeMessage != Some(id)
    requires s.ctx.pending != [] ==> Late(s)
    ensures Run(s, ReasoningDeltas(Some(id), ds)) == Going(t) && TookUp(s, t, ds)
  {
    if Late(s) { t := RunLateDeltas(s, id, ds); } else { t := RunEarlyDeltas(s, id, ds); }
  }

  // ---- What the items so far have led to ----

  /** The items so far: the last message, the reasoning right before it, and what came
      behind it. `silent` says that for some cuts the reply is without any output right
      behind that message, `loses` that for some cuts it lacks reasoning from before it. */
  datatype Front = Front(message: Option<Item>, thought: string, behind: seq<Item>, silent: bool, loses: bool) {
    function Text(): string {
      if message.Some? && message.value.TextItem? then message.value.text else ""
    }
  }

  /** All the reasoning stands in one item. */
  predicate OneThought(items: seq<Item>) {
    exists i :: 0 <= i < |items| && items[i].ReasoningItem? && items[i].text == ReasoningOf(items)
  }

  /** A reply without output takes up the first delta of reasoning; only the rest of it
      waits for the next message. */
  function Met(f: Front, x: Item): Front {
    if x.TextItem? then
      var thought := ReasoningOf(f.behind);
      Front(Some(x), thought, [], x.text == "" && (thought == "" || (f.silent && OneThought(f.behind))),
            thought != "" && f.silent)
    else f.(behind := f.behind + [x])
  }

  const NO_ITEMS := Front(None, "", [], false, false)

  function FrontOf(items: seq<Item>): Front {
    if items == [] then NO_ITEMS else Met(FrontOf(items[..|items| - 1]), items[|items| - 1])
  }

  /** The message before the last one may leave the reply without output, and reasoning
      follows it: for some cuts the stream loses the beginning of that reasoning. */
  predicate Loses(items: seq<Item>) {
    FrontOf(items).loses
  }

  function CallKeys(items: seq<Item>): seq<string> {
    if items == [] then [] else (if items[0].CallItem? then [items[0].itemId] else []) + CallKeys(items[1..])
  }

  function Keys(calls: seq<S.Call>): (ks: seq<string>)
    ensures |ks| == |calls| && forall i :: 0 <= i < |calls| ==> ks[i] == calls[i].key
  {
    seq(|calls|, i requires 0 <= i < |calls| => calls[i].key)
  }

  lemma {:induction false} KeysConcat(a: seq<Item>, b: seq<Item>)
    ensures CallKeys(a + b) == CallKeys(a) + CallKeys(b)
  {
    if a == [] {
      assert a + b == b;
    } else {
      assert (a + b)[0] == a[0] && (a + b)[1..] == a[1..] + b;
      KeysConcat(a[1..], b);
    }
  }

  lemma {:induction false} KeyHasItem(items: seq<Item>, key: string)
    requires key in CallKeys(items)
    ensures exists i :: i in items && i.CallItem? && i.itemId == key
  {
    if items[0].CallItem? && items[0].itemId == key {
      assert items[0] in items;
    } else {
      KeyHasItem(items[1..], key);
      var i :| i in items[1..] && i.CallItem? && i.itemId == key;
      assert i in items;
    }
  }

  /** The table of calls holds exactly the calls of `items`, in order, and shows them
      as the parser does. */
  predicate TableOf(calls: seq<S.Call>, items: seq<Item>) {
    S.Finished(calls) == CallsOf(items) && Keys(calls) == CallKeys(items)
  }

  predicate NoCall(items: seq<Item>) {
    forall i :: i in items ==> !i.CallItem?
  }

  /** A reply that was without output behind an empty message. */
  predicate Drained(s: Session, behind: seq<Item>, whole: bool) {
    && (s.reply.reasoning == "" ==> s.ctx.pending == [])
    && (Flatten(s.ctx.pending) == "" && ReasoningOf(behind) != "" ==> OneThought(behind))
    && (whole && OneThought(behind) ==> Flatten(s.ctx.pending) == "")
  }

  /** Where the reasoning is: `carried` was taken along by the last message, and what came
      behind it waits, unless the reply was without output. */
  predicate Placed(s: Session, f: Front, carried: string, whole: bool) {
    Kept(s, f, carried) && EmptyDrained(s, f, carried, whole)
  }

  predicate Kept(s: Session, f: Front, carried: string) {
    && Thoughts(s) == carried + ReasoningOf(f.behind)
    && (s.ctx.pending != [] ==> Late(s))
    && (f.message.None? ==> s.ctx.pending == [] && carried == "" && f == NO_ITEMS.(behind := f.behind))
    && (f.message.Some? && (f.Text() != "" || carried != "") ==> s.reply.reasoning == carried)
  }

  predicate EmptyDrained(s: Session, f: Front, carried: string, whole: bool) {
    f.message.Some? && f.Text() == "" && carried == "" && NoCall(f.behind) ==> Drained(s, f.behind, whole)
  }

  /** What the carried reasoning has to do with the verdicts; for items streamed in one
      delta each they are exact. */
  predicate Judged(f: Front, carried: string, whole: bool) {
    && (carried != f.thought ==> f.loses) && (whole && f.loses ==> carried != f.thought)
    && (f.message.Some? && f.Text() == "" && carried == "" ==> f.silent)
    && (f.silent ==> f.message.Some? && f.Text() == "")
    && (whole && f.silent ==> carried == "")
  }

  predicate Seen(c: Context, f: Front) {
    && c.messageSeen == f.message.Some?
    && c.activeMessage == (if f.message.Some? && f.message.value.TextItem? then f.message.value.id else None)
  }

  predicate Holds(s: Session, f: Front, carried: string, whole: bool) {
    && s.reply.text == f.Text() && TableOf(s.reply.calls, f.behind) && Seen(s.ctx, f)
    && Placed(s, f, carried, whole) && Judged(f, carried, whole)
  }

  lemma {:induction false} NoCalls(items: seq<Item>)
    requires forall i :: 0 <= i < |items| ==> !items[i].CallItem?
    ensures CallsOf(items) == [] && CallKeys(items) == []
  {
    if items != [] { NoCalls(items[1..]); }
  }

  lemma {:induction false} TableGrows(calls: seq<S.Call>, items: seq<Item>, x: Item)
    requires TableOf(calls, items) && !x.CallItem?
    ensures TableOf(calls, items + [x])
  {
    CallsConcat(items, [x]);
    PartsOfOne(x);
    KeysConcat(items, [x]);
    assert [x][1..] == [];
  }

  lemma {:induction false} ReasoningMore(items: seq<Item>, x: Item)
    ensures ReasoningOf(items + [x]) == ReasoningOf(items) + (if x.ReasoningItem? then x.text else "")
  {
    ReasoningConcat(items, [x]);
    PartsOfOne(x);
  }

  lemma {:induction false} PartOfReasoning(items: seq<Item>, i: nat)
    requires i < |items| && items[i].ReasoningItem?
    ensures |items[i].text| <= |ReasoningOf(items)|
  {
    if i > 0 { PartOfReasoning(items[1..], i - 1); }
  }

  /** How one more reasoning item matters for whether all reasoning stands in one. */
  lemma {:induction false} OneThoughtMore(items: seq<Item>, x: Item)
    requires x.ReasoningItem?
    ensures ReasoningOf(items) == "" ==> OneThought(items + [x])
    ensures ReasoningOf(items) != "" ==> (OneThought(items + [x]) <==> x.text == "" && OneThought(items))
  {
    ReasoningMore(items, x);
    var more := items + [x];
    if ReasoningOf(items) == "" {
      assert more[|items|] == x && x.text == ReasoningOf(more);
    } else {
      if OneThought(more) {
        var i :| 0 <= i < |more| && more[i].ReasoningItem? && more[i].text == ReasoningOf(more);
        if i < |items| {
          PartOfReasoning(items, i);
          assert items[i] == more[i] && x.text == "" && items[i].text == ReasoningOf(items) + "";
        }
      }
      if x.text == "" && OneThought(items) {
        var i :| 0 <= i < |items| && items[i].ReasoningItem? && items[i].text == ReasoningOf(items);
        assert more[i] == items[i] && ReasoningOf(more) == ReasoningOf(items) + "";
      }
    }
  }

  // ---- One item ----

  lemma {:induction false} RunThreeParts(s: Session, item: Item, body: seq<Event>, u: Session, v: Session, t: Session)
    requires Step(s, ItemAdded(item)) == Going(u) && Run(u, body) == Going(v) && Step(v, ItemDone(item)) == Going(t)
    ensures Run(s, [ItemAdded(item)] + body + [ItemDone(item)]) == Going(t)
  {
    assert [ItemAdded(item)] + body + [ItemDone(item)] == [ItemAdded(item)] + (body + [ItemDone(item)]);
    RunFirst(s, ItemAdded(item), body + [ItemDone(item)], u);
    RunOne(v, ItemDone(item));
    RunThen(u, body, v, [ItemDone(item)], t);
  }

  lemma {:induction false} RunReasoningItem(
      s: Session, f: Front, carried: string, whole: bool, x: Streamed) returns (t: Session)
    requires Holds(s, f, carried, whole) && x.item.ReasoningItem? && x.item.id.Some? && x.Complete()
    requires s.ctx.activeMessage != x.item.id && (whole ==> |x.deltas| == 1)
    ensures Run(s, EventsOf(x)) == Going(t) && Holds(t, Met(f, x.item), carried, whole)
  {
    var u := OnReasoning(s, x.item.id);
    t := RunReasoningDeltas(u, x.item.id.value, x.deltas);
    RunThreeParts(s, x.item, ReasoningDeltas(x.item.id, x.deltas), u, t, t);
    TableGrows(s.reply.calls, f.behind, x.item);
    ReasoningPlaced(s, u, t, f, carried, whole, x);
  }

  lemma {:induction false} ReasoningPlaced(
      s: Session, u: Session, t: Session, f: Front, carried: string, whole: bool, x: Streamed)
    requires Placed(s, f, carried, whole) && x.item.ReasoningItem? && x.Complete() && (whole ==> |x.deltas| == 1)
    requires s.reply.text == f.Text() && s.ctx.messageSeen == f.message.Some?
    requires TableOf(s.reply.calls, f.behind)
    requires u.reply == s.reply && u.ctx.pending == s.ctx.pending && u.ctx.messageSeen == s.ctx.messageSeen
    requires TookUp(u, t, x.deltas)
    ensures Placed(t, Met(f, x.item), carried, whole)
  {
    ReasoningKept(s, u, t, f, carried, x);
    ReasoningDrained(s, u, t, f, carried, whole, x);
  }

  lemma {:induction false} ReasoningKept(
      s: Session, u: Session, t: Session, f: Front, carried: string, x: Streamed)
    requires Kept(s, f, carried) && x.item.ReasoningItem? && x.Complete()
    requires s.reply.text == f.Text() && s.ctx.messageSeen == f.message.Some?
    requires u.reply == s.reply && u.ctx.pending == s.ctx.pending && u.ctx.messageSeen == s.ctx.messageSeen
    requires TookUp(u, t, x.deltas)
    ensures Kept(t, Met(f, x.item), carried)
  {
    ReasoningMore(f.behind, x.item);
    Reassociate(carried, ReasoningOf(f.behind), x.item.text);
    if f.message.Some? && (f.Text() != "" || carried != "") {
      assert Late(u);
    }
  }

  lemma {:induction false} ReasoningDrained(
      s: Session, u: Session, t: Session, f: Front, carried: string, whole: bool, x: Streamed)
    requires EmptyDrained(s, f, carried, whole) && x.item.ReasoningItem? && x.Complete() && (whole ==> |x.deltas| == 1)
    requires s.reply.text == f.Text() && s.ctx.messageSeen == f.message.Some?
    requires Thoughts(s) == carried + ReasoningOf(f.behind)
    requires TableOf(s.reply.calls, f.behind)
    requires u.reply == s.reply && u.ctx.pending == s.ctx.pending && u.ctx.messageSeen == s.ctx.messageSeen
    requires TookUp(u, t, x.deltas)
    ensures EmptyDrained(t, Met(f, x.item), carried, whole)
  {
    if f.message.Some? && f.Text() == "" && carried == "" && NoCall(f.behind + [x.item]) {
      assert NoCall(f.behind) by { assert forall i :: i in f.behind ==> i in f.behind + [x.item]; }
      NoCallsIn(s.reply.calls, f.behind);
      DrainedMore(s, u, t, f.behind, whole, x);
    }
  }

  lemma {:induction false} Reassociate(a: string, b: string, c: string)
    ensures a + (b + c) == a + b + c
  {
  }

  lemma {:induction false} NoCallsIn(calls: seq<S.Call>, items: seq<Item>)
    requires TableOf(calls, items) && NoCall(items)
    ensures calls == []
  {
    NoCalls(items);
    assert |Keys(calls)| == 0;
  }

  lemma {:induction false} DrainedMore(s: Session, u: Session, t: Session, behind: seq<Item>, whole: bool, x: Streamed)
    requires Drained(s, behind, whole) && x.item.ReasoningItem? && x.Complete() && (whole ==> |x.deltas| == 1)
    requires s.reply.text == "" && s.reply.calls == [] && s.ctx.messageSeen && Thoughts(s) == "" + ReasoningOf(behind)
    requires u.reply == s.reply && u.ctx.pending == s.ctx.pending && u.ctx.messageSeen == s.ctx.messageSeen
    requires TookUp(u, t, x.deltas)
    ensures Drained(t, behind + [x.item], whole)
  {
    OneThoughtMore(behind, x.item);
    assert t.reply.text == u.reply.text && t.reply.calls == u.reply.calls;
    if Late(u) {
      FlattenConcat(u.ctx.pending, x.deltas);
      assert ReasoningOf(behind) != "";
    } else {
      assert s.ctx.pending == [] && ReasoningOf(behind) == "";
    }
  }

  lemma {:induction false} RunTextItem(
      s: Session, f: Front, carried: string, whole: bool, x: Streamed) returns (t: Session, next: string)
    requires Holds(s, f, carried, whole) && x.item.TextItem? && x.item.id.Some? && x.Complete()
    requires NoCall(f.behind)
    requires f.message.Some? ==> s.ctx.activeMessage.Some? && s.ctx.activeMessage != x.item.id
    ensures Run(s, EventsOf(x)) == Going(t) && Holds(t, Met(f, x.item), next, whole)
  {
    var u := OnMessage(s, x.item.id);
    t := u.(reply := u.reply.(text := u.reply.text + Flatten(x.deltas)));
    RunTextDeltas(u, x.deltas);
    RunThreeParts(s, x.item, TextDeltas(x.deltas), u, t, t);
    NoCallsIn(s.reply.calls, f.behind);
    next := u.reply.reasoning;
    MessageRestarts(s, f, carried, whole, x.item);
    MessageJudged(s, f, carried, whole, x.item, next);
    assert "" + x.item.text == x.item.text && next + "" == next;
    assert S.Finished([]) == [] && Keys([]) == [];
  }

  /** At a message, the reply is left with the reasoning that waited for it and nothing else. */
  lemma {:induction false} MessageRestarts(s: Session, f: Front, carried: string, whole: bool, x: Item)
    requires Placed(s, f, carried, whole) && Seen(s.ctx, f) && x.TextItem? && x.id.Some? && s.reply.calls == []
    requires s.reply.text == f.Text() && NoCall(f.behind)
    requires f.message.Some? ==> s.ctx.activeMessage.Some? && s.ctx.activeMessage != x.id
    ensures var u := OnMessage(s, x.id);
            && u.ctx.pending == [] && u.ctx.messageSeen && u.ctx.activeMessage == x.id
            && u.reply.text == "" && u.reply.calls == []
            && u.reply.reasoning == if f.message.Some? then Flatten(s.ctx.pending) else ReasoningOf(f.behind)
  {
    assert s.reply.reasoning + "" == s.reply.reasoning && "" + Flatten(s.ctx.pending) == Flatten(s.ctx.pending);
    assert "" + ReasoningOf(f.behind) == ReasoningOf(f.behind);
  }

  /** All of the reasoning behind the last message waited, unless that message had left the
      reply without output. */
  lemma {:induction false} MessageJudged(s: Session, f: Front, carried: string, whole: bool, x: Item, next: string)
    requires Placed(s, f, carried, whole) && Judged(f, carried, whole) && x.TextItem? && NoCall(f.behind)
    requires next == if f.message.Some? then Flatten(s.ctx.pending) else ReasoningOf(f.behind)
    ensures Judged(Met(f, x), next, whole)
  {
    var thought := ReasoningOf(f.behind);
    if f.message.Some? {
      if f.Text() != "" || carried != "" {
        assert Thoughts(s)[|carried|..] == Flatten(s.ctx.pending) && (carried + thought)[|carried|..] == thought;
      } else {
        assert s.reply.reasoning + next == "" + thought == thought;
        assert s.reply.reasoning != "" ==> |next| < |thought|;
      }
    }
  }

  /** From the first to the last event of a call item the table gains just that call. */
  lemma {:induction false} RunCallBody(s: Session, i: Item, ds: seq<string>) returns (t: Session, c: S.Call)
    requires i.CallItem? && i.itemId != "" && Flatten(ds) == i.args
    requires forall c :: c in s.reply.calls ==> c.key != i.itemId
    ensures Run(OnCall(s, i), ArgsDeltas(i.itemId, ds) + [ArgsDone(i.itemId, Some(i.args), i.name)]) == Going(t)
    ensures c == S.Call(i.itemId, i.callId, i.name, i.args, true)
    ensures t == OnCall(s, i).(reply := s.reply.(calls := s.reply.calls + [c]))
  {
    var key, front := i.itemId, s.reply.calls;
    S.UpsertNew(front, key, i.callId, i.name);
    var u := OnCall(s, i);
    var c0 := S.Call(key, i.callId, i.name, "", false);
    RunArgsDeltas(u, front, c0, ds);
    assert WithCall(u, front, c0) == u;
    assert "" + i.args == i.args;
    var c1 := c0.(args := i.args);
    var v := u.(reply := u.reply.(calls := front + [c1]));
    S.UpsertLast(front, c1, "", i.name, "", Some(i.args));
    S.FinalizeLast(front, c1);
    c := c1.(complete := true);
    t := v.(reply := v.reply.(calls := front + [c]));
    RunOne(v, ArgsDone(key, Some(i.args), i.name));
    RunThen(u, ArgsDeltas(key, ds), v, [ArgsDone(key, Some(i.args), i.name)], t);
  }

  /** The closing event of a call item repeats what is already known. */
  lemma {:induction false} CallDone(s: Session, i: Item, front: seq<S.Call>, c: S.Call)
    requires i.CallItem? && i.itemId != "" && c == S.Call(i.itemId, i.callId, i.name, i.args, true)
    requires s.reply.calls == front + [c] && forall d :: d in front ==> d.key != i.itemId
    ensures OnCall(s, i).reply == s.reply
    ensures OnCall(s, i).ctx.(keyOf := s.ctx.keyOf, activeType := s.ctx.activeType) == s.ctx
  {
    S.UpsertLast(front, c, i.callId, i.name, "", None);
    assert i.args + "" == i.args;
  }

  lemma {:induction false} RunCallEvents(s: Session, x: Streamed) returns (t: Session, c: S.Call)
    requires x.item.CallItem? && x.item.itemId != "" && x.Complete()
    requires forall d :: d in s.reply.calls ==> d.key != x.item.itemId
    ensures Run(s, EventsOf(x)) == Going(t)
    ensures c == S.Call(x.item.itemId, x.item.callId, x.item.name, x.item.args, true)
    ensures t.reply == s.reply.(calls := s.reply.calls + [c])
    ensures t.ctx.(keyOf := map[], activeType := NoType) == s.ctx.(keyOf := map[], activeType := NoType)
  {
    var i, w := x.item, s;
    w, c := RunCallBody(s, i, x.deltas);
    CallDone(w, i, s.reply.calls, c);
    t := OnCall(w, i);
    RunThreeParts(s, i, ArgsDeltas(i.itemId, x.deltas) + [ArgsDone(i.itemId, Some(i.args), i.name)], OnCall(s, i), w, t);
  }

  lemma {:induction false} RunCallItem(
      s: Session, f: Front, carried: string, whole: bool, x: Streamed) returns (t: Session)
    requires Holds(s, f, carried, whole) && x.item.CallItem? && x.item.itemId != "" && x.Complete()
    requires forall i :: i in f.behind && i.CallItem? ==> i.itemId != x.item.itemId
    ensures Run(s, EventsOf(x)) == Going(t) && Holds(t, Met(f, x.item), carried, whole)
  {
    FreshKey(s.reply.calls, f.behind, x.item.itemId);
    var c;
    t, c := RunCallEvents(s, x);
    CallListed(s.reply.calls, t.reply.calls, f.behind, x.item, c);
    ReasoningMore(f.behind, x.item);
    CallPlaced(s, t, f, carried, whole, x.item);
  }

  lemma {:induction false} FreshKey(calls: seq<S.Call>, items: seq<Item>, key: string)
    requires TableOf(calls, items) && forall i :: i in items && i.CallItem? ==> i.itemId != key
    ensures forall c :: c in calls ==> c.key != key
  {
    forall c | c in calls ensures c.key != key {
      var k :| 0 <= k < |calls| && calls[k] == c;
      assert Keys(calls)[k] == c.key;
      KeyHasItem(items, c.key);
    }
  }

  lemma {:induction false} CallListed(calls: seq<S.Call>, more: seq<S.Call>, items: seq<Item>, i: Item, c: S.Call)
    requires TableOf(calls, items) && i.CallItem? && more == calls + [c]
    requires c == S.Call(i.itemId, i.callId, i.name, i.args, true)
    ensures TableOf(more, items + [i])
  {
    FinishedListed(calls, items, i, c);
    KeyListed(calls, items, i, c);
  }

  lemma {:induction false} FinishedListed(calls: seq<S.Call>, items: seq<Item>, i: Item, c: S.Call)
    requires S.Finished(calls) == CallsOf(items) && i.CallItem?
    requires c == S.Call(i.itemId, i.callId, i.name, i.args, true)
    ensures S.Finished(calls + [c]) == CallsOf(items + [i])
  {
    CallsConcat(items, [i]);
    PartsOfOne(i);
    S.FinishedConcat(calls, [c]);
    OneFinished(c);
  }

  lemma {:induction false} KeyListed(calls: seq<S.Call>, items: seq<Item>, i: Item, c: S.Call)
    requires Keys(calls) == CallKeys(items) && i.CallItem? && c.key == i.itemId
    ensures Keys(calls + [c]) == CallKeys(items + [i])
  {
    KeysConcat(items, [i]);
    assert [i][1..] == [] && CallKeys([i]) == [i.itemId];
    assert Keys(calls + [c]) == Keys(calls) + [i.itemId];
  }

  lemma {:induction false} OneFinished(c: S.Call)
    requires c.complete
    ensures S.Finished([c]) ==
            if c.name != "" then [S.ToolCall(if c.callId != "" then c.callId else c.key, c.name, c.args)] else []
  {
    assert [c][1..] == [] && S.Finished([]) == [];
  }

  lemma {:induction false} CallPlaced(s: Session, t: Session, f: Front, carried: string, whole: bool, i: Item)
    requires Placed(s, f, carried, whole) && i.CallItem?
    requires ReasoningOf(f.behind + [i]) == ReasoningOf(f.behind) + ""
    requires t.reply.text == s.reply.text && t.reply.reasoning == s.reply.reasoning && t.reply.calls != []
    requires t.ctx.pending == s.ctx.pending && t.ctx.messageSeen == s.ctx.messageSeen
    ensures Placed(t, Met(f, i), carried, whole)
  {
    assert i in f.behind + [i];
  }

  // ---- The whole stream ----

  /** What an ordered list says about an item and those in front of it. */
  predicate Follows(f: Front, x: Item) {
    && IdOf(x) != ""
    && (f.message.Some? ==>
          f.message.value.TextItem? && f.message.value.id.Some? && IdOf(f.message.value) != IdOf(x))
    && (x.TextItem? ==> NoCall(f.behind))
    && (x.CallItem? ==> forall i :: i in f.behind && i.CallItem? ==> i.itemId != x.itemId)
  }

  lemma {:induction false} RunNext(
      f: Front, r: Session, carried: string, whole: bool, x: Streamed) returns (s: Session, next: string)
    requires Holds(r, f, carried, whole) && x.Complete() && Follows(f, x.item) && (whole ==> |x.deltas| == 1)
    ensures Run(r, EventsOf(x)) == Going(s) && Holds(s, Met(f, x.item), next, whole)
  {
    next := carried;
    if x.item.ReasoningItem? {
      s := RunReasoningItem(r, f, carried, whole, x);
    } else if x.item.TextItem? {
      s, next := RunTextItem(r, f, carried, whole, x);
    } else {
      s := RunCallItem(r, f, carried, whole, x);
    }
  }

  lemma {:induction false} LastOfAppend(p: seq<Item>, x: Item)
    ensures LastMessage(p + [x]) ==
            if x.TextItem? then |p| else if LastMessage(p) < |p| then LastMessage(p) else |p| + 1
  {
    var q := p + [x];
    assert q[|q| - 1] == x && q[..|q| - 1] == p;
  }

  lemma {:induction false} AppendBehind(p: seq<Item>, x: Item, k: nat)
    requires k <= |p|
    ensures (p + [x])[k..] == p[k..] + [x]
  {
  }

  /** Where the items behind the last message start. */
  function Behind(p: seq<Item>): (n: nat)
    ensures n <= |p|
  {
    if LastMessage(p) < |p| then LastMessage(p) + 1 else 0
  }

  lemma {:induction false} FrontIsLast(p: seq<Item>)
    ensures var f := FrontOf(p);
            && f.message == (if LastMessage(p) < |p| then Some(p[LastMessage(p)]) else None)
            && f.behind == p[Behind(p)..]
  {
    if p != [] {
      var q, x := p[..|p| - 1], p[|p| - 1];
      assert p == q + [x];
      FrontIsLast(q);
      LastOfAppend(q, x);
      if !x.TextItem? { AppendBehind(q, x, Behind(q)); }
    }
  }

  lemma {:induction false} PrefixLast(items: seq<Item>, n: nat)
    requires n <= |items|
    ensures var last := LastMessage(items[..n]);
            last < n ==> items[last].TextItem? && last <= LastMessage(items) < |items|
  {
    var last := LastMessage(items[..n]);
    if last < n {
      assert items[..n][last] == items[last];
    }
  }

  lemma {:induction false} NextFollows(items: seq<Item>, n: nat)
    requires n < |items| && Ordered(items)
    ensures Follows(FrontOf(items[..n]), items[n])
  {
    var p, x := items[..n], items[n];
    FrontIsLast(p);
    PrefixLast(items, n);
    var last := LastMessage(p);
    assert IdOf(x) != "";
    if last < n {
      assert p[last] == items[last] && IdOf(items[last]) != "" && IdOf(items[last]) != IdOf(x);
    }
    if x.TextItem? { NoCallBefore(items, n); }
    if x.CallItem? { CallIdsDiffer(items, n); }
    assert forall i :: i in FrontOf(p).behind ==> i in p;
  }

  lemma {:induction false} NoCallBefore(items: seq<Item>, n: nat)
    requires n < |items| && Ordered(items) && items[n].TextItem?
    ensures NoCall(items[..n])
  {
    assert n <= LastMessage(items) < |items|;
  }

  lemma {:induction false} CallIdsDiffer(items: seq<Item>, n: nat)
    requires n < |items| && Ordered(items) && items[n].CallItem?
    ensures forall i :: i in items[..n] && i.CallItem? ==> i.itemId != items[n].itemId
  {
    forall i | i in items[..n] && i.CallItem? ensures i.itemId != items[n].itemId {
      var j :| 0 <= j < n && items[j] == i;
      assert IdOf(items[j]) != IdOf(items[n]);
    }
  }

  lemma {:induction false} RunUpTo(xs: seq<Streamed>, n: nat, r: Session, s: Session)
    requires 0 < n <= |xs|
    requires Run(NEW_SESSION, EventsUpTo(xs, n - 1)) == Going(r) && Run(r, EventsOf(xs[n - 1])) == Going(s)
    ensures Run(NEW_SESSION, EventsUpTo(xs, n)) == Going(s)
  {
    RunThen(NEW_SESSION, EventsUpTo(xs, n - 1), r, EventsOf(xs[n - 1]), s);
  }

  /** A property every item carries on holds after all of them. */
  lemma {:induction false} RunInvariant(xs: seq<Streamed>, inv: (Session, nat) -> bool, n: nat) returns (s: Session)
    requires n <= |xs| && inv(NEW_SESSION, 0)
    requires forall r, k :: 0 <= k < |xs| && inv(r, k) ==>
               exists t :: Run(r, EventsOf(xs[k])) == Going(t) && inv(t, k + 1)
    ensures Run(NEW_SESSION, EventsUpTo(xs, n)) == Going(s) && inv(s, n)
  {
    if n == 0 {
      s := NEW_SESSION;
    } else {
      var r := RunInvariant(xs, inv, n - 1);
      s :| Run(r, EventsOf(xs[n - 1])) == Going(s) && inv(s, n);
      RunUpTo(xs, n, r, s);
    }
  }

  /** The first `k` items have led to `r`. */
  ghost predicate Reached(items: seq<Item>, whole: bool, r: Session, k: nat) {
    k <= |items| && exists c :: Holds(r, FrontOf(items[..k]), c, whole)
  }

  lemma {:induction false} ReachNext(
      xs: seq<Streamed>, items: seq<Item>, whole: bool, r: Session, k: nat) returns (t: Session)
    requires k < |xs| && items == Items(xs) && Ordered(items) && xs[k].Complete() && (whole ==> |xs[k].deltas| == 1)
    requires Reached(items, whole, r, k)
    ensures Run(r, EventsOf(xs[k])) == Going(t) && Reached(items, whole, t, k + 1)
  {
    var c :| Holds(r, FrontOf(items[..k]), c, whole);
    NextFollows(items, k);
    FrontUpTo(items, k);
    var next;
    t, next := RunNext(FrontOf(items[..k]), r, c, whole, xs[k]);
  }

  lemma {:induction false} FrontUpTo(items: seq<Item>, k: nat)
    requires k < |items|
    ensures FrontOf(items[..k + 1]) == Met(FrontOf(items[..k]), items[k])
  {
    FrontMore(items[..k], items[k]);
    assert items[..k + 1] == items[..k] + [items[k]];
  }

  lemma {:induction false} ReachAll(
      xs: seq<Streamed>, items: seq<Item>, whole: bool, inv: (Session, nat) -> bool) returns (s: Session)
    requires items == Items(xs) && Ordered(items) && forall x :: x in xs ==> x.Complete() && (whole ==> |x.deltas| == 1)
    requires forall r, k: nat :: inv(r, k) <==> Reached(items, whole, r, k)
    ensures Run(NEW_SESSION, EventsUpTo(xs, |xs|)) == Going(s) && inv(s, |xs|)
  {
    forall r, k | 0 <= k < |xs| && inv(r, k)
      ensures exists t :: Run(r, EventsOf(xs[k])) == Going(t) && inv(t, k + 1)
    {
      assert xs[k] in xs;
      var t := ReachNext(xs, items, whole, r, k);
      assert inv(t, k + 1);
    }
    NothingHeld(whole);
    assert items[..0] == [];
    assert inv(NEW_SESSION, 0);
    s := RunInvariant(xs, inv, |xs|);
  }

  /** The session reached by the stream of all items. */
  lemma {:induction false} RunWhole(
      xs: seq<Streamed>, items: seq<Item>, whole: bool) returns (s: Session, carried: string)
    requires items == Items(xs) && Ordered(items) && forall x :: x in xs ==> x.Complete() && (whole ==> |x.deltas| == 1)
    ensures Run(NEW_SESSION, EventsUpTo(xs, |xs|)) == Going(s) && Holds(s, FrontOf(items), carried, whole)
  {
    var inv := (r: Session, k: nat) => Reached(items, whole, r, k);
    s := ReachAll(xs, items, whole, inv);
    assert inv(s, |xs|) && items[..|xs|] == items;
    carried :| Holds(s, FrontOf(items), carried, whole);
  }

  lemma {:induction false} NothingHeld(whole: bool)
    ensures Holds(NEW_SESSION, FrontOf([]), "", whole)
  {
    assert S.Finished([]) == [] && Keys([]) == [];
  }

  // ---- The parsed message ----

  lemma {:induction false} TextOfMessages(items: seq<Item>)
    requires forall i :: 0 <= i < |items| ==> !items[i].TextItem?
    ensures TextOf(items) == ""
  {
    if items != [] { TextOfMessages(items[1..]); }
  }

  lemma {:induction false} RunStartLocal(p: seq<Item>, more: seq<Item>, i: nat)
    requires i <= |p|
    ensures RunStart(p + more, i) == RunStart(p, i)
  {
    if i > 0 && p[i - 1].ReasoningItem? { RunStartLocal(p, more, i - 1); }
  }

  /** Appending an item that is not a message appends it to the latest items. */
  lemma {:induction false} LatestGrows(p: seq<Item>, x: Item)
    requires !x.TextItem?
    ensures LatestItems(p + [x]) == LatestItems(p) + [x]
    ensures LastMessage(p + [x]) == if LastMessage(p) < |p| then LastMessage(p) else |p| + 1
  {
    LastOfAppend(p, x);
    var last := LastMessage(p);
    if last < |p| {
      RunStartLocal(p, [x], last);
      AppendBehind(p, x, RunStart(p, last));
    }
  }

  lemma {:induction false} LastIsNew(p: seq<Item>, x: Item)
    requires x.TextItem?
    ensures LastMessage(p + [x]) == |p|
    ensures LatestItems(p + [x]) == p[RunStart(p, |p|)..] + [x]
  {
    LastOfAppend(p, x);
    RunStartLocal(p, [x], |p|);
    AppendBehind(p, x, RunStart(p, |p|));
  }

  lemma {:induction false} BehindIsReasoning(p: seq<Item>)
    requires forall i :: 0 <= i < |p| ==> !p[i].CallItem?
    ensures RunStart(p, |p|) == Behind(p) && forall i :: Behind(p) <= i < |p| ==> p[i].ReasoningItem?
  {
    RunOfReasoning(p, Behind(p), |p|);
  }

  /** A message starts a new list of latest items with the reasoning right before it. */
  lemma {:induction false} LatestRestarts(p: seq<Item>, x: Item)
    requires x.TextItem?
    requires forall i :: 0 <= i < |p| ==> !p[i].CallItem?
    ensures LatestItems(p + [x]) == p[Behind(p)..] + [x] && LastMessage(p + [x]) == |p|
    ensures forall i :: Behind(p) <= i < |p| ==> p[i].ReasoningItem?
  {
    BehindIsReasoning(p);
    LastIsNew(p, x);
  }

  lemma {:induction false} RunOfReasoning(p: seq<Item>, from: nat, i: nat)
    requires from <= i <= |p| && (from == 0 || !p[from - 1].ReasoningItem?)
    requires forall j :: from <= j < i ==> p[j].ReasoningItem?
    ensures RunStart(p, i) == from
  {
    if i > from { RunOfReasoning(p, from, i - 1); }
  }

  /** The parser's parts, told from the front. */
  predicate Shown(f: Front, latest: seq<Item>) {
    && TextOf(latest) == f.Text() && CallsOf(latest) == CallsOf(f.behind)
    && ReasoningOf(latest) == f.thought + ReasoningOf(f.behind)
  }

  lemma {:induction false} LatestIsShown(p: seq<Item>)
    requires LastMessage(p) < |p| ==> NoCall(p[..LastMessage(p)])
    ensures Shown(FrontOf(p), LatestItems(p))
  {
    if p != [] {
      var q, x := p[..|p| - 1], p[|p| - 1];
      assert p == q + [x];
      LastOfAppend(q, x);
      if x.TextItem? {
        assert p[..LastMessage(p)] == q;
        LatestMessageShown(q, x);
      } else {
        assert LastMessage(q) < |q| ==> q[..LastMessage(q)] == p[..LastMessage(p)];
        LatestIsShown(q);
        LatestGrows(q, x);
        ShownMore(FrontOf(q), LatestItems(q), x);
      }
    }
  }

  lemma {:induction false} LatestMessageShown(q: seq<Item>, x: Item)
    requires x.TextItem? && NoCall(q)
    ensures Shown(Met(FrontOf(q), x), LatestItems(q + [x]))
  {
    FrontIsLast(q);
    LatestRestarts(q, x);
    RunIsReasoning(q, Behind(q));
    RunShown(FrontOf(q), q[Behind(q)..], x);
  }

  lemma {:induction false} RunIsReasoning(q: seq<Item>, n: nat)
    requires n <= |q| && forall i :: n <= i < |q| ==> q[i].ReasoningItem?
    ensures forall i :: 0 <= i < |q[n..]| ==> q[n..][i].ReasoningItem?
  {
    assert forall i :: 0 <= i < |q[n..]| ==> q[n..][i] == q[n + i];
  }

  lemma {:induction false} RunShown(f: Front, run: seq<Item>, x: Item)
    requires x.TextItem? && f.behind == run && forall i :: 0 <= i < |run| ==> run[i].ReasoningItem?
    ensures Shown(Met(f, x), run + [x])
  {
    MessageShown(run, x);
    RestartShown(f, run, x);
  }

  lemma {:induction false} RestartShown(f: Front, run: seq<Item>, x: Item)
    requires x.TextItem? && f.behind == run
    requires TextOf(run + [x]) == x.text && CallsOf(run + [x]) == [] && ReasoningOf(run + [x]) == ReasoningOf(run) + ""
    ensures Shown(Met(f, x), run + [x])
  {
  }

  lemma {:induction false} ShownMore(f: Front, latest: seq<Item>, x: Item)
    requires Shown(f, latest) && !x.TextItem?
    ensures Shown(Met(f, x), latest + [x])
  {
    PartsConcat(latest, [x]);
    PartsConcat(f.behind, [x]);
    PartsOfOne(x);
    assert TextOf(latest) + "" == TextOf(latest);
    Reassociate(f.thought, ReasoningOf(f.behind), ReasoningOf([x]));
  }

  lemma {:induction false} MessageShown(run: seq<Item>, x: Item)
    requires x.TextItem? && forall i :: 0 <= i < |run| ==> run[i].ReasoningItem?
    ensures TextOf(run + [x]) == x.text && CallsOf(run + [x]) == [] && ReasoningOf(run + [x]) == ReasoningOf(run) + ""
  {
    PartsConcat(run, [x]);
    PartsOfOne(x);
    TextOfMessages(run);
    NoCalls(run);
  }

  function MessageOf(f: Front, carried: string): Option<S.Message> {
    var m := S.Message(f.Text(), carried + ReasoningOf(f.behind), CallsOf(f.behind));
    if m == S.Message("", "", []) then None else Some(m)
  }

  lemma {:induction false} ParsedIs(items: seq<Item>)
    requires Ordered(items)
    ensures Parsed(items) == MessageOf(FrontOf(items), FrontOf(items).thought)
  {
    if LastMessage(items) < |items| {
      assert NoCall(items[..LastMessage(items)]);
    }
    LatestIsShown(items);
  }

  lemma {:induction false} AssembledIs(s: Session, f: Front, carried: string, whole: bool)
    requires Holds(s, f, carried, whole)
    ensures S.Assembled(FlushPending(s).reply) == MessageOf(f, carried)
  {
    assert s.ctx.pending == [] ==> s.reply.reasoning + "" == s.reply.reasoning;
  }

  lemma {:induction false} SameMessage(f: Front, a: string, b: string)
    ensures MessageOf(f, a) == MessageOf(f, b) <==> a == b
  {
    var r := ReasoningOf(f.behind);
    assert (a + r)[..|a + r| - |r|] == a && (b + r)[..|b + r| - |r|] == b;
  }

  /** The message of a stream is that of its items with the reasoning the last message
      took along. */
  lemma {:induction false} StreamedMessage(xs: seq<Streamed>, items: seq<Item>, whole: bool) returns (carried: string)
    requires items == Items(xs) && Ordered(items) && forall x :: x in xs ==> x.Complete() && (whole ==> |x.deltas| == 1)
    ensures Result(Run(NEW_SESSION, StreamOf(xs))) == Done(MessageOf(FrontOf(items), carried))
    ensures Judged(FrontOf(items), carried, whole)
  {
    var s;
    s, carried := RunWhole(xs, items, whole);
    AssembledIs(s, FrontOf(items), carried, whole);
    StreamCompletes(xs, s);
  }

  lemma {:induction false} StreamCompletes(xs: seq<Streamed>, s: Session)
    requires Run(NEW_SESSION, EventsUpTo(xs, |xs|)) == Going(s)
    ensures Result(Run(NEW_SESSION, StreamOf(xs))) == Done(S.Assembled(FlushPending(s).reply))
  {
    RunOne(s, Completed);
    RunThen(NEW_SESSION, EventsUpTo(xs, |xs|), s, [Completed], FlushPending(s));
  }

  // ---- When the stream and the parser agree ----

  /** For a list that loses nothing, however it is cut into deltas, the stream assembles
      exactly the message the parser returns. */
  lemma {:induction false} KeptIsParsed(xs: seq<Streamed>)
    requires Ordered(Items(xs)) && !Loses(Items(xs)) && forall x :: x in xs ==> x.Complete()
    ensures Result(Run(NEW_SESSION, StreamOf(xs))) == Done(Parsed(Items(xs)))
  {
    var _ := StreamedMessage(xs, Items(xs), false);
    ParsedIs(Items(xs));
  }

  /** Every item in one delta. */
  function Whole(items: seq<Item>): (xs: seq<Streamed>)
    ensures |xs| == |items| && Items(xs) == items
    ensures forall x :: x in xs ==> |x.deltas| == 1
  {
    seq(|items|, i requires 0 <= i < |items| =>
      Streamed(items[i], [if items[i].CallItem? then items[i].args else items[i].text]))
  }

  lemma {:induction false} WholeIsComplete(items: seq<Item>)
    ensures forall x :: x in Whole(items) ==> x.Complete()
  {
    forall x | x in Whole(items) ensures x.Complete() {
      OneDelta(x.deltas[0]);
    }
  }

  lemma {:induction false} OneDelta(d: string)
    ensures Flatten([d]) == d
  {
    assert [d][1..] == [] && d + Flatten<char>([]) == d;
  }

  /** Streamed in one delta each, the items of a losing list give another message. */
  lemma {:induction false} LostIsNotParsed(items: seq<Item>)
    requires Ordered(items) && Loses(items)
    ensures Result(Run(NEW_SESSION, StreamOf(Whole(items)))) != Done(Parsed(items))
  {
    WholeIsComplete(items);
    var carried := StreamedMessage(Whole(items), items, true);
    ParsedIs(items);
    SameMessage(FrontOf(items), carried, FrontOf(items).thought);
  }

  /** The streams of the items, over all cuts. */
  ghost predicate AlwaysAgree(items: seq<Item>) {
    forall xs: seq<Streamed> :: Items(xs) == items && (forall x :: x in xs ==> x.Complete()) ==>
      Result(Run(NEW_SESSION, StreamOf(xs))) == Done(Parsed(items))
  }

  /** The two agree on every way to cut the items into deltas just when the list loses
      nothing. */
  lemma {:induction false} AgreeUnlessLost(items: seq<Item>)
    requires Ordered(items)
    ensures AlwaysAgree(items) <==> !Loses(items)
  {
    if Loses(items) {
      WholeIsComplete(items);
      LostIsNotParsed(items);
      assert Items(Whole(items)) == items;
    } else {
      forall xs: seq<Streamed> | Items(xs) == items && (forall x :: x in xs ==> x.Complete())
        ensures Result(Run(NEW_SESSION, StreamOf(xs))) == Done(Parsed(items))
      {
        KeptIsParsed(xs);
      }
    }
  }

  lemma {:induction false} SpokenIsNotSilent(items: seq<Item>)
    requires forall i :: 0 <= i < |items| && items[i].TextItem? ==> items[i].text != ""
    ensures !FrontOf(items).silent && !FrontOf(items).loses
  {
    if items != [] { SpokenIsNotSilent(items[..|items| - 1]); }
  }

  lemma {:induction false} RegularLosesNothing(items: seq<Item>)
    requires Regular(items)
    ensures !Loses(items)
  {
    var last := LastMessage(items);
    if last == |items| {
      SpokenIsNotSilent(items);
    } else {
      SpokenIsNotSilent(items[..last]);
      assert items[..last + 1][..last] == items[..last];
      LosesAtLastMessage(items, |items|);
    }
  }

  lemma {:induction false} LosesAtLastMessage(items: seq<Item>, n: nat)
    requires LastMessage(items) < n <= |items|
    ensures FrontOf(items[..n]).loses == FrontOf(items[..LastMessage(items) + 1]).loses
    ensures n == |items| ==> items[..n] == items
    decreases n
  {
    if n > LastMessage(items) + 1 {
      LosesAtLastMessage(items, n - 1);
      assert items[..n][..n - 1] == items[..n - 1] && items[..n][n - 1] == items[n - 1];
    }
  }

  /** In particular if every message that is not the last one has text. */
  lemma {:induction false} StreamedEqualsParsed(xs: seq<Streamed>)
    requires Regular(Items(xs)) && forall x :: x in xs ==> x.Complete()
    ensures Result(Run(NEW_SESSION, StreamOf(xs))) == Done(Parsed(Items(xs)))
  {
    RegularLosesNothing(Items(xs));
    KeptIsParsed(xs);
  }

  // ---- Two lists with an empty message in between ----

  lemma {:induction false} FrontMore(p: seq<Item>, x: Item)
    ensures FrontOf(p + [x]) == Met(FrontOf(p), x)
  {
    assert (p + [x])[..|p|] == p;
  }

  lemma {:induction false} FrontOfThree(x: Item, y: Item, z: Item)
    ensures FrontOf([x, y, z]) == Met(Met(Met(NO_ITEMS, x), y), z)
  {
    FrontMore([], x);
    FrontMore([x], y);
    FrontMore([x, y], z);
    assert [] + [x] == [x] && [x] + [y] == [x, y] && [x, y] + [z] == [x, y, z];
  }

  lemma {:induction false} LosesBehindEmpty(x: Item, y: Item, z: Item)
    requires x.TextItem? && x.text == "" && y.ReasoningItem? && y.text != "" && z.TextItem?
    ensures Loses([x, y, z])
  {
    FrontOfThree(x, y, z);
    PartsOfOne(y);
    assert Met(NO_ITEMS, x).silent;
    assert Met(Met(NO_ITEMS, x), y).behind == [y];
  }

  lemma {:induction false} ThreeAreOrdered(x: Item, y: Item, z: Item)
    requires x.TextItem? && y.ReasoningItem? && z.TextItem?
    requires IdOf(x) != "" && IdOf(y) != "" && IdOf(z) != ""
    requires IdOf(x) != IdOf(y) && IdOf(x) != IdOf(z) && IdOf(y) != IdOf(z)
    ensures Ordered([x, y, z])
  {
    assert [x, y, z][2] == z && LastMessage([x, y, z]) == 2;
  }

  /** Reasoning between an empty message and the next one: the stream drops it there, the
      parser keeps it. */
  lemma {:induction false} EmptyMessageLosesReasoning(a: string, b: string, c: string, thought: string, text: string)
    requires thought != "" && a != "" && b != "" && c != "" && a != c && a != b && b != c
    ensures var items := [TextItem(Some(a), ""), ReasoningItem(Some(b), thought), TextItem(Some(c), text)];
            && Ordered(items) && Loses(items)
            && Result(Run(NEW_SESSION, StreamOf(Whole(items)))) != Done(Parsed(items))
  {
    var x, y, z := TextItem(Some(a), ""), ReasoningItem(Some(b), thought), TextItem(Some(c), text);
    ThreeAreOrdered(x, y, z);
    LosesBehindEmpty(x, y, z);
    LostIsNotParsed([x, y, z]);
  }

  /** Two pieces of reasoning behind an empty message: what waits of the second one is
      output for the next, so that further reasoning is kept although all messages in
      between are empty. */
  lemma {:induction false} TwoThoughtsAreKept(a: Item, r: Item, s: Item, b: Item, t: Item, c: Item)
    requires a.TextItem? && b.TextItem? && c.TextItem? && a.text == "" && b.text == ""
    requires r.ReasoningItem? && s.ReasoningItem? && t.ReasoningItem? && r.text != "" && s.text != "" && t.text != ""
    ensures !Loses([a, r, s, b, t, c])
  {
    FrontOfThree(a, r, s);
    assert [a, r, s] + [b] == [a, r, s, b] && [a, r, s, b] + [t] == [a, r, s, b, t];
    assert [a, r, s, b, t] + [c] == [a, r, s, b, t, c];
    FrontMore([a, r, s], b);
    FrontMore([a, r, s, b], t);
    FrontMore([a, r, s, b, t], c);
    var f := Met(Met(Met(NO_ITEMS, a), r), s);
    assert f.behind == [r] + [s];
    PartsOfOne(r);
    OneThoughtMore([r], s);
    assert !Met(f, b).silent;
  }
}
