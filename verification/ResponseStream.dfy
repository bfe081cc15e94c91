/** Streamed and finished model replies: the event loop that feeds the collector,
    the parser of a finished reply, and why both give the same message. */
module ResponseStream {
  import opened Text
  import S = StreamState

  /** An output item of a reply; an id the provider left out is `None`, or "" where
      the program does not tell the two apart. */
  datatype Item =
    | TextItem(id: Option<string>, text: string)
    | ReasoningItem(id: Option<string>, text: string)
    | CallItem(itemId: string, callId: string, name: string, args: string)

  datatype Event =
    | ItemAdded(item: Item)
    | ItemDone(item: Item)
    | TextDelta(delta: string)
    | ReasoningDelta(itemId: Option<string>, delta: string)
    | ArgsDelta(ref: string, delta: string)
    | ArgsDone(ref: string, args: Option<string>, name: string)
    | Completed
    | Failed

  // ---- A finished reply ----

  function LastMessage(items: seq<Item>): (i: nat)
    ensures i <= |items|
    ensures i < |items| ==> items[i].TextItem?
    ensures forall j :: i < j < |items| ==> !items[j].TextItem?
    ensures i == |items| ==> forall j :: 0 <= j < |items| ==> !items[j].TextItem?
  {
    if items == [] then 0
    else
      var n := |items| - 1;
      if items[n].TextItem? then n
      else
        var i := LastMessage(items[..n]);
        if i < n then i else |items|
  }

  /** First index of the reasoning run that ends right before `start`. */
  function RunStart(items: seq<Item>, start: nat): (i: nat)
    requires start <= |items|
    ensures i <= start
  {
    if start > 0 && items[start - 1].ReasoningItem? then RunStart(items, start - 1) else start
  }

  /** The latest message with the reasoning right before it and all that follows;
      everything if there is no message. */
  function LatestItems(items: seq<Item>): seq<Item> {
    var last := LastMessage(items);
    if last == |items| then items else items[RunStart(items, last)..]
  }

  function TextOf(items: seq<Item>): string {
    if items == [] then "" else (if items[0].TextItem? then items[0].text else "") + TextOf(items[1..])
  }

  function ReasoningOf(items: seq<Item>): string {
    if items == [] then "" else (if items[0].ReasoningItem? then items[0].text else "") + ReasoningOf(items[1..])
  }

  function CallsOf(items: seq<Item>): seq<S.ToolCall> {
    if items == [] then []
    else
      CallOf(items[0]) + CallsOf(items[1..])
  }

  function CallOf(i: Item): seq<S.ToolCall> {
    if i.CallItem? && i.name != ""
    then [S.ToolCall(if i.callId != "" then i.callId else i.itemId, i.name, i.args)] else []
  }

  function Parsed(items: seq<Item>): Option<S.Message> {
    var latest := LatestItems(items);
    var m := S.Message(TextOf(latest), ReasoningOf(latest), CallsOf(latest));
    if m == S.Message("", "", []) then None else Some(m)
  }

  /** `_select_latest_output_items`. */
  method SelectLatestOutputItems(output: seq<Item>) returns (items: seq<Item>)
    ensures items == LatestItems(output)
  {
    var start: nat := |output|;
    for i := 0 to |output|
      invariant start == if LastMessage(output[..i]) < i then LastMessage(output[..i]) else |output|
    {
      assert output[..i + 1][..i] == output[..i];
      if output[i].TextItem? { start := i; }
    }
    assert output[..|output|] == output;
    if start == |output| {
      return output;
    }
    while start > 0 && output[start - 1].ReasoningItem?
      invariant start <= |output| && RunStart(output, start) == RunStart(output, LastMessage(output))
    {
      start := start - 1;
    }
    items := output[start..];
  }

  /** `_parse_output`. */
  method ParseOutput(output: seq<Item>) returns (m: Option<S.Message>)
    ensures m == Parsed(output)
  {
    var content, reasoning := "", "";
    var calls: seq<S.ToolCall> := [];
    var latest := SelectLatestOutputItems(output);
    for i := 0 to |latest|
      invariant content == TextOf(latest[..i]) && reasoning == ReasoningOf(latest[..i]) && calls == CallsOf(latest[..i])
    {
      var item := latest[i];
      assert latest[..i + 1] == latest[..i] + [item];
      PartsConcat(latest[..i], [item]);
      PartsOfOne(item);
      match item
      case TextItem(_, text) => content := content + text;
      case ReasoningItem(_, text) => reasoning := reasoning + text;
      case CallItem(id, callId, name, args) =>
        if name != "" {
          calls := calls + [S.ToolCall(if callId != "" then callId else id, name, args)];
        }
    }
    assert latest[..|latest|] == latest;
    m := if content == "" && reasoning == "" && calls == [] then None else Some(S.Message(content, reasoning, calls));
  }

  lemma {:induction false} TextConcat(a: seq<Item>, b: seq<Item>)
    ensures TextOf(a + b) == TextOf(a) + TextOf(b)
  {
    if a == [] {
      assert a + b == b;
    } else {
      assert (a + b)[0] == a[0] && (a + b)[1..] == a[1..] + b;
      TextConcat(a[1..], b);
    }
  }

  lemma {:induction false} ReasoningConcat(a: seq<Item>, b: seq<Item>)
    ensures ReasoningOf(a + b) == ReasoningOf(a) + ReasoningOf(b)
  {
    if a == [] {
      assert a + b == b;
    } else {
      assert (a + b)[0] == a[0] && (a + b)[1..] == a[1..] + b;
      ReasoningConcat(a[1..], b);
    }
  }

  lemma {:induction false} Grouped(a: seq<S.ToolCall>, b: seq<S.ToolCall>, c: seq<S.ToolCall>)
    ensures a + (b + c) == a + b + c
  {
  }

  lemma {:induction false} CallsConcat(a: seq<Item>, b: seq<Item>)
    ensures CallsOf(a + b) == CallsOf(a) + CallsOf(b)
  {
    if a == [] {
      assert a + b == b;
    } else {
      assert (a + b)[0] == a[0] && (a + b)[1..] == a[1..] + b;
      CallsConcat(a[1..], b);
      Grouped(CallOf(a[0]), CallsOf(a[1..]), CallsOf(b));
    }
  }

  lemma {:induction false} PartsConcat(a: seq<Item>, b: seq<Item>)
    ensures TextOf(a + b) == TextOf(a) + TextOf(b)
    ensures ReasoningOf(a + b) == ReasoningOf(a) + ReasoningOf(b)
    ensures CallsOf(a + b) == CallsOf(a) + CallsOf(b)
  {
    TextConcat(a, b);
    ReasoningConcat(a, b);
    CallsConcat(a, b);
  }

  lemma {:induction false} PartsOfOne(i: Item)
    ensures TextOf([i]) == (if i.TextItem? then i.text else "")
    ensures ReasoningOf([i]) == (if i.ReasoningItem? then i.text else "")
    ensures CallsOf([i]) == CallOf(i)
  {
    assert [i][1..] == [];
  }

  // ---- The event loop ----

  datatype ItemType = NoType | MessageType | ReasoningType | CallType

  /** What the adapter remembers between events. */
  datatype Context = Context(
    messageSeen: bool, activeMessage: Option<string>, keyOf: map<string, string>, knownReasoning: set<string>,
    pending: seq<string>, pendingItem: bool, activeType: ItemType)

  const EMPTY_CONTEXT := Context(false, None, map[], {}, [], false, NoType)

  datatype Session = Session(ctx: Context, reply: S.Reply)

  const NEW_SESSION := Session(EMPTY_CONTEXT, S.EMPTY_REPLY)

  /** A stream either goes on or is given up. */
  datatype Outcome = Going(session: Session) | Aborted

  function KeyFor(ctx: Context, itemId: string): string {
    if itemId in ctx.keyOf then ctx.keyOf[itemId] else itemId
  }

  function Remember(keyOf: map<string, string>, id: string, key: string): map<string, string> {
    if id == "" then keyOf else keyOf[id := key]
  }

  function OnCall(s: Session, i: Item): Session
    requires i.CallItem?
  {
    var key := if i.itemId != "" then i.itemId else i.callId;
    Session(
      s.ctx.(activeType := CallType, keyOf := Remember(Remember(s.ctx.keyOf, i.itemId, key), i.callId, key)),
      s.reply.(calls := S.Upsert(s.reply.calls, key, i.callId, i.name, "", None)))
  }

  /** The pending reasoning moves into the reply. */
  function FlushPending(s: Session): Session {
    if s.ctx.pending == [] then s
    else Session(s.ctx.(pending := [], pendingItem := false),
                 s.reply.(reasoning := s.reply.reasoning + Flatten(s.ctx.pending)))
  }

  /** A new generation: only the pending reasoning is carried over. */
  function Restarted(s: Session): Session {
    Session(
      s.ctx.(keyOf := map[], pending := [], pendingItem := false),
      S.Reply(s.reply.generation + 1, "", Flatten(s.ctx.pending), []))
  }

  function OnMessage(s: Session, id: Option<string>): Session {
    var prior := s.reply.HasOutput() || s.ctx.pending != [];
    var t :=
      if s.ctx.messageSeen && prior && (id.None? || s.ctx.activeMessage.None? || id != s.ctx.activeMessage) then
        Restarted(s)
      else if !s.ctx.messageSeen then FlushPending(s)
      else s;
    t.(ctx := t.ctx.(messageSeen := true, activeMessage := id, activeType := MessageType))
  }

  function OnReasoning(s: Session, id: Option<string>): Session {
    s.(ctx := s.ctx.(
        knownReasoning := if id.Some? then s.ctx.knownReasoning + {id.value} else s.ctx.knownReasoning,
        activeType := ReasoningType,
        pendingItem := s.ctx.messageSeen && s.reply.HasOutput()))
  }

  function OnReasoningDelta(s: Session, itemId: Option<string>, delta: string): Outcome {
    var late := s.ctx.messageSeen && s.reply.HasOutput();
    if itemId.Some? && itemId.value !in s.ctx.knownReasoning then Aborted
    else if late && itemId.None? && !s.ctx.pendingItem && s.ctx.activeType != CallType then Aborted
    else if late && (s.ctx.pendingItem || (itemId.Some? && itemId != s.ctx.activeMessage) ||
                     (itemId.None? && s.ctx.activeType == CallType)) then
      Going(s.(ctx := s.ctx.(pending := s.ctx.pending + [delta])))
    else Going(s.(reply := s.reply.(reasoning := s.reply.reasoning + delta)))
  }

  function WithCalls(s: Session, calls: seq<S.Call>): Session {
    s.(reply := s.reply.(calls := calls))
  }

  function Step(s: Session, e: Event): Outcome {
    match e
    case ItemAdded(item) =>
      if item.CallItem? then Going(OnCall(s, item))
      else if item.TextItem? then Going(OnMessage(s, item.id))
      else Going(OnReasoning(s, item.id))
    case ItemDone(item) => if item.CallItem? then Going(OnCall(s, item)) else Going(s)
    case TextDelta(delta) => Going(s.(reply := s.reply.(text := s.reply.text + delta)))
    case ReasoningDelta(itemId, delta) => OnReasoningDelta(s, itemId, delta)
    case ArgsDelta(itemId, delta) =>
      Going(WithCalls(s, S.Upsert(s.reply.calls, KeyFor(s.ctx, itemId), "", "", delta, None)))
    case ArgsDone(itemId, args, name) =>
      var key := KeyFor(s.ctx, itemId);
      Going(WithCalls(s, S.Finalize(S.Upsert(s.reply.calls, key, "", name, "", args), key)))
    case Completed => Going(FlushPending(s))
    case Failed => Aborted
  }

  function Run(s: Session, events: seq<Event>): Outcome
    decreases |events|
  {
    if events == [] then Going(s)
    else
      match Step(s, events[0])
      case Going(t) => Run(t, events[1..])
      case Aborted => Aborted
  }

  lemma {:induction false} RunConcat(s: Session, a: seq<Event>, b: seq<Event>)
    ensures Run(s, a + b) == match Run(s, a) case Going(t) => Run(t, b) case Aborted => Aborted
    decreases |a|
  {
    if a == [] {
      assert a + b == b;
    } else {
      assert (a + b)[0] == a[0] && (a + b)[1..] == a[1..] + b;
      match Step(s, a[0])
      case Going(t) => RunConcat(t, a[1..], b);
      case Aborted =>
    }
  }

  lemma {:induction false} RunOne(s: Session, e: Event)
    ensures Run(s, [e]) == Step(s, e)
  {
    assert [e][1..] == [];
  }

  // ---- When a stream is given up, told from the events alone ----

  predicate BeginsMessage(e: Event) {
    e.ItemAdded? && e.item.TextItem?
  }

  predicate BeginsReasoning(e: Event) {
    e.ItemAdded? && e.item.ReasoningItem?
  }

  predicate Announces(e: Event, id: string) {
    BeginsReasoning(e) && e.item.id == Some(id)
  }

  predicate MessageBegan(events: seq<Event>) {
    exists e :: e in events && BeginsMessage(e)
  }

  /** A reasoning item with this id has begun. */
  predicate Announced(events: seq<Event>, id: string) {
    exists e :: e in events && Announces(e, id)
  }

  /** The id of the latest message. */
  function LatestId(events: seq<Event>): Option<string> {
    if events == [] then None
    else
      var front, e := events[..|events| - 1], events[|events| - 1];
      if BeginsMessage(e) then e.item.id else LatestId(front)
  }

  /** The latest item is a call. */
  predicate CallIsActive(events: seq<Event>) {
    events != [] &&
    var front, e := events[..|events| - 1], events[|events| - 1];
    if e.ItemAdded? then e.item.CallItem? else (e.ItemDone? && e.item.CallItem?) || CallIsActive(front)
  }

  /** Another message takes the place of the latest one. */
  predicate Renews(events: seq<Event>, e: Event) {
    && BeginsMessage(e) && MessageBegan(events)
    && (e.item.id.None? || LatestId(events).None? || e.item.id != LatestId(events))
  }

  /** Brings text, reasoning or a call. */
  predicate Speaks(e: Event) {
    match e
    case TextDelta(delta) => delta != ""
    case ReasoningDelta(_, delta) => delta != ""
    case ItemAdded(item) => item.CallItem?
    case ItemDone(item) => item.CallItem?
    case ArgsDelta(_, _) => true
    case ArgsDone(_, _, _) => true
    case Completed => false
    case Failed => false
  }

  /** The reply has output since another message last took the place of one. */
  predicate HasSpoken(events: seq<Event>)
    decreases |events|, 0
  {
    events != [] &&
    var front, e := events[..|events| - 1], events[|events| - 1];
    if Renews(front, e) then Flatten(Waiting(front)) != "" else HasSpoken(front) || Speaks(e)
  }

  /** Behind a message with output. */
  predicate Behind(events: seq<Event>)
    decreases |events|, 1
  {
    MessageBegan(events) && HasSpoken(events)
  }

  /** A reasoning item that began behind a message with output, for a message to come. */
  predicate ItemWaits(events: seq<Event>)
    decreases |events|, 0
  {
    events != [] &&
    var front, e := events[..|events| - 1], events[|events| - 1];
    if BeginsReasoning(e) then Behind(front)
    else ItemWaits(front) && !Renews(front, e) && !(e.Completed? && Waiting(front) != [])
  }

  /** Reasoning that is put off until the next message or the end. */
  predicate PutOff(events: seq<Event>, id: Option<string>)
    decreases |events|, 2
  {
    Behind(events) && (ItemWaits(events) || id.None? || id != LatestId(events))
  }

  function Waiting(events: seq<Event>): seq<string>
    decreases |events|, 0
  {
    if events == [] then []
    else
      var front, e := events[..|events| - 1], events[|events| - 1];
      if Renews(front, e) || e.Completed? then []
      else if e.ReasoningDelta? && PutOff(front, e.itemId) then Waiting(front) + [e.delta]
      else Waiting(front)
  }

  /** The provider failed; or reasoning arrives that no item has announced; or it names no
      item, behind a message with output, while neither reasoning nor a call is active. */
  predicate Refused(events: seq<Event>, e: Event) {
    match e
    case Failed => true
    case ReasoningDelta(Some(id), _) => !Announced(events, id)
    case ReasoningDelta(None, _) => Behind(events) && !ItemWaits(events) && !CallIsActive(events)
    case _ => false
  }

  predicate GivenUp(events: seq<Event>) {
    exists i :: 0 <= i < |events| && Refused(events[..i], events[i])
  }

  lemma {:induction false} BeganMore(front: seq<Event>, e: Event, id: string)
    ensures MessageBegan(front + [e]) <==> MessageBegan(front) || BeginsMessage(e)
    ensures Announced(front + [e], id) <==> Announced(front, id) || Announces(e, id)
  {
    assert forall x :: x in front + [e] <==> x in front || x == e;
  }

  lemma {:induction false} WaitsMore(front: seq<Event>, e: Event)
    ensures var events := front + [e];
            && LatestId(events) == (if BeginsMessage(e) then e.item.id else LatestId(front))
            && (CallIsActive(events) <==>
                 if e.ItemAdded? then e.item.CallItem? else (e.ItemDone? && e.item.CallItem?) || CallIsActive(front))
            && (HasSpoken(events) <==>
                 if Renews(front, e) then Flatten(Waiting(front)) != "" else HasSpoken(front) || Speaks(e))
            && (ItemWaits(events) <==>
                 if BeginsReasoning(e) then Behind(front)
                 else ItemWaits(front) && !Renews(front, e) && !(e.Completed? && Waiting(front) != []))
            && Waiting(events) == (if Renews(front, e) || e.Completed? then []
                                   else if e.ReasoningDelta? && PutOff(front, e.itemId) then Waiting(front) + [e.delta]
                                   else Waiting(front))
  {
    assert (front + [e])[..|front|] == front;
  }

  lemma {:induction false} GivenUpMore(front: seq<Event>, e: Event)
    ensures GivenUp(front + [e]) <==> GivenUp(front) || Refused(front, e)
  {
    var events := front + [e];
    assert events[..|front|] == front && events[|front|] == e;
    assert forall i :: 0 <= i < |front| ==> events[..i] == front[..i] && events[i] == front[i];
    if i :| 0 <= i < |front| && Refused(front[..i], front[i]) {
      assert Refused(events[..i], events[i]);
    }
  }

  /** What the adapter remembers is what the events tell. */
  ghost predicate Tells(events: seq<Event>, s: Session) {
    && (s.ctx.messageSeen <==> MessageBegan(events))
    && s.ctx.activeMessage == LatestId(events)
    && (forall id :: id in s.ctx.knownReasoning <==> Announced(events, id))
    && (s.ctx.activeType == CallType <==> CallIsActive(events))
    && (s.reply.HasOutput() <==> HasSpoken(events))
    && s.ctx.pending == Waiting(events)
    && (s.ctx.pendingItem <==> ItemWaits(events))
    && (s.ctx.pending != [] || s.ctx.pendingItem ==> Behind(events))
  }

  lemma {:induction false} FlushTells(events: seq<Event>, s: Session)
    requires Tells(events, s)
    ensures Tells(events + [Completed], FlushPending(s))
  {
    WaitsMore(events, Completed);
    forall id ensures Announced(events + [Completed], id) <==> Announced(events, id) {
      BeganMore(events, Completed, id);
    }
    BeganMore(events, Completed, "");
  }

  lemma {:induction false} MessageTells(events: seq<Event>, s: Session, item: Item)
    requires Tells(events, s) && item.TextItem?
    ensures Tells(events + [ItemAdded(item)], OnMessage(s, item.id))
  {
    var e := ItemAdded(item);
    WaitsMore(events, e);
    forall id ensures Announced(events + [e], id) <==> Announced(events, id) {
      BeganMore(events, e, id);
    }
    BeganMore(events, e, "");
  }

  lemma {:induction false} ReasoningTells(events: seq<Event>, s: Session, item: Item)
    requires Tells(events, s) && item.ReasoningItem?
    ensures Tells(events + [ItemAdded(item)], OnReasoning(s, item.id))
  {
    var e := ItemAdded(item);
    WaitsMore(events, e);
    forall id ensures Announced(events + [e], id) <==> Announced(events, id) || item.id == Some(id) {
      BeganMore(events, e, id);
    }
    BeganMore(events, e, "");
  }

  lemma {:induction false} DeltaTells(events: seq<Event>, s: Session, itemId: Option<string>, delta: string)
    requires Tells(events, s)
    ensures var e := ReasoningDelta(itemId, delta);
            match OnReasoningDelta(s, itemId, delta)
            case Going(t) => !Refused(events, e) && Tells(events + [e], t)
            case Aborted => Refused(events, e)
  {
    var e := ReasoningDelta(itemId, delta);
    WaitsMore(events, e);
    forall id ensures Announced(events + [e], id) <==> Announced(events, id) {
      BeganMore(events, e, id);
    }
    BeganMore(events, e, "");
  }

  /** Text, and what is said about calls, leaves alone what waits. */
  predicate Adds(e: Event) {
    e.TextDelta? || e.ArgsDelta? || e.ArgsDone? || e.ItemDone? || (e.ItemAdded? && e.item.CallItem?)
  }

  lemma {:induction false} OtherTells(events: seq<Event>, s: Session, e: Event, t: Session)
    requires Tells(events, s) && Adds(e)
    requires t.ctx.(keyOf := s.ctx.keyOf, activeType := s.ctx.activeType) == s.ctx
    requires t.ctx.activeType == if (e.ItemAdded? || e.ItemDone?) && e.item.CallItem? then CallType else s.ctx.activeType
    requires t.reply.HasOutput() <==> s.reply.HasOutput() || Speaks(e)
    ensures Tells(events + [e], t)
  {
    WaitsMore(events, e);
    forall id ensures Announced(events + [e], id) <==> Announced(events, id) {
      BeganMore(events, e, id);
    }
    BeganMore(events, e, "");
  }

  lemma {:induction false} StepTells(events: seq<Event>, s: Session, e: Event)
    requires Tells(events, s)
    ensures match Step(s, e)
            case Going(t) => !Refused(events, e) && Tells(events + [e], t)
            case Aborted => Refused(events, e)
  {
    if Adds(e) {
      OtherTells(events, s, e, Step(s, e).session);
    } else {
      match e
      case ItemAdded(item) =>
        if item.TextItem? { MessageTells(events, s, item); } else { ReasoningTells(events, s, item); }
      case ReasoningDelta(itemId, delta) => DeltaTells(events, s, itemId, delta);
      case Completed => FlushTells(events, s);
      case Failed =>
    }
  }

  /** A stream is given up exactly at the first event that has to be refused. */
  lemma {:induction false} AbortsExactly(events: seq<Event>)
    ensures match Run(NEW_SESSION, events)
            case Going(s) => !GivenUp(events) && Tells(events, s)
            case Aborted => GivenUp(events)
    decreases |events|
  {
    if events != [] {
      var front, e := events[..|events| - 1], events[|events| - 1];
      assert events == front + [e];
      AbortsExactly(front);
      RunConcat(NEW_SESSION, front, [e]);
      GivenUpMore(front, e);
      match Run(NEW_SESSION, front)
      case Going(s) =>
        RunOne(s, e);
        StepTells(front, s, e);
      case Aborted =>
    }
  }

  /** No reply comes of a stream that failed, however much of it had arrived. */
  lemma {:induction false} FailureIsGivenUp(events: seq<Event>)
    requires Failed in events
    ensures GivenUp(events)
  {
    var i :| 0 <= i < |events| && events[i] == Failed;
    assert Refused(events[..i], events[i]);
  }

  /** The adapter's fields, and the collector it feeds. */
  class Adapter {
    var messageSeen: bool
    var activeMessage: Option<string>
    var keyOf: map<string, string>
    var knownReasoning: set<string>
    var pending: seq<string>
    var pendingItem: bool
    var activeType: ItemType
    const state: S.Collector

    predicate Valid()
      reads this, state
    {
      state.Valid()
    }

    function Value(): Session
      reads this, state
    {
      Session(Context(messageSeen, activeMessage, keyOf, knownReasoning, pending, pendingItem, activeType), state.Value())
    }

    constructor ()
      ensures Valid() && fresh(state) && Value() == NEW_SESSION
    {
      messageSeen, activeMessage, keyOf, knownReasoning := false, None, map[], {};
      pending, pendingItem, activeType := [], false, NoType;
      state := new S.Collector();
    }

    method AppendPending()
      requires Valid()
      modifies this, state
      ensures Valid() && Value() == FlushPending(old(Value()))
    {
      if pending != [] {
        state.AppendReasoning(Flatten(pending));
        pending := [];
        pendingItem := false;
      }
    }

    method Restart()
      requires Valid()
      modifies this, state
      ensures Valid() && Value() == Restarted(old(Value()))
    {
      state.ReplaceGeneration();
      keyOf := map[];
      if pending != [] {
        state.AppendReasoning(Flatten(pending));
        pending := [];
      }
      pendingItem := false;
    }

    method HandleCall(item: Item)
      requires Valid() && item.CallItem?
      modifies this, state
      ensures Valid() && Value() == OnCall(old(Value()), item)
    {
      activeType := CallType;
      var key := if item.itemId != "" then item.itemId else item.callId;
      if item.itemId != "" { keyOf := keyOf[item.itemId := key]; }
      if item.callId != "" { keyOf := keyOf[item.callId := key]; }
      state.UpsertToolCall(key, item.callId, item.name, "", None);
    }

    method HandleMessage(id: Option<string>)
      requires Valid()
      modifies this, state
      ensures Valid() && Value() == OnMessage(old(Value()), id)
    {
      var hasOutput := state.HasOutput();
      var prior := hasOutput || pending != [];
      if messageSeen && prior && (id.None? || activeMessage.None? || id != activeMessage) {
        Restart();
      } else if !messageSeen && pending != [] {
        AppendPending();
      }
      messageSeen := true;
      activeMessage := id;
      activeType := MessageType;
    }

    method HandleReasoningDelta(itemId: Option<string>, delta: string) returns (going: bool)
      requires Valid()
      modifies this, state
      ensures Valid()
      ensures OnReasoningDelta(old(Value()), itemId, delta) == if going then Going(Value()) else Aborted
    {
      if itemId.Some? && itemId.value !in knownReasoning {
        return false;
      }
      var hasOutput := state.HasOutput();
      if messageSeen && hasOutput && itemId.None? && !pendingItem && activeType != CallType {
        return false;
      }
      if messageSeen && hasOutput &&
         (pendingItem || (itemId.Some? && itemId != activeMessage) || (itemId.None? && activeType == CallType)) {
        pending := pending + [delta];
      } else {
        state.AppendReasoning(delta);
      }
      return true;
    }

    method HandleReasoning(id: Option<string>)
      requires Valid()
      modifies this, state
      ensures Valid() && Value() == OnReasoning(old(Value()), id)
    {
      if id.Some? { knownReasoning := knownReasoning + {id.value}; }
      activeType := ReasoningType;
      var hasOutput := state.HasOutput();
      pendingItem := messageSeen && hasOutput;
    }

    method HandleArguments(itemId: string, delta: string)
      requires Valid()
      modifies this, state
      ensures Valid()
      ensures var s := old(Value());
              Value() == WithCalls(s, S.Upsert(s.reply.calls, KeyFor(s.ctx, itemId), "", "", delta, None))
    {
      state.UpsertToolCall(if itemId in keyOf then keyOf[itemId] else itemId, "", "", delta, None);
    }

    method HandleArgumentsDone(itemId: string, args: Option<string>, name: string)
      requires Valid()
      modifies this, state
      ensures Valid()
      ensures var s := old(Value());
              var key := KeyFor(s.ctx, itemId);
              Value() == WithCalls(s, S.Finalize(S.Upsert(s.reply.calls, key, "", name, "", args), key))
    {
      var key := if itemId in keyOf then keyOf[itemId] else itemId;
      state.UpsertToolCall(key, "", name, "", args);
      state.FinalizeToolCall(key);
    }

    /** One event of the stream. */
    method Handle(e: Event) returns (going: bool)
      requires Valid()
      modifies this, state
      ensures Valid()
      ensures Step(old(Value()), e) == if going then Going(Value()) else Aborted
    {
      going := true;
      match e
      case ItemAdded(item) =>
        if item.CallItem? {
          HandleCall(item);
        } else if item.TextItem? {
          HandleMessage(item.id);
        } else {
          HandleReasoning(item.id);
        }
      case ItemDone(item) =>
        if item.CallItem? { HandleCall(item); }
      case TextDelta(delta) =>
        state.AppendText(delta);
      case ReasoningDelta(itemId, delta) =>
        going := HandleReasoningDelta(itemId, delta);
      case ArgsDelta(itemId, delta) =>
        HandleArguments(itemId, delta);
      case ArgsDone(itemId, args, name) =>
        HandleArgumentsDone(itemId, args, name);
      case Completed =>
        AppendPending();
      case Failed =>
        going := false;
    }
  }

  datatype StreamResult = Done(message: Option<S.Message>) | StreamAborted

  function Result(o: Outcome): StreamResult {
    match o
    case Going(s) => Done(S.Assembled(s.reply))
    case Aborted => StreamAborted
  }

  /** The event loop of `chat_completion_stream`: a reply, unless an event is refused. */
  method ChatCompletionStream(events: seq<Event>) returns (r: StreamResult)
    ensures r == Result(Run(NEW_SESSION, events))
    ensures r.StreamAborted? <==> GivenUp(events)
    ensures Failed in events ==> r.StreamAborted?
  {
    AbortsExactly(events);
    if Failed in events { FailureIsGivenUp(events); }
    var adapter := new Adapter();
    for i := 0 to |events|
      invariant adapter.Valid() && fresh(adapter) && fresh(adapter.state)
      invariant Run(NEW_SESSION, events) == Run(adapter.Value(), events[i..])
    {
      assert events[i..][0] == events[i] && events[i..][1..] == events[i + 1..];
      var going := adapter.Handle(events[i]);
      if !going {
        return StreamAborted;
      }
    }
    var m := adapter.state.Assemble();
    r := Done(m);
  }
}
