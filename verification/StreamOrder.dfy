/** Tool calls whose events interleave: what concerns one call may arrive among the events
    of other calls and among reasoning, and the message stays the same. */
module StreamOrder {
  import opened Text
  import opened ResponseStream
  import opened StreamAgreement
  import S = StreamState

  // ---- Events of calls ----

  /** The call an event is about, by the id of its item. */
  function RefOf(e: Event): Option<string> {
    match e
    case ItemAdded(i) => if i.CallItem? then Some(i.itemId) else None
    case ItemDone(i) => if i.CallItem? then Some(i.itemId) else None
    case ArgsDelta(ref, _) => Some(ref)
    case ArgsDone(ref, _, _) => Some(ref)
    case _ => None
  }

  predicate OfArguments(e: Event) {
    e.ArgsDelta? || e.ArgsDone?
  }

  /** A call has been added, and no message since. */
  predicate Known(p: seq<Event>, ref: string) {
    p != [] &&
    var e := p[|p| - 1];
    || (e.ItemAdded? && RefOf(e) == Some(ref))
    || (!(e.ItemAdded? && e.item.TextItem?) && Known(p[..|p| - 1], ref))
  }

  /** No id of one call is an id of another. */
  predicate NoClash(items: seq<Item>) {
    forall i, j :: i in items && j in items && i.CallItem? && j.CallItem? && i.itemId != j.itemId ==>
      i.callId != j.itemId && (i.callId == "" || i.callId != j.callId)
  }

  /** The event is one of a stream of these items. */
  predicate From(items: seq<Item>, e: Event) {
    match e
    case ItemAdded(i) => i in items && (i.CallItem? ==> i.itemId != "")
    case ItemDone(i) => i in items && (i.CallItem? ==> i.itemId != "")
    case ArgsDelta(ref, _) => HasCall(items, ref)
    case ArgsDone(ref, _, _) => HasCall(items, ref)
    case _ => true
  }

  predicate HasCall(items: seq<Item>, ref: string) {
    ref != "" && exists i :: i in items && i.CallItem? && i.itemId == ref
  }

  /** What an event says about its call. */
  function Said(e: Event): S.Call -> S.Call {
    match e
    case ArgsDelta(_, delta) => (c: S.Call) => c.(args := c.args + delta)
    case ArgsDone(_, args, name) =>
      (c: S.Call) => S.Call(c.key, c.callId, if name != "" then name else c.name,
                            if args.Some? then args.value else c.args, true)
    case ItemAdded(i) => Named(i)
    case ItemDone(i) => Named(i)
    case _ => (c: S.Call) => c
  }

  function Named(i: Item): S.Call -> S.Call {
    (c: S.Call) =>
      if i.CallItem? then
        S.Call(c.key, if i.callId != "" then i.callId else c.callId, if i.name != "" then i.name else c.name, c.args,
               c.complete)
      else c
  }

  /** The call under `key`, or a new one. */
  function Under(calls: seq<S.Call>, key: string): (c: S.Call)
    ensures c.key == key
  {
    var i := S.IndexOf(calls, key);
    if i < |calls| then calls[i] else S.Call(key, "", "", "", false)
  }

  function Put(calls: seq<S.Call>, key: string, c: S.Call): seq<S.Call> {
    var i := S.IndexOf(calls, key);
    if i < |calls| then calls[i := c] else calls + [c]
  }

  /** The call under `key`, or a new one behind all others, takes up what is said. */
  function Touch(calls: seq<S.Call>, key: string, f: S.Call -> S.Call): seq<S.Call> {
    Put(calls, key, f(Under(calls, key)))
  }

  function NamedContext(ctx: Context, e: Event): Context {
    match e
    case ItemAdded(i) => if i.CallItem? then WithNames(ctx, i) else ctx
    case ItemDone(i) => if i.CallItem? then WithNames(ctx, i) else ctx
    case _ => ctx
  }

  function WithNames(ctx: Context, i: Item): Context
    requires i.CallItem?
  {
    ctx.(activeType := CallType,
         keyOf := Remember(Remember(ctx.keyOf, i.itemId, i.itemId), i.callId, i.itemId))
  }

  /** What the call has become. */
  function Merged(
    c: S.Call, callId: string, name: string, delta: string, whole: Option<string>): S.Call
  {
    S.Call(c.key, if callId != "" then callId else c.callId, if name != "" then name else c.name,
           if whole.Some? then whole.value else c.args + delta, c.complete)
  }

  lemma {:induction false} UpsertPuts(
    calls: seq<S.Call>, key: string, callId: string, name: string, delta: string, whole: Option<string>)
    ensures S.Upsert(calls, key, callId, name, delta, whole)
         == Put(calls, key, Merged(Under(calls, key), callId, name, delta, whole))
  {
    var i := S.IndexOf(calls, key);
    var c := Merged(Under(calls, key), callId, name, delta, whole);
    if i < |calls| {
      PutAt(calls, i, c);
    } else {
      PutLast(calls, c);
    }
  }

  lemma {:induction false} PutAt(calls: seq<S.Call>, i: nat, c: S.Call)
    requires i < |calls|
    ensures calls[..i] + [c] + calls[i + 1..] == calls[i := c]
  {
  }

  lemma {:induction false} PutLast(calls: seq<S.Call>, c: S.Call)
    ensures calls[..|calls|] + [c] + [] == calls + [c]
  {
  }

  lemma {:induction false} NamedTouches(calls: seq<S.Call>, i: Item)
    requires i.CallItem?
    ensures S.Upsert(calls, i.itemId, i.callId, i.name, "", None) == Touch(calls, i.itemId, Named(i))
  {
    UpsertPuts(calls, i.itemId, i.callId, i.name, "", None);
    NothingMore(Under(calls, i.itemId).args);
  }

  lemma {:induction false} NothingMore(s: string)
    ensures s + "" == s
  {
  }

  lemma {:induction false} DeltaTouches(calls: seq<S.Call>, ref: string, delta: string)
    ensures S.Upsert(calls, ref, "", "", delta, None) == Touch(calls, ref, Said(ArgsDelta(ref, delta)))
  {
    UpsertPuts(calls, ref, "", "", delta, None);
  }

  lemma {:induction false} DoneTouches(calls: seq<S.Call>, ref: string, args: Option<string>, name: string)
    requires Present(calls, ref)
    ensures S.Finalize(S.Upsert(calls, ref, "", name, "", args), ref) == Touch(calls, ref, Said(ArgsDone(ref, args, name)))
  {
    var c := Under(calls, ref);
    UpsertPuts(calls, ref, "", name, "", args);
    NothingMore(c.args);
    FinalizePut(calls, Merged(c, "", name, "", args), ref);
  }

  lemma {:induction false} FinalizePut(calls: seq<S.Call>, d: S.Call, ref: string)
    requires Present(calls, ref) && d.key == ref
    ensures S.Finalize(Put(calls, ref, d), ref) == Put(calls, ref, d.(complete := true))
  {
    IndexStays(calls, S.IndexOf(calls, ref), d, ref);
  }

  lemma {:induction false} IndexStays(calls: seq<S.Call>, i: nat, d: S.Call, key: string)
    requires i < |calls| && d.key == calls[i].key
    ensures S.IndexOf(calls[i := d], key) == S.IndexOf(calls, key)
  {
    if calls != [] && calls[0].key != key && i > 0 {
      assert calls[i := d][1..] == calls[1..][i - 1 := d];
      IndexStays(calls[1..], i - 1, d, key);
    } else if calls[0].key != key {
      assert calls[i := d][1..] == calls[1..];
    }
  }

  lemma {:induction false} IndexInFront(calls: seq<S.Call>, d: S.Call, key: string)
    ensures S.IndexOf(calls, key) < |calls| ==> S.IndexOf(calls + [d], key) == S.IndexOf(calls, key)
    ensures S.IndexOf(calls, key) == |calls| && d.key != key ==> S.IndexOf(calls + [d], key) == |calls| + 1
    ensures S.IndexOf(calls, key) == |calls| && d.key == key ==> S.IndexOf(calls + [d], key) == |calls|
  {
    if calls == [] {
      assert (calls + [d])[1..] == [];
    } else if calls[0].key != key {
      assert (calls + [d])[1..] == calls[1..] + [d];
      IndexInFront(calls[1..], d, key);
    }
  }

  predicate Present(calls: seq<S.Call>, key: string) {
    S.IndexOf(calls, key) < |calls|
  }

  ghost predicate SameKey(f: S.Call -> S.Call) {
    forall c: S.Call :: f(c).key == c.key
  }

  lemma {:induction false} SaidSameKey(e: Event)
    ensures SameKey(Said(e))
  {
  }

  lemma {:induction false} PutKeeps(calls: seq<S.Call>, key: string, c: S.Call, other: string)
    requires c.key == key && Present(calls, other)
    ensures Present(Put(calls, key, c), other) && S.IndexOf(Put(calls, key, c), other) == S.IndexOf(calls, other)
    ensures key != other ==> Under(Put(calls, key, c), other) == Under(calls, other)
  {
    var i := S.IndexOf(calls, key);
    if i < |calls| {
      IndexStays(calls, i, c, other);
    } else {
      IndexInFront(calls, c, other);
    }
  }

  lemma {:induction false} TouchKeeps(calls: seq<S.Call>, key: string, f: S.Call -> S.Call, other: string)
    requires SameKey(f) && Present(calls, other)
    ensures Present(Touch(calls, key, f), other)
  {
    PutKeeps(calls, key, f(Under(calls, key)), other);
  }

  lemma {:induction false} PutElsewhere(calls: seq<S.Call>, k: string, c: S.Call, l: string)
    requires k != l && Present(calls, k) && c.key == k
    ensures Under(Put(calls, k, c), l) == Under(calls, l)
    ensures S.IndexOf(Put(calls, k, c), l) == S.IndexOf(calls, l)
  {
    IndexStays(calls, S.IndexOf(calls, k), c, l);
  }

  lemma {:induction false} PutsCommute(calls: seq<S.Call>, k: string, c: S.Call, l: string, d: S.Call)
    requires k != l && Present(calls, k) && c.key == k && d.key == l
    ensures Put(Put(calls, k, c), l, d) == Put(Put(calls, l, d), k, c)
  {
    var i, j := S.IndexOf(calls, k), S.IndexOf(calls, l);
    PutElsewhere(calls, k, c, l);
    PutKeeps(calls, l, d, k);
    if j < |calls| {
      assert calls[i].key == k && calls[j].key == l && i != j;
    }
  }

  /** What is said of one call does not matter to another. */
  lemma {:induction false} TouchesCommute(
    calls: seq<S.Call>, k: string, f: S.Call -> S.Call, l: string, g: S.Call -> S.Call)
    requires k != l && Present(calls, k) && SameKey(f) && SameKey(g)
    ensures Touch(Touch(calls, k, f), l, g) == Touch(Touch(calls, l, g), k, f)
  {
    var c, d := f(Under(calls, k)), g(Under(calls, l));
    PutElsewhere(calls, k, c, l);
    PutKeeps(calls, l, d, k);
    PutsCommute(calls, k, c, l, d);
  }

  // ---- One event at a time ----

  /** The call is in the table under the id of its item. */
  predicate Settled(s: Session, ref: string) {
    KeyFor(s.ctx, ref) == ref && Present(s.reply.calls, ref)
  }

  /** An event of a call that is settled, or adds it. */
  lemma {:induction false} CallStep(s: Session, e: Event, ref: string)
    requires RefOf(e) == Some(ref) && ref != "" && (OfArguments(e) ==> Settled(s, ref))
    ensures Step(s, e) == Going(Session(NamedContext(s.ctx, e), s.reply.(calls := Touch(s.reply.calls, ref, Said(e)))))
  {
    match e
    case ItemAdded(i) => NamedTouches(s.reply.calls, i);
    case ItemDone(i) => NamedTouches(s.reply.calls, i);
    case ArgsDelta(_, delta) => DeltaTouches(s.reply.calls, ref, delta);
    case ArgsDone(_, args, name) => DoneTouches(s.reply.calls, ref, args, name);
  }

  /** Neither about a call nor a new message, nor the end. */
  predicate Quiet(e: Event) {
    RefOf(e) == None && !(e.ItemAdded? && e.item.TextItem?) && !e.Completed? && !e.Failed?
  }

  /** Such an event does not look into the calls, if there are any. */
  lemma {:induction false} QuietStep(s: Session, e: Event, calls: seq<S.Call>)
    requires Quiet(e) && s.reply.calls != [] && calls != []
    ensures match Step(s, e)
            case Going(t) =>
              && t.reply.calls == s.reply.calls && t.ctx.keyOf == s.ctx.keyOf
              && Step(WithCalls(s, calls), e) == Going(WithCalls(t, calls))
            case Aborted => Step(WithCalls(s, calls), e) == Aborted
  {
  }

  function Two(s: Session, a: Event, e: Event): Outcome {
    match Step(s, a)
    case Going(t) => Step(t, e)
    case Aborted => Aborted
  }

  lemma {:induction false} ArgumentsPass(s: Session, a: Event, ref: string, e: Event)
    requires OfArguments(a) && RefOf(a) == Some(ref) && ref != "" && Settled(s, ref) && Quiet(e)
    ensures Two(s, a, e) == Two(s, e, a)
  {
    var calls := Touch(s.reply.calls, ref, Said(a));
    CallStep(s, a, ref);
    assert Step(s, a) == Going(WithCalls(s, calls));
    QuietStep(s, e, calls);
    match Step(s, e)
    case Going(t) =>
      CallStep(t, a, ref);
    case Aborted =>
  }

  /** The ids of the call that an event names. */
  function CallIdOf(e: Event): Option<string> {
    match e
    case ItemAdded(i) => if i.CallItem? then Some(i.callId) else None
    case ItemDone(i) => if i.CallItem? then Some(i.callId) else None
    case _ => None
  }

  predicate NamesApart(a: Event, e: Event) {
    && (CallIdOf(a).Some? ==> CallIdOf(a) != RefOf(e))
    && (CallIdOf(e).Some? ==> CallIdOf(e) != RefOf(a))
    && (CallIdOf(a).Some? && CallIdOf(a).value != "" ==> CallIdOf(a) != CallIdOf(e))
  }

  lemma {:induction false} NamesCommute(ctx: Context, a: Event, e: Event)
    requires RefOf(a).Some? && RefOf(e).Some? && RefOf(a) != RefOf(e) && NamesApart(a, e)
    ensures NamedContext(NamedContext(ctx, a), e) == NamedContext(NamedContext(ctx, e), a)
  {
    if CallIdOf(a).Some? && CallIdOf(e).Some? {
      RememberTwo(ctx.keyOf, RefOf(a).value, CallIdOf(a).value, RefOf(e).value, CallIdOf(e).value);
    }
  }

  lemma {:induction false} RememberTwo(keyOf: map<string, string>, i: string, k: string, j: string, l: string)
    requires i != j && k != j && l != i && (k == "" || k != l)
    ensures Remember(Remember(Remember(Remember(keyOf, i, i), k, i), j, j), l, j)
         == Remember(Remember(Remember(Remember(keyOf, j, j), l, j), i, i), k, i)
  {
    RememberSwap(Remember(keyOf, i, i), k, i, j, j);
    RememberSwap(keyOf, i, i, j, j);
    RememberSwap(Remember(Remember(keyOf, j, j), i, i), k, i, l, j);
    RememberSwap(Remember(keyOf, j, j), i, i, l, j);
  }

  lemma {:induction false} RememberSwap(keyOf: map<string, string>, a: string, x: string, b: string, y: string)
    requires a == "" || a != b
    ensures Remember(Remember(keyOf, a, x), b, y) == Remember(Remember(keyOf, b, y), a, x)
  {
  }

  lemma {:induction false} NamesLeave(ctx: Context, a: Event, ref: string)
    requires RefOf(a).Some? && KeyFor(ctx, ref) == ref && (CallIdOf(a) == Some(ref) ==> RefOf(a) == Some(ref))
    ensures KeyFor(NamedContext(ctx, a), ref) == ref
  {
  }

  lemma {:induction false} StaysSettled(s: Session, a: Event, k: string, ref: string)
    requires RefOf(a) == Some(k) && k != "" && (OfArguments(a) ==> Settled(s, k)) && Settled(s, ref)
    requires CallIdOf(a) == Some(ref) ==> k == ref
    ensures Step(s, a).Going? && Settled(Step(s, a).session, ref)
  {
    CallStep(s, a, k);
    NamesLeave(s.ctx, a, ref);
    SaidSameKey(a);
    TouchKeeps(s.reply.calls, k, Said(a), ref);
  }

  /** Events of two calls, the first of them settled. */
  lemma {:induction false} CallsPass(s: Session, a: Event, k: string, e: Event, l: string)
    requires RefOf(a) == Some(k) && RefOf(e) == Some(l) && k != "" && l != "" && k != l && NamesApart(a, e)
    requires Settled(s, k) && (OfArguments(e) ==> Settled(s, l))
    ensures Two(s, a, e) == Two(s, e, a)
  {
    CallStep(s, a, k);
    CallStep(s, e, l);
    if OfArguments(e) { StaysSettled(s, a, k, l); }
    StaysSettled(s, e, l, k);
    CallStep(Step(s, a).session, e, l);
    CallStep(Step(s, e).session, a, k);
    NamesCommute(s.ctx, a, e);
    SaidSameKey(a);
    SaidSameKey(e);
    TouchesCommute(s.reply.calls, k, Said(a), l, Said(e));
  }

  // ---- Which events may pass each other ----

  /** An event of a call, not its first, may be overtaken by one of another call; one about
      its arguments also by whatever is about no call and no message. */
  predicate Passes(a: Event, e: Event) {
    RefOf(a).Some? && !a.ItemAdded? && if RefOf(e).Some? then RefOf(e) != RefOf(a) else OfArguments(a) && Quiet(e)
  }

  /** `b` is `a` with one event delayed behind the next one, their calls having been added. */
  ghost predicate Delayed(a: seq<Event>, b: seq<Event>) {
    exists p: seq<Event>, x: Event, y: Event, q: seq<Event> :: Swapped(a, b, p, x, y, q)
  }

  predicate Swapped(a: seq<Event>, b: seq<Event>, p: seq<Event>, x: Event, y: Event, q: seq<Event>) {
    && a == p + [x, y] + q && b == p + [y, x] + q && Passes(x, y) && Known(p, RefOf(x).value)
    && (RefOf(y).Some? && !y.ItemAdded? ==> Known(p, RefOf(y).value))
  }

  /** `b` is reached from `a` by delaying events one at a time. */
  ghost predicate Interleaved(a: seq<Event>, b: seq<Event>, n: nat)
    decreases n
  {
    if n == 0 then a == b else exists c :: Delayed(a, c) && Interleaved(c, b, n - 1)
  }

  predicate AllFrom(items: seq<Item>, events: seq<Event>) {
    forall e :: e in events ==> From(items, e)
  }

  lemma {:induction false} RefIsCall(items: seq<Item>, e: Event)
    requires From(items, e) && RefOf(e).Some?
    ensures HasCall(items, RefOf(e).value)
  {
  }

  lemma {:induction false} IdsApart(items: seq<Item>, a: Event, ref: string)
    requires NoClash(items) && From(items, a) && HasCall(items, ref)
    requires RefOf(a).Some? && RefOf(a) != Some(ref)
    ensures CallIdOf(a) != Some(ref)
  {
    var i :| i in items && i.CallItem? && i.itemId == ref;
  }

  lemma {:induction false} ClashFree(items: seq<Item>, a: Event, e: Event)
    requires NoClash(items) && From(items, a) && From(items, e) && RefOf(a).Some? && RefOf(e).Some?
    requires RefOf(a) != RefOf(e)
    ensures NamesApart(a, e)
  {
    RefIsCall(items, a);
    RefIsCall(items, e);
    IdsApart(items, a, RefOf(e).value);
    IdsApart(items, e, RefOf(a).value);
  }

  // ---- A call that was added stays settled ----

  lemma {:induction false} ArgumentsKeep(s: Session, e: Event, ref: string)
    requires OfArguments(e) && Settled(s, ref)
    ensures Step(s, e).Going? && Settled(Step(s, e).session, ref)
  {
    var key := KeyFor(s.ctx, RefOf(e).value);
    match e
    case ArgsDelta(_, delta) =>
      DeltaTouches(s.reply.calls, key, delta);
      SaidSameKey(ArgsDelta(key, delta));
      TouchKeeps(s.reply.calls, key, Said(ArgsDelta(key, delta)), ref);
    case ArgsDone(_, args, name) =>
      UpsertKeeps(s.reply.calls, key, name, args, ref);
      FinalizeKeeps(S.Upsert(s.reply.calls, key, "", name, "", args), key, ref);
  }

  lemma {:induction false} UpsertKeeps(
    calls: seq<S.Call>, key: string, name: string, args: Option<string>, ref: string)
    requires Present(calls, ref)
    ensures Present(S.Upsert(calls, key, "", name, "", args), ref)
  {
    UpsertPuts(calls, key, "", name, "", args);
    PutKeeps(calls, key, Merged(Under(calls, key), "", name, "", args), ref);
  }

  lemma {:induction false} FinalizeKeeps(calls: seq<S.Call>, key: string, ref: string)
    requires Present(calls, ref)
    ensures Present(S.Finalize(calls, key), ref)
  {
    var i := S.IndexOf(calls, key);
    if i < |calls| { IndexStays(calls, i, calls[i].(complete := true), ref); }
  }

  lemma {:induction false} AddedSettles(s: Session, e: Event, ref: string)
    requires e.ItemAdded? && RefOf(e) == Some(ref) && ref != ""
    ensures Step(s, e).Going? && Settled(Step(s, e).session, ref)
  {
    CallStep(s, e, ref);
    TouchAdds(s.reply.calls, ref, Said(e));
  }

  lemma {:induction false} TouchAdds(calls: seq<S.Call>, ref: string, f: S.Call -> S.Call)
    requires SameKey(f)
    ensures Present(Touch(calls, ref, f), ref)
  {
    var i, c := S.IndexOf(calls, ref), f(Under(calls, ref));
    if i < |calls| {
      IndexStays(calls, i, c, ref);
    } else {
      IndexInFront(calls, c, ref);
    }
  }

  lemma {:induction false} EventKeeps(items: seq<Item>, s: Session, e: Event, t: Session, ref: string)
    requires NoClash(items) && From(items, e) && HasCall(items, ref) && Settled(s, ref)
    requires !(e.ItemAdded? && e.item.TextItem?) && Step(s, e) == Going(t)
    ensures Settled(t, ref)
  {
    if OfArguments(e) {
      ArgumentsKeep(s, e, ref);
    } else if RefOf(e).Some? {
      if RefOf(e) != Some(ref) { IdsApart(items, e, ref); }
      StaysSettled(s, e, RefOf(e).value, ref);
    } else if Quiet(e) {
      QuietStep(s, e, s.reply.calls);
    }
  }

  lemma {:induction false} KnownIsSettled(items: seq<Item>, p: seq<Event>, s: Session, ref: string)
    requires NoClash(items) && AllFrom(items, p) && HasCall(items, ref) && Known(p, ref)
    requires Run(NEW_SESSION, p) == Going(s)
    ensures Settled(s, ref)
  {
    var front, e := p[..|p| - 1], p[|p| - 1];
    assert p == front + [e] && e in p;
    RunConcat(NEW_SESSION, front, [e]);
    var t := Run(NEW_SESSION, front).session;
    RunOne(t, e);
    if e.ItemAdded? && RefOf(e) == Some(ref) {
      AddedSettles(t, e, ref);
    } else {
      assert forall x :: x in front ==> x in p;
      KnownIsSettled(items, front, t, ref);
      EventKeeps(items, t, e, s, ref);
    }
  }

  // ---- Delaying events changes nothing ----

  lemma {:induction false} PairPasses(items: seq<Item>, p: seq<Event>, s: Session, x: Event, y: Event)
    requires NoClash(items) && AllFrom(items, p) && From(items, x) && From(items, y)
    requires Run(NEW_SESSION, p) == Going(s) && Passes(x, y) && Known(p, RefOf(x).value)
    requires RefOf(y).Some? && !y.ItemAdded? ==> Known(p, RefOf(y).value)
    ensures Two(s, x, y) == Two(s, y, x)
  {
    var k := RefOf(x).value;
    RefIsCall(items, x);
    KnownIsSettled(items, p, s, k);
    if RefOf(y).Some? {
      var l := RefOf(y).value;
      RefIsCall(items, y);
      if !y.ItemAdded? { KnownIsSettled(items, p, s, l); }
      ClashFree(items, x, y);
      CallsPass(s, x, k, y, l);
    } else {
      ArgumentsPass(s, x, k, y);
    }
  }

  lemma {:induction false} RunTwo(s: Session, x: Event, y: Event)
    ensures Run(s, [x, y]) == Two(s, x, y)
  {
    assert [x, y] == [x] + [y];
    RunConcat(s, [x], [y]);
    RunOne(s, x);
    if Step(s, x).Going? { RunOne(Step(s, x).session, y); }
  }

  lemma {:induction false} SwapKeeps(
    items: seq<Item>, a: seq<Event>, b: seq<Event>, p: seq<Event>, x: Event, y: Event, q: seq<Event>)
    requires NoClash(items) && AllFrom(items, a) && Swapped(a, b, p, x, y, q)
    ensures Run(NEW_SESSION, a) == Run(NEW_SESSION, b) && AllFrom(items, b)
  {
    assert x in a && y in a && forall e :: e in p ==> e in a;
    assert forall e :: e in b ==> e in a;
    RunConcat(NEW_SESSION, p + [x, y], q);
    RunConcat(NEW_SESSION, p + [y, x], q);
    RunConcat(NEW_SESSION, p, [x, y]);
    RunConcat(NEW_SESSION, p, [y, x]);
    match Run(NEW_SESSION, p)
    case Going(s) =>
      PairPasses(items, p, s, x, y);
      RunTwo(s, x, y);
      RunTwo(s, y, x);
    case Aborted =>
  }

  lemma {:induction false} InterleavedKeeps(items: seq<Item>, a: seq<Event>, b: seq<Event>, n: nat)
    requires NoClash(items) && AllFrom(items, a) && Interleaved(a, b, n)
    ensures Run(NEW_SESSION, a) == Run(NEW_SESSION, b)
    decreases n
  {
    if n > 0 {
      var c :| Delayed(a, c) && Interleaved(c, b, n - 1);
      var p: seq<Event>, x: Event, y: Event, q: seq<Event> :| Swapped(a, c, p, x, y, q);
      SwapKeeps(items, a, c, p, x, y, q);
      InterleavedKeeps(items, c, b, n - 1);
    }
  }

  // ---- The stream of the items is one of their events ----

  lemma {:induction false} DeltasFrom(items: seq<Item>, ref: string, ds: seq<string>)
    requires HasCall(items, ref)
    ensures AllFrom(items, ArgsDeltas(ref, ds))
  {
    if ds != [] { DeltasFrom(items, ref, ds[1..]); }
  }

  lemma {:induction false} OtherDeltasFrom(items: seq<Item>, id: Option<string>, ds: seq<string>)
    ensures AllFrom(items, TextDeltas(ds)) && AllFrom(items, ReasoningDeltas(id, ds))
  {
    if ds != [] { OtherDeltasFrom(items, id, ds[1..]); }
  }

  lemma {:induction false} EventsFrom(items: seq<Item>, x: Streamed)
    requires x.item in items && (x.item.CallItem? ==> x.item.itemId != "")
    ensures AllFrom(items, EventsOf(x))
  {
    match x.item
    case TextItem(id, _) => OtherDeltasFrom(items, id, x.deltas);
    case ReasoningItem(id, _) => OtherDeltasFrom(items, id, x.deltas);
    case CallItem(itemId, _, _, _) => DeltasFrom(items, itemId, x.deltas);
  }

  predicate Fits(items: seq<Item>, x: Streamed) {
    x.item in items && IdOf(x.item) != ""
  }

  lemma {:induction false} AllEventsFrom(items: seq<Item>, xs: seq<Streamed>, n: nat)
    requires n <= |xs| && forall x :: x in xs ==> Fits(items, x)
    ensures AllFrom(items, EventsUpTo(xs, n))
  {
    if n > 0 {
      var x := xs[n - 1];
      assert Fits(items, x);
      EventsFrom(items, x);
      AllEventsFrom(items, xs, n - 1);
      BothFrom(items, EventsUpTo(xs, n - 1), EventsOf(x));
    }
  }

  lemma {:induction false} ItemsFit(items: seq<Item>, xs: seq<Streamed>)
    requires items == Items(xs) && Ordered(items)
    ensures forall x :: x in xs ==> Fits(items, x)
  {
    forall x | x in xs ensures Fits(items, x) {
      var i :| 0 <= i < |xs| && xs[i] == x;
      assert items[i] == x.item;
    }
  }

  lemma {:induction false} BothFrom(items: seq<Item>, a: seq<Event>, b: seq<Event>)
    requires AllFrom(items, a) && AllFrom(items, b)
    ensures AllFrom(items, a + b)
  {
    assert forall e :: e in a + b ==> e in a || e in b;
  }

  /** The streams of the items: over all cuts, and over all interleavings of their calls. */
  ghost predicate AgreeInEveryOrder(items: seq<Item>) {
    forall xs: seq<Streamed>, events: seq<Event>, n: nat ::
      Items(xs) == items && (forall x :: x in xs ==> x.Complete()) && Interleaved(StreamOf(xs), events, n) ==>
        Result(Run(NEW_SESSION, events)) == Done(Parsed(items))
  }

  lemma {:induction false} OrderDoesNotMatter(items: seq<Item>, xs: seq<Streamed>, events: seq<Event>, n: nat)
    requires Ordered(items) && NoClash(items) && Items(xs) == items && Interleaved(StreamOf(xs), events, n)
    ensures Run(NEW_SESSION, events) == Run(NEW_SESSION, StreamOf(xs))
  {
    ItemsFit(items, xs);
    AllEventsFrom(items, xs, |xs|);
    BothFrom(items, EventsUpTo(xs, |xs|), [Completed]);
    InterleavedKeeps(items, StreamOf(xs), events, n);
  }

  /** However the items are cut into deltas and the events of calls interleave, the stream
      and the parser agree just when the list loses no reasoning. */
  lemma {:induction false} AgreeInEveryOrderUnlessLost(items: seq<Item>)
    requires Ordered(items) && NoClash(items)
    ensures AgreeInEveryOrder(items) <==> !Loses(items)
  {
    AgreeUnlessLost(items);
    if !Loses(items) {
      forall xs: seq<Streamed>, events: seq<Event>, n: nat
        | Items(xs) == items && (forall x :: x in xs ==> x.Complete()) && Interleaved(StreamOf(xs), events, n)
        ensures Result(Run(NEW_SESSION, events)) == Done(Parsed(items))
      {
        OrderDoesNotMatter(items, xs, events, n);
      }
    } else if AgreeInEveryOrder(items) {
      forall xs: seq<Streamed> | Items(xs) == items && (forall x :: x in xs ==> x.Complete())
        ensures Result(Run(NEW_SESSION, StreamOf(xs))) == Done(Parsed(items))
      {
        assert Interleaved(StreamOf(xs), StreamOf(xs), 0);
      }
    }
  }

  // ---- What interleavings there are ----

  lemma {:induction false} KnownMore(p: seq<Event>, y: Event, ref: string)
    requires Known(p, ref) && !(y.ItemAdded? && y.item.TextItem?)
    ensures Known(p + [y], ref)
  {
    assert (p + [y])[..|p|] == p;
  }

  /** The event may be delayed behind each of these, in their order. */
  predicate PassesAll(p: seq<Event>, x: Event, block: seq<Event>)
    decreases |block|
  {
    block == [] ||
    (&& Passes(x, block[0]) && (RefOf(block[0]).Some? && !block[0].ItemAdded? ==> Known(p, RefOf(block[0]).value))
     && PassesAll(p + [block[0]], x, block[1..]))
  }

  /** An event of a call goes behind a whole block of events that do not concern it. */
  lemma {:induction false} DelayBehind(p: seq<Event>, x: Event, block: seq<Event>, q: seq<Event>)
    requires RefOf(x).Some? && Known(p, RefOf(x).value) && PassesAll(p, x, block)
    ensures Interleaved(p + [x] + block + q, p + block + [x] + q, |block|)
    decreases |block|
  {
    if block == [] {
      assert p + [x] + block + q == p + block + [x] + q;
    } else {
      var y, rest := block[0], block[1..];
      assert block == [y] + rest;
      var a, c := p + [x] + block + q, p + [y, x] + (rest + q);
      assert a == p + [x, y] + (rest + q);
      assert Swapped(a, c, p, x, y, rest + q);
      KnownMore(p, y, RefOf(x).value);
      DelayBehind(p + [y], x, rest, q);
      var b := p + block + [x] + q;
      assert c == (p + [y]) + [x] + rest + q && (p + [y]) + rest + [x] + q == b;
      assert Delayed(a, c) && Interleaved(c, b, |rest|);
    }
  }

  lemma {:induction false} InterleavedMore(a: seq<Event>, b: seq<Event>, c: seq<Event>, m: nat, n: nat)
    requires Interleaved(a, b, m) && Interleaved(b, c, n)
    ensures Interleaved(a, c, m + n)
    decreases m
  {
    if m > 0 {
      var d :| Delayed(a, d) && Interleaved(d, b, m - 1);
      InterleavedMore(d, b, c, m - 1, n);
    }
  }

  lemma {:induction false} KnownOnceAdded(p: seq<Event>, y: Event, ref: string)
    requires y.ItemAdded? && RefOf(y) == Some(ref)
    ensures Known(p + [y], ref)
  {
  }

  /** The four events of a call whose arguments come in one piece. */
  function CallEvents(i: Item): seq<Event>
    requires i.CallItem?
  {
    [ItemAdded(i), ArgsDelta(i.itemId, i.args), ArgsDone(i.itemId, Some(i.args), i.name), ItemDone(i)]
  }

  /** Two calls in turn: both are added, then each goes on event by event. */
  function InTurn(c: seq<Event>, d: seq<Event>): seq<Event>
    requires |c| == |d|
  {
    if c == [] then [] else [c[0], d[0]] + InTurn(c[1..], d[1..])
  }

  lemma {:induction false} PassesTwo(p: seq<Event>, x: Event, y: Event, z: Event, d: string)
    requires y.ItemAdded? && RefOf(y) == Some(d) && RefOf(z) == Some(d) && Passes(x, y) && Passes(x, z)
    ensures PassesAll(p, x, [y]) && PassesAll(p, x, [y, z])
  {
    KnownOnceAdded(p, y, d);
    assert [y, z][1..] == [z] && [z][1..] == [];
    assert PassesAll(p + [y], x, [z]);
  }

  lemma {:induction false} PassesThree(p: seq<Event>, x: Event, y: Event, z: Event, w: Event, d: string)
    requires y.ItemAdded? && RefOf(y) == Some(d) && RefOf(z) == Some(d) && RefOf(w) == Some(d)
    requires Passes(x, y) && Passes(x, z) && Passes(x, w)
    ensures PassesAll(p, x, [y, z, w])
  {
    KnownOnceAdded(p, y, d);
    KnownMore(p + [y], z, d);
    assert [y, z, w][1..] == [z, w] && [z, w][1..] == [w] && [w][1..] == [];
    assert PassesAll(p + [y] + [z], x, [w]);
    assert PassesAll(p + [y], x, [z, w]);
  }

  /** For one: the events of two calls may alternate all the way. */
  lemma {:induction false} CallsMayAlternate(p: seq<Event>, c: Item, d: Item, q: seq<Event>)
    requires c.CallItem? && d.CallItem? && c.itemId != d.itemId
    ensures Interleaved(p + CallEvents(c) + CallEvents(d) + q, p + InTurn(CallEvents(c), CallEvents(d)) + q, 6)
  {
    var x, y := CallEvents(c), CallEvents(d);
    var p1 := p + [x[0]];
    KnownOnceAdded(p, x[0], c.itemId);
    KnownMore(p1, x[1], c.itemId);
    KnownMore(p1 + [x[1]], x[2], c.itemId);
    PassesThree(p1 + [x[1]] + [x[2]], x[3], y[0], y[1], y[2], d.itemId);
    PassesTwo(p1 + [x[1]], x[2], y[0], y[1], d.itemId);
    PassesTwo(p1, x[1], y[0], y[1], d.itemId);
    DelayBehind(p1 + [x[1]] + [x[2]], x[3], [y[0], y[1], y[2]], [y[3]] + q);
    DelayBehind(p1 + [x[1]], x[2], [y[0], y[1]], [y[2], x[3], y[3]] + q);
    DelayBehind(p1, x[1], [y[0]], [y[1], x[2], y[2], x[3], y[3]] + q);
    Alternation(p, x, y, q);
  }

  lemma {:induction false} Alternation(p: seq<Event>, x: seq<Event>, y: seq<Event>, q: seq<Event>)
    requires |x| == 4 && |y| == 4
    requires var p1 := p + [x[0]];
             && Interleaved(p1 + [x[1]] + [x[2]] + [x[3]] + [y[0], y[1], y[2]] + ([y[3]] + q),
                            p1 + [x[1]] + [x[2]] + [y[0], y[1], y[2]] + [x[3]] + ([y[3]] + q), 3)
             && Interleaved(p1 + [x[1]] + [x[2]] + [y[0], y[1]] + ([y[2], x[3], y[3]] + q),
                            p1 + [x[1]] + [y[0], y[1]] + [x[2]] + ([y[2], x[3], y[3]] + q), 2)
             && Interleaved(p1 + [x[1]] + [y[0]] + ([y[1], x[2], y[2], x[3], y[3]] + q),
                            p1 + [y[0]] + [x[1]] + ([y[1], x[2], y[2], x[3], y[3]] + q), 1)
    ensures Interleaved(p + x + y + q, p + InTurn(x, y) + q, 6)
  {
    var p1 := p + [x[0]];
    StartOfTurns(p, x, y, q);
    AfterThree(p1, x, y, q);
    AfterTwo(p1, x, y, q);
    EndOfTurns(p, x, y, q);
    var b := p1 + [x[1]] + [x[2]] + [y[0], y[1], y[2]] + [x[3]] + ([y[3]] + q);
    var c := p1 + [x[1]] + [y[0], y[1]] + [x[2]] + ([y[2], x[3], y[3]] + q);
    InterleavedMore(p + x + y + q, b, c, 3, 2);
    InterleavedMore(p + x + y + q, c, p + InTurn(x, y) + q, 5, 1);
  }

  lemma {:induction false} StartOfTurns(p: seq<Event>, x: seq<Event>, y: seq<Event>, q: seq<Event>)
    requires |x| == 4 && |y| == 4
    ensures p + [x[0]] + [x[1]] + [x[2]] + [x[3]] + [y[0], y[1], y[2]] + ([y[3]] + q) == p + x + y + q
  {
    assert x == [x[0]] + [x[1]] + [x[2]] + [x[3]] && y == [y[0], y[1], y[2]] + [y[3]];
  }

  lemma {:induction false} AfterThree(p1: seq<Event>, x: seq<Event>, y: seq<Event>, q: seq<Event>)
    requires |x| == 4 && |y| == 4
    ensures p1 + [x[1]] + [x[2]] + [y[0], y[1], y[2]] + [x[3]] + ([y[3]] + q)
         == p1 + [x[1]] + [x[2]] + [y[0], y[1]] + ([y[2], x[3], y[3]] + q)
  {
    assert [y[0], y[1], y[2]] + [x[3]] + ([y[3]] + q) == [y[0], y[1]] + ([y[2], x[3], y[3]] + q);
  }

  lemma {:induction false} AfterTwo(p1: seq<Event>, x: seq<Event>, y: seq<Event>, q: seq<Event>)
    requires |x| == 4 && |y| == 4
    ensures p1 + [x[1]] + [y[0], y[1]] + [x[2]] + ([y[2], x[3], y[3]] + q)
         == p1 + [x[1]] + [y[0]] + ([y[1], x[2], y[2], x[3], y[3]] + q)
  {
    assert [y[0], y[1]] + [x[2]] + ([y[2], x[3], y[3]] + q) == [y[0]] + ([y[1], x[2], y[2], x[3], y[3]] + q);
  }

  lemma {:induction false} EndOfTurns(p: seq<Event>, x: seq<Event>, y: seq<Event>, q: seq<Event>)
    requires |x| == 4 && |y| == 4
    ensures p + [x[0]] + [y[0]] + [x[1]] + ([y[1], x[2], y[2], x[3], y[3]] + q) == p + InTurn(x, y) + q
  {
    FourInTurn(x, y);
    assert InTurn(x, y) == [x[0]] + [y[0]] + [x[1]] + [y[1], x[2], y[2], x[3], y[3]];
  }

  lemma {:induction false} FourInTurn(x: seq<Event>, y: seq<Event>)
    requires |x| == 4 && |y| == 4
    ensures InTurn(x, y) == [x[0], y[0], x[1], y[1], x[2], y[2], x[3], y[3]]
  {
    var x1, y1 := x[1..], y[1..];
    var x2, y2 := x1[1..], y1[1..];
    var x3, y3 := x2[1..], y2[1..];
    assert InTurn(x3, y3) == [x3[0], y3[0]] + InTurn(x3[1..], y3[1..]) == [x[3], y[3]];
    assert InTurn(x2, y2) == [x[2], y[2], x[3], y[3]];
    assert InTurn(x1, y1) == [x[1], y[1], x[2], y[2], x[3], y[3]];
  }
}
