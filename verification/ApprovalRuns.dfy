/** Any interleaving of approval requests with decisions, timeouts, cancellations and
    restarts. Every request has a key of its own, and writing the store does not fail. */
module ApprovalRuns {
  import opened Text
  import opened ApprovalStore
  import opened Approval

  /** How a request ended: with the decision it waited for, with the policy for a card that
      could not be sent, or by an exception. */
  datatype Ending = Returned(decision: Decision) | Fell(decision: Decision) | Raised

  /** `Leaked` is a request that was cancelled while its card was being sent: it ended
      without clearing its entries. */
  datatype Phase = Sending | Waiting | Cancelling | Leaked | Ended(ending: Ending)

  /** `planned` are the keys of requests that came with a plan, `taken` those whose plan was
      asked for. */
  datatype World = World(
    t: Tables, requests: map<string, Phase>, timers: set<string>, used: set<string>,
    planned: set<string>, taken: set<string>)

  datatype Event =
    | Request(key: string, info: Info, plan: Option<int>, stored: Option<Record>)
    | CardAccepted(key: string)
    | CardRejected(key: string, fallback: Decision)
    | Resolve(typed: string, found: Option<string>, decision: Decision)
    | Timeout(key: string, fallback: Decision)
    | Wake(key: string)
    | Cancel(key: string)
    | CancelWait(key: string)
    | TakePlan(key: string)
    | Restart(loaded: Records, now: int)

  predicate In(w: World, key: string, p: Phase) {
    key in w.requests && w.requests[key] == p
  }

  /** What the code looks up: the record for a request, the key that was meant, and the
      records in the file. */
  ghost predicate LookedUp(w: World, e: Event) {
    match e
    case Request(key, info, plan, stored) => stored == RecordFor(key, info, plan)
    case Resolve(typed, found, _) => found == KeyFor(w.t.pending + w.t.recovered, typed)
    case Restart(loaded, _) => exists items :: Holds(items, w.t.records) && loaded == Loaded(items)
    case _ => true
  }

  predicate Possible(w: World, e: Event) {
    match e
    case Request(key, _, _, _) => key !in w.used
    case CardAccepted(key) => In(w, key, Sending)
    case CardRejected(key, _) => In(w, key, Sending)
    case Timeout(key, _) => key in w.timers
    case Wake(key) => In(w, key, Waiting) && key in w.t.futures && w.t.futures[key].Decided?
    case Cancel(key) => In(w, key, Sending) || In(w, key, Waiting)
    case CancelWait(key) => In(w, key, Cancelling)
    case _ => true
  }

  ghost predicate Enabled(w: World, e: Event) {
    Possible(w, e) && LookedUp(w, e)
  }

  function Next(w: World, e: Event): World
    requires Possible(w, e)
  {
    match e
    case Request(key, info, plan, stored) =>
      var u := w.(t := Requested(w.t, key, info, plan, stored), used := w.used + {key});
      if Accepts(w.t, key, stored) then
        u.(requests := w.requests[key := Sending], planned := if plan.Some? then w.planned + {key} else w.planned)
      else u
    case CardAccepted(key) => w.(requests := w.requests[key := Waiting], timers := w.timers + {key})
    case CardRejected(key, d) => w.(t := Unsent(w.t, key), requests := w.requests[key := Ended(Fell(d))])
    case Resolve(typed, found, d) => w.(t := Resolved(w.t, typed, found, d))
    case Timeout(key, d) => w.(t := TimedOut(w.t, key, d), timers := w.timers - {key})
    case Wake(key) =>
      var d := w.t.futures[key].decision;
      w.(t := Woken(w.t, key, d), timers := w.timers - {key}, requests := w.requests[key := Ended(Returned(d))])
    case Cancel(key) =>
      if w.requests[key] == Sending then w.(requests := w.requests[key := Leaked])
      else
        var dead := key in w.t.futures && w.t.futures[key] == Open;
        w.(t := if dead then w.t.(futures := w.t.futures[key := Dead]) else w.t,
           requests := w.requests[key := Cancelling])
    case CancelWait(key) =>
      w.(t := Approval.Cancelled(w.t, key), timers := w.timers - {key}, requests := w.requests[key := Ended(Raised)])
    case TakePlan(key) =>
      w.(t := Approval.Taken(w.t, key), taken := if key in w.t.plans then w.taken + {key} else w.taken)
    case Restart(loaded, now) => World(StartedFrom(loaded, now), map[], {}, w.used, {}, {})
  }

  // ---- What every step keeps ----

  /** Live and recovered keys are apart, and together are those with an info and those in
      the durable store. */
  ghost predicate Partitioned(t: Tables) {
    && t.pending !! t.recovered
    && t.pending + t.recovered == t.info.Keys
    && t.records.Keys == t.info.Keys
  }

  /** A live key waits for a decision; nobody who has been decided about is still live. */
  ghost predicate Undecided(w: World, key: string) {
    key in w.t.pending && key in w.t.futures && w.t.futures[key] == Open
  }

  ghost predicate Settled(w: World, key: string) {
    key !in w.t.pending && key in w.t.futures && w.t.futures[key].Decided?
  }

  ghost predicate RequestOk(w: World, key: string, p: Phase) {
    && key in w.used && key !in w.t.recovered
    && match p
       case Sending => Undecided(w, key) || Settled(w, key)
       case Waiting => (Undecided(w, key) && key in w.timers) || Settled(w, key)
       case Cancelling => Settled(w, key) || (key in w.t.futures && w.t.futures[key] == Dead)
       case Leaked => Undecided(w, key) || Settled(w, key)
       case Ended(Returned(d)) => Settled(w, key) && w.t.futures[key] == Decided(d)
       case Ended(_) => key !in w.t.pending
  }

  /** A plan is there if its request may still need it: it is under way, or it was allowed
      and nobody has taken the plan. */
  ghost predicate PlanWanted(w: World, key: string) {
    && key in w.requests && key in w.planned && key !in w.taken
    && match w.requests[key]
       case Ended(Returned(d)) => Allows(d)
       case Ended(_) => false
       case _ => true
  }

  ghost predicate KeysOk(w: World) {
    && w.t.pending <= w.requests.Keys <= w.used
    && w.timers <= w.requests.Keys && w.planned <= w.used && w.taken <= w.used
  }

  ghost predicate Inv(w: World) {
    && Partitioned(w.t) && Written(w.t.records) && KeysOk(w)
    && (forall k :: k in w.requests ==> RequestOk(w, k, w.requests[k]))
    && (forall k :: k in w.t.plans <==> PlanWanted(w, k))
  }

  /** What a lookup can find. */
  ghost predicate Found(w: World, e: Event) {
    match e
    case Resolve(typed, found, _) =>
      if found.Some? then found.value in w.t.pending + w.t.recovered else typed !in w.t.pending + w.t.recovered
    case Restart(loaded, _) => Written(loaded)
    case _ => true
  }

  lemma {:induction false} LookupFinds(w: World, e: Event)
    requires Written(w.t.records) && LookedUp(w, e)
    ensures Found(w, e)
  {
    if e.Restart? {
      var items :| Holds(items, w.t.records) && e.loaded == Loaded(items);
      ReadsBack(items, w.t.records);
    }
  }

  /** An event about a request that is not recovered. */
  predicate ActsLive(w: World, e: Event) {
    match e
    case CardRejected(key, _) => key !in w.t.recovered
    case Wake(key) => key !in w.t.recovered
    case CancelWait(key) => key !in w.t.recovered
    case _ => true
  }

  ghost predicate Placed(t: Tables, k: string) {
    && !(k in t.pending && k in t.recovered)
    && (k in t.pending || k in t.recovered <==> k in t.info)
    && (k in t.records <==> k in t.info)
  }

  lemma {:induction false} KeepsPlace(w: World, e: Event, k: string)
    requires Placed(w.t, k) && KeysOk(w) && Possible(w, e) && Found(w, e) && ActsLive(w, e)
    ensures Placed(Next(w, e).t, k)
  {
  }

  lemma {:induction false} KeepsPartition(w: World, e: Event)
    requires Partitioned(w.t) && KeysOk(w) && Possible(w, e) && Found(w, e) && ActsLive(w, e)
    ensures Partitioned(Next(w, e).t)
  {
    forall k ensures Placed(Next(w, e).t, k) {
      EachPlaced(w.t, k);
      KeepsPlace(w, e, k);
    }
    AllPlaced(Next(w, e).t);
  }

  lemma {:induction false} EachPlaced(t: Tables, k: string)
    requires Partitioned(t)
    ensures Placed(t, k)
  {
    assert k in t.pending + t.recovered <==> k in t.info.Keys;
    assert k in t.records.Keys <==> k in t.info.Keys;
  }

  lemma {:induction false} AllPlaced(t: Tables)
    requires forall k :: Placed(t, k)
    ensures Partitioned(t)
  {
    forall k ensures !(k in t.pending && k in t.recovered) && (k in t.pending + t.recovered <==> k in t.info.Keys)
                     && (k in t.records.Keys <==> k in t.info.Keys)
    {
      assert Placed(t, k);
    }
  }

  /** A record comes from a request or from the file; otherwise records only go. */
  lemma {:induction false} RecordsMove(w: World, e: Event, k: string)
    requires Possible(w, e) && k in Next(w, e).t.records
    ensures
      || (k in w.t.records && Next(w, e).t.records[k] == w.t.records[k])
      || (e.Request? && k == e.key && e.stored == Some(Next(w, e).t.records[k]))
      || (e.Restart? && k in e.loaded && Next(w, e).t.records[k] == e.loaded[k])
  {
  }

  lemma {:induction false} KeepsWritten(w: World, e: Event)
    requires Written(w.t.records) && Possible(w, e) && LookedUp(w, e) && (e.Restart? ==> Written(e.loaded))
    ensures Written(Next(w, e).t.records)
  {
    var records := Next(w, e).t.records;
    forall k | k in records ensures Storable(k, records[k].info) && records[k].name == Strip(k) {
      RecordsMove(w, e, k);
    }
  }

  lemma {:induction false} KeepsKeys(w: World, e: Event)
    requires Partitioned(w.t) && KeysOk(w) && Possible(w, e)
    requires forall k :: k in w.t.plans <==> PlanWanted(w, k)
    ensures KeysOk(Next(w, e))
  {
  }

  lemma {:induction false} ResolveKeepsRequest(w: World, e: Event, k: string)
    requires Placed(w.t, k) && e.Resolve? && Found(w, e)
    requires k in w.requests && RequestOk(w, k, w.requests[k])
    ensures RequestOk(Next(w, e), k, w.requests[k])
  {
  }

  lemma {:induction false} TimeoutKeepsRequest(w: World, e: Event, k: string)
    requires e.Timeout? && Possible(w, e)
    requires k in w.requests && RequestOk(w, k, w.requests[k])
    ensures RequestOk(Next(w, e), k, w.requests[k])
  {
  }

  lemma {:induction false} OwnKeepsRequest(w: World, e: Event, k: string)
    requires Placed(w.t, k) && KeysOk(w) && Possible(w, e) && k in Next(w, e).requests
    requires e.Request? || e.CardAccepted? || e.CardRejected? || e.Wake? || e.Cancel? || e.CancelWait?
    requires e.key == k
    requires k in w.requests ==> RequestOk(w, k, w.requests[k])
    ensures RequestOk(Next(w, e), k, Next(w, e).requests[k])
  {
  }

  lemma {:induction false} OtherKeepsRequest(w: World, e: Event, k: string)
    requires Possible(w, e) && k in Next(w, e).requests
    requires e.TakePlan? || e.Restart? ||
             ((e.Request? || e.CardAccepted? || e.CardRejected? || e.Wake? || e.Cancel? || e.CancelWait?) && e.key != k)
    requires k in w.requests ==> RequestOk(w, k, w.requests[k])
    ensures RequestOk(Next(w, e), k, Next(w, e).requests[k])
  {
  }

  lemma {:induction false} KeepsRequest(w: World, e: Event, k: string)
    requires Partitioned(w.t) && KeysOk(w) && Possible(w, e) && Found(w, e) && k in Next(w, e).requests
    requires k in w.requests ==> RequestOk(w, k, w.requests[k])
    ensures RequestOk(Next(w, e), k, Next(w, e).requests[k])
  {
    EachPlaced(w.t, k);
    if e.Resolve? {
      ResolveKeepsRequest(w, e, k);
    } else if e.Timeout? {
      TimeoutKeepsRequest(w, e, k);
    } else if !e.TakePlan? && !e.Restart? && e.key == k {
      OwnKeepsRequest(w, e, k);
    } else {
      OtherKeepsRequest(w, e, k);
    }
  }

  lemma {:induction false} KeepsPlan(w: World, e: Event, k: string)
    requires KeysOk(w) && Possible(w, e) && (k in w.t.plans <==> PlanWanted(w, k))
    ensures k in Next(w, e).t.plans <==> PlanWanted(Next(w, e), k)
  {
  }

  lemma {:induction false} KeepsInvariant(w: World, e: Event)
    requires Inv(w) && Enabled(w, e)
    ensures Inv(Next(w, e))
  {
    LookupFinds(w, e);
    assert (e.CardRejected? || e.Wake? || e.CancelWait?) ==> RequestOk(w, e.key, w.requests[e.key]);
    KeepsPartition(w, e);
    KeepsWritten(w, e);
    KeepsKeys(w, e);
    forall k | k in Next(w, e).requests ensures RequestOk(Next(w, e), k, Next(w, e).requests[k]) {
      if k in w.requests { assert RequestOk(w, k, w.requests[k]); }
      KeepsRequest(w, e, k);
    }
    forall k ensures k in Next(w, e).t.plans <==> PlanWanted(Next(w, e), k) {
      assert k in w.t.plans <==> PlanWanted(w, k);
      KeepsPlan(w, e, k);
    }
  }

  // ---- Whole runs ----

  const EMPTY := World(Tables({}, map[], map[], map[], {}, map[]), map[], {}, {}, {}, {})

  ghost predicate Run(worlds: seq<World>, events: seq<Event>) {
    && |worlds| == |events| + 1 && worlds[0] == EMPTY
    && forall i :: 0 <= i < |events| ==> Enabled(worlds[i], events[i]) && worlds[i + 1] == Next(worlds[i], events[i])
  }

  lemma {:induction false} RunKeepsInvariant(worlds: seq<World>, events: seq<Event>, i: nat)
    requires Run(worlds, events) && i <= |events|
    ensures Inv(worlds[i])
  {
    if i > 0 {
      RunKeepsInvariant(worlds, events, i - 1);
      KeepsInvariant(worlds[i - 1], events[i - 1]);
    }
  }

  /** At every moment live and recovered keys are apart, and together are exactly the keys
      with an info and the keys in the durable store. */
  lemma {:induction false} KeysArePartitioned(worlds: seq<World>, events: seq<Event>, i: nat)
    requires Run(worlds, events) && i <= |events|
    ensures Partitioned(worlds[i].t)
  {
    RunKeepsInvariant(worlds, events, i);
  }

  predicate Made(w: World, k: string, d: Decision) {
    k in w.used && k in w.t.futures && w.t.futures[k] == Decided(d)
  }

  lemma {:induction false} DecisionStays(w: World, e: Event, k: string, d: Decision)
    requires Possible(w, e) && !e.Restart? && Made(w, k, d)
    ensures Made(Next(w, e), k, d)
  {
  }

  lemma {:induction false} Persists(worlds: seq<World>, p: World -> bool, i: nat, j: nat)
    requires i <= j < |worlds| && p(worlds[i])
    requires forall m, n :: i <= m && n == m + 1 && n <= j && p(worlds[m]) ==> p(worlds[n])
    ensures p(worlds[j])
    decreases j
  {
    if i < j {
      Persists(worlds, p, i, j - 1);
      assert p(worlds[j - 1]);
    }
  }

  /** A decision never changes while the process lives. */
  lemma {:induction false} DecisionIsFinal(
      worlds: seq<World>, events: seq<Event>, i: nat, j: nat, k: string, d: Decision)
    requires Run(worlds, events) && i <= j <= |events|
    requires forall m :: i <= m < j ==> !events[m].Restart?
    requires Made(worlds[i], k, d)
    ensures Made(worlds[j], k, d)
  {
    var p := (w: World) => Made(w, k, d);
    forall m, n | i <= m && n == m + 1 && n <= j && p(worlds[m]) ensures p(worlds[n]) {
      DecisionStays(worlds[m], events[m], k, d);
    }
    Persists(worlds, p, i, j);
  }

  /** A request returns the decision that was made for it, whenever that was. */
  lemma {:induction false} ReturnsItsDecision(
      worlds: seq<World>, events: seq<Event>, i: nat, j: nat, k: string, d: Decision, r: Decision)
    requires Run(worlds, events) && i <= j <= |events|
    requires forall m :: i <= m < j ==> !events[m].Restart?
    requires k in worlds[i].requests && k in worlds[i].t.futures && worlds[i].t.futures[k] == Decided(d)
    requires In(worlds[j], k, Ended(Returned(r)))
    ensures r == d
  {
    RunKeepsInvariant(worlds, events, i);
    RunKeepsInvariant(worlds, events, j);
    DecisionIsFinal(worlds, events, i, j, k, d);
    assert RequestOk(worlds[j], k, worlds[j].requests[k]);
  }

  // ---- Who decides ----

  /** A decision about `k`: an administrator's answer that meant it, or its timeout. */
  predicate Decides(e: Event, k: string, d: Decision) {
    (e.Resolve? && e.found == Some(k) && e.decision == d) || e == Timeout(k, d)
  }

  predicate About(e: Event, k: string) {
    (e.Resolve? && e.found == Some(k)) || (e.Timeout? && e.key == k)
  }

  /** The request will not return a decision any more. */
  predicate Lost(w: World, k: string) {
    k in w.requests && match w.requests[k]
                       case Cancelling => true
                       case Leaked => true
                       case Ended(ending) => !ending.Returned?
                       case _ => false
  }

  ghost predicate Awaits(w: World, k: string) {
    Undecided(w, k) && k !in w.t.recovered && (In(w, k, Sending) || In(w, k, Waiting))
  }

  lemma {:induction false} LostStays(w: World, e: Event, k: string)
    requires Possible(w, e) && !e.Restart? && Lost(w, k) && k in w.used
    ensures Lost(Next(w, e), k)
  {
  }

  lemma {:induction false} AwaitsOn(w: World, e: Event, k: string)
    requires Possible(w, e) && !e.Restart? && k in w.used && Awaits(w, k) && !About(e, k)
    requires e.Resolve? && e.found.None? ==> e.typed != k
    ensures Awaits(Next(w, e), k) || Lost(Next(w, e), k)
  {
  }

  lemma {:induction false} OneMoreAwaits(w: World, e: Event, k: string)
    requires Inv(w) && Enabled(w, e) && !e.Restart? && Awaits(w, k) && !About(e, k)
    ensures Awaits(Next(w, e), k) || Lost(Next(w, e), k)
  {
    LookupFinds(w, e);
    assert RequestOk(w, k, w.requests[k]);
    AwaitsOn(w, e, k);
  }

  lemma {:induction false} NewRequest(w: World, e: Event, k: string)
    requires Possible(w, e) && k in Next(w, e).requests && (k !in w.requests || e.Restart?)
    ensures e.Request? && e.key == k && In(Next(w, e), k, Sending)
  {
  }

  /** A decision about a live request that is undecided decides it. */
  lemma {:induction false} FirstDecides(w: World, e: Event, k: string, d: Decision)
    requires Inv(w) && Enabled(w, e) && Awaits(w, k) && Decides(e, k, d)
    ensures Made(Next(w, e), k, d)
  {
    assert RequestOk(w, k, w.requests[k]);
  }

  /** The latest moment at which `p` came to hold. */
  lemma {:induction false} Began(worlds: seq<World>, p: World -> bool, j: nat) returns (i: nat)
    requires j < |worlds| && !p(worlds[0]) && p(worlds[j])
    ensures i < j && !p(worlds[i]) && forall m :: i < m <= j ==> p(worlds[m])
  {
    if p(worlds[j - 1]) {
      i := Began(worlds, p, j - 1);
    } else {
      i := j - 1;
    }
  }

  lemma {:induction false} JustRequested(w: World, e: Event, k: string)
    requires Inv(w) && Enabled(w, e) && e.Request? && e.key == k && In(Next(w, e), k, Sending)
    ensures Awaits(Next(w, e), k)
  {
    KeepsInvariant(w, e);
    assert RequestOk(Next(w, e), k, Sending);
  }

  lemma {:induction false} RequestBegan(worlds: seq<World>, events: seq<Event>, j: nat, k: string) returns (i: nat)
    requires Run(worlds, events) && j <= |events| && k in worlds[j].requests
    ensures i < j && events[i].Request? && events[i].key == k && Awaits(worlds[i + 1], k)
    ensures forall m :: i < m < j ==> !events[m].Restart?
  {
    var p := (w: World) => k in w.requests;
    i := Began(worlds, p, j);
    assert p(worlds[i + 1]) && !p(worlds[i]);
    RunKeepsInvariant(worlds, events, i);
    RunStep(worlds, events, i);
    NewRequest(worlds[i], events[i], k);
    JustRequested(worlds[i], events[i], k);
    forall m | i < m < j ensures !events[m].Restart? {
      assert p(worlds[m + 1]);
      RunStep(worlds, events, m);
      if events[m].Restart? { NoRequestsLeft(worlds[m], events[m]); }
    }
  }

  lemma {:induction false} RunStep(worlds: seq<World>, events: seq<Event>, i: nat)
    requires Run(worlds, events) && i < |events|
    ensures Enabled(worlds[i], events[i]) && worlds[i + 1] == Next(worlds[i], events[i])
  {
  }

  lemma {:induction false} NoRequestsLeft(w: World, e: Event)
    requires Possible(w, e) && e.Restart?
    ensures Next(w, e).requests == map[]
  {
  }

  ghost predicate AwaitsOrLost(w: World, k: string) {
    Awaits(w, k) || (Lost(w, k) && k in w.used)
  }

  lemma {:induction false} StepAwaits(w: World, e: Event, k: string)
    requires Inv(w) && Enabled(w, e) && !e.Restart? && AwaitsOrLost(w, k) && !About(e, k)
    ensures AwaitsOrLost(Next(w, e), k)
  {
    if Awaits(w, k) {
      assert RequestOk(w, k, w.requests[k]);
      OneMoreAwaits(w, e, k);
    } else {
      LostStays(w, e, k);
    }
  }

  /** Up to the first decision about it a request awaits one, unless it is lost. */
  lemma {:induction false} NobodyDecided(worlds: seq<World>, events: seq<Event>, i: nat, j: nat, k: string)
    requires Run(worlds, events) && i <= j <= |events| && Awaits(worlds[i], k)
    requires forall m :: i <= m < j ==> !events[m].Restart? && !About(events[m], k)
    ensures AwaitsOrLost(worlds[j], k)
  {
    var p := (w: World) => AwaitsOrLost(w, k);
    forall m, n | i <= m && n == m + 1 && n <= j && p(worlds[m]) ensures p(worlds[n]) {
      RunKeepsInvariant(worlds, events, m);
      StepAwaits(worlds[m], events[m], k);
    }
    Persists(worlds, p, i, j);
  }

  lemma {:induction false} LostForGood(worlds: seq<World>, events: seq<Event>, i: nat, j: nat, k: string)
    requires Run(worlds, events) && i <= j <= |events| && Lost(worlds[i], k)
    requires forall m :: i <= m < j ==> !events[m].Restart?
    ensures Lost(worlds[j], k)
  {
    var p := (w: World) => Lost(w, k);
    forall m, n | i <= m && n == m + 1 && n <= j && p(worlds[m]) ensures p(worlds[n]) {
      RunKeepsInvariant(worlds, events, m);
      assert RequestOk(worlds[m], k, worlds[m].requests[k]);
      LostStays(worlds[m], events[m], k);
    }
    Persists(worlds, p, i, j);
  }

  /** The first decision about `k` from `i` on, or `j`. */
  function FirstAbout(events: seq<Event>, k: string, i: nat, j: nat): (m: nat)
    requires i <= j <= |events|
    ensures i <= m <= j && (m < j ==> About(events[m], k)) && forall n :: i <= n < m ==> !About(events[n], k)
    decreases j - i
  {
    if i == j || About(events[i], k) then i else FirstAbout(events, k, i + 1, j)
  }

  /** The first decision about a request that awaits one is what it returns. */
  lemma {:induction false} AwaitedDecision(
    worlds: seq<World>, events: seq<Event>, i: nat, j: nat, k: string, r: Decision) returns (m: nat)
    requires Run(worlds, events) && i <= j <= |events| && Awaits(worlds[i], k)
    requires forall n :: i <= n < j ==> !events[n].Restart?
    requires In(worlds[j], k, Ended(Returned(r)))
    ensures i <= m < j && Decides(events[m], k, r) && forall n :: i <= n < m ==> !About(events[n], k)
  {
    m := FirstAbout(events, k, i, j);
    NobodyDecided(worlds, events, i, m, k);
    if Lost(worlds[m], k) { LostForGood(worlds, events, m, j, k); }
    RunKeepsInvariant(worlds, events, m);
    FirstDecides(worlds[m], events[m], k, Given(events[m]));
    AfterDecision(worlds, events, m, j, k, Given(events[m]), r);
  }

  function Given(e: Event): Decision
    requires e.Resolve? || e.Timeout?
  {
    if e.Resolve? then e.decision else e.fallback
  }

  /** A request that returned `r` was given `r` by an administrator or by its timeout, and
      that was the first decision about it since it was made. */
  lemma {:induction false} DecidedByFirst(worlds: seq<World>, events: seq<Event>, j: nat, k: string, r: Decision)
    returns (i: nat, m: nat)
    requires Run(worlds, events) && j <= |events| && In(worlds[j], k, Ended(Returned(r)))
    ensures i < m < j && events[i].Request? && events[i].key == k
    ensures forall n :: i < n < j ==> !events[n].Restart?
    ensures Decides(events[m], k, r) && forall n :: i < n < m ==> !About(events[n], k)
  {
    i := RequestBegan(worlds, events, j, k);
    m := AwaitedDecision(worlds, events, i + 1, j, k, r);
  }

  lemma {:induction false} AfterDecision(
    worlds: seq<World>, events: seq<Event>, m: nat, j: nat, k: string, d: Decision, r: Decision)
    requires Run(worlds, events) && m < j <= |events| && Made(worlds[m + 1], k, d)
    requires forall n :: m < n < j ==> !events[n].Restart?
    requires In(worlds[j], k, Ended(Returned(r)))
    ensures r == d
  {
    DecisionIsFinal(worlds, events, m + 1, j, k, d);
    RunKeepsInvariant(worlds, events, j);
    assert RequestOk(worlds[j], k, worlds[j].requests[k]);
  }

  /** A request whose card was accepted either has its decision or still gets one: it can
      be answered, and its timeout is armed and would decide it. */
  lemma {:induction false} AcceptedIsDecided(
      worlds: seq<World>, events: seq<Event>, i: nat, k: string, fallback: Decision)
    requires Run(worlds, events) && i <= |events| && In(worlds[i], k, Waiting)
    ensures k in worlds[i].t.futures
    ensures worlds[i].t.futures[k].Decided? ||
            (k in worlds[i].timers && k in worlds[i].t.pending
             && Next(worlds[i], Timeout(k, fallback)).t.futures[k] == Decided(fallback))
  {
    RunKeepsInvariant(worlds, events, i);
    assert RequestOk(worlds[i], k, worlds[i].requests[k]);
    WaitingTimesOut(worlds[i], k, fallback);
  }

  lemma {:induction false} WaitingTimesOut(w: World, k: string, fallback: Decision)
    requires RequestOk(w, k, Waiting)
    ensures k in w.t.futures
    ensures w.t.futures[k].Decided? ||
            (k in w.timers && k in w.t.pending && Next(w, Timeout(k, fallback)).t.futures[k] == Decided(fallback))
  {
  }

  /** A recovered request is given up only by a denial or by the next restart, and no live
      request has its key. */
  lemma {:induction false} RecoveredOnlyDenied(worlds: seq<World>, events: seq<Event>, i: nat, k: string)
    requires Run(worlds, events) && i < |events| && k in worlds[i].t.recovered
    ensures k !in worlds[i].requests
    ensures k in worlds[i + 1].t.recovered
            || (events[i].Resolve? && events[i].found == Some(k) && events[i].decision == Deny)
            || events[i].Restart?
  {
    RunKeepsInvariant(worlds, events, i);
    NoRequestRecovered(worlds[i], k);
    if events[i].Timeout? || events[i].Wake? {
      RequestNotRecovered(worlds[i], events[i].key);
    }
    StepKeepsRecovered(worlds[i], events[i], k);
  }

  lemma {:induction false} NoRequestRecovered(w: World, k: string)
    requires Inv(w) && k in w.t.recovered
    ensures k !in w.requests
  {
    assert k in w.requests ==> RequestOk(w, k, w.requests[k]);
  }

  lemma {:induction false} RequestNotRecovered(w: World, k: string)
    requires Inv(w) && k in w.requests
    ensures k !in w.t.recovered
  {
    assert RequestOk(w, k, w.requests[k]);
  }

  lemma {:induction false} StepKeepsRecovered(w: World, e: Event, k: string)
    requires Possible(w, e) && k in w.t.recovered && (e.Timeout? || e.Wake? ==> e.key !in w.t.recovered)
    ensures k in Next(w, e).t.recovered || (e.Resolve? && e.found == Some(k) && e.decision == Deny) || e.Restart?
  {
  }

  /** A request that has come to its end, by returning or by being cancelled while its card
      was being sent. */
  predicate Over(p: Phase) {
    p.Ended? || p.Leaked?
  }

  /** The plan of a request that is over is there just when the request came with one that
      nobody has taken, and it was allowed, or cancelled while its card was being sent. */
  lemma {:induction false} PlansOfEndedRequests(worlds: seq<World>, events: seq<Event>, i: nat, k: string, p: Phase)
    requires Run(worlds, events) && i <= |events| && In(worlds[i], k, p) && Over(p)
    ensures k in worlds[i].t.plans <==>
            && k in worlds[i].planned && k !in worlds[i].taken
            && (p.Leaked? || (p.ending.Returned? && Allows(p.ending.decision)))
  {
    RunKeepsInvariant(worlds, events, i);
    assert k in worlds[i].t.plans <==> PlanWanted(worlds[i], k);
  }

  /** So a request that was decided against keeps its plan if and only if it was cancelled
      while its card was being sent, and the plan was not taken. */
  lemma {:induction false} PlanOfDeniedRequest(worlds: seq<World>, events: seq<Event>, i: nat, k: string, p: Phase,
                                               d: Decision)
    requires Run(worlds, events) && i <= |events| && In(worlds[i], k, p) && Over(p) && k in worlds[i].planned
    requires k in worlds[i].t.futures && worlds[i].t.futures[k] == Decided(d) && !Allows(d)
    ensures k in worlds[i].t.plans <==> p.Leaked? && k !in worlds[i].taken
  {
    PlansOfEndedRequests(worlds, events, i, k, p);
    RunKeepsInvariant(worlds, events, i);
    assert RequestOk(worlds[i], k, p);
  }

  function Requests(key: string, info: Info, plan: int, stored: Record): (w: World)
    ensures In(w, key, Sending)
  {
    Next(EMPTY, Request(key, info, Some(plan), Some(stored)))
  }

  function LeakedWorld(key: string, info: Info, plan: int, stored: Record): (w: World)
    ensures In(w, key, Leaked) && w.t.futures == map[key := Open] && w.t.pending == {key} && w.t.recovered == {}
    ensures w.t.plans == map[key := plan]
  {
    Next(Requests(key, info, plan, stored), Cancel(key))
  }

  lemma {:induction false} DenyLeaked(w: World, key: string, plan: int)
    requires w.t.futures == map[key := Open] && w.t.pending == {key} && w.t.plans == map[key := plan]
    requires w.t.recovered == {}
    ensures Enabled(w, Resolve(key, Some(key), Deny))
    ensures var end := Next(w, Resolve(key, Some(key), Deny));
            && key in end.t.futures && end.t.futures[key] == Decided(Deny)
            && key !in end.t.pending && key in end.t.plans
  {
  }

  ghost predicate Follows(w: World, e: Event, u: World) {
    Enabled(w, e) && u == Next(w, e)
  }

  lemma {:induction false} AreRun(worlds: seq<World>, events: seq<Event>, follows: (World, Event, World) -> bool)
    requires |worlds| == |events| + 1 && worlds[0] == EMPTY
    requires forall w, e, u :: follows(w, e, u) ==> Follows(w, e, u)
    requires forall i :: 0 <= i < |events| ==> follows(worlds[i], events[i], worlds[i + 1])
    ensures Run(worlds, events)
  {
    forall i | 0 <= i < |events|
      ensures Enabled(worlds[i], events[i]) && worlds[i + 1] == Next(worlds[i], events[i])
    {
      assert Follows(worlds[i], events[i], worlds[i + 1]);
    }
  }

  lemma {:induction false} OnlyThree(
    w: World, v: World, u: World, d: Event, e: Event, f: Event, follows: (World, Event, World) -> bool)
    requires follows(EMPTY, d, w) && follows(w, e, v) && follows(v, f, u)
    ensures var worlds, events := [EMPTY, w, v, u], [d, e, f];
            forall i :: 0 <= i < |events| ==> follows(worlds[i], events[i], worlds[i + 1])
  {
  }

  lemma {:induction false} RunOfThree(w: World, v: World, u: World, d: Event, e: Event, f: Event)
    requires Follows(EMPTY, d, w) && Follows(w, e, v) && Follows(v, f, u)
    ensures Run([EMPTY, w, v, u], [d, e, f])
  {
    var follows := (w, e, u) => Follows(w, e, u);
    OnlyThree(w, v, u, d, e, f, follows);
    AreRun([EMPTY, w, v, u], [d, e, f], follows);
  }

  /** A request that is cancelled while its card is being sent, and then denied: its plan
      stays. */
  lemma {:induction false} DeniedPlanStays(key: string, info: Info, plan: int, stored: Record)
    requires RecordFor(key, info, Some(plan)) == Some(stored)
    ensures var w := LeakedWorld(key, info, plan, stored);
            var end := Next(w, Resolve(key, Some(key), Deny));
            && Run([EMPTY, Requests(key, info, plan, stored), w, end],
                   [Request(key, info, Some(plan), Some(stored)), Cancel(key), Resolve(key, Some(key), Deny)])
            && key in end.t.futures && end.t.futures[key] == Decided(Deny)
            && key !in end.t.pending && key in end.t.plans
  {
    var r := Requests(key, info, plan, stored);
    var w := LeakedWorld(key, info, plan, stored);
    DenyLeaked(w, key, plan);
    RunOfThree(r, w, Next(w, Resolve(key, Some(key), Deny)),
               Request(key, info, Some(plan), Some(stored)), Cancel(key), Resolve(key, Some(key), Deny));
  }

  lemma {:induction false} SampleRequest()
    ensures RecordFor("k", Info(0, 1, ""), Some(7)) == Some(Record("k", Info(0, 1, ""), Some(7)))
  {
    assert LStrip("k") == "k" && RStrip("k") == "k";
  }

  /** Such a run: a request under the key `k` with plan 7. */
  lemma {:induction false} SampleDenial(key: string, stored: Record, info: Info)
    returns (worlds: seq<World>, events: seq<Event>)
    requires key == "k" && info == Info(0, 1, "") && stored == Record(key, info, Some(7))
    ensures Run(worlds, events) && |events| == 3 && events[0].Request? && events[1].Cancel? && events[2].Resolve?
    ensures var t := worlds[3].t; key in t.futures && t.futures[key] == Decided(Deny) && key in t.plans
  {
    SampleRequest();
    worlds, events := DenialOf(key, info, 7, stored);
  }

  lemma {:induction false} DenialOf(key: string, info: Info, plan: int, stored: Record)
    returns (worlds: seq<World>, events: seq<Event>)
    requires RecordFor(key, info, Some(plan)) == Some(stored)
    ensures Run(worlds, events) && |events| == 3 && events[0].Request? && events[1].Cancel? && events[2].Resolve?
    ensures var t := worlds[3].t; key in t.futures && t.futures[key] == Decided(Deny) && key in t.plans
  {
    DeniedPlanStays(key, info, plan, stored);
    var w := LeakedWorld(key, info, plan, stored);
    worlds := [EMPTY, Requests(key, info, plan, stored), w, Next(w, Resolve(key, Some(key), Deny))];
    events := [Request(key, info, Some(plan), Some(stored)), Cancel(key), Resolve(key, Some(key), Deny)];
  }

  /** What a restart at `now` makes of the records that were there. */
  ghost predicate RecoveredFrom(name: string -> string, records: Records, t: Tables, now: int) {
    && t.pending == {} && t.plans == map[] && t.records.Keys == t.recovered
    && (forall n :: n in t.recovered ==> Kept(name, records, n, now))
    && (forall k :: k in records && name(k) !in t.recovered ==> Expired(name, records, name(k), now))
  }

  ghost predicate Kept(name: string -> string, records: Records, n: string, now: int) {
    exists k :: k in records && name(k) == n && records[k].info.expiresAt > now
  }

  ghost predicate Expired(name: string -> string, records: Records, n: string, now: int) {
    exists k :: k in records && name(k) == n && records[k].info.expiresAt <= now
  }

  lemma {:induction false} StartRecovers(name: string -> string, records: Records, loaded: Records, now: int)
    requires Mirrors(name, records, loaded)
    ensures RecoveredFrom(name, records, StartedFrom(loaded, now), now)
  {
    var t := StartedFrom(loaded, now);
    forall n | n in t.recovered ensures Kept(name, records, n, now) {
      assert Sourced(name, records, n, loaded[n]);
      var k :| k in records && name(k) == n && records[k] == loaded[n];
    }
    forall k | k in records && name(k) !in t.recovered ensures Expired(name, records, name(k), now) {
      assert Sourced(name, records, name(k), loaded[name(k)]);
      var j :| j in records && name(j) == name(k) && records[j] == loaded[name(k)];
    }
  }

  /** A restart recovers every approval that was still waiting and has not expired, under
      its stripped key, and clears the others from the store. */
  lemma {:induction false} RestartRecovers(worlds: seq<World>, events: seq<Event>, i: nat)
    requires Run(worlds, events) && i < |events| && events[i].Restart?
    ensures RecoveredFrom(Strip, worlds[i].t.records, worlds[i + 1].t, events[i].now)
  {
    RunKeepsInvariant(worlds, events, i);
    FileMirrors(worlds[i].t.records, events[i].loaded);
    StartRecovers(Strip, worlds[i].t.records, events[i].loaded, events[i].now);
  }

  lemma {:induction false} FileMirrors(records: Records, loaded: Records)
    requires Written(records) && exists items :: Holds(items, records) && loaded == Loaded(items)
    ensures Mirrors(Strip, records, loaded)
  {
    var items :| Holds(items, records) && loaded == Loaded(items);
    ReadsBack(items, records);
  }
}
