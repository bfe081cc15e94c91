/** Approvals that wait for an administrator: what each operation does to the approval
    manager's own tables and to the durable store behind it. */
module Approval {
  import opened Text
  import opened ApprovalStore

  datatype Decision = Deny | Allow | AllowOnce | AllowAlways | Other(text: string)

  predicate Allows(d: Decision) {
    d == Allow || d == AllowOnce || d == AllowAlways
  }

  /** What a request waits on. A cancelled future can no longer be decided. */
  datatype Future = Open | Decided(decision: Decision) | Dead

  /** `pending` are the keys of live requests; every future is kept under its key, which is
      used for one request only. */
  datatype Tables = Tables(
    pending: set<string>, futures: map<string, Future>, info: map<string, Info>, plans: map<string, int>,
    recovered: set<string>, records: Records)

  // ---- Which approval a key means ----

  function AfterColon(s: string): string {
    if s == "" || s[|s| - 1] == ':' then "" else AfterColon(s[..|s| - 1]) + [s[|s| - 1]]
  }

  /** A prefix of the key, or of its part behind the last colon. */
  predicate Matches(key: string, typed: string) {
    typed <= key || (':' in key && typed <= AfterColon(key))
  }

  predicate OnlyMatch(keys: set<string>, typed: string, key: string) {
    key in keys && Matches(key, typed) && forall k :: k in keys && Matches(k, typed) ==> k == key
  }

  ghost function KeyFor(keys: set<string>, typed: string): Option<string> {
    if typed in keys then Some(typed)
    else if exists k :: OnlyMatch(keys, typed, k) then (var k :| OnlyMatch(keys, typed, k); Some(k))
    else None
  }

  lemma {:induction false} ColonSplits(key: string)
    requires ':' in key
    ensures |AfterColon(key)| < |key|
    ensures key == key[..|key| - |AfterColon(key)| - 1] + [':'] + AfterColon(key) && ':' !in AfterColon(key)
  {
    if key[|key| - 1] != ':' {
      var n := |key| - 1;
      ColonSplits(key[..n]);
      assert key == key[..n] + [key[n]];
    }
  }

  lemma {:induction false} BehindColon(a: string, b: string)
    requires ':' !in b
    ensures AfterColon(a + [':'] + b) == b
  {
    if b != "" {
      assert (a + [':'] + b)[..|a| + |b|] == a + [':'] + b[..|b| - 1];
      BehindColon(a, b[..|b| - 1]);
      assert b == b[..|b| - 1] + [b[|b| - 1]];
    }
  }

  /** The typed text begins the key or the part of it behind its last colon. */
  ghost predicate Begins(typed: string, key: string) {
    typed <= key || exists a, b :: key == a + [':'] + b && ':' !in b && typed <= b
  }

  lemma {:induction false} MatchesBegin(key: string, typed: string)
    ensures Matches(key, typed) <==> Begins(typed, key)
  {
    if ':' in key { ColonSplits(key); }
    if a, b :| key == a + [':'] + b && ':' !in b && typed <= b { BehindColon(a, b); }
  }

  /** A key that is typed in full is meant; otherwise the only one the typed text begins. */
  lemma {:induction false} KeyIsMeant(keys: set<string>, typed: string, key: string)
    ensures KeyFor(keys, typed) == Some(key) <==>
            key in keys && (key == typed || (typed !in keys && Begins(typed, key)
                                             && forall k :: k in keys && k != key ==> !Begins(typed, k)))
  {
    forall k ensures Matches(k, typed) <==> Begins(typed, k) {
      MatchesBegin(k, typed);
    }
    if typed !in keys && key in keys && Begins(typed, key) && forall k :: k in keys && k != key ==> !Begins(typed, k) {
      assert OnlyMatch(keys, typed, key);
    }
  }

  // ---- The operations on the tables ----

  function Dropped(t: Tables, key: string): Tables {
    t.(pending := t.pending - {key}, info := t.info - {key}, records := t.records - {key})
  }

  /** `stored` is the record the store makes of the request, if it takes it. */
  predicate Accepts(t: Tables, key: string, stored: Option<Record>) {
    key !in t.pending && key !in t.recovered && stored.Some?
  }

  function Entered(t: Tables, key: string, info: Info, plan: Option<int>): Tables {
    Tables(t.pending + {key}, t.futures[key := Open], t.info[key := info],
           if plan.Some? then t.plans[key := plan.value] else t.plans, t.recovered, t.records)
  }

  function Left(t: Tables, key: string): Tables {
    t.(pending := t.pending - {key}, info := t.info - {key}, plans := t.plans - {key})
  }

  lemma {:induction false} LeftAgain(t: Tables, key: string, info: Info, plan: Option<int>)
    requires key !in t.pending && key !in t.recovered
    ensures Left(Entered(t, key, info, plan), key) == Requested(t, key, info, plan, None)
  {
    var u := Left(Entered(t, key, info, plan), key);
    assert u.pending == t.pending && u.info == t.info - {key} && u.plans == t.plans - {key};
  }

  /** A request under a key that is in use is refused; one that cannot be stored leaves
      nothing behind but its future; any other waits under its key, with its plan, and is on
      record as `stored`. */
  ghost predicate RegistersAs(
    t: Tables, key: string, i: Info, plan: Option<int>, stored: Option<Record>, ok: bool, u: Tables)
  {
    && OnlyAbout(key, t, u) && u.recovered == t.recovered
    && if key in t.pending || key in t.recovered then !ok && u == t
       else
         && (ok <==> stored.Some?)
         && key in u.futures && u.futures[key] == Open
         && (if ok then
               && key in u.pending && key in u.info && u.info[key] == i
               && key in u.records && u.records[key] == stored.value
               && (if plan.Some? then key in u.plans && u.plans[key] == plan.value
                   else key in u.plans <==> key in t.plans)
             else key !in u.pending && key !in u.info && key !in u.plans && u.records == t.records)
  }

  /** It is stored under its stripped key, if there is one, and if it has time to run. */
  ghost predicate Registers(t: Tables, key: string, i: Info, plan: Option<int>, ok: bool, u: Tables) {
    var storable := Strip(key) != "" && '\0' !in Strip(key) && i.expiresAt > i.createdAt;
    RegistersAs(t, key, i, plan, if storable then Some(Record(Strip(key), i, plan)) else None, ok, u)
  }

  lemma {:induction false} RequestedAs(t: Tables, key: string, i: Info, plan: Option<int>, stored: Option<Record>)
    ensures RegistersAs(t, key, i, plan, stored, Accepts(t, key, stored), Requested(t, key, i, plan, stored))
  {
  }

  function Requested(t: Tables, key: string, info: Info, plan: Option<int>, stored: Option<Record>): Tables {
    if Accepts(t, key, stored) then Entered(t, key, info, plan).(records := t.records[key := stored.value])
    else if key in t.pending || key in t.recovered then t
    else t.(futures := t.futures[key := Open], info := t.info - {key},
            plans := t.plans - {key})
  }

  function Unsent(t: Tables, key: string): Tables {
    Dropped(t, key).(plans := t.plans - {key})
  }

  /** A request that waits takes the decision; one that did not survive a restart can only
      be denied. `found` is the key that was meant. */
  predicate TakesDecision(t: Tables, found: Option<string>, d: Decision) {
    && found.Some?
    && if found.value in t.recovered then d == Deny
       else found.value in t.futures && t.futures[found.value] == Open
  }

  function Resolved(t: Tables, typed: string, found: Option<string>, d: Decision): Tables {
    var key := if found.Some? then found.value else typed;
    if found.Some? && key in t.recovered then
      if d == Deny then Dropped(t, key).(pending := t.pending, recovered := t.recovered - {key}) else t
    else
      Dropped(t, key).(
        pending := if found.Some? then t.pending - {key} else t.pending,
        futures := if TakesDecision(t, found, d) then t.futures[key := Decided(d)] else t.futures)
  }

  function TimedOut(t: Tables, key: string, fallback: Decision): Tables {
    var waiting := key in t.pending && key in t.futures && t.futures[key] == Open;
    Dropped(t, key).(
      recovered := t.recovered - {key},
      futures := if waiting then t.futures[key := Decided(fallback)] else t.futures)
  }

  /** Nothing about any other key has changed. */
  ghost predicate OnlyAbout(key: string, t: Tables, u: Tables) {
    && t.pending - {key} == u.pending - {key} && t.recovered - {key} == u.recovered - {key}
    && t.futures - {key} == u.futures - {key} && t.info - {key} == u.info - {key}
    && t.plans - {key} == u.plans - {key} && t.records - {key} == u.records - {key}
  }

  /** Nothing waits under the key any more, neither here nor in the store. */
  predicate Gone(t: Tables, key: string) {
    key !in t.pending && key !in t.recovered && key !in t.info && key !in t.records
  }

  /** An answer for a live request that is undecided is recorded as it was given, and the
      request is gone from the tables and the store; a recovered one goes only if denied. */
  ghost predicate Answers(t: Tables, key: string, found: bool, d: Decision, done: bool, u: Tables) {
    var live := found && key !in t.recovered;
    var waits := live && key in t.futures && t.futures[key] == Open;
    && u.futures == (if waits then t.futures[key := Decided(d)] else t.futures)
    && done == (waits || (found && key in t.recovered && d == Deny))
    && (live ==> Gone(u, key))
    && (found && key in t.recovered ==>
         if d == Deny then key !in u.recovered && key !in u.info && key !in u.records && u.pending == t.pending
         else u == t)
    && OnlyAbout(key, t, u) && u.plans == t.plans
  }

  lemma {:induction false} ResolvedAnswers(t: Tables, typed: string, found: Option<string>, d: Decision)
    ensures var key := if found.Some? then found.value else typed;
            Answers(t, key, found.Some?, d, TakesDecision(t, found, d), Resolved(t, typed, found, d))
  {
  }

  /** A live request that is undecided gets the fallback, and nothing waits any more. */
  ghost predicate Expires(t: Tables, key: string, fallback: Decision, u: Tables) {
    var waits := key in t.pending && key in t.futures && t.futures[key] == Open;
    && u.futures == (if waits then t.futures[key := Decided(fallback)] else t.futures)
    && Gone(u, key) && OnlyAbout(key, t, u) && u.plans == t.plans
  }

  lemma {:induction false} TimedOutExpires(t: Tables, key: string, fallback: Decision)
    ensures Expires(t, key, fallback, TimedOut(t, key, fallback))
  {
  }

  /** The request goes on with the decision it waited for. */
  function Woken(t: Tables, key: string, d: Decision): Tables {
    Dropped(t, key).(plans := if Allows(d) then t.plans else t.plans - {key}, recovered := t.recovered - {key})
  }

  function Cancelled(t: Tables, key: string): Tables {
    Dropped(t, key).(plans := t.plans - {key})
  }

  function Taken(t: Tables, key: string): Tables {
    t.(plans := t.plans - {key})
  }

  /** After a restart only what the file says is left, as far as it has not expired. */
  function Unexpired(records: Records, now: int): Records {
    map k | k in records && records[k].info.expiresAt > now :: records[k]
  }

  function Infos(records: Records): map<string, Info> {
    map k | k in records :: records[k].info
  }

  function Started(items: seq<Record>, now: int): Tables {
    StartedFrom(Loaded(items), now)
  }

  function StartedFrom(loaded: Records, now: int): Tables {
    var records := Unexpired(loaded, now);
    Tables({}, map[], Infos(records), map[], records.Keys, records)
  }

  /** The records while they are looked through. */
  function Seen(loaded: Records, todo: set<string>, now: int): Records {
    map k | k in loaded && (k in todo || loaded[k].info.expiresAt > now) :: loaded[k]
  }

  predicate Recovering(t: Tables, loaded: Records, todo: set<string>, now: int) {
    && todo <= t.records.Keys && t.records == Seen(loaded, todo, now)
    && t == Tables({}, map[], Infos(t.records) - todo, map[], t.records.Keys - todo, t.records)
  }

  /** A record that has not expired is taken up, any other removed. */
  function RecoveredOne(t: Tables, k: string, now: int): Tables
    requires k in t.records
  {
    var i := t.records[k].info;
    if i.expiresAt > now then t.(info := t.info[k := i], recovered := t.recovered + {k})
    else t.(records := t.records - {k})
  }

  lemma {:induction false} RecoveredAll(t: Tables, loaded: Records, now: int)
    requires Recovering(t, loaded, {}, now)
    ensures var records := Unexpired(loaded, now); t == Tables({}, map[], Infos(records), map[], records.Keys, records)
  {
    assert Seen(loaded, {}, now) == Unexpired(loaded, now);
    assert Infos(t.records) - {} == Infos(t.records);
  }

  lemma {:induction false} RecoverOne(t: Tables, loaded: Records, todo: set<string>, now: int, k: string)
    requires Recovering(t, loaded, todo, now) && k in todo
    ensures Recovering(RecoveredOne(t, k, now), loaded, todo - {k}, now)
  {
    var i := t.records[k].info;
    if i.expiresAt > now {
      assert Seen(loaded, todo - {k}, now) == t.records;
      assert t.info[k := i] == Infos(t.records) - (todo - {k});
      assert t.recovered + {k} == t.records.Keys - (todo - {k});
    } else {
      var records := t.records - {k};
      assert Seen(loaded, todo - {k}, now) == records;
      assert t.info == Infos(records) - (todo - {k});
      assert t.recovered == records.Keys - (todo - {k});
    }
  }

  // ---- The manager ----

  class ApprovalManager {
    var pending: set<string>
    var futures: map<string, Future>
    var info: map<string, Info>
    var plans: map<string, int>
    var recovered: set<string>
    const store: PendingStore

    function Value(): Tables
      reads this, store
    {
      Tables(pending, futures, info, plans, recovered, store.records)
    }

    constructor (items: seq<Record>, now: int)
      ensures fresh(store) && Value() == Started(items, now)
    {
      pending, futures, info, plans, recovered := {}, map[], map[], map[], {};
      store := new PendingStore(items);
      new;
      Recover(now);
    }

    method Recover(now: int)
      requires Value() == Tables({}, map[], map[], map[], {}, store.records)
      modifies this, store
      ensures var records := Unexpired(old(store.records), now);
              Value() == Tables({}, map[], Infos(records), map[], records.Keys, records)
    {
      ghost var loaded := store.records;
      var todo := store.records.Keys;
      while todo != {}
        invariant Recovering(Value(), loaded, todo, now)
        decreases |todo|
      {
        var k :| k in todo;
        ghost var t := Value();
        RecoverOne(t, loaded, todo, now, k);
        var r := store.records[k];
        if r.info.expiresAt > now {
          info := info[k := r.info];
          recovered := recovered + {k};
        } else {
          store.Remove(k);
        }
        assert Value() == RecoveredOne(t, k, now);
        todo := todo - {k};
      }
      RecoveredAll(Value(), loaded, now);
    }

    /** The part of a request up to the sending of its card. */
    method Register(key: string, i: Info, plan: Option<int>) returns (ok: bool)
      modifies this, store
      ensures var stored := RecordFor(key, i, plan);
              ok == Accepts(old(Value()), key, stored) && Value() == Requested(old(Value()), key, i, plan, stored)
      ensures Registers(old(Value()), key, i, plan, ok, Value())
    {
      RequestedAs(Value(), key, i, plan, RecordFor(key, i, plan));
      if key in pending || key in recovered {
        return false;
      }
      Enter(key, i, plan);
      ok := store.Put(key, i, plan);
      if !ok {
        Leave(key);
        LeftAgain(old(Value()), key, i, plan);
      }
    }

    method Leave(key: string)
      modifies this
      ensures Value() == Left(old(Value()), key)
    {
      pending, info, plans := pending - {key}, info - {key}, plans - {key};
    }

    method Enter(key: string, i: Info, plan: Option<int>)
      modifies this
      ensures Value() == Entered(old(Value()), key, i, plan)
    {
      pending, futures := pending + {key}, futures[key := Open];
      if plan.Some? {
        plans := plans[key := plan.value];
      }
      info := info[key := i];
    }

    method CardFailed(key: string)
      modifies this, store
      ensures Value() == Unsent(old(Value()), key)
      ensures key !in pending && key !in info && key !in plans && key !in store.records
      ensures OnlyAbout(key, old(Value()), Value()) && futures == old(futures)
    {
      pending, plans, info := pending - {key}, plans - {key}, info - {key};
      store.Remove(key);
    }

    method PendingKey(typed: string) returns (r: Option<string>)
      ensures r == KeyFor(pending + recovered, typed)
    {
      var keys := pending + recovered;
      if typed in keys {
        return Some(typed);
      }
      var matches := set k | k in keys && Matches(k, typed);
      if |matches| != 1 {
        NotOne(keys, typed, matches);
        return None;
      }
      var k :| k in matches;
      OnlyOne(matches, k);
      assert forall j :: j in keys && Matches(j, typed) ==> j in matches;
      assert OnlyMatch(keys, typed, k);
      r := Some(k);
    }

    method ResolvePending(typed: string, d: Decision) returns (done: bool)
      modifies this, store
      ensures var found := KeyFor(old(pending + recovered), typed);
              && Value() == Resolved(old(Value()), typed, found, d)
              && done == TakesDecision(old(Value()), found, d)
      ensures var found := KeyFor(old(pending + recovered), typed);
              Answers(old(Value()), if found.Some? then found.value else typed, found.Some?, d, done, Value())
    {
      ResolvedAnswers(Value(), typed, KeyFor(pending + recovered, typed), d);
      var found := PendingKey(typed);
      if found.Some? && found.value in recovered {
        if d != Deny {
          return false;
        }
        recovered, info := recovered - {found.value}, info - {found.value};
        store.Remove(found.value);
        return true;
      }
      var key := if found.Some? then found.value else typed;
      var waiting := found.Some? && key in pending && key in futures && futures[key] == Open;
      if found.Some? {
        pending := pending - {key};
      }
      info := info - {key};
      store.Remove(key);
      if waiting {
        futures := futures[key := Decided(d)];
      }
      done := waiting;
    }

    method OnTimeout(key: string, fallback: Decision)
      modifies this, store
      ensures Value() == TimedOut(old(Value()), key, fallback)
      ensures Expires(old(Value()), key, fallback, Value())
    {
      TimedOutExpires(Value(), key, fallback);
      var waiting := key in pending && key in futures && futures[key] == Open;
      pending, info, recovered := pending - {key}, info - {key}, recovered - {key};
      store.Remove(key);
      if waiting {
        futures := futures[key := Decided(fallback)];
      }
    }

    /** The part of a request behind its wait. */
    method Wake(key: string, d: Decision)
      modifies this, store
      ensures Value() == Woken(old(Value()), key, d)
      ensures Gone(Value(), key) && OnlyAbout(key, old(Value()), Value()) && futures == old(futures)
      ensures key in plans <==> key in old(plans) && (d == Allow || d == AllowOnce || d == AllowAlways)
    {
      if !Allows(d) {
        plans := plans - {key};
      }
      pending, recovered, info := pending - {key}, recovered - {key}, info - {key};
      store.Remove(key);
    }

    method CancelWait(key: string)
      modifies this, store
      ensures Value() == Cancelled(old(Value()), key)
      ensures key !in pending && key !in info && key !in plans && key !in store.records
      ensures OnlyAbout(key, old(Value()), Value()) && futures == old(futures)
    {
      pending, plans, info := pending - {key}, plans - {key}, info - {key};
      store.Remove(key);
    }

    method TakePendingPlan(key: string) returns (plan: Option<int>)
      modifies this
      ensures Value() == Taken(old(Value()), key)
      ensures plan.Some? <==> key in old(plans)
      ensures plan.Some? ==> plan.value == old(plans)[key]
      ensures key !in plans && forall k :: k in old(plans) && k != key ==> k in plans && plans[k] == old(plans)[k]
    {
      plan := if key in plans then Some(plans[key]) else None;
      plans := plans - {key};
    }
  }

  lemma {:induction false} OnlyOne<T>(s: set<T>, x: T)
    requires |s| == 1 && x in s
    ensures forall y :: y in s ==> y == x
  {
    assert |s - {x}| == 0;
    assert forall y :: y in s ==> y in s - {x} || y == x;
  }

  lemma {:induction false} NotOne(keys: set<string>, typed: string, matches: set<string>)
    requires matches == set k | k in keys && Matches(k, typed)
    requires |matches| != 1
    ensures forall k :: !OnlyMatch(keys, typed, k)
  {
    forall k ensures !OnlyMatch(keys, typed, k) {
      assert OnlyMatch(keys, typed, k) ==> matches == {k};
    }
  }
}
