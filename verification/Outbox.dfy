/** The admission outbox: a durable table of side effects, each waiting for its message to
    be admitted, then handed out under a lease until it has succeeded. */
module Outbox {
  import opened Text

  datatype Msg = Msg(chat: int, id: int)

  datatype Effect = Hindsight | Learner | Unknown(name: int)

  datatype Key = Key(message: Msg, effect: Effect)

  datatype Status = Prepared | Ready | Processing | Succeeded

  /** `lease` is 0 for a row nobody holds; for one that is being processed, `updatedAt`
      is the time its lease ends. */
  datatype Row = Row(order: nat, status: Status, lease: nat, updatedAt: int, attempts: nat, payload: int)

  type Table = map<Key, Row>

  const NO_LEASE: nat := 0

  // ---- What each statement does to the table ----

  predicate NextOrder(rows: Table, chat: int, n: nat) {
    && n > 0
    && (forall k :: k in rows && k.message.chat == chat ==> rows[k].order < n)
    && (n > 1 ==> exists k :: k in rows && k.message.chat == chat && rows[k].order == n - 1)
  }

  function NewRow(order: nat, payload: int, now: int): Row {
    Row(order, Prepared, NO_LEASE, now, 0, payload)
  }

  /** Rows that exist already are left alone. */
  function WithPrepared(rows: Table, m: Msg, effects: set<Effect>, row: Row): Table {
    (map e | e in effects :: Key(m, e) := row) + rows
  }

  predicate AddsRow(rows: Table, m: Msg, effects: set<Effect>) {
    exists e :: e in effects && Key(m, e) !in rows
  }

  function Promoted(r: Row, now: int): Row {
    if r.status == Prepared then r.(status := Ready, lease := NO_LEASE, updatedAt := now) else r
  }

  function MadeReady(rows: Table, m: Msg, now: int): Table {
    map k | k in rows :: if k.message == m then Promoted(rows[k], now) else rows[k]
  }

  function Cancelled(rows: Table, m: Msg): Table {
    map k | k in rows && k.message != m :: rows[k]
  }

  predicate Claimable(r: Row, now: int) {
    r.status == Ready || (r.status == Processing && r.updatedAt < now)
  }

  function Leased(rows: Table, keys: set<Key>, lease: nat, until: int): Table {
    map k | k in rows ::
      if k in keys then rows[k].(status := Processing, lease := lease, attempts := rows[k].attempts + 1, updatedAt := until)
      else rows[k]
  }

  /** Only the holder of the lease can finish a row or give it back. */
  function Completed(rows: Table, k: Key, lease: nat, done: bool, now: int): Table {
    if k in rows && rows[k].lease == lease then
      rows[k := rows[k].(status := if done then Succeeded else Ready, lease := NO_LEASE, updatedAt := now)]
    else rows
  }

  function Without(rows: Table, gone: set<Key>): Table {
    map k | k in rows && k !in gone :: rows[k]
  }

  // ---- The order in which rows are handed out ----

  function Rank(e: Effect): int {
    match e
    case Hindsight => 0
    case Learner => 1
    case Unknown(n) => if n >= 0 then n + 2 else n
  }

  function SortKey(k: Key, r: Row): (s: seq<int>)
    ensures |s| == 6
  {
    [k.message.chat, if r.order == 0 then 0 else 1, if r.order == 0 then r.updatedAt else 0, r.order, k.message.id,
     Rank(k.effect)]
  }

  predicate Less(a: seq<int>, b: seq<int>)
    requires |a| == |b|
  {
    a != [] && (a[0] < b[0] || (a[0] == b[0] && Less(a[1..], b[1..])))
  }

  predicate Before(rows: Table, a: Key, b: Key)
    requires a in rows && b in rows
  {
    Less(SortKey(a, rows[a]), SortKey(b, rows[b]))
  }

  lemma {:induction false} LessAt(a: seq<int>, b: seq<int>, i: nat)
    requires i < |a| == |b| && a[i] < b[i] && forall j :: 0 <= j < i ==> a[j] == b[j]
    ensures Less(a, b)
  {
    if i > 0 { LessAt(a[1..], b[1..], i - 1); }
  }

  lemma {:induction false} LessIsOrder(a: seq<int>, b: seq<int>, c: seq<int>)
    requires |a| == |b| == |c|
    ensures a == b || Less(a, b) || Less(b, a)
    ensures !(Less(a, b) && Less(b, a)) && !Less(a, a)
    ensures Less(a, b) && Less(b, c) ==> Less(a, c)
  {
    if a != [] {
      LessIsOrder(a[1..], b[1..], c[1..]);
      assert a == [a[0]] + a[1..] && b == [b[0]] + b[1..];
    }
  }

  lemma {:induction false} BeforeIsOrder(rows: Table, a: Key, b: Key, c: Key)
    requires a in rows && b in rows && c in rows
    ensures a == b || Before(rows, a, b) || Before(rows, b, a)
    ensures !(Before(rows, a, b) && Before(rows, b, a)) && !Before(rows, a, a)
    ensures Before(rows, a, b) && Before(rows, b, c) ==> Before(rows, a, c)
  {
    var x, y := SortKey(a, rows[a]), SortKey(b, rows[b]);
    LessIsOrder(x, y, SortKey(c, rows[c]));
    if x == y {
      assert x[0] == y[0] && x[4] == y[4] && x[5] == y[5];
    }
  }

  predicate Ascending(rows: Table, keys: seq<Key>) {
    && (forall i :: 0 <= i < |keys| ==> keys[i] in rows)
    && (forall i, j :: 0 <= i < j < |keys| ==> Before(rows, keys[i], keys[j]))
  }

  /** `keys` are the first `limit` claimable rows. */
  predicate Selected(rows: Table, now: int, limit: nat, keys: seq<Key>) {
    && Ascending(rows, keys) && |keys| <= limit
    && (forall k :: k in keys ==> Claimable(rows[k], now))
    && (forall k :: k in rows && k !in keys && Claimable(rows[k], now) ==>
          |keys| == limit && forall i :: 0 <= i < |keys| ==> Before(rows, keys[i], k))
  }

  /** As long as fewer than `limit` are handed out, these are all rows that are ready and all
      whose lease has run out. */
  lemma {:induction false} SelectedExactly(rows: Table, now: int, limit: nat, keys: seq<Key>, k: Key)
    requires Selected(rows, now, limit, keys) && k in rows
    ensures k in keys ==> rows[k].status == Ready || (rows[k].status == Processing && rows[k].updatedAt < now)
    ensures |keys| < limit && (rows[k].status == Ready || (rows[k].status == Processing && rows[k].updatedAt < now)) ==>
              k in keys
  {
  }

  /** Rows from before the order was kept go first, by their time, then by message. */
  lemma {:induction false} UnorderedFirst(rows: Table, a: Key, b: Key)
    requires a in rows && b in rows && a.message.chat == b.message.chat && rows[a].order == 0
    ensures rows[b].order > 0 ==> Before(rows, a, b)
    ensures rows[b].order == 0 && rows[a].updatedAt < rows[b].updatedAt ==> Before(rows, a, b)
    ensures rows[b].order == 0 && rows[a].updatedAt == rows[b].updatedAt && a.message.id < b.message.id ==>
              Before(rows, a, b)
  {
    var x, y := SortKey(a, rows[a]), SortKey(b, rows[b]);
    if rows[b].order > 0 { LessAt(x, y, 1); }
    if rows[b].order == 0 && rows[a].updatedAt < rows[b].updatedAt { LessAt(x, y, 2); }
    if rows[b].order == 0 && rows[a].updatedAt == rows[b].updatedAt && a.message.id < b.message.id { LessAt(x, y, 4); }
  }

  lemma {:induction false} NotAmongFirst(rows: Table, a: seq<Key>, b: seq<Key>, i: nat, j: nat)
    requires Ascending(rows, a) && j < i < |a| && i <= |b| && a[..i] == b[..i]
    ensures b[j] != a[i]
  {
    assert a[..i][j] == b[..i][j];
    BeforeIsOrder(rows, a[j], a[i], a[i]);
  }

  lemma {:induction false} NotElsewhere(rows: Table, a: seq<Key>, b: seq<Key>, i: nat)
    requires Ascending(rows, a) && Ascending(rows, b) && i < |a| && i <= |b| && a[..i] == b[..i]
    requires i < |b| ==> Before(rows, a[i], b[i])
    ensures a[i] !in b
  {
    forall j | 0 <= j < |b| ensures b[j] != a[i] {
      if j < i {
        NotAmongFirst(rows, a, b, i, j);
      } else {
        BeforeIsOrder(rows, a[i], b[i], b[j]);
        BeforeIsOrder(rows, a[i], b[j], b[j]);
      }
    }
  }

  lemma {:induction false} NotLater(rows: Table, now: int, limit: nat, a: seq<Key>, b: seq<Key>, i: nat)
    requires Selected(rows, now, limit, a) && Selected(rows, now, limit, b)
    requires i < |a| && i <= |b| && a[..i] == b[..i]
    ensures i < |b| && !Before(rows, a[i], b[i])
  {
    if i < |b| { BeforeIsOrder(rows, a[i], b[i], a[i]); }
    if i < |b| ==> Before(rows, a[i], b[i]) {
      NotElsewhere(rows, a, b, i);
    }
  }

  /** The selection leaves no choice. */
  lemma {:induction false} SelectedIsUnique(rows: Table, now: int, limit: nat, a: seq<Key>, b: seq<Key>, i: nat)
    requires Selected(rows, now, limit, a) && Selected(rows, now, limit, b)
    requires i <= |a| && i <= |b| && a[..i] == b[..i]
    ensures a == b
    decreases |a| - i
  {
    if i < |a| {
      NotLater(rows, now, limit, a, b, i);
      NotLater(rows, now, limit, b, a, i);
      BeforeIsOrder(rows, a[i], b[i], a[i]);
      assert a[..i + 1] == a[..i] + [a[i]] && b[..i + 1] == b[..i] + [b[i]];
      SelectedIsUnique(rows, now, limit, a, b, i + 1);
    } else if i < |b| {
      NotLater(rows, now, limit, b, a, i);
    }
  }

  /** Within a chat, effects are handed out in the order of admission. */
  lemma {:induction false} ClaimsInAdmissionOrder(
      rows: Table, now: int, limit: nat, keys: seq<Key>, earlier: Key, later: Key)
    requires Selected(rows, now, limit, keys) && later in keys
    requires earlier in rows && Claimable(rows[earlier], now) && earlier.message.chat == later.message.chat
    requires rows[earlier].order < rows[later].order
    ensures earlier in keys
    ensures forall i, j :: 0 <= i < |keys| && 0 <= j < |keys| && keys[i] == earlier && keys[j] == later ==> i < j
  {
    var x, y := SortKey(earlier, rows[earlier]), SortKey(later, rows[later]);
    LessAt(x, y, if rows[earlier].order == 0 then 1 else 3);
    BeforeIsOrder(rows, earlier, later, earlier);
  }

  // ---- Recovery after a crash ----

  predicate HasPrepared(rows: Table, m: Msg) {
    exists k :: k in rows && k.message == m && rows[k].status == Prepared
  }

  /** What the verdict on a message with prepared rows does to all its rows. */
  function Decided(rows: Table, m: Msg, verdict: Option<bool>, now: int): Table {
    match verdict
    case None => rows
    case Some(true) => MadeReady(rows, m, now)
    case Some(false) => Cancelled(rows, m)
  }

  function PreparedMessages(rows: Table): set<Msg> {
    set k | k in rows && rows[k].status == Prepared :: k.message
  }

  /** Recovery under way: of the messages `found`, those in `todo` have not been decided. */
  predicate Recovering(start: Table, rows: Table, found: set<Msg>, todo: set<Msg>, verdict: Msg -> Option<bool>, now: int) {
    && rows.Keys <= start.Keys
    && forall k :: k in start ==>
         if k.message !in found || k.message in todo then k in rows && rows[k] == start[k]
         else if verdict(k.message) == Some(false) then k !in rows
         else if verdict(k.message) == Some(true) then k in rows && rows[k] == Promoted(start[k], now)
         else k in rows && rows[k] == start[k]
  }

  lemma {:induction false} RecoverOne(start: Table, rows: Table, found: set<Msg>, todo: set<Msg>,
                                      verdict: Msg -> Option<bool>, now: int, m: Msg)
    requires Recovering(start, rows, found, todo, verdict, now) && m in todo && todo <= found
    ensures Recovering(start, Decided(rows, m, verdict(m), now), found, todo - {m}, verdict, now)
  {
  }

  /** `recovered` is `rows` with every message that had prepared rows dealt with. */
  predicate Recovered(rows: Table, recovered: Table, verdict: Msg -> Option<bool>, now: int) {
    && recovered.Keys <= rows.Keys
    && forall k :: k in rows ==>
         if HasPrepared(rows, k.message) && verdict(k.message) == Some(false) then k !in recovered
         else if verdict(k.message) == Some(true) then k in recovered && recovered[k] == Promoted(rows[k], now)
         else k in recovered && recovered[k] == rows[k]
  }

  lemma {:induction false} RecoveredAll(start: Table, rows: Table, verdict: Msg -> Option<bool>, now: int)
    requires Recovering(start, rows, PreparedMessages(start), {}, verdict, now)
    ensures Recovered(start, rows, verdict, now)
  {
    forall k | k in start && k.message !in PreparedMessages(start) ensures Promoted(start[k], now) == start[k] {
    }
  }

  /** The messages recovery makes ready. */
  function AdmittedOf(messages: set<Msg>, verdict: Msg -> Option<bool>): set<Msg> {
    set m | m in messages && verdict(m) == Some(true)
  }

  lemma {:induction false} AdmittedOneMore(found: set<Msg>, todo: set<Msg>, verdict: Msg -> Option<bool>, m: Msg)
    requires m in todo && todo <= found
    ensures |AdmittedOf(found - (todo - {m}), verdict)|
         == |AdmittedOf(found - todo, verdict)| + if verdict(m) == Some(true) then 1 else 0
  {
    var before, after := AdmittedOf(found - todo, verdict), AdmittedOf(found - (todo - {m}), verdict);
    assert m !in before;
    assert after == if verdict(m) == Some(true) then before + {m} else before;
  }

  // ---- Pruning ----

  /** `gone` are succeeded rows: all those older than `cutoff`, and as many of the oldest
      others as are too many. */
  predicate Prunable(rows: Table, gone: set<Key>, cutoff: int, keep: nat) {
    var left := set k | k in rows && k !in gone && rows[k].status == Succeeded;
    && (forall k :: k in gone ==> k in rows && rows[k].status == Succeeded)
    && (forall k :: k in left ==> rows[k].updatedAt >= cutoff)
    && |left| <= keep
    && (forall g, l :: g in gone && l in left && rows[g].updatedAt >= cutoff ==>
          |left| == keep && rows[g].updatedAt <= rows[l].updatedAt)
  }

  // ---- The outbox ----

  /** What a claim hands out. */
  datatype Item = Item(key: Key, payload: int, attempts: nat, lease: nat)

  function ItemFor(k: Key, r: Row, lease: nat): Item {
    Item(k, r.payload, r.attempts + 1, lease)
  }

  /** The row under `k` is processed under the lease until it ends, counts one more attempt,
      and is handed out with its payload. */
  predicate HandsOut(was: Table, rows: Table, k: Key, lease: nat, until: int, item: Item) {
    && k in was && k in rows
    && rows[k] == Row(was[k].order, Processing, lease, until, was[k].attempts + 1, was[k].payload)
    && item == Item(k, was[k].payload, was[k].attempts + 1, lease)
  }

  lemma {:induction false} AllHandedOut(was: Table, keys: seq<Key>, claimed: seq<Item>, lease: nat, until: int)
    requires Items(claimed, was, keys, lease)
    ensures var rows := Leased(was, SetOf(keys), lease, until);
            && rows.Keys == was.Keys && (forall k :: k in rows && k !in keys ==> rows[k] == was[k])
            && forall i :: 0 <= i < |keys| ==> HandsOut(was, rows, keys[i], lease, until, claimed[i])
  {
  }

  predicate Items(claimed: seq<Item>, rows: Table, keys: seq<Key>, lease: nat) {
    && |claimed| == |keys|
    && forall i :: 0 <= i < |keys| ==> keys[i] in rows && claimed[i] == ItemFor(keys[i], rows[keys[i]], lease)
  }

  function SetOf<T(==)>(s: seq<T>): set<T> {
    set x | x in s
  }

  class AdmissionOutbox {
    var rows: Table

    constructor ()
      ensures rows == map[]
    {
      rows := map[];
    }

    method MaxOrderPlusOne(chat: int) returns (n: nat)
      ensures NextOrder(rows, chat, n)
    {
      n := 1;
      var todo := rows.Keys;
      while todo != {}
        invariant todo <= rows.Keys && n > 0
        invariant forall k :: k in rows && k !in todo && k.message.chat == chat ==> rows[k].order < n
        invariant n > 1 ==> exists k :: k in rows && k.message.chat == chat && rows[k].order == n - 1
        decreases |todo|
      {
        var k :| k in todo;
        if k.message.chat == chat && rows[k].order >= n {
          n := rows[k].order + 1;
        }
        todo := todo - {k};
      }
    }

    /** None if one of the effects is not known. */
    method Prepare(m: Msg, effects: seq<Effect>, payload: int, now: int) returns (created: Option<bool>)
      modifies this
      ensures created.None? <==> exists e :: e in effects && e.Unknown?
      ensures created.None? || effects == [] ==> rows == old(rows)
      ensures created.Some? ==> created.value == AddsRow(old(rows), m, SetOf(effects))
      ensures created.Some? && effects != [] ==>
                exists n :: NextOrder(old(rows), m.chat, n) &&
                            rows == WithPrepared(old(rows), m, SetOf(effects), NewRow(n, payload, now))
      ensures forall k :: k in rows <==> k in old(rows) || (created.Some? && k.message == m && k.effect in effects)
      ensures forall k :: k in old(rows) ==> rows[k] == old(rows)[k]
      ensures forall k :: k in rows && k !in old(rows) ==>
                && NextOrder(old(rows), m.chat, rows[k].order)
                && rows[k] == Row(rows[k].order, Prepared, NO_LEASE, now, 0, payload)
    {
      if effects == [] {
        return Some(false);
      }
      if exists e :: e in effects && e.Unknown? {
        return None;
      }
      var n := MaxOrderPlusOne(m.chat);
      var some := InsertNew(m, effects, NewRow(n, payload, now));
      created := Some(some);
    }

    /** Inserts a row for every effect that has none yet; `some` if there was one. */
    method InsertNew(m: Msg, effects: seq<Effect>, row: Row) returns (some: bool)
      modifies this
      ensures rows == WithPrepared(old(rows), m, SetOf(effects), row)
      ensures some == AddsRow(old(rows), m, SetOf(effects))
    {
      some := false;
      for i := 0 to |effects|
        invariant rows == WithPrepared(old(rows), m, SetOf(effects[..i]), row)
        invariant some == AddsRow(old(rows), m, SetOf(effects[..i]))
      {
        var k := Key(m, effects[i]);
        assert SetOf(effects[..i + 1]) == SetOf(effects[..i]) + {effects[i]};
        InsertOne(old(rows), m, SetOf(effects[..i]), effects[i], row);
        if k !in rows {
          rows := rows[k := row];
          some := true;
        }
      }
      assert effects[..|effects|] == effects;
    }

    method MarkReady(m: Msg, now: int)
      modifies this
      ensures rows == MadeReady(old(rows), m, now)
      ensures rows.Keys == old(rows).Keys && !HasPrepared(rows, m)
      ensures forall k :: k in rows ==>
                if k.message == m && old(rows)[k].status == Prepared then
                  rows[k] == old(rows)[k].(status := Ready, lease := NO_LEASE, updatedAt := now)
                else rows[k] == old(rows)[k]
    {
      rows := MadeReady(rows, m, now);
    }

    method Cancel(m: Msg)
      modifies this
      ensures rows == Cancelled(old(rows), m)
      ensures forall k :: k in rows <==> k in old(rows) && k.message != m
      ensures forall k :: k in rows ==> rows[k] == old(rows)[k]
    {
      rows := Cancelled(rows, m);
    }

    method First(among: set<Key>) returns (k: Key)
      requires among != {} && among <= rows.Keys
      ensures k in among && forall j :: j in among && j != k ==> Before(rows, k, j)
    {
      k :| k in among;
      var todo := among - {k};
      while todo != {}
        invariant todo <= among && k in among
        invariant forall j :: j in among - todo && j != k ==> Before(rows, k, j)
        decreases |todo|
      {
        var j :| j in todo;
        BeforeIsOrder(rows, j, k, k);
        if Before(rows, j, k) {
          forall l | l in among - todo && l != k ensures Before(rows, j, l) { BeforeIsOrder(rows, j, k, l); }
          k := j;
        }
        todo := todo - {j};
      }
    }

    method Select(now: int, limit: nat) returns (keys: seq<Key>)
      ensures Selected(rows, now, limit, keys)
    {
      keys := [];
      var todo := set k | k in rows && Claimable(rows[k], now);
      while todo != {} && |keys| < limit
        invariant Ascending(rows, keys) && |keys| <= limit
        invariant forall k :: k in rows && Claimable(rows[k], now) <==> k in todo || k in keys
        invariant forall i, k :: 0 <= i < |keys| && k in todo ==> Before(rows, keys[i], k)
        decreases |todo|
      {
        var k := First(todo);
        keys := keys + [k];
        todo := todo - {k};
      }
    }

    method ClaimReady(limit: nat, seconds: nat, lease: nat, now: int) returns (claimed: seq<Item>, ghost keys: seq<Key>)
      modifies this
      ensures Selected(old(rows), now, limit, keys) && Items(claimed, old(rows), keys, lease)
      ensures rows == Leased(old(rows), SetOf(keys), lease, now + seconds)
      ensures forall i :: 0 <= i < |keys| ==> HandsOut(old(rows), rows, keys[i], lease, now + seconds, claimed[i])
      ensures rows.Keys == old(rows).Keys && forall k :: k in rows && k !in keys ==> rows[k] == old(rows)[k]
    {
      var selected := Select(now, limit);
      keys := selected;
      claimed := [];
      for i := 0 to |selected|
        invariant Items(claimed, old(rows), selected[..i], lease)
        invariant rows == Leased(old(rows), SetOf(selected[..i]), lease, now + seconds)
      {
        var k := selected[i];
        ClaimNext(claimed, old(rows), rows, selected, i, lease, now + seconds);
        claimed := claimed + [ItemFor(k, rows[k], lease)];
        rows := Leased(rows, {k}, lease, now + seconds);
      }
      assert selected[..|selected|] == selected;
      AllHandedOut(old(rows), selected, claimed, lease, now + seconds);
    }

    method Complete(item: Item, succeeded: bool, permanent: bool, now: int)
      modifies this
      ensures rows == Completed(old(rows), item.key, item.lease, succeeded || permanent, now)
      ensures rows.Keys == old(rows).Keys && forall k :: k in rows && k != item.key ==> rows[k] == old(rows)[k]
      ensures item.key in rows ==>
                var was := old(rows)[item.key];
                rows[item.key] ==
                  if was.lease != item.lease then was
                  else Row(was.order, if succeeded || permanent then Succeeded else Ready, NO_LEASE, now, was.attempts,
                           was.payload)
    {
      if item.key in rows && rows[item.key].lease == item.lease {
        var status := if succeeded || permanent then Succeeded else Ready;
        rows := rows[item.key := rows[item.key].(status := status, lease := NO_LEASE, updatedAt := now)];
      }
    }

    /** Messages with prepared rows are looked up once; each verdict is then carried out. */
    method RecoverPrepared(verdict: Msg -> Option<bool>, now: int) returns (recovered: nat)
      modifies this
      ensures Recovered(old(rows), rows, verdict, now)
      ensures recovered == |AdmittedOf(PreparedMessages(old(rows)), verdict)|
    {
      var todo := PreparedMessages(rows);
      ghost var found := todo;
      recovered := 0;
      assert found - todo == {} && AdmittedOf({}, verdict) == {};
      while todo != {}
        invariant todo <= found && recovered == |AdmittedOf(found - todo, verdict)|
        invariant Recovering(old(rows), rows, found, todo, verdict, now)
        decreases |todo|
      {
        var m :| m in todo;
        RecoverOne(old(rows), rows, found, todo, verdict, now, m);
        AdmittedOneMore(found, todo, verdict, m);
        match verdict(m) {
          case None =>
          case Some(true) =>
            MarkReady(m, now);
            recovered := recovered + 1;
          case Some(false) =>
            Cancel(m);
        }
        todo := todo - {m};
      }
      assert found - todo == found;
      RecoveredAll(old(rows), rows, verdict, now);
    }

    /** One of the succeeded rows that were updated first. */
    method Oldest(among: set<Key>) returns (k: Key)
      requires among != {} && among <= rows.Keys
      ensures k in among && forall j :: j in among ==> rows[k].updatedAt <= rows[j].updatedAt
    {
      k :| k in among;
      var todo := among;
      while todo != {}
        invariant todo <= among && k in among
        invariant forall j :: j in among - todo ==> rows[k].updatedAt <= rows[j].updatedAt
        decreases |todo|
      {
        var j :| j in todo;
        if rows[j].updatedAt < rows[k].updatedAt {
          k := j;
        }
        todo := todo - {j};
      }
    }

    /** Forgets succeeded rows from before `cutoff`; `left` are the others. */
    method RemoveOld(cutoff: int, ghost keep: nat) returns (removed: nat, ghost gone: set<Key>, left: set<Key>)
      modifies this
      ensures Trimmed(old(rows), gone, left, cutoff, keep) && rows == Without(old(rows), gone) && removed == |gone|
    {
      var stale := set k | k in rows && rows[k].status == Succeeded && rows[k].updatedAt < cutoff;
      gone, removed := stale, |stale|;
      left := set k | k in rows && rows[k].status == Succeeded && rows[k].updatedAt >= cutoff;
      rows := Without(rows, stale);
    }

    method PruneSucceeded(cutoff: int, keep: nat) returns (removed: nat, ghost gone: set<Key>)
      modifies this
      ensures Prunable(old(rows), gone, cutoff, keep) && rows == Without(old(rows), gone) && removed == |gone|
    {
      var left;
      removed, gone, left := RemoveOld(cutoff, keep);
      var more;
      ghost var trimmed;
      more, trimmed := Trim(left, cutoff, keep, old(rows), gone);
      removed, gone := removed + more, trimmed;
    }

    /** Forgets the oldest succeeded rows while there are more than `keep`. */
    method Trim(left: set<Key>, cutoff: int, keep: nat, ghost start: Table, ghost forgotten: set<Key>)
      returns (removed: nat, ghost gone: set<Key>)
      requires Trimmed(start, forgotten, left, cutoff, keep) && rows == Without(start, forgotten)
      modifies this
      ensures Prunable(start, gone, cutoff, keep) && rows == Without(start, gone)
      ensures |gone| == |forgotten| + removed
    {
      var left := left;
      gone, removed := forgotten, 0;
      while |left| > keep
        invariant rows == Without(start, gone) && Trimmed(start, gone, left, cutoff, keep)
        invariant |gone| == |forgotten| + removed
        decreases |left|
      {
        LeftAreRows(start, gone, left, cutoff, keep);
        var k := Oldest(left);
        TrimOne(start, gone, left, cutoff, keep, k);
        WithoutMore(start, gone, k);
        rows := Without(rows, {k});
        assert k !in gone;
        gone, left, removed := gone + {k}, left - {k}, removed + 1;
      }
      TrimmedIsPrunable(start, gone, left, cutoff, keep);
    }

    /** One round of work. `outcome` is what the handlers make of the items; `stop` is the
        item at which the round is cancelled, if it is, and cancellation returns every
        item that was claimed. */
    method Process(limit: nat, lease: nat, now: int, outcome: Item -> Outcome, stop: Option<nat>, cutoff: int, keep: nat)
      returns (processed: Option<nat>, ghost round: Round)
      requires lease != NO_LEASE
      modifies this
      ensures Selected(old(rows), now, limit, round.keys) && Items(round.items, old(rows), round.keys, lease)
      ensures processed.None? <==> stop.Some? && stop.value <= |round.items|
      ensures processed.None? ==>
                Came(old(rows), rows, round.items, SettledPlan(round.items, stop.value, outcome), now)
      ensures processed.Some? ==>
                && Came(old(rows), round.settled, round.items, SettledPlan(round.items, |round.items|, outcome), now)
                && Prunable(round.settled, round.gone, cutoff, keep) && rows == Without(round.settled, round.gone)
                && processed.value == CountHandled(round.items, outcome)
    {
      var claimed;
      ghost var keys;
      claimed, keys := ClaimReady(limit, LEASE_SECONDS, lease, now);
      ClaimedItems(old(rows), keys, claimed, lease, now, outcome);
      var done, count := Work(claimed, outcome, stop, now, old(rows));
      round := Round(keys, claimed, rows, {});
      if stop == Some(done) {
        Release(claimed, now, old(rows), WorkPlan(claimed, done, outcome), done, outcome);
        return None, round;
      }
      WorkIsSettled(claimed, outcome);
      assert claimed[..done] == claimed;
      var _, gone := PruneSucceeded(cutoff, keep);
      round := round.(gone := gone);
      processed := Some(count);
    }

    /** Hands the items to their handlers, up to the one where the round is cancelled. */
    method Work(claimed: seq<Item>, outcome: Item -> Outcome, stop: Option<nat>, now: int, ghost start: Table)
      returns (done: nat, count: nat)
      requires Working(start, rows, claimed, 0, outcome, now)
      modifies this
      ensures done <= |claimed| && (stop == Some(done) <==> stop.Some? && stop.value <= |claimed|)
      ensures stop != Some(done) ==> done == |claimed|
      ensures Working(start, rows, claimed, done, outcome, now) && count == CountHandled(claimed[..done], outcome)
    {
      done := if stop.Some? && stop.value <= |claimed| then stop.value else |claimed|;
      count := 0;
      for i := 0 to done
        invariant Working(start, rows, claimed, i, outcome, now) && count == CountHandled(claimed[..i], outcome)
      {
        var handled := HandOver(claimed, i, outcome, now, start);
        CountOne(claimed, i, outcome);
        count := if handled then count + 1 else count;
      }
    }

    /** One item, whose handler may be missing. */
    method HandOver(claimed: seq<Item>, n: nat, outcome: Item -> Outcome, now: int, ghost start: Table)
      returns (handled: bool)
      requires n < |claimed| && Working(start, rows, claimed, n, outcome, now)
      modifies this
      ensures Working(start, rows, claimed, n + 1, outcome, now) && handled == (outcome(claimed[n]) != NoHandler)
    {
      var o := outcome(claimed[n]);
      WorkOne(start, rows, claimed, n, outcome, now, o == Succeeds || o == NoHandler);
      Complete(claimed[n], o == Succeeds, o == NoHandler, now);
      handled := o != NoHandler;
    }

    /** Cancellation gives back all items; those that are finished are not touched. */
    method Release(claimed: seq<Item>, now: int, ghost start: Table, ghost plan: seq<Progress>, ghost n: nat,
                   ghost outcome: Item -> Outcome)
      requires n <= |claimed| && plan == WorkPlan(claimed, n, outcome) && Came(start, rows, claimed, plan, now)
      modifies this
      ensures Came(start, rows, claimed, SettledPlan(claimed, n, outcome), now)
    {
      ghost var plan := plan;
      for j := 0 to |claimed|
        invariant Came(start, rows, claimed, plan, now)
        invariant forall i :: 0 <= i < |claimed| ==>
                    plan[i] == if i < j then SettledPlan(claimed, n, outcome)[i] else WorkPlan(claimed, n, outcome)[i]
      {
        if plan[j] == InHand {
          CompleteHeld(start, rows, claimed, plan, now, j, false);
          plan := plan[j := Over(false)];
        } else {
          CompleteFinished(start, rows, claimed, plan, now, j);
        }
        Complete(claimed[j], false, false, now);
      }
      assert plan == SettledPlan(claimed, n, outcome);
    }
  }

  // ---- One round of work ----

  const LEASE_SECONDS: nat := 300

  datatype Outcome = Succeeds | Fails | NoHandler

  /** What one round did: the rows it claimed, the table once they were dealt with, and the
      rows it then forgot. */
  datatype Round = Round(keys: seq<Key>, items: seq<Item>, settled: Table, gone: set<Key>)

  /** How far an item has come. */
  datatype Progress = InHand | Over(done: bool)

  function Progressed(r: Row, item: Item, p: Progress, now: int): Row {
    match p
    case InHand =>
      r.(status := Processing, lease := item.lease, attempts := r.attempts + 1, updatedAt := now + LEASE_SECONDS)
    case Over(done) =>
      r.(status := if done then Succeeded else Ready, lease := NO_LEASE, attempts := r.attempts + 1, updatedAt := now)
  }

  /** `rows` came from `start` by claiming `items`, each of which is as far as `plan` says. */
  ghost predicate Came(start: Table, rows: Table, items: seq<Item>, plan: seq<Progress>, now: int) {
    && rows.Keys == start.Keys && |plan| == |items|
    && (forall i, j :: 0 <= i < j < |items| ==> items[i].key != items[j].key)
    && (forall i :: 0 <= i < |items| ==>
          && items[i].key in rows && items[i].lease != NO_LEASE
          && rows[items[i].key] == Progressed(start[items[i].key], items[i], plan[i], now))
    && (forall k :: k in rows && (forall i :: 0 <= i < |items| ==> items[i].key != k) ==> rows[k] == start[k])
  }

  /** The first `n` items are over, the others in hand. */
  function WorkPlan(items: seq<Item>, n: nat, outcome: Item -> Outcome): (p: seq<Progress>)
    ensures |p| == |items|
  {
    seq(|items|, i requires 0 <= i < |items| => if i < n then Over(outcome(items[i]) != Fails) else InHand)
  }

  /** All items are given up: those before `n` as their handlers said, the others undone. */
  function SettledPlan(items: seq<Item>, n: nat, outcome: Item -> Outcome): (p: seq<Progress>)
    ensures |p| == |items|
  {
    seq(|items|, i requires 0 <= i < |items| => Over(i < n && outcome(items[i]) != Fails))
  }

  /** What a round leaves of a row it claimed: succeeded if its handler did not fail, also if
      there was none, and ready again if it failed or the round was cancelled before it. */
  lemma {:induction false} RoundSettles(
    start: Table, rows: Table, items: seq<Item>, n: nat, outcome: Item -> Outcome, now: int, i: nat)
    requires Came(start, rows, items, SettledPlan(items, n, outcome), now) && i < |items|
    ensures var k := items[i].key;
            && k in rows && k in start
            && rows[k] == Row(start[k].order, if i < n && outcome(items[i]) != Fails then Succeeded else Ready, NO_LEASE,
                              now, start[k].attempts + 1, start[k].payload)
  {
  }

  /** The items that had a handler. */
  function CountHandled(items: seq<Item>, outcome: Item -> Outcome): (n: nat)
    ensures n <= |items|
  {
    if items == [] then 0
    else CountHandled(items[..|items| - 1], outcome) + (if outcome(items[|items| - 1]) == NoHandler then 0 else 1)
  }

  lemma {:induction false} CountOne(items: seq<Item>, n: nat, outcome: Item -> Outcome)
    requires n < |items|
    ensures CountHandled(items[..n + 1], outcome) ==
            CountHandled(items[..n], outcome) + (if outcome(items[n]) == NoHandler then 0 else 1)
  {
    assert items[..n + 1][..n] == items[..n];
  }

  lemma {:induction false} WorkIsSettled(items: seq<Item>, outcome: Item -> Outcome)
    ensures WorkPlan(items, |items|, outcome) == SettledPlan(items, |items|, outcome)
  {
  }

  lemma {:induction false} ClaimedItems(rows: Table, keys: seq<Key>, items: seq<Item>, lease: nat, now: int,
                     outcome: Item -> Outcome)
    requires Ascending(rows, keys) && Items(items, rows, keys, lease) && lease != NO_LEASE
    ensures Working(rows, Leased(rows, SetOf(keys), lease, now + LEASE_SECONDS), items, 0, outcome, now)
  {
    forall i, j | 0 <= i < j < |items| ensures items[i].key != items[j].key {
      BeforeIsOrder(rows, keys[i], keys[j], keys[j]);
    }
    forall k | k in keys ensures exists i :: 0 <= i < |items| && items[i].key == k {
      var i :| 0 <= i < |keys| && keys[i] == k;
      assert items[i].key == k;
    }
  }

  /** The holder of an item finishes it. */
  lemma {:induction false} CompleteHeld(
      start: Table, rows: Table, items: seq<Item>, plan: seq<Progress>, now: int, i: nat, done: bool)
    requires Came(start, rows, items, plan, now) && i < |items| && plan[i] == InHand
    ensures Came(start, Completed(rows, items[i].key, items[i].lease, done, now), items, plan[i := Over(done)], now)
  {
  }

  ghost predicate Working(start: Table, rows: Table, items: seq<Item>, n: nat, outcome: Item -> Outcome, now: int) {
    Came(start, rows, items, WorkPlan(items, n, outcome), now)
  }

  lemma {:induction false} WorkOne(
      start: Table, rows: Table, items: seq<Item>, n: nat, outcome: Item -> Outcome, now: int, done: bool)
    requires n < |items| && Working(start, rows, items, n, outcome, now) && done == (outcome(items[n]) != Fails)
    ensures Working(start, Completed(rows, items[n].key, items[n].lease, done, now), items, n + 1, outcome, now)
  {
    CompleteHeld(start, rows, items, WorkPlan(items, n, outcome), now, n, done);
    assert WorkPlan(items, n, outcome)[n := Over(done)] == WorkPlan(items, n + 1, outcome);
  }

  /** An item that is over cannot be completed again. */
  lemma {:induction false} CompleteFinished(
      start: Table, rows: Table, items: seq<Item>, plan: seq<Progress>, now: int, i: nat)
    requires Came(start, rows, items, plan, now) && i < |items| && plan[i].Over?
    ensures Completed(rows, items[i].key, items[i].lease, false, now) == rows
  {
  }

  /** Pruning under way: `left` are the succeeded rows still there. */
  ghost predicate Trimmed(rows: Table, gone: set<Key>, left: set<Key>, cutoff: int, keep: nat) {
    && gone !! left
    && (forall k :: k in gone || k in left <==> k in rows && rows[k].status == Succeeded)
    && (forall l :: l in left ==> rows[l].updatedAt >= cutoff)
    && (forall g, l :: g in gone && l in left && rows[g].updatedAt >= cutoff ==>
          |left| >= keep && rows[g].updatedAt <= rows[l].updatedAt)
  }

  lemma {:induction false} LeftAreRows(rows: Table, gone: set<Key>, left: set<Key>, cutoff: int, keep: nat)
    requires Trimmed(rows, gone, left, cutoff, keep)
    ensures left <= Without(rows, gone).Keys && forall l :: l in left ==> Without(rows, gone)[l] == rows[l]
  {
  }

  lemma {:induction false} WithoutMore(rows: Table, gone: set<Key>, k: Key)
    ensures Without(Without(rows, gone), {k}) == Without(rows, gone + {k})
  {
  }

  lemma {:induction false} TrimOne(rows: Table, gone: set<Key>, left: set<Key>, cutoff: int, keep: nat, k: Key)
    requires Trimmed(rows, gone, left, cutoff, keep) && |left| > keep && k in left
    requires forall l :: l in left ==> rows[k].updatedAt <= rows[l].updatedAt
    ensures Trimmed(rows, gone + {k}, left - {k}, cutoff, keep)
  {
  }

  lemma {:induction false} TrimmedIsPrunable(rows: Table, gone: set<Key>, left: set<Key>, cutoff: int, keep: nat)
    requires Trimmed(rows, gone, left, cutoff, keep) && |left| <= keep
    ensures Prunable(rows, gone, cutoff, keep)
  {
    assert left == set k | k in rows && k !in gone && rows[k].status == Succeeded;
  }

  lemma {:induction false} InsertOne(rows: Table, m: Msg, some: set<Effect>, e: Effect, row: Row)
    ensures var k, now := Key(m, e), WithPrepared(rows, m, some, row);
            WithPrepared(rows, m, some + {e}, row) == if k in now then now else now[k := row]
    ensures AddsRow(rows, m, some + {e}) <==> AddsRow(rows, m, some) || Key(m, e) !in WithPrepared(rows, m, some, row)
  {
    var k, now, next := Key(m, e), WithPrepared(rows, m, some, row), WithPrepared(rows, m, some + {e}, row);
    if k in now {
      assert now.Keys == next.Keys;
      assert now == next;
    } else {
      assert now[k := row] == next;
    }
    if AddsRow(rows, m, some) {
      var x :| x in some && Key(m, x) !in rows;
      assert x in some + {e};
    } else if k !in now {
      assert e in some + {e} && Key(m, e) !in rows;
    }
  }

  /** One turn of the claiming loop. */
  lemma {:induction false} ClaimNext(
    items: seq<Item>, rows: Table, now: Table, keys: seq<Key>, i: nat, lease: nat, until: int)
    requires Ascending(rows, keys) && i < |keys| && Items(items, rows, keys[..i], lease)
    requires now == Leased(rows, SetOf(keys[..i]), lease, until)
    ensures keys[i] in now && Items(items + [ItemFor(keys[i], now[keys[i]], lease)], rows, keys[..i + 1], lease)
    ensures Leased(now, {keys[i]}, lease, until) == Leased(rows, SetOf(keys[..i + 1]), lease, until)
  {
    ClaimOne(rows, keys, i, lease, until);
    ItemsMore(items, rows, keys, i, lease);
  }

  lemma {:induction false} ItemsMore(items: seq<Item>, rows: Table, keys: seq<Key>, i: nat, lease: nat)
    requires Ascending(rows, keys) && i < |keys| && Items(items, rows, keys[..i], lease)
    ensures Items(items + [ItemFor(keys[i], rows[keys[i]], lease)], rows, keys[..i + 1], lease)
  {
  }

  lemma {:induction false} ClaimOne(rows: Table, keys: seq<Key>, i: nat, lease: nat, until: int)
    requires Ascending(rows, keys) && i < |keys|
    ensures var leased := Leased(rows, SetOf(keys[..i]), lease, until);
            && keys[i] in leased && leased[keys[i]] == rows[keys[i]]
            && Leased(leased, {keys[i]}, lease, until) == Leased(rows, SetOf(keys[..i + 1]), lease, until)
  {
    forall j | 0 <= j < i ensures keys[j] != keys[i] { BeforeIsOrder(rows, keys[j], keys[i], keys[i]); }
    assert keys[i] !in keys[..i];
    assert SetOf(keys[..i + 1]) == SetOf(keys[..i]) + {keys[i]};
  }
}
