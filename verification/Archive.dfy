/** The archive index: batches of archived events, what each one holds, and how far it has
    come. */
module Archive {
  import opened Text

  datatype State = Prepared | Committed | ExportDegraded | SoftDeleted

  /** `committedAt` is 0 until the batch is committed for the first time. */
  datatype Batch = Batch(
    operation: string, chat: string, state: State, cutoff: int, hash: int, turnCount: nat, eventCount: nat,
    createdAt: int, committedAt: int)

  datatype TurnRow = TurnRow(batch: string, turn: string)

  datatype EventRow = EventRow(batch: string, chat: string, event: string, turn: string)

  datatype Index = Index(batches: map<string, Batch>, turns: set<TurnRow>, events: set<EventRow>)

  datatype Failure = NoIdentity | Collision | Constraint | NoBatch

  datatype Result<+T> = Ok(value: T) | Err(error: Failure)

  // ---- Preparing a batch ----

  /** Repeated pairs count once. */
  function Normalized<T(==, !new)>(pairs: seq<T>): (r: seq<T>)
    ensures forall p :: p in r <==> p in pairs
  {
    if pairs == [] then []
    else
      var before := Normalized(pairs[..|pairs| - 1]);
      var last := pairs[|pairs| - 1];
      assert pairs == pairs[..|pairs| - 1] + [last];
      if last in before then before else before + [last]
  }

  function EventSet(pairs: seq<(string, string)>): set<string> {
    set p | p in pairs :: p.0
  }

  function EventsOf(rows: set<EventRow>, batch: string): set<string> {
    set r | r in rows && r.batch == batch :: r.event
  }

  /** The keys of the event table: an event once in a batch, and once in a chat. */
  predicate Clashes(rows: set<EventRow>, row: EventRow) {
    exists r :: r in rows && r.event == row.event && (r.batch == row.batch || r.chat == row.chat)
  }

  function InsertEvents(rows: set<EventRow>, batch: string, chat: string, pairs: seq<(string, string)>): Option<set<EventRow>>
    decreases |pairs|
  {
    if pairs == [] then Some(rows)
    else
      var row := EventRow(batch, chat, pairs[0].0, pairs[0].1);
      if Clashes(rows, row) then None else InsertEvents(rows + {row}, batch, chat, pairs[1..])
  }

  function InsertTurns(rows: set<TurnRow>, batch: string, turns: seq<string>): Option<set<TurnRow>>
    decreases |turns|
  {
    if turns == [] then Some(rows)
    else
      var row := TurnRow(batch, turns[0]);
      if row in rows then None else InsertTurns(rows + {row}, batch, turns[1..])
  }

  /** What is to be archived. `events` are pairs of event and turn. */
  datatype Request = Request(
    batch: string, operation: string, chat: string, cutoff: int, turns: seq<string>, events: seq<(string, string)>)

  function NewBatch(digest: set<string> -> int, r: Request, now: int): Batch {
    var events := Normalized(r.events);
    Batch(r.operation, r.chat, Prepared, r.cutoff, digest(EventSet(events)), |r.turns|, |events|, now, 0)
  }

  /** The index and the batch that is reported; on failure nothing changes. */
  function AfterPrepare(digest: set<string> -> int, ix: Index, r: Request, now: int): Result<(Index, Batch)> {
    var events := Normalized(r.events);
    if r.batch == "" || r.operation == "" || r.chat == "" then Err(NoIdentity)
    else if r.batch in ix.batches then
      var b := ix.batches[r.batch];
      if b.chat != r.chat || b.hash != digest(EventSet(events)) || b.operation != r.operation then Err(Collision)
      else Ok((ix, b))
    else
      var b := NewBatch(digest, r, now);
      match (InsertTurns(ix.turns, r.batch, r.turns), InsertEvents(ix.events, r.batch, r.chat, events))
      case (Some(turns), Some(rows)) => Ok((Index(ix.batches[r.batch := b], turns, rows), b))
      case _ => Err(Constraint)
  }

  // ---- Moving a batch on ----

  /** A state that is not left for the one asked for. */
  predicate Stays(now: State, asked: State) {
    || (now == SoftDeleted && asked != SoftDeleted)
    || (now == ExportDegraded && asked == Prepared)
    || (now == Committed && asked == Prepared)
  }

  function Marked(b: Batch, asked: State, now: int): Batch {
    if Stays(b.state, asked) then b
    else b.(state := asked, committedAt := if asked == Committed && b.committedAt == 0 then now else b.committedAt)
  }

  function AfterMark(ix: Index, batch: string, asked: State, now: int): Result<(Index, Batch)> {
    if batch !in ix.batches then Err(NoBatch)
    else
      var b := Marked(ix.batches[batch], asked, now);
      Ok((ix.(batches := ix.batches[batch := b]), b))
  }

  function CommittedEvents(ix: Index, chat: string): set<string> {
    set r | r in ix.events && r.batch in ix.batches && ix.batches[r.batch].chat == chat
            && ix.batches[r.batch].committedAt > 0 :: r.event
  }

  // ---- What is stored, and when it is refused ----

  function RowsFor(batch: string, chat: string, pairs: seq<(string, string)>): set<EventRow> {
    set p | p in pairs :: EventRow(batch, chat, p.0, p.1)
  }

  function TurnsFor(batch: string, turns: seq<string>): set<TurnRow> {
    set t | t in turns :: TurnRow(batch, t)
  }

  /** No event comes with two different turns, and none is in the batch or the chat yet. */
  ghost predicate NewEvents(rows: set<EventRow>, batch: string, chat: string, pairs: seq<(string, string)>) {
    && (forall p, q :: p in pairs && q in pairs && p.0 == q.0 ==> p == q)
    && (forall r :: r in rows && (r.batch == batch || r.chat == chat) ==> forall p :: p in pairs ==> p.0 != r.event)
  }

  predicate Unrepeated<T(==)>(ts: seq<T>) {
    forall i, j :: 0 <= i < j < |ts| ==> ts[i] != ts[j]
  }

  ghost predicate NewTurns(rows: set<TurnRow>, batch: string, turns: seq<string>) {
    Unrepeated(turns) && forall t :: t in turns ==> TurnRow(batch, t) !in rows
  }

  lemma {:induction false} FirstApart<T>(ts: seq<T>)
    requires ts != []
    ensures Unrepeated(ts) <==> ts[0] !in ts[1..] && Unrepeated(ts[1..])
    ensures forall t :: t in ts <==> t == ts[0] || t in ts[1..]
  {
    assert ts == [ts[0]] + ts[1..];
    if ts[0] !in ts[1..] && Unrepeated(ts[1..]) {
      assert forall i :: 1 <= i < |ts| ==> ts[i] == ts[1..][i - 1] && ts[i] in ts[1..];
    }
  }

  lemma {:induction false} NormalizedIsUnrepeated<T(!new)>(pairs: seq<T>)
    ensures Unrepeated(Normalized(pairs))
  {
    if pairs != [] { NormalizedIsUnrepeated(pairs[..|pairs| - 1]); }
  }

  lemma {:induction false} TurnsInserted(rows: set<TurnRow>, batch: string, turns: seq<string>)
    ensures InsertTurns(rows, batch, turns) ==
            if NewTurns(rows, batch, turns) then Some(rows + TurnsFor(batch, turns)) else None
    decreases |turns|
  {
    if turns == [] {
      assert TurnsFor(batch, turns) == {} && rows + {} == rows;
    } else {
      var row := TurnRow(batch, turns[0]);
      FirstApart(turns);
      TurnsInserted(rows + {row}, batch, turns[1..]);
      assert TurnsFor(batch, turns) == {row} + TurnsFor(batch, turns[1..]);
      assert rows + {row} + TurnsFor(batch, turns[1..]) == rows + TurnsFor(batch, turns);
    }
  }

  lemma {:induction false} NewEventsFirst(rows: set<EventRow>, batch: string, chat: string, pairs: seq<(string, string)>)
    requires pairs != [] && Unrepeated(pairs)
    ensures var row := EventRow(batch, chat, pairs[0].0, pairs[0].1);
            NewEvents(rows, batch, chat, pairs)
            <==> !Clashes(rows, row) && NewEvents(rows + {row}, batch, chat, pairs[1..])
  {
    var row := EventRow(batch, chat, pairs[0].0, pairs[0].1);
    FirstApart(pairs);
    assert pairs[0] in pairs && row in rows + {row};
    if !Clashes(rows, row) && NewEvents(rows + {row}, batch, chat, pairs[1..]) {
      assert forall p :: p in pairs[1..] ==> p.0 != row.event;
    }
  }

  lemma {:induction false} EventsInserted(rows: set<EventRow>, batch: string, chat: string, pairs: seq<(string, string)>)
    requires Unrepeated(pairs)
    ensures InsertEvents(rows, batch, chat, pairs) ==
            if NewEvents(rows, batch, chat, pairs) then Some(rows + RowsFor(batch, chat, pairs)) else None
    decreases |pairs|
  {
    if pairs == [] {
      assert RowsFor(batch, chat, pairs) == {} && rows + {} == rows;
    } else {
      var row := EventRow(batch, chat, pairs[0].0, pairs[0].1);
      FirstApart(pairs);
      NewEventsFirst(rows, batch, chat, pairs);
      EventsInserted(rows + {row}, batch, chat, pairs[1..]);
      assert RowsFor(batch, chat, pairs) == {row} + RowsFor(batch, chat, pairs[1..]);
      assert rows + {row} + RowsFor(batch, chat, pairs[1..]) == rows + RowsFor(batch, chat, pairs);
    }
  }

  /** What a request comes to, told from the index and the request alone. */
  ghost predicate Prepares(digest: set<string> -> int, ix: Index, r: Request, now: int, after: Index, b: Result<Batch>) {
    var hash := digest(EventSet(r.events));
    if r.batch == "" || r.operation == "" || r.chat == "" then b == Err(NoIdentity) && after == ix
    else if r.batch in ix.batches then
      var was := ix.batches[r.batch];
      && after == ix
      && b == if was.chat == r.chat && was.hash == hash && was.operation == r.operation then Ok(was) else Err(Collision)
    else if NewTurns(ix.turns, r.batch, r.turns) && NewEvents(ix.events, r.batch, r.chat, r.events) then
      && b.Ok?
      && b.value == Batch(r.operation, r.chat, Prepared, r.cutoff, hash, |r.turns|, |EventSet(r.events)|, now, 0)
      && after == Index(ix.batches[r.batch := b.value], ix.turns + TurnsFor(r.batch, r.turns),
                        ix.events + RowsFor(r.batch, r.chat, r.events))
    else b == Err(Constraint) && after == ix
  }

  lemma {:induction false} EventSetFirst(pairs: seq<(string, string)>)
    requires pairs != []
    ensures EventSet(pairs) == {pairs[0].0} + EventSet(pairs[1..])
  {
    assert pairs == [pairs[0]] + pairs[1..];
  }

  lemma {:induction false} SameMembers(rows: set<EventRow>, r: Request, pairs: seq<(string, string)>)
    requires forall p :: p in pairs <==> p in r.events
    ensures EventSet(pairs) == EventSet(r.events) && RowsFor(r.batch, r.chat, pairs) == RowsFor(r.batch, r.chat, r.events)
    ensures NewEvents(rows, r.batch, r.chat, pairs) <==> NewEvents(rows, r.batch, r.chat, r.events)
  {
    assert forall x :: x in EventSet(pairs) <==> x in EventSet(r.events);
    assert forall x :: x in RowsFor(r.batch, r.chat, pairs) <==> x in RowsFor(r.batch, r.chat, r.events);
  }

  /** Events that come with one turn each are counted once. */
  lemma {:induction false} EachEventOnce(pairs: seq<(string, string)>)
    requires Unrepeated(pairs) && forall p, q :: p in pairs && q in pairs && p.0 == q.0 ==> p == q
    ensures |EventSet(pairs)| == |pairs|
    decreases |pairs|
  {
    if pairs == [] {
      assert EventSet(pairs) == {};
    } else {
      FirstApart(pairs);
      EventSetFirst(pairs);
      EachEventOnce(pairs[1..]);
      assert pairs[0].0 !in EventSet(pairs[1..]);
    }
  }

  lemma {:induction false} AfterPrepareIs(digest: set<string> -> int, ix: Index, r: Request, now: int)
    ensures match AfterPrepare(digest, ix, r, now)
            case Ok((after, made)) => Prepares(digest, ix, r, now, after, Ok(made))
            case Err(e) => Prepares(digest, ix, r, now, ix, Err(e))
  {
    var pairs := Normalized(r.events);
    NormalizedIsUnrepeated(r.events);
    SameMembers(ix.events, r, pairs);
    TurnsInserted(ix.turns, r.batch, r.turns);
    EventsInserted(ix.events, r.batch, r.chat, pairs);
    if NewEvents(ix.events, r.batch, r.chat, pairs) { EachEventOnce(pairs); }
  }

  // ---- The index ----

  class ArchiveIndex {
    var batches: map<string, Batch>
    var turns: set<TurnRow>
    var events: set<EventRow>
    const digest: set<string> -> int

    function Value(): Index
      reads this
    {
      Index(batches, turns, events)
    }

    constructor (digest: set<string> -> int)
      ensures this.digest == digest && Value() == Index(map[], {}, {})
    {
      this.digest := digest;
      batches, turns, events := map[], {}, {};
    }

    method Normalize(pairs: seq<(string, string)>) returns (r: seq<(string, string)>)
      ensures r == Normalized(pairs)
    {
      r := [];
      for i := 0 to |pairs|
        invariant r == Normalized(pairs[..i])
      {
        assert pairs[..i + 1][..i] == pairs[..i];
        if pairs[i] !in r {
          r := r + [pairs[i]];
        }
      }
      assert pairs[..|pairs|] == pairs;
    }

    method WriteTurns(batch: string, ids: seq<string>) returns (ok: bool)
      modifies this`turns
      ensures ok == InsertTurns(old(turns), batch, ids).Some?
      ensures ok ==> turns == InsertTurns(old(turns), batch, ids).value
    {
      ghost var start := turns;
      for i := 0 to |ids|
        invariant InsertTurns(turns, batch, ids[i..]) == InsertTurns(start, batch, ids)
      {
        assert ids[i..][0] == ids[i] && ids[i..][1..] == ids[i + 1..];
        var row := TurnRow(batch, ids[i]);
        if row in turns {
          return false;
        }
        turns := turns + {row};
      }
      ok := true;
    }

    method WriteEvents(batch: string, chat: string, pairs: seq<(string, string)>) returns (ok: bool)
      modifies this`events
      ensures ok == InsertEvents(old(events), batch, chat, pairs).Some?
      ensures ok ==> events == InsertEvents(old(events), batch, chat, pairs).value
    {
      ghost var start := events;
      for i := 0 to |pairs|
        invariant InsertEvents(events, batch, chat, pairs[i..]) == InsertEvents(start, batch, chat, pairs)
      {
        assert pairs[i..][0] == pairs[i] && pairs[i..][1..] == pairs[i + 1..];
        var row := EventRow(batch, chat, pairs[i].0, pairs[i].1);
        if Clashes(events, row) {
          return false;
        }
        events := events + {row};
      }
      ok := true;
    }

    /** One transaction: a constraint that fails takes everything back. */
    method PrepareBatch(r: Request, now: int) returns (b: Result<Batch>)
      modifies this
      ensures match AfterPrepare(digest, old(Value()), r, now)
              case Ok((after, made)) => b == Ok(made) && Value() == after
              case Err(e) => b == Err(e) && Value() == old(Value())
      ensures Prepares(digest, old(Value()), r, now, Value(), b)
    {
      AfterPrepareIs(digest, Value(), r, now);
      if r.batch == "" || r.operation == "" || r.chat == "" {
        return Err(NoIdentity);
      }
      var pairs := Normalize(r.events);
      var hash := digest(EventSet(pairs));
      if r.batch in batches {
        var existing := batches[r.batch];
        if existing.chat != r.chat || existing.hash != hash || existing.operation != r.operation {
          return Err(Collision);
        }
        return Ok(existing);
      }
      var was := (batches, turns, events);
      var made := Batch(r.operation, r.chat, Prepared, r.cutoff, hash, |r.turns|, |pairs|, now, 0);
      batches := batches[r.batch := made];
      var written := WriteTurns(r.batch, r.turns);
      if written {
        written := WriteEvents(r.batch, r.chat, pairs);
      }
      if !written {
        batches, turns, events := was.0, was.1, was.2;
        return Err(Constraint);
      }
      b := Ok(made);
    }

    method MarkState(batch: string, asked: State, now: int) returns (b: Result<Batch>)
      modifies this
      ensures match AfterMark(old(Value()), batch, asked, now)
              case Ok((after, made)) => b == Ok(made) && Value() == after
              case Err(e) => b == Err(e) && Value() == old(Value())
    {
      if batch !in batches {
        return Err(NoBatch);
      }
      var current := batches[batch];
      if current.state == SoftDeleted && asked != SoftDeleted {
        return Ok(current);
      }
      if current.state == ExportDegraded && asked == Prepared {
        return Ok(current);
      }
      if current.state == Committed && asked == Prepared {
        return Ok(current);
      }
      var committedAt := current.committedAt;
      if asked == Committed && committedAt == 0 {
        committedAt := now;
      }
      var made := current.(state := asked, committedAt := committedAt);
      batches := batches[batch := made];
      b := Ok(made);
    }
  }

  // ---- What every operation keeps ----

  /** No event of a chat is in two batches. */
  predicate Partitioned(ix: Index) {
    forall a, b :: a in ix.events && b in ix.events && a.chat == b.chat && a.event == b.event ==> a == b
  }

  /** A batch's rows belong to its chat; their number and hash are what it says. */
  ghost predicate Matches(digest: set<string> -> int, ix: Index, batch: string) {
    && batch in ix.batches
    && (forall r :: r in ix.events && r.batch == batch ==> r.chat == ix.batches[batch].chat)
    && ix.batches[batch].eventCount == |EventsOf(ix.events, batch)|
    && ix.batches[batch].hash == digest(EventsOf(ix.events, batch))
  }

  ghost predicate Inv(digest: set<string> -> int, ix: Index) {
    && Partitioned(ix)
    && (forall r :: r in ix.events ==> r.batch in ix.batches)
    && (forall b :: b in ix.batches ==> Matches(digest, ix, b))
    && (forall b :: b in ix.batches ==>
          ix.batches[b].committedAt >= 0 && (ix.batches[b].state == Committed ==> ix.batches[b].committedAt > 0))
  }

  /** One more row. */
  lemma {:induction false} InsertedOne(rows: set<EventRow>, row: EventRow)
    requires !Clashes(rows, row)
    ensures EventsOf(rows + {row}, row.batch) == EventsOf(rows, row.batch) + {row.event}
    ensures |EventsOf(rows + {row}, row.batch)| == |EventsOf(rows, row.batch)| + 1
  {
    assert row.event !in EventsOf(rows, row.batch);
    assert EventsOf(rows + {row}, row.batch) == EventsOf(rows, row.batch) + {row.event};
  }

  /** The rows that were added are just those of the new batch. */
  lemma {:induction false} Inserted(rows: set<EventRow>, batch: string, chat: string, pairs: seq<(string, string)>)
    requires InsertEvents(rows, batch, chat, pairs).Some?
    ensures AddedFor(rows, InsertEvents(rows, batch, chat, pairs).value, batch, chat, pairs)
    decreases |pairs|
  {
    if pairs == [] {
      assert EventSet(pairs) == {};
    } else {
      var row := EventRow(batch, chat, pairs[0].0, pairs[0].1);
      Inserted(rows + {row}, batch, chat, pairs[1..]);
      InsertedOne(rows, row);
      EventSetFirst(pairs);
      AddedMore(rows, row, InsertEvents(rows, batch, chat, pairs).value, pairs);
    }
  }

  predicate AddedFor(rows: set<EventRow>, after: set<EventRow>, batch: string, chat: string, pairs: seq<(string, string)>) {
    && rows <= after
    && (forall r :: r in after && r !in rows ==> r.batch == batch && r.chat == chat)
    && EventsOf(after, batch) == EventsOf(rows, batch) + EventSet(pairs)
    && |EventsOf(after, batch)| == |EventsOf(rows, batch)| + |pairs|
  }

  lemma {:induction false} AddedMore(
      rows: set<EventRow>, row: EventRow, after: set<EventRow>, pairs: seq<(string, string)>)
    requires pairs != [] && row.event == pairs[0].0
    requires AddedFor(rows + {row}, after, row.batch, row.chat, pairs[1..])
    requires EventsOf(rows + {row}, row.batch) == EventsOf(rows, row.batch) + {row.event}
    requires |EventsOf(rows + {row}, row.batch)| == |EventsOf(rows, row.batch)| + 1
    requires EventSet(pairs) == {pairs[0].0} + EventSet(pairs[1..])
    ensures AddedFor(rows, after, row.batch, row.chat, pairs)
  {
  }

  lemma {:induction false} InsertKeepsPartition(
      rows: set<EventRow>, batch: string, chat: string, pairs: seq<(string, string)>)
    requires InsertEvents(rows, batch, chat, pairs).Some?
    requires forall a, b :: a in rows && b in rows && a.chat == b.chat && a.event == b.event ==> a == b
    ensures var after := InsertEvents(rows, batch, chat, pairs).value;
            forall a, b :: a in after && b in after && a.chat == b.chat && a.event == b.event ==> a == b
    decreases |pairs|
  {
    if pairs != [] {
      var row := EventRow(batch, chat, pairs[0].0, pairs[0].1);
      InsertKeepsPartition(rows + {row}, batch, chat, pairs[1..]);
    }
  }

  lemma {:induction false} OthersMatch(digest: set<string> -> int, ix: Index, jx: Index, batch: string, b: string)
    requires Inv(digest, ix) && b in ix.batches && b != batch
    requires b in jx.batches && jx.batches[b] == ix.batches[b] && ix.events <= jx.events
    requires forall r :: r in jx.events && r !in ix.events ==> r.batch == batch
    ensures Matches(digest, jx, b)
  {
    assert Matches(digest, ix, b);
    assert EventsOf(jx.events, b) == EventsOf(ix.events, b);
  }

  lemma {:induction false} PrepareKeeps(digest: set<string> -> int, ix: Index, r: Request, now: int)
    requires Inv(digest, ix) && AfterPrepare(digest, ix, r, now).Ok?
    ensures Inv(digest, AfterPrepare(digest, ix, r, now).value.0)
  {
    if r.batch !in ix.batches {
      var pairs := Normalized(r.events);
      var jx := AfterPrepare(digest, ix, r, now).value.0;
      Inserted(ix.events, r.batch, r.chat, pairs);
      InsertKeepsPartition(ix.events, r.batch, r.chat, pairs);
      assert EventsOf(ix.events, r.batch) == {};
      assert EventsOf(jx.events, r.batch) == EventSet(pairs);
      forall b | b in jx.batches ensures Matches(digest, jx, b) {
        if b != r.batch { OthersMatch(digest, ix, jx, r.batch, b); }
      }
    }
  }

  lemma {:induction false} MarkKeeps(digest: set<string> -> int, ix: Index, batch: string, asked: State, now: int)
    requires Inv(digest, ix) && AfterMark(ix, batch, asked, now).Ok? && now > 0
    ensures Inv(digest, AfterMark(ix, batch, asked, now).value.0)
  {
    var jx := AfterMark(ix, batch, asked, now).value.0;
    forall b | b in jx.batches ensures Matches(digest, jx, b) {
      assert Matches(digest, ix, b);
    }
  }

  // ---- Whole histories ----

  datatype Op = Prepare(request: Request, now: int) | Mark(batch: string, asked: State, now: int)

  function Step(digest: set<string> -> int, ix: Index, op: Op): Index {
    match op
    case Prepare(r, now) =>
      (match AfterPrepare(digest, ix, r, now)
       case Ok((after, _)) => after
       case Err(_) => ix)
    case Mark(batch, asked, now) =>
      (match AfterMark(ix, batch, asked, now)
       case Ok((after, _)) => after
       case Err(_) => ix)
  }

  ghost predicate History(digest: set<string> -> int, states: seq<Index>, ops: seq<Op>) {
    && |states| == |ops| + 1 && states[0] == Index(map[], {}, {})
    && (forall i :: 0 <= i < |ops| ==> ops[i].now > 0)
    && (forall i :: 0 <= i < |ops| ==> states[i + 1] == Step(digest, states[i], ops[i]))
  }

  lemma {:induction false} HistoryKeeps(digest: set<string> -> int, states: seq<Index>, ops: seq<Op>, i: nat)
    requires History(digest, states, ops) && i <= |ops|
    ensures Inv(digest, states[i])
  {
    if i > 0 {
      HistoryKeeps(digest, states, ops, i - 1);
      match ops[i - 1]
      case Prepare(r, now) =>
        if AfterPrepare(digest, states[i - 1], r, now).Ok? { PrepareKeeps(digest, states[i - 1], r, now); }
      case Mark(batch, asked, now) =>
        if AfterMark(states[i - 1], batch, asked, now).Ok? { MarkKeeps(digest, states[i - 1], batch, asked, now); }
    }
  }

  /** At any time, each event of a chat is in at most one batch, and a batch's count and
      hash are those of the events stored for it. */
  lemma {:induction false} BatchesPartitionEvents(digest: set<string> -> int, states: seq<Index>, ops: seq<Op>, i: nat)
    requires History(digest, states, ops) && i <= |ops|
    ensures Partitioned(states[i])
    ensures forall b :: b in states[i].batches ==> Matches(digest, states[i], b)
  {
    HistoryKeeps(digest, states, ops, i);
  }

  /** What can still happen to a batch. */
  predicate Follows(was: Batch, now: Batch) {
    && now.chat == was.chat && now.hash == was.hash && now.eventCount == was.eventCount
    && now.operation == was.operation && now.createdAt == was.createdAt
    && (was.committedAt > 0 ==> now.committedAt == was.committedAt)
    && (was.state == SoftDeleted ==> now.state == SoftDeleted)
    && (now.state == Prepared ==> was.state == Prepared)
  }

  lemma {:induction false} StepFollows(digest: set<string> -> int, ix: Index, op: Op, b: string)
    requires Inv(digest, ix) && op.now > 0 && b in ix.batches
    ensures b in Step(digest, ix, op).batches && Follows(ix.batches[b], Step(digest, ix, op).batches[b])
    ensures ix.events <= Step(digest, ix, op).events
  {
    if op.Prepare? && op.request.batch !in ix.batches && AfterPrepare(digest, ix, op.request, op.now).Ok? {
      Inserted(ix.events, op.request.batch, op.request.chat, Normalized(op.request.events));
    }
  }

  lemma {:induction false} RowsGrow(digest: set<string> -> int, states: seq<Index>, ops: seq<Op>, i: nat, j: nat)
    requires History(digest, states, ops) && i <= j <= |ops|
    ensures states[i].events <= states[j].events
    decreases j
  {
    if i < j {
      RowsGrow(digest, states, ops, i, j - 1);
      var op := ops[j - 1];
      if op.Prepare? && op.request.batch !in states[j - 1].batches
         && AfterPrepare(digest, states[j - 1], op.request, op.now).Ok? {
        Inserted(states[j - 1].events, op.request.batch, op.request.chat, Normalized(op.request.events));
      }
    }
  }

  /** Over any time: the first commit stays on record, a soft-deleted batch stays so, and a
      batch that has left `prepared` never is again. */
  lemma {:induction false} BatchOnlyMovesOn(
    digest: set<string> -> int, states: seq<Index>, ops: seq<Op>, i: nat, j: nat, b: string)
    requires History(digest, states, ops) && i <= j <= |ops| && b in states[i].batches
    ensures b in states[j].batches && Follows(states[i].batches[b], states[j].batches[b])
  {
    var was := states[i].batches[b];
    var p := (ix: Index) => b in ix.batches && Follows(was, ix.batches[b]);
    forall m, n | i <= m && n == m + 1 && n <= j && p(states[m]) ensures p(states[n]) {
      HistoryKeeps(digest, states, ops, m);
      StepFollows(digest, states[m], ops[m], b);
      FollowsOn(was, states[m].batches[b], states[n].batches[b]);
    }
    Persists(states, p, i, j);
  }

  // ---- Where a batch stands, told from what was asked for it ----

  predicate MarksAs(op: Op, b: string, asked: State) {
    op.Mark? && op.batch == b && op.asked == asked
  }

  predicate EverDeleted(ops: seq<Op>, b: string) {
    exists op :: op in ops && MarksAs(op, b, SoftDeleted)
  }

  /** The latest state asked for, other than `prepared`. */
  function LatestAsked(ops: seq<Op>, b: string): State {
    if ops == [] then Prepared
    else
      var op := ops[|ops| - 1];
      if op.Mark? && op.batch == b && op.asked != Prepared then op.asked else LatestAsked(ops[..|ops| - 1], b)
  }

  /** When a commit was first asked for, unless the batch was soft-deleted before. */
  function FirstCommit(ops: seq<Op>, b: string): int {
    if ops == [] then 0
    else
      var front, op := ops[..|ops| - 1], ops[|ops| - 1];
      if MarksAs(op, b, Committed) && FirstCommit(front, b) == 0 && !EverDeleted(front, b) then op.now
      else FirstCommit(front, b)
  }

  ghost predicate Stands(b: Batch, was: Batch, ops: seq<Op>, name: string) {
    b == was.(state := if EverDeleted(ops, name) then SoftDeleted else LatestAsked(ops, name),
              committedAt := FirstCommit(ops, name))
  }

  lemma {:induction false} AskedMore(ops: seq<Op>, op: Op, b: string)
    ensures EverDeleted(ops + [op], b) <==> EverDeleted(ops, b) || MarksAs(op, b, SoftDeleted)
    ensures LatestAsked(ops + [op], b)
         == if op.Mark? && op.batch == b && op.asked != Prepared then op.asked else LatestAsked(ops, b)
    ensures FirstCommit(ops + [op], b)
         == if MarksAs(op, b, Committed) && FirstCommit(ops, b) == 0 && !EverDeleted(ops, b) then op.now
            else FirstCommit(ops, b)
  {
    assert (ops + [op])[..|ops|] == ops;
    assert forall x :: x in ops + [op] <==> x in ops || x == op;
  }

  lemma {:induction false} LatestDeleted(ops: seq<Op>, b: string)
    requires LatestAsked(ops, b) == SoftDeleted
    ensures EverDeleted(ops, b)
  {
    var front, op := ops[..|ops| - 1], ops[|ops| - 1];
    if op.Mark? && op.batch == b && op.asked != Prepared {
      assert MarksAs(op, b, SoftDeleted);
    } else {
      LatestDeleted(front, b);
    }
  }

  lemma {:induction false} StepStands(digest: set<string> -> int, ix: Index, op: Op, b: string, was: Batch, ops: seq<Op>)
    requires b in ix.batches && Stands(ix.batches[b], was, ops, b)
    ensures b in Step(digest, ix, op).batches && Stands(Step(digest, ix, op).batches[b], was, ops + [op], b)
  {
    AskedMore(ops, op, b);
    if LatestAsked(ops, b) == SoftDeleted { LatestDeleted(ops, b); }
  }

  /** From the moment a batch is prepared it is in the state asked for last, except that it
      stays soft-deleted and never goes back to `prepared`; and its commit is dated by the
      first time that was asked for. */
  lemma {:induction false} StateIsAsked(
    digest: set<string> -> int, states: seq<Index>, ops: seq<Op>, i: nat, j: nat, b: string)
    requires History(digest, states, ops) && i <= j <= |ops| && b in states[i].batches
    requires states[i].batches[b].state == Prepared && states[i].batches[b].committedAt == 0
    ensures b in states[j].batches && Stands(states[j].batches[b], states[i].batches[b], ops[i..j], b)
    decreases j
  {
    if i < j {
      StateIsAsked(digest, states, ops, i, j - 1, b);
      assert ops[i..j] == ops[i..j - 1] + [ops[j - 1]];
      StepStands(digest, states[j - 1], ops[j - 1], b, states[i].batches[b], ops[i..j - 1]);
    } else {
      assert ops[i..j] == [];
    }
  }

  lemma {:induction false} FollowsOn(a: Batch, b: Batch, c: Batch)
    requires Follows(a, b) && Follows(b, c)
    ensures Follows(a, c)
  {
  }

  lemma {:induction false} Persists(states: seq<Index>, p: Index -> bool, i: nat, j: nat)
    requires i <= j < |states| && p(states[i])
    requires forall m, n :: i <= m && n == m + 1 && n <= j && p(states[m]) ==> p(states[n])
    ensures p(states[j])
    decreases j
  {
    if i < j {
      Persists(states, p, i, j - 1);
      assert p(states[j - 1]);
    }
  }

  /** What has been committed stays committed. */
  lemma {:induction false} CommittedEventsGrow(
      digest: set<string> -> int, states: seq<Index>, ops: seq<Op>, i: nat, j: nat, chat: string)
    requires History(digest, states, ops) && i <= j <= |ops|
    ensures CommittedEvents(states[i], chat) <= CommittedEvents(states[j], chat)
  {
    RowsGrow(digest, states, ops, i, j);
    forall e | e in CommittedEvents(states[i], chat) ensures e in CommittedEvents(states[j], chat) {
      var r :| r in states[i].events && r.batch in states[i].batches && states[i].batches[r.batch].chat == chat
               && states[i].batches[r.batch].committedAt > 0 && r.event == e;
      BatchOnlyMovesOn(digest, states, ops, i, j, r.batch);
      assert r in states[j].events;
    }
  }
}