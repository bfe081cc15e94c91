/** Runs of the admission outbox: any interleaving of its operations, with a clock that
    never goes back and a lease id that is new at every claim. */
module Leases {
  import opened Outbox

  datatype Op =
    | Prepare(message: Msg, effects: set<Effect>, order: nat, payload: int)
    | MarkReady(message: Msg)
    | Cancel(message: Msg)
    | Claim(keys: seq<Key>, limit: nat, lease: nat, seconds: nat)
    | Complete(key: Key, lease: nat, done: bool)
    | Prune(gone: set<Key>, cutoff: int, keep: nat)

  /** The table, the clock, and the lease ids given out so far. */
  datatype Store = Store(rows: Table, now: int, leases: set<nat>)

  predicate Allowed(s: Store, op: Op) {
    match op
    case Prepare(m, _, order, _) => NextOrder(s.rows, m.chat, order)
    case MarkReady(_) => true
    case Cancel(_) => true
    case Claim(keys, limit, lease, _) => Selected(s.rows, s.now, limit, keys) && lease != NO_LEASE && lease !in s.leases
    case Complete(_, lease, _) => lease in s.leases
    case Prune(gone, cutoff, keep) => Prunable(s.rows, gone, cutoff, keep)
  }

  function After(s: Store, op: Op): Table
    requires Allowed(s, op)
  {
    match op
    case Prepare(m, effects, order, payload) => WithPrepared(s.rows, m, effects, NewRow(order, payload, s.now))
    case MarkReady(m) => MadeReady(s.rows, m, s.now)
    case Cancel(m) => Cancelled(s.rows, m)
    case Claim(keys, _, lease, seconds) => Leased(s.rows, SetOf(keys), lease, s.now + seconds)
    case Complete(k, lease, done) => Completed(s.rows, k, lease, done, s.now)
    case Prune(gone, _, _) => Without(s.rows, gone)
  }

  predicate Step(s: Store, op: Op, t: Store) {
    && Allowed(s, op)
    && t.rows == After(s, op) && t.now >= s.now
    && t.leases == s.leases + (if op.Claim? then {op.lease} else {})
  }

  predicate Run(states: seq<Store>, ops: seq<Op>) {
    && |states| == |ops| + 1
    && NO_LEASE !in states[0].leases
    && forall i :: 0 <= i < |ops| ==> Step(states[i], ops[i], states[i + 1])
  }

  lemma {:induction false} TimePasses(states: seq<Store>, ops: seq<Op>, i: nat, j: nat)
    requires Run(states, ops) && i <= j <= |ops|
    ensures states[i].now <= states[j].now && states[i].leases <= states[j].leases
    ensures NO_LEASE !in states[i].leases
    decreases j
  {
    if i < j {
      TimePasses(states, ops, i, j - 1);
      assert Step(states[j - 1], ops[j - 1], states[j]);
    } else if i > 0 {
      TimePasses(states, ops, i - 1, j - 1);
      assert Step(states[i - 1], ops[i - 1], states[i]);
    }
  }

  // ---- A lease that is gone stays gone ----

  predicate Carries(rows: Table, k: Key, lease: nat) {
    k in rows && rows[k].lease == lease
  }

  lemma {:induction false} StaysStale(s: Store, op: Op, t: Store, k: Key, lease: nat)
    requires Step(s, op, t) && lease in s.leases && lease != NO_LEASE && !Carries(s.rows, k, lease)
    ensures !Carries(t.rows, k, lease)
  {
    match op
    case Prepare(m, effects, order, payload) =>
      if k in t.rows && k !in s.rows {
        assert t.rows[k] == NewRow(order, payload, s.now);
      }
    case Claim(keys, _, _, _) =>
    case _ =>
  }

  /** Once a row has lost a lease, completing it with that lease changes nothing, however
      much later. */
  lemma {:induction false} StaleLeaseDoesNothing(states: seq<Store>, ops: seq<Op>, i: nat, j: nat, k: Key, lease: nat)
    requires Run(states, ops) && i <= j <= |ops|
    requires lease in states[i].leases && !Carries(states[i].rows, k, lease)
    ensures !Carries(states[j].rows, k, lease)
    ensures forall done, now :: Completed(states[j].rows, k, lease, done, now) == states[j].rows
    decreases j
  {
    TimePasses(states, ops, i, j);
    if i < j {
      StaleLeaseDoesNothing(states, ops, i, j - 1, k, lease);
      TimePasses(states, ops, i, j - 1);
      assert Step(states[j - 1], ops[j - 1], states[j]);
      StaysStale(states[j - 1], ops[j - 1], states[j], k, lease);
    }
  }

  /** Giving back a claimed item after it was completed, as cancellation of a round does
      with all its items, leaves the table alone: a succeeded row is never reverted. */
  lemma {:induction false} CleanupKeepsSuccess(
      states: seq<Store>, ops: seq<Op>, i: nat, j: nat, k: Key, lease: nat, done: bool)
    requires Run(states, ops) && i < j < |ops|
    requires ops[i] == Complete(k, lease, done) && ops[j] == Complete(k, lease, false)
    ensures states[j + 1].rows == states[j].rows
  {
    assert Step(states[i], ops[i], states[i + 1]) && Step(states[j], ops[j], states[j + 1]);
    TimePasses(states, ops, i, i);
    assert !Carries(states[i + 1].rows, k, lease);
    StaleLeaseDoesNothing(states, ops, i + 1, j, k, lease);
  }

  // ---- A lease that has not run out ----

  /** `k` was claimed under `lease` until `until`, and has not been given back since. */
  predicate Taken(rows: Table, k: Key, lease: nat, until: int) {
    && k in rows
    && ((rows[k].status == Processing && rows[k].lease == lease && rows[k].updatedAt == until)
        || (rows[k].status == Succeeded && rows[k].lease == NO_LEASE))
  }

  /** The holder gives `k` back, or the row is deleted. */
  predicate Releases(op: Op, k: Key, lease: nat) {
    || op == Complete(k, lease, false)
    || op == Cancel(k.message)
    || (op.Prune? && k in op.gone)
  }

  lemma {:induction false} StaysTaken(s: Store, op: Op, t: Store, k: Key, lease: nat, until: int)
    requires Step(s, op, t) && Taken(s.rows, k, lease, until) && NO_LEASE !in s.leases
    requires s.now <= until && !Releases(op, k, lease)
    ensures Taken(t.rows, k, lease, until)
    ensures op.Claim? ==> k !in op.keys
  {
  }

  lemma {:induction false} TakenUntil(states: seq<Store>, ops: seq<Op>, i: nat, j: nat, k: Key, lease: nat, until: int)
    requires Run(states, ops) && i <= j <= |ops|
    requires Taken(states[i].rows, k, lease, until) && states[j].now <= until
    requires forall m :: i <= m < j ==> !Releases(ops[m], k, lease)
    ensures Taken(states[j].rows, k, lease, until)
    decreases j
  {
    if i < j {
      TimePasses(states, ops, j - 1, j);
      TakenUntil(states, ops, i, j - 1, k, lease, until);
      assert Step(states[j - 1], ops[j - 1], states[j]);
      StaysTaken(states[j - 1], ops[j - 1], states[j], k, lease, until);
    }
  }

  /** A row is claimed again before its lease has run out only if in between its holder
      gave it back, or it was deleted and so had to be prepared anew. */
  lemma {:induction false} LeaseIsExclusive(states: seq<Store>, ops: seq<Op>, i: nat, j: nat, k: Key)
    requires Run(states, ops) && i < j < |ops|
    requires ops[i].Claim? && k in ops[i].keys && ops[j].Claim? && k in ops[j].keys
    requires states[j].now <= states[i].now + ops[i].seconds
    ensures exists m :: i < m < j && Releases(ops[m], k, ops[i].lease)
  {
    var lease, until := ops[i].lease, states[i].now + ops[i].seconds;
    assert Step(states[i], ops[i], states[i + 1]) && Step(states[j], ops[j], states[j + 1]);
    assert Taken(states[i + 1].rows, k, lease, until);
    if forall m :: i < m < j ==> !Releases(ops[m], k, lease) {
      TimePasses(states, ops, j, j);
      TakenUntil(states, ops, i + 1, j, k, lease, until);
    }
  }

  /** The holder finishes `k`, the row is deleted, or it is claimed anew. */
  predicate Touches(op: Op, k: Key, lease: nat) {
    || (op.Complete? && op.key == k && op.lease == lease)
    || op == Cancel(k.message)
    || (op.Claim? && k in op.keys)
  }

  predicate HeldUntil(rows: Table, k: Key, lease: nat, until: int) {
    k in rows && rows[k].status == Processing && rows[k].lease == lease && rows[k].updatedAt == until
  }

  lemma {:induction false} StaysHeld(s: Store, op: Op, t: Store, k: Key, lease: nat, until: int)
    requires Step(s, op, t) && HeldUntil(s.rows, k, lease, until) && !Touches(op, k, lease)
    ensures HeldUntil(t.rows, k, lease, until)
  {
  }

  lemma {:induction false} RunHeld(states: seq<Store>, ops: seq<Op>, i: nat, j: nat, k: Key, lease: nat, until: int)
    requires Run(states, ops) && i <= j <= |ops| && HeldUntil(states[i].rows, k, lease, until)
    requires forall m :: i <= m < j ==> !Touches(ops[m], k, lease)
    ensures HeldUntil(states[j].rows, k, lease, until)
    decreases j
  {
    if i < j {
      RunHeld(states, ops, i, j - 1, k, lease, until);
      assert Step(states[j - 1], ops[j - 1], states[j]);
      StaysHeld(states[j - 1], ops[j - 1], states[j], k, lease, until);
    }
  }

  /** A row that is left lying by its holder is claimed again as soon as its lease has run
      out, by the next claim that does not reach its limit with other rows. */
  lemma {:induction false} AbandonedIsClaimedAgain(states: seq<Store>, ops: seq<Op>, i: nat, j: nat, k: Key)
    requires Run(states, ops) && i < j < |ops|
    requires ops[i].Claim? && k in ops[i].keys && forall m :: i < m < j ==> !Touches(ops[m], k, ops[i].lease)
    requires ops[j].Claim? && |ops[j].keys| < ops[j].limit && states[j].now > states[i].now + ops[i].seconds
    ensures k in ops[j].keys
  {
    assert Step(states[i], ops[i], states[i + 1]) && Step(states[j], ops[j], states[j + 1]);
    RunHeld(states, ops, i + 1, j, k, ops[i].lease, states[i].now + ops[i].seconds);
    SelectedExactly(states[j].rows, states[j].now, ops[j].limit, ops[j].keys, k);
  }

  predicate Prepares(op: Op, k: Key) {
    op.Prepare? && op.message == k.message && k.effect in op.effects
  }

  /** A deleted row is claimed again only after it was prepared again. */
  lemma {:induction false} ClaimNeedsPrepare(states: seq<Store>, ops: seq<Op>, i: nat, j: nat, k: Key)
    requires Run(states, ops) && i <= j < |ops|
    requires k !in states[i].rows && ops[j].Claim? && k in ops[j].keys
    ensures exists m :: i <= m < j && Prepares(ops[m], k)
  {
    assert Step(states[j], ops[j], states[j + 1]);
    if forall m :: i <= m < j ==> !Prepares(ops[m], k) {
      StaysAbsent(states, ops, i, j, k);
    }
  }

  lemma {:induction false} StaysAbsent(states: seq<Store>, ops: seq<Op>, i: nat, j: nat, k: Key)
    requires Run(states, ops) && i <= j <= |ops| && k !in states[i].rows
    requires forall m :: i <= m < j ==> !Prepares(ops[m], k)
    ensures k !in states[j].rows
    decreases j
  {
    if i < j {
      StaysAbsent(states, ops, i, j - 1, k);
      assert Step(states[j - 1], ops[j - 1], states[j]);
    }
  }

  // ---- The order of admission ----

  /** Every row of a chat that is prepared later has a higher order. */
  lemma {:induction false} PreparedLast(s: Store, op: Op, t: Store, earlier: Key, later: Key)
    requires Step(s, op, t) && op.Prepare?
    requires earlier in s.rows && later in t.rows && later !in s.rows && earlier.message.chat == later.message.chat
    ensures t.rows[earlier].order < t.rows[later].order
  {
  }
}
