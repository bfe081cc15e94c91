/** Admission of messages: their effects are prepared in the outbox, the message is written
    to the event log, and only then are the effects released. The process may fail or
    crash between any two steps. */
module Admission {
  import opened Text
  import opened Outbox

  /** Where a message comes from: a user, a card sent by a user, or the program itself. */
  datatype Kind = User | Card | Internal

  function Effects(kind: Kind): set<Effect> {
    if kind == User then {Hindsight, Learner} else {}
  }

  /** How far an admission has come. `created` tells whether it prepared rows of its own. */
  datatype Phase =
    | Started
    | Staged(created: bool)
    | Accepted(created: bool)
    | Rejected(created: bool)
    | Logged
    | Noted
    | Aborting

  datatype Flow = Flow(message: Msg, phase: Phase)

  /** Recovery looks the prepared messages up, asks for each whether it was admitted, and
      carries the answer out, with other work going on in between. */
  datatype Verdict = Verdict(message: Msg, admitted: bool)

  /** `rows` and `log` survive a crash; `flows` (one per chat), `admitted` and the state
      of recovery do not. `forgotten` only remembers, for the proofs, which succeeded
      rows have been deleted. */
  datatype State = State(
    rows: Table, log: set<Msg>, flows: map<int, Flow>, admitted: set<Msg>, scanned: set<Msg>, verdicts: set<Verdict>,
    forgotten: set<Key>)

  datatype Event =
    | Begin(message: Msg)
    | Stage(chat: int, order: nat, payload: int)
    | Look(chat: int)
    | Append(chat: int)
    | Reject(chat: int)
    | Note(chat: int)
    | Finish(chat: int)
    | Fail(chat: int)
    | Undo(chat: int)
    | Evict(message: Msg)
    | Scan
    | Judge(message: Msg)
    | Carry(verdict: Verdict)
    | Claim(keys: seq<Key>, limit: nat, lease: nat, seconds: nat)
    | Complete(key: Key, lease: nat, done: bool)
    | Prune(gone: set<Key>, cutoff: int, keep: nat)
    | Crash

  predicate At(s: State, chat: int, p: Phase -> bool) {
    chat in s.flows && p(s.flows[chat].phase)
  }

  predicate Enabled(s: State, e: Event, now: int) {
    match e
    case Begin(m) => m.chat !in s.flows
    case Stage(c, order, _) => At(s, c, (p: Phase) => p.Started?) && NextOrder(s.rows, s.flows[c].message.chat, order)
    case Look(c) => At(s, c, (p: Phase) => p.Staged?)
    case Append(c) => At(s, c, (p: Phase) => p.Accepted?)
    case Reject(c) => At(s, c, (p: Phase) => p.Rejected?)
    case Note(c) => At(s, c, (p: Phase) => p.Logged?)
    case Finish(c) => At(s, c, (p: Phase) => p.Noted?)
    case Fail(c) => c in s.flows
    case Undo(c) => At(s, c, (p: Phase) => p.Aborting?)
    case Judge(m) => m in s.scanned
    case Carry(v) => v in s.verdicts
    case Claim(keys, limit, lease, _) => Selected(s.rows, now, limit, keys) && lease != NO_LEASE
    case Complete(_, lease, _) => lease != NO_LEASE
    case Prune(gone, cutoff, keep) => Prunable(s.rows, gone, cutoff, keep)
    case _ => true
  }

  function Moved(s: State, chat: int, p: Phase): State
    requires chat in s.flows
  {
    s.(flows := s.flows[chat := s.flows[chat].(phase := p)])
  }

  function Over(s: State, chat: int): State {
    s.(flows := s.flows - {chat})
  }

  predicate InProgress(kinds: Msg -> Kind, s: State, m: Msg) {
    m.chat in s.flows && s.flows[m.chat].message == m && Effects(kinds(m)) != {}
  }

  /** `_is_message_admitted`. */
  function IsAdmitted(kinds: Msg -> Kind, s: State, m: Msg): Option<bool> {
    if InProgress(kinds, s, m) then None else Some(m in s.log)
  }

  function Next(kinds: Msg -> Kind, s: State, e: Event, now: int): State
    requires Enabled(s, e, now)
  {
    match e
    case Begin(m) =>
      if m in s.admitted || m in s.log then s else s.(flows := s.flows[m.chat := Flow(m, Started)])
    case Stage(c, order, payload) =>
      var m := s.flows[c].message;
      var effects := Effects(kinds(m));
      if effects == {} then Moved(s, c, Staged(false))
      else Moved(s.(rows := WithPrepared(s.rows, m, effects, NewRow(order, payload, now))), c,
                 Staged(AddsRow(s.rows, m, effects)))
    case Look(c) =>
      var created := s.flows[c].phase.created;
      Moved(s, c, if s.flows[c].message !in s.log then Accepted(created) else Rejected(created))
    case Append(c) =>
      var m := s.flows[c].message;
      Moved(if kinds(m) == Internal then s else s.(log := s.log + {m}), c, Logged)
    case Reject(c) =>
      var m := s.flows[c].message;
      if kinds(m) != Internal && m !in s.log then Moved(s.(log := s.log + {m}), c, Logged)
      else if Effects(kinds(m)) != {} && s.flows[c].phase.created then Over(s.(rows := Cancelled(s.rows, m)), c)
      else Over(s, c)
    case Note(c) => Moved(s.(admitted := s.admitted + {s.flows[c].message}), c, Noted)
    case Finish(c) =>
      var m := s.flows[c].message;
      Over(if Effects(kinds(m)) == {} then s else s.(rows := MadeReady(s.rows, m, now)), c)
    case Fail(c) =>
      // an exception: only what this admission prepared, and did not commit, is taken back
      var p := s.flows[c].phase;
      if (p.Staged? || p.Rejected?) && p.created && Effects(kinds(s.flows[c].message)) != {} then Moved(s, c, Aborting)
      else Over(s, c)
    case Undo(c) => Over(s.(rows := Cancelled(s.rows, s.flows[c].message)), c)
    case Evict(m) => s.(admitted := s.admitted - {m})
    case Scan => s.(scanned := set k | k in s.rows && s.rows[k].status == Prepared :: k.message)
    case Judge(m) =>
      var answer := IsAdmitted(kinds, s, m);
      s.(scanned := s.scanned - {m},
         verdicts := s.verdicts + if answer.Some? then {Verdict(m, answer.value)} else {})
    case Carry(v) =>
      s.(rows := Carried(s.rows, v, now), verdicts := s.verdicts - {v},
         forgotten := s.forgotten + if v.admitted then {} else SucceededOf(s.rows, v.message))
    case Claim(keys, _, lease, seconds) => s.(rows := Leased(s.rows, SetOf(keys), lease, now + seconds))
    case Complete(k, lease, done) => s.(rows := Completed(s.rows, k, lease, done, now))
    case Prune(gone, _, _) => s.(rows := Without(s.rows, gone), forgotten := s.forgotten + gone)
    case Crash => s.(flows := map[], admitted := {}, scanned := {}, verdicts := {})
  }

  function SucceededOf(rows: Table, m: Msg): set<Key> {
    set k | k in rows && k.message == m && rows[k].status == Succeeded
  }

  /** The message is made ready, or all its rows are deleted. */
  function Carried(rows: Table, v: Verdict, now: int): Table {
    if v.admitted then MadeReady(rows, v.message, now) else Cancelled(rows, v.message)
  }

  // ---- What every step keeps ----

  /** Only effects of logged messages have left `prepared`. */
  predicate ReleasedAreLogged(s: State) {
    forall k :: k in s.rows ==>
      && (s.rows[k].status != Prepared ==> k.message in s.log)
      && (s.rows[k].status == Prepared ==> s.rows[k].lease == NO_LEASE)
  }

  ghost predicate AllRows(kinds: Msg -> Kind, s: State, m: Msg) {
    forall e :: e in Effects(kinds(m)) ==> Key(m, e) in s.rows
  }

  /** An effect of a logged message is in the table until it has succeeded. */
  ghost predicate EffectsKept(kinds: Msg -> Kind, s: State) {
    forall m, e :: m in s.log && e in Effects(kinds(m)) ==> Key(m, e) in s.rows || Key(m, e) in s.forgotten
  }

  predicate HoldsRows(f: Flow) {
    f.phase.Staged? || f.phase.Accepted?
  }

  /** The rows of the message must not be deleted: it is logged, or about to be. */
  predicate Needs(s: State, m: Msg) {
    m in s.log || (m.chat in s.flows && s.flows[m.chat].message == m && HoldsRows(s.flows[m.chat]))
  }

  ghost predicate FlowOk(kinds: Msg -> Kind, s: State, chat: int, f: Flow) {
    && f.message.chat == chat
    && !f.phase.Rejected?
    && (f.phase.Logged? || f.phase.Noted? ==> kinds(f.message) != Internal ==> f.message in s.log)
    && (!f.phase.Logged? && !f.phase.Noted? ==> f.message !in s.log)
  }

  /** What holds whatever recovery does. */
  ghost predicate Safe(kinds: Msg -> Kind, s: State) {
    && ReleasedAreLogged(s)
    && (forall c :: c in s.flows ==> FlowOk(kinds, s, c, s.flows[c]))
    && (forall k :: k in s.rows ==> k.effect in Effects(kinds(k.message)))
    && (forall v :: v in s.verdicts && v.admitted ==> v.message in s.log)
    && (forall k :: k in s.forgotten ==> k.message in s.log && k !in s.rows)
  }

  ghost predicate StagedRows(kinds: Msg -> Kind, s: State) {
    forall c :: c in s.flows && HoldsRows(s.flows[c]) ==> AllRows(kinds, s, s.flows[c].message)
  }

  ghost predicate Inv(kinds: Msg -> Kind, s: State) {
    Safe(kinds, s) && EffectsKept(kinds, s) && StagedRows(kinds, s)
  }

  /** Recovery carries out that a message was not admitted when meanwhile it is, and not
      all of its effects have succeeded. */
  ghost predicate Late(s: State, e: Event) {
    e.Carry? && !e.verdict.admitted && Needs(s, e.verdict.message)
    && exists k :: k in s.rows && k.message == e.verdict.message && s.rows[k].status != Succeeded
  }

  /** The rows a step may add, change or delete, by the message they belong to. */
  ghost predicate RowMoves(kinds: Msg -> Kind, s: State, t: State, e: Event, k: Key) {
    if k in s.rows && k in t.rows then
      || t.rows[k] == s.rows[k]
      || (s.rows[k].status == Prepared && t.rows[k] == Promoted(s.rows[k], t.rows[k].updatedAt) && k.message in t.log)
      || (s.rows[k].status != Prepared && t.rows[k].status != Prepared)
    else if k in t.rows then
      t.rows[k].status == Prepared && t.rows[k].lease == NO_LEASE && k.effect in Effects(kinds(k.message))
    else if k in s.rows then
      || (k in t.forgotten && s.rows[k].status == Succeeded)
      || !Needs(s, k.message)
      || (e == Carry(Verdict(k.message, false)) && s.rows[k].status != Succeeded)
    else true
  }

  ghost predicate RowsMove(kinds: Msg -> Kind, s: State, t: State, e: Event) {
    forall k :: k in s.rows || k in t.rows ==> RowMoves(kinds, s, t, e, k)
  }

  predicate Releases(e: Event) {
    e.Finish? || (e.Carry? && e.verdict.admitted)
  }

  predicate Cancels(e: Event) {
    e.Reject? || e.Undo? || (e.Carry? && !e.verdict.admitted)
  }

  predicate Quiet(e: Event) {
    !e.Stage? && !Releases(e) && !Cancels(e) && !e.Claim? && !e.Complete? && !e.Prune?
  }

  lemma {:induction false} QuietMoves(kinds: Msg -> Kind, s: State, e: Event, now: int)
    requires Enabled(s, e, now) && Quiet(e)
    ensures Next(kinds, s, e, now).rows == s.rows
  {
  }

  lemma {:induction false} StageMoves(kinds: Msg -> Kind, s: State, e: Event, now: int)
    requires Enabled(s, e, now) && e.Stage?
    ensures RowsMove(kinds, s, Next(kinds, s, e, now), e)
  {
  }

  lemma {:induction false} ReleaseMoves(kinds: Msg -> Kind, s: State, e: Event, now: int)
    requires Safe(kinds, s) && Enabled(s, e, now) && Releases(e)
    ensures RowsMove(kinds, s, Next(kinds, s, e, now), e)
  {
    if e.Finish? { assert FlowOk(kinds, s, e.chat, s.flows[e.chat]); }
  }

  lemma {:induction false} CancelMoves(kinds: Msg -> Kind, s: State, e: Event, now: int)
    requires Safe(kinds, s) && Enabled(s, e, now) && Cancels(e)
    ensures RowsMove(kinds, s, Next(kinds, s, e, now), e)
  {
    if e.Reject? || e.Undo? { assert FlowOk(kinds, s, e.chat, s.flows[e.chat]); }
  }

  lemma {:induction false} HandOutMoves(kinds: Msg -> Kind, s: State, e: Event, now: int)
    requires Safe(kinds, s) && Enabled(s, e, now) && (e.Claim? || e.Complete? || e.Prune?)
    ensures RowsMove(kinds, s, Next(kinds, s, e, now), e)
  {
  }

  lemma {:induction false} StepMovesRows(kinds: Msg -> Kind, s: State, e: Event, now: int)
    requires Safe(kinds, s) && Enabled(s, e, now)
    ensures RowsMove(kinds, s, Next(kinds, s, e, now), e)
  {
    if e.Stage? {
      StageMoves(kinds, s, e, now);
    } else if Releases(e) {
      ReleaseMoves(kinds, s, e, now);
    } else if Cancels(e) {
      CancelMoves(kinds, s, e, now);
    } else if Quiet(e) {
      QuietMoves(kinds, s, e, now);
    } else {
      HandOutMoves(kinds, s, e, now);
    }
  }

  /** The log only grows, and only by a message whose rows are needed already. */
  lemma {:induction false} StepGrowsLog(kinds: Msg -> Kind, s: State, e: Event, now: int)
    requires Safe(kinds, s) && Enabled(s, e, now)
    ensures var t := Next(kinds, s, e, now);
            && s.log <= t.log && s.forgotten <= t.forgotten
            && (t.log != s.log ==> t.rows == s.rows && e.Append? && t.log == s.log + {s.flows[e.chat].message})
            && forall m :: m in t.log && m !in s.log ==>
                 m.chat in s.flows && s.flows[m.chat].message == m && HoldsRows(s.flows[m.chat])
  {
    if e.Append? || e.Reject? { assert FlowOk(kinds, s, e.chat, s.flows[e.chat]); }
  }

  lemma {:induction false} KeepsReleased(kinds: Msg -> Kind, s: State, t: State, e: Event)
    requires Safe(kinds, s) && RowsMove(kinds, s, t, e) && s.log <= t.log
    ensures ReleasedAreLogged(t)
    ensures forall k :: k in t.rows ==> k.effect in Effects(kinds(k.message))
  {
    forall k | k in t.rows
      ensures t.rows[k].status != Prepared ==> k.message in t.log
      ensures t.rows[k].status == Prepared ==> t.rows[k].lease == NO_LEASE
      ensures k.effect in Effects(kinds(k.message))
    {
      assert RowMoves(kinds, s, t, e, k);
    }
  }

  /** A row that is needed goes only when it has succeeded, or by a late verdict. */
  lemma {:induction false} NeededStays(kinds: Msg -> Kind, s: State, t: State, e: Event, k: Key)
    requires RowsMove(kinds, s, t, e) && !Late(s, e) && k in s.rows && Needs(s, k.message)
    ensures k in t.rows || k in t.forgotten
  {
    assert RowMoves(kinds, s, t, e, k);
  }

  predicate Acts(e: Event, c: int) {
    match e
    case Begin(m) => m.chat == c
    case Stage(d, _, _) => d == c
    case Look(d) => d == c
    case Append(d) => d == c
    case Reject(d) => d == c
    case Note(d) => d == c
    case Finish(d) => d == c
    case Fail(d) => d == c
    case Undo(d) => d == c
    case _ => false
  }

  lemma {:induction false} OthersStay(kinds: Msg -> Kind, s: State, e: Event, now: int, c: int)
    requires Enabled(s, e, now) && !Acts(e, c)
    ensures var t := Next(kinds, s, e, now); c in t.flows ==> c in s.flows && t.flows[c] == s.flows[c]
  {
  }

  lemma {:induction false} OwnFlow(kinds: Msg -> Kind, s: State, e: Event, now: int, c: int)
    requires Safe(kinds, s) && Enabled(s, e, now) && Acts(e, c)
    ensures var t := Next(kinds, s, e, now); c in t.flows ==> FlowOk(kinds, t, c, t.flows[c])
  {
    if c in s.flows { assert FlowOk(kinds, s, c, s.flows[c]); }
  }

  lemma {:induction false} OtherFlow(kinds: Msg -> Kind, s: State, e: Event, now: int, c: int)
    requires Safe(kinds, s) && Enabled(s, e, now) && !Acts(e, c)
    ensures var t := Next(kinds, s, e, now); c in t.flows ==> FlowOk(kinds, t, c, t.flows[c])
  {
    OthersStay(kinds, s, e, now, c);
    StepGrowsLog(kinds, s, e, now);
    if c in s.flows {
      assert FlowOk(kinds, s, c, s.flows[c]);
      if e.Append? { assert FlowOk(kinds, s, e.chat, s.flows[e.chat]); }
    }
  }

  lemma {:induction false} KeepsVerdicts(kinds: Msg -> Kind, s: State, e: Event, now: int)
    requires Safe(kinds, s) && Enabled(s, e, now)
    ensures var t := Next(kinds, s, e, now); forall v :: v in t.verdicts && v.admitted ==> v.message in t.log
  {
    StepGrowsLog(kinds, s, e, now);
  }

  lemma {:induction false} KeepsForgotten(kinds: Msg -> Kind, s: State, e: Event, now: int)
    requires Safe(kinds, s) && Enabled(s, e, now)
    ensures var t := Next(kinds, s, e, now); forall k :: k in t.forgotten ==> k.message in t.log && k !in t.rows
  {
    var t := Next(kinds, s, e, now);
    StepGrowsLog(kinds, s, e, now);
    if e.Stage? { assert FlowOk(kinds, s, e.chat, s.flows[e.chat]); }
    forall k | k in t.forgotten ensures k.message in t.log && k !in t.rows {
      if e.Prune? && k in e.gone { assert k in s.rows && s.rows[k].status == Succeeded; }
    }
  }

  /** Whatever recovery does, and however late. */
  lemma {:induction false} KeepsSafe(kinds: Msg -> Kind, s: State, e: Event, now: int)
    requires Safe(kinds, s) && Enabled(s, e, now)
    ensures Safe(kinds, Next(kinds, s, e, now))
  {
    var t := Next(kinds, s, e, now);
    StepMovesRows(kinds, s, e, now);
    StepGrowsLog(kinds, s, e, now);
    KeepsReleased(kinds, s, t, e);
    KeepsVerdicts(kinds, s, e, now);
    KeepsForgotten(kinds, s, e, now);
    forall c | c in t.flows ensures FlowOk(kinds, t, c, t.flows[c]) {
      if Acts(e, c) {
        OwnFlow(kinds, s, e, now, c);
      } else {
        OtherFlow(kinds, s, e, now, c);
      }
    }
  }

  /** Rows are only held by a flow that held them before, or has just prepared them. */
  lemma {:induction false} HoldersStay(kinds: Msg -> Kind, s: State, e: Event, now: int, c: int)
    requires Safe(kinds, s) && Enabled(s, e, now)
    requires var t := Next(kinds, s, e, now); c in t.flows && HoldsRows(t.flows[c])
    ensures var t := Next(kinds, s, e, now);
            var m := t.flows[c].message;
            || AllRows(kinds, t, m)
            || (c in s.flows && HoldsRows(s.flows[c]) && s.flows[c].message == m)
  {
    if !Acts(e, c) { OthersStay(kinds, s, e, now, c); }
  }

  /** Rows of a message that is not logged yet are prepared, so they cannot be pruned. */
  lemma {:induction false} HeldRowStays(kinds: Msg -> Kind, s: State, t: State, e: Event, c: int, k: Key)
    requires Safe(kinds, s) && RowsMove(kinds, s, t, e) && !Late(s, e)
    requires c in s.flows && HoldsRows(s.flows[c]) && k in s.rows && k.message == s.flows[c].message
    ensures k in t.rows
  {
    assert FlowOk(kinds, s, c, s.flows[c]);
    assert RowMoves(kinds, s, t, e, k);
  }

  lemma {:induction false} KeepsStaged(kinds: Msg -> Kind, s: State, e: Event, now: int)
    requires Inv(kinds, s) && Enabled(s, e, now) && !Late(s, e)
    ensures StagedRows(kinds, Next(kinds, s, e, now))
  {
    var t := Next(kinds, s, e, now);
    StepMovesRows(kinds, s, e, now);
    forall c | c in t.flows && HoldsRows(t.flows[c]) ensures AllRows(kinds, t, t.flows[c].message) {
      HoldersStay(kinds, s, e, now, c);
      var m := t.flows[c].message;
      if !AllRows(kinds, t, m) {
        forall x | x in Effects(kinds(m)) ensures Key(m, x) in t.rows {
          HeldRowStays(kinds, s, t, e, c, Key(m, x));
        }
      }
    }
  }

  lemma {:induction false} KeepsEffects(kinds: Msg -> Kind, s: State, e: Event, now: int)
    requires Inv(kinds, s) && Enabled(s, e, now) && !Late(s, e)
    ensures EffectsKept(kinds, Next(kinds, s, e, now))
  {
    var t := Next(kinds, s, e, now);
    StepMovesRows(kinds, s, e, now);
    StepGrowsLog(kinds, s, e, now);
    forall m, x | m in t.log && x in Effects(kinds(m)) ensures Key(m, x) in t.rows || Key(m, x) in t.forgotten {
      if m in s.log {
        if Key(m, x) in s.rows { NeededStays(kinds, s, t, e, Key(m, x)); }
      } else {
        assert AllRows(kinds, s, m);
      }
    }
  }

  /** Every step that carries out no late verdict. */
  lemma {:induction false} KeepsInvariant(kinds: Msg -> Kind, s: State, e: Event, now: int)
    requires Inv(kinds, s) && Enabled(s, e, now) && !Late(s, e)
    ensures Inv(kinds, Next(kinds, s, e, now))
  {
    KeepsSafe(kinds, s, e, now);
    KeepsStaged(kinds, s, e, now);
    KeepsEffects(kinds, s, e, now);
  }

  /** A row that is needed is lost: deleted, though it has not succeeded. */
  ghost predicate Loses(s: State, t: State) {
    exists k :: k in s.rows && Needs(s, k.message) && s.rows[k].status != Succeeded && k !in t.rows
  }

  /** Late verdicts are the only steps that lose effects, and every one of them does. */
  lemma {:induction false} LateVerdictsLose(kinds: Msg -> Kind, s: State, e: Event, now: int)
    requires Safe(kinds, s) && Enabled(s, e, now)
    ensures Loses(s, Next(kinds, s, e, now)) <==> Late(s, e)
  {
    var t := Next(kinds, s, e, now);
    StepMovesRows(kinds, s, e, now);
    if Late(s, e) {
      var k :| k in s.rows && k.message == e.verdict.message && s.rows[k].status != Succeeded;
      assert Next(kinds, s, e, now).rows == Cancelled(s.rows, e.verdict.message);
    } else {
      forall k | k in s.rows && Needs(s, k.message) && s.rows[k].status != Succeeded ensures k in t.rows {
        NeededStays(kinds, s, t, e, k);
      }
    }
  }

  // ---- Whole runs ----

  ghost predicate Run(kinds: Msg -> Kind, states: seq<State>, events: seq<Event>, times: seq<int>) {
    && |states| == |events| + 1 && |times| == |events|
    && states[0] == State(map[], {}, map[], {}, {}, {}, {})
    && forall i :: 0 <= i < |events| ==>
         Enabled(states[i], events[i], times[i]) && states[i + 1] == Next(kinds, states[i], events[i], times[i])
  }

  /** No verdict is carried out late in the first `n` steps. */
  ghost predicate Timely(states: seq<State>, events: seq<Event>, n: nat) {
    n <= |events| <= |states| && forall i :: 0 <= i < n ==> !Late(states[i], events[i])
  }

  lemma {:induction false} RunIsSafe(
    kinds: Msg -> Kind, states: seq<State>, events: seq<Event>, times: seq<int>, i: nat)
    requires Run(kinds, states, events, times) && i <= |events|
    ensures Safe(kinds, states[i])
  {
    if i > 0 {
      RunIsSafe(kinds, states, events, times, i - 1);
      KeepsSafe(kinds, states[i - 1], events[i - 1], times[i - 1]);
    }
  }

  lemma {:induction false} RunKeepsInvariant(
    kinds: Msg -> Kind, states: seq<State>, events: seq<Event>, times: seq<int>, i: nat)
    requires Run(kinds, states, events, times) && Timely(states, events, i)
    ensures Inv(kinds, states[i])
  {
    if i > 0 {
      RunKeepsInvariant(kinds, states, events, times, i - 1);
      KeepsInvariant(kinds, states[i - 1], events[i - 1], times[i - 1]);
    }
  }

  /** No row leaves `prepared` before its message is in the event log, so no handler ever
      sees an effect of a message that is not. */
  lemma {:induction false} NothingReleasedEarly(
    kinds: Msg -> Kind, states: seq<State>, events: seq<Event>, times: seq<int>, i: nat, k: Key)
    requires Run(kinds, states, events, times) && i <= |events| && k in states[i].rows
    ensures states[i].rows[k].status != Prepared ==> k.message in states[i].log
    ensures i < |events| && events[i].Claim? && k in events[i].keys ==> k.message in states[i].log
  {
    RunIsSafe(kinds, states, events, times, i);
  }

  predicate Grown(s: State, t: State) {
    s.log <= t.log && s.forgotten <= t.forgotten
  }

  lemma {:induction false} GrownOver(states: seq<State>, i: nat, j: nat)
    requires i <= j < |states|
    requires forall m, n :: i <= m && n == m + 1 && n <= j ==> Grown(states[m], states[n])
    ensures Grown(states[i], states[j])
    decreases j
  {
    if i < j {
      GrownOver(states, i, j - 1);
      assert Grown(states[j - 1], states[j]);
    }
  }

  lemma {:induction false} LogGrows(
    kinds: Msg -> Kind, states: seq<State>, events: seq<Event>, times: seq<int>, i: nat, j: nat)
    requires Run(kinds, states, events, times) && i <= j <= |events|
    ensures Grown(states[i], states[j])
  {
    forall m, n | i <= m && n == m + 1 && n <= j ensures Grown(states[m], states[n]) {
      RunIsSafe(kinds, states, events, times, m);
      StepGrowsLog(kinds, states[m], events[m], times[m]);
    }
    GrownOver(states, i, j);
  }

  lemma {:induction false} ForgottenSucceeded(
      kinds: Msg -> Kind, states: seq<State>, events: seq<Event>, times: seq<int>, j: nat, k: Key)
    requires Run(kinds, states, events, times) && j <= |events| && k in states[j].forgotten
    ensures exists i :: 0 <= i < j && k in states[i].rows && states[i].rows[k].status == Succeeded
  {
    if j > 0 && k in states[j - 1].forgotten {
      ForgottenSucceeded(kinds, states, events, times, j - 1, k);
    } else if j > 0 {
      assert Enabled(states[j - 1], events[j - 1], times[j - 1]);
      assert k in states[j - 1].rows && states[j - 1].rows[k].status == Succeeded;
    }
  }

  /** The effects of a logged message are never lost where no verdict was carried out
      late: at any later time each is still in the table, or has succeeded. */
  lemma {:induction false} LoggedEffectsSurvive(
    kinds: Msg -> Kind, states: seq<State>, events: seq<Event>, times: seq<int>, i: nat, j: nat, m: Msg, e: Effect)
    requires Run(kinds, states, events, times) && i <= j && Timely(states, events, j)
    requires m in states[i].log && e in Effects(kinds(m))
    ensures Key(m, e) in states[j].rows ||
            exists h :: 0 <= h < j && Key(m, e) in states[h].rows && states[h].rows[Key(m, e)].status == Succeeded
  {
    LogGrows(kinds, states, events, times, i, j);
    RunKeepsInvariant(kinds, states, events, times, j);
    if Key(m, e) !in states[j].rows {
      ForgottenSucceeded(kinds, states, events, times, j, Key(m, e));
    }
  }

  // ---- After a restart ----

  /** Recovery after a crash makes every prepared row of a logged message ready, keeps its
      other rows, and removes all rows of messages that were not logged. */
  lemma {:induction false} RestartRecovers(
    kinds: Msg -> Kind, states: seq<State>, events: seq<Event>, times: seq<int>, i: nat, recovered: Table, now: int)
    requires Run(kinds, states, events, times) && i < |events| && events[i] == Crash
    requires Recovered(states[i + 1].rows, recovered, m => IsAdmitted(kinds, states[i + 1], m), now)
    ensures forall k :: k in recovered <==> k in states[i].rows && k.message in states[i].log
    ensures forall k :: k in recovered ==> recovered[k] == Promoted(states[i].rows[k], now)
  {
    RunIsSafe(kinds, states, events, times, i);
    var s, t := states[i], states[i + 1];
    assert t == Next(kinds, s, Crash, times[i]) && t.rows == s.rows && t.log == s.log && t.flows == map[];
    forall k | k in s.rows
      ensures if k.message in s.log then k in recovered && recovered[k] == Promoted(s.rows[k], now) else k !in recovered
    {
      assert IsAdmitted(kinds, t, k.message) == Some(k.message in s.log);
      if k.message !in s.log {
        assert s.rows[k].status == Prepared;
        assert HasPrepared(t.rows, k.message);
      }
    }
  }

  // ---- What a failed admission leaves behind ----

  /** The flow holds rows that it prepared and can still take back, or has had accepted. */
  predicate Holds(f: Flow) {
    (f.phase.Staged? && f.phase.created) || f.phase.Accepted? || f.phase.Aborting?
  }

  ghost predicate RowIsHeld(s: State, k: Key) {
    var m := k.message;
    m in s.log || (m.chat in s.flows && s.flows[m.chat].message == m && Holds(s.flows[m.chat]))
  }

  /** Every row belongs to a logged message or to an admission under way. */
  ghost predicate Tidy(s: State) {
    forall k :: k in s.rows ==> RowIsHeld(s, k)
  }

  /** The process dies, or an admission fails after its message was accepted or while its
      rows are taken back. */
  predicate LeavesRows(s: State, e: Event) {
    e.Crash? || (e.Fail? && At(s, e.chat, (p: Phase) => p.Accepted? || p.Aborting?))
  }

  lemma {:induction false} StageIsTidy(kinds: Msg -> Kind, s: State, e: Event, now: int, k: Key)
    requires Safe(kinds, s) && Tidy(s) && Enabled(s, e, now) && e.Stage? && k in Next(kinds, s, e, now).rows
    ensures RowIsHeld(Next(kinds, s, e, now), k)
  {
    var m := s.flows[e.chat].message;
    assert FlowOk(kinds, s, e.chat, s.flows[e.chat]);
    if k in s.rows {
      assert RowIsHeld(s, k);
    } else {
      assert AddsRow(s.rows, m, Effects(kinds(m)));
    }
  }

  lemma {:induction false} OwnIsTidy(kinds: Msg -> Kind, s: State, e: Event, now: int, k: Key)
    requires Safe(kinds, s) && Enabled(s, e, now) && !LeavesRows(s, e) && !e.Stage?
    requires Acts(e, k.message.chat) && k in Next(kinds, s, e, now).rows
    requires k in s.rows && RowIsHeld(s, k) && k.effect in Effects(kinds(k.message))
    ensures RowIsHeld(Next(kinds, s, e, now), k)
  {
    var c := k.message.chat;
    if c in s.flows { assert FlowOk(kinds, s, c, s.flows[c]); }
  }

  lemma {:induction false} OtherIsTidy(kinds: Msg -> Kind, s: State, e: Event, now: int, k: Key)
    requires Safe(kinds, s) && Enabled(s, e, now) && !LeavesRows(s, e) && !e.Stage?
    requires !Acts(e, k.message.chat) && RowIsHeld(s, k)
    ensures RowIsHeld(Next(kinds, s, e, now), k)
  {
    StepGrowsLog(kinds, s, e, now);
  }

  /** Other events than staging bring no row. */
  lemma {:induction false} NoNewRow(kinds: Msg -> Kind, s: State, e: Event, now: int, k: Key)
    requires Enabled(s, e, now) && !e.Stage? && k in Next(kinds, s, e, now).rows
    ensures k in s.rows
  {
  }

  lemma {:induction false} KeepsTidy(kinds: Msg -> Kind, s: State, e: Event, now: int)
    requires Safe(kinds, s) && Tidy(s) && Enabled(s, e, now) && !LeavesRows(s, e)
    ensures Tidy(Next(kinds, s, e, now))
  {
    forall k | k in Next(kinds, s, e, now).rows ensures RowIsHeld(Next(kinds, s, e, now), k) {
      if e.Stage? {
        StageIsTidy(kinds, s, e, now, k);
      } else {
        NoNewRow(kinds, s, e, now, k);
        assert RowIsHeld(s, k);
        if Acts(e, k.message.chat) { OwnIsTidy(kinds, s, e, now, k); } else { OtherIsTidy(kinds, s, e, now, k); }
      }
    }
  }

  /** Unless the process dies, or an admission fails after its message was accepted or while
      its rows are taken back, a failed admission leaves no rows: each row belongs to a logged
      message or to an admission that is under way. */
  lemma {:induction false} FailuresLeaveNothing(
    kinds: Msg -> Kind, states: seq<State>, events: seq<Event>, times: seq<int>, i: nat)
    requires Run(kinds, states, events, times) && i <= |events|
    requires forall j :: 0 <= j < i ==> !LeavesRows(states[j], events[j])
    ensures Tidy(states[i])
    decreases i
  {
    if i > 0 {
      FailuresLeaveNothing(kinds, states, events, times, i - 1);
      RunIsSafe(kinds, states, events, times, i - 1);
      KeepsTidy(kinds, states[i - 1], events[i - 1], times[i - 1]);
    }
  }

  // ---- An undisturbed admission ----

  predicate CanBegin(kinds: Msg -> Kind, s: State, m: Msg) {
    m.chat !in s.flows && m !in s.log && m !in s.admitted && kinds(m) == User
  }

  function Opened(kinds: Msg -> Kind, s: State, m: Msg, order: nat, payload: int, now: int): (t: State)
    requires CanBegin(kinds, s, m) && NextOrder(s.rows, m.chat, order)
    ensures At(t, m.chat, (p: Phase) => p.Staged?) && t.flows[m.chat].message == m && t.log == s.log
    ensures t.rows == WithPrepared(s.rows, m, Effects(User), NewRow(order, payload, now))
  {
    Next(kinds, Next(kinds, s, Begin(m), now), Stage(m.chat, order, payload), now)
  }

  function Closed(kinds: Msg -> Kind, s: State, m: Msg, now: int): (t: State)
    requires At(s, m.chat, (p: Phase) => p.Staged?) && s.flows[m.chat].message == m && m !in s.log && kinds(m) == User
    ensures m in t.log && t.rows == MadeReady(s.rows, m, now) && m.chat !in t.flows
  {
    var accepted := Next(kinds, s, Look(m.chat), now);
    var logged := Next(kinds, accepted, Append(m.chat), now);
    Next(kinds, Next(kinds, logged, Note(m.chat), now), Finish(m.chat), now)
  }

  /** Admission from begin to end logs the message and leaves all its effects ready, whether
      their rows are new or were left behind by an earlier attempt. */
  lemma {:induction false} AdmissionReleasesEffects(
      kinds: Msg -> Kind, s: State, m: Msg, order: nat, payload: int, now: int)
    requires Inv(kinds, s) && CanBegin(kinds, s, m) && NextOrder(s.rows, m.chat, order)
    ensures var t := Closed(kinds, Opened(kinds, s, m, order, payload, now), m, now);
            && m in t.log
            && forall e :: e in Effects(User) ==> Key(m, e) in t.rows && t.rows[Key(m, e)].status == Ready
    ensures Effects(User) == {Hindsight, Learner}
  {
    var o := Opened(kinds, s, m, order, payload, now);
    forall e | e in Effects(User) ensures Key(m, e) in o.rows && o.rows[Key(m, e)].status == Prepared {
      if Key(m, e) !in s.rows {
        assert o.rows[Key(m, e)] == NewRow(order, payload, now);
      }
    }
  }

  // ---- A verdict that is carried out late ----

  predicate CanJudge(kinds: Msg -> Kind, s: State, m: Msg) {
    CanBegin(kinds, s, m) && m in s.scanned
  }

  function Judged(kinds: Msg -> Kind, s: State, m: Msg, now: int): (t: State)
    requires CanJudge(kinds, s, m)
    ensures CanBegin(kinds, t, m) && t.rows == s.rows && t.log == s.log && Verdict(m, false) in t.verdicts
  {
    Next(kinds, s, Judge(m), now)
  }

  lemma {:induction false} VerdictWaits(kinds: Msg -> Kind, s: State, e: Event, now: int, v: Verdict)
    requires Enabled(s, e, now) && v in s.verdicts && !e.Carry? && !e.Crash?
    ensures v in Next(kinds, s, e, now).verdicts
  {
  }

  lemma {:induction false} OpenedKeeps(
      kinds: Msg -> Kind, s: State, m: Msg, order: nat, payload: int, now: int, v: Verdict)
    requires CanBegin(kinds, s, m) && NextOrder(s.rows, m.chat, order) && v in s.verdicts
    ensures v in Opened(kinds, s, m, order, payload, now).verdicts
  {
    var begun := Next(kinds, s, Begin(m), now);
    VerdictWaits(kinds, s, Begin(m), now, v);
    VerdictWaits(kinds, begun, Stage(m.chat, order, payload), now, v);
  }

  lemma {:induction false} ClosedKeeps(kinds: Msg -> Kind, s: State, m: Msg, now: int, v: Verdict)
    requires At(s, m.chat, (p: Phase) => p.Staged?) && s.flows[m.chat].message == m && m !in s.log && kinds(m) == User
    requires v in s.verdicts
    ensures v in Closed(kinds, s, m, now).verdicts
  {
  }

  /** Recovery finds that a message is not admitted; before it carries that out the message
      is admitted: its effects, all ready, are deleted. */
  lemma {:induction false} LateVerdictLosesEffects(
    kinds: Msg -> Kind, s: State, m: Msg, order: nat, payload: int, now: int)
    requires Inv(kinds, s) && CanJudge(kinds, s, m) && NextOrder(s.rows, m.chat, order)
    ensures var t := Closed(kinds, Opened(kinds, Judged(kinds, s, m, now), m, order, payload, now), m, now);
            && m in t.log && Enabled(t, Carry(Verdict(m, false)), now)
            && forall e :: e in Effects(User) ==>
                 Key(m, e) in t.rows && t.rows[Key(m, e)].status == Ready
                 && Key(m, e) !in Next(kinds, t, Carry(Verdict(m, false)), now).rows
  {
    var j := Judged(kinds, s, m, now);
    KeepsInvariant(kinds, s, Judge(m), now);
    AdmissionReleasesEffects(kinds, j, m, order, payload, now);
    OpenedKeeps(kinds, j, m, order, payload, now, Verdict(m, false));
    ClosedKeeps(kinds, Opened(kinds, j, m, order, payload, now), m, now, Verdict(m, false));
  }

  /** The same before the message is logged: it is admitted without any effect. */
  lemma {:induction false} VerdictDuringAdmissionLosesEffects(
    kinds: Msg -> Kind, s: State, m: Msg, order: nat, payload: int, now: int)
    requires Inv(kinds, s) && CanJudge(kinds, s, m) && NextOrder(s.rows, m.chat, order)
    ensures var o := Opened(kinds, Judged(kinds, s, m, now), m, order, payload, now);
            Enabled(o, Carry(Verdict(m, false)), now) &&
            var c := Next(kinds, o, Carry(Verdict(m, false)), now);
            && At(c, m.chat, (p: Phase) => p.Staged?) && c.flows[m.chat].message == m && m !in c.log
            && m in Closed(kinds, c, m, now).log
            && forall e :: e in Effects(User) ==> Key(m, e) !in Closed(kinds, c, m, now).rows
  {
    OpenedKeeps(kinds, Judged(kinds, s, m, now), m, order, payload, now, Verdict(m, false));
  }
}
