/** Trying the models of a chain one after another, with failed models cooling down. */
module Fallback {
  import opened Text

  // ---- Cooling down ----

  /** A model is only recorded once it has failed. */
  type Count = n: nat | n > 0 witness 1

  datatype Cooldown = Cooldown(failures: Count, lastFailure: real, until: real)

  datatype Config = Config(enabled: bool, base: real, max: real, threshold: int)

  /** `base` doubled `n` times. */
  function Backoff(base: real, n: nat): real {
    if n == 0 then base else 2.0 * Backoff(base, n - 1)
  }

  function Min(a: real, b: real): real {
    if a < b then a else b
  }

  /** `_compute_delay`. */
  function Delay(c: Config, failures: nat): real {
    if failures < c.threshold then 0.0 else Min(Backoff(c.base, failures - c.threshold), c.max)
  }

  /** More failures never shorten the delay, and it stays within the maximum. */
  predicate Graded(c: Config, a: nat, b: nat) {
    Delay(c, a) <= Delay(c, b) && Delay(c, b) <= c.max
  }

  /** No delay below the threshold; from there on the base, doubled with every failure, up to
      the maximum. */
  lemma {:induction false} DelayDoubles(c: Config, failures: nat)
    requires c.max >= 0.0
    ensures failures < c.threshold ==> Delay(c, failures) == 0.0
    ensures failures == c.threshold ==> Delay(c, failures) == Min(c.base, c.max)
    ensures failures >= c.threshold && c.base >= 0.0 ==> Delay(c, failures + 1) == Min(2.0 * Delay(c, failures), c.max)
  {
    if failures >= c.threshold && c.base >= 0.0 {
      BackoffGrows(c.base, 0, failures - c.threshold);
      assert Backoff(c.base, failures + 1 - c.threshold) == 2.0 * Backoff(c.base, failures - c.threshold);
    }
  }

  lemma {:induction false} BackoffGrows(base: real, a: nat, b: nat)
    requires base >= 0.0 && a <= b
    ensures 0.0 <= Backoff(base, a) <= Backoff(base, b)
    decreases b
  {
    if a < b {
      BackoffGrows(base, a, b - 1);
    } else if b > 0 {
      BackoffGrows(base, a - 1, b - 1);
    }
  }

  lemma {:induction false} DelayGrows(c: Config, a: nat, b: nat)
    requires c.base >= 0.0 && (c.threshold <= 0 || c.max >= 0.0) && a <= b
    ensures Graded(c, a, b)
  {
    if b >= c.threshold {
      BackoffGrows(c.base, if a >= c.threshold then a - c.threshold else 0, b - c.threshold);
    }
  }

  /** With a negative base the delay falls without end. */
  lemma {:induction false} NegativeBaseFalls(c: Config) returns (a: nat, b: nat)
    requires c.base < 0.0
    ensures a <= b && Delay(c, a) > Delay(c, b)
  {
    a := if c.threshold > 0 then c.threshold else 0;
    var low := Delay(c, a);
    var n := Above(low / c.base);
    b := a + n;
    DelayBelow(c, b, low, n);
  }

  lemma {:induction false} Above(x: real) returns (n: nat)
    ensures n as real > x
  {
    n := if x < 0.0 then 0 else x.Floor + 1;
  }

  lemma {:induction false} DelayBelow(c: Config, b: nat, low: real, n: nat)
    requires c.base < 0.0 && b >= c.threshold && n as real > low / c.base && b - c.threshold >= n
    ensures Delay(c, b) < low
  {
    var k: nat := b - c.threshold;
    BackoffFalls(c.base, k);
    Quotient(low, c.base, (k + 1) as real);
  }

  lemma {:induction false} BackoffFalls(base: real, n: nat)
    requires base < 0.0
    ensures Backoff(base, n) <= base * (n + 1) as real && Backoff(base, n) <= base
  {
    if n > 0 {
      BackoffFalls(base, n - 1);
      assert base * (n + 1) as real == base * n as real + base;
    }
  }

  lemma {:induction false} Quotient(low: real, base: real, p: real)
    requires base < 0.0 && p > low / base
    ensures base * p < low
  {
    assert base * (low / base) == low;
  }

  /** The delay is graded for all counts of failures just when the base is not negative and
      the maximum is not either, unless every failure counts from the start. */
  lemma {:induction false} DelayIsGraded(c: Config)
    ensures (forall a: nat, b: nat :: a <= b ==> Graded(c, a, b)) <==>
            c.base >= 0.0 && (c.threshold <= 0 || c.max >= 0.0)
  {
    if c.base >= 0.0 && (c.threshold <= 0 || c.max >= 0.0) {
      forall a: nat, b: nat | a <= b ensures Graded(c, a, b) { DelayGrows(c, a, b); }
    } else if c.base < 0.0 {
      var a, b := NegativeBaseFalls(c);
      assert !Graded(c, a, b);
    } else {
      assert !Graded(c, 0, 0);
    }
  }

  predicate Cooling(c: Config, states: map<string, Cooldown>, name: string, now: real) {
    && c.enabled && name in states
    && states[name].failures >= c.threshold && now < states[name].until
  }

  class CooldownManager {
    const config: Config
    var states: map<string, Cooldown>

    constructor (config: Config)
      ensures this.config == config && states == map[]
    {
      this.config, states := config, map[];
    }

    /** Forgets what has run out. */
    method IsCooledDown(name: string, now: real) returns (cooling: bool)
      modifies this
      ensures cooling == Cooling(config, old(states), name, now)
      ensures states == if cooling || !config.enabled then old(states) else old(states) - {name}
    {
      if !config.enabled {
        return false;
      }
      if name !in states {
        return false;
      }
      if states[name].failures < config.threshold || now >= states[name].until {
        states := states - {name};
        return false;
      }
      cooling := true;
    }

    method RecordFailure(name: string, now: real)
      modifies this
      ensures Others(old(states), states, name)
      ensures !config.enabled ==> states == old(states)
      ensures config.enabled ==>
                var n := FailuresOf(old(states), name) + 1;
                states == old(states)[name := Cooldown(n, now, now + Delay(config, n))]
      ensures config.enabled && name !in old(states) && OneFailureEach(config, old(states)) ==>
                OneFailureEach(config, states)
      ensures forall t :: Cooling(config, states, name, t) <==>
                && config.enabled && FailuresOf(states, name) >= config.threshold
                && t < now + Delay(config, FailuresOf(states, name))
    {
      if config.enabled {
        var n := FailuresOf(states, name) + 1;
        states := states[name := Cooldown(n, now, now + Delay(config, n))];
      }
    }

    method RecordSuccess(name: string)
      modifies this
      ensures Others(old(states), states, name)
      ensures forall t :: !Cooling(config, states, name, t)
      ensures Forgets(old(states), states)
      ensures config.enabled ==> FailuresOf(states, name) == 0
      ensures states == if config.enabled then old(states) - {name} else old(states)
    {
      if config.enabled && name in states {
        states := states - {name};
      }
    }
  }

  /** Every recorded model has failed once, and cools for the delay of a first failure. */
  predicate OneFailureEach(c: Config, states: map<string, Cooldown>) {
    forall n :: n in states ==> states[n].failures == 1 && states[n].until == states[n].lastFailure + Delay(c, 1)
  }

  /** Then no model cools at all if more failures are asked for, and none longer than after
      a first failure: the delays for more failures are never used. */
  lemma {:induction false} FirstFailureOnly(c: Config, states: map<string, Cooldown>, name: string, now: real)
    requires OneFailureEach(c, states)
    ensures Cooling(c, states, name, now) <==>
            && c.enabled && c.threshold <= 1 && name in states && now < states[name].lastFailure + Delay(c, 1)
    ensures c.threshold == 1 ==> Delay(c, 1) == Min(c.base, c.max)
  {
  }

  function FailuresOf(states: map<string, Cooldown>, name: string): nat {
    if name in states then states[name].failures else 0
  }

  /** Some models may have been forgotten. */
  predicate Forgets(before: map<string, Cooldown>, after: map<string, Cooldown>) {
    forall n :: n in after ==> n in before && after[n] == before[n]
  }

  /** Nothing is different for other models. */
  predicate Others(before: map<string, Cooldown>, after: map<string, Cooldown>, name: string) {
    && (forall n :: n in before && n != name ==> n in after && after[n] == before[n])
    && (forall n :: n in after && n != name ==> n in before)
  }

  // ---- The chain ----

  /** What a call of a model comes to. */
  datatype Outcome = Message(text: string) | Empty | Raises | Interrupted

  /** How a run ends: with the message of a model, with none, or interrupted. */
  datatype Result = Answer(model: string, text: string) | Nothing | Cancelled

  function Remaining(chain: seq<string>, failed: set<string>): seq<string> {
    if chain == [] then []
    else (if chain[0] in failed then [] else [chain[0]]) + Remaining(chain[1..], failed)
  }

  lemma {:induction false} RemainingHas(chain: seq<string>, failed: set<string>)
    ensures forall n :: n in Remaining(chain, failed) <==> n in chain && n !in failed
  {
    if chain != [] {
      RemainingHas(chain[1..], failed);
      assert chain == [chain[0]] + chain[1..];
    }
  }

  /** The first of `names` that is usable. */
  function First(names: seq<string>, usable: string -> bool): Option<string> {
    if names == [] then None else if usable(names[0]) then Some(names[0]) else First(names[1..], usable)
  }

  class Runner {
    const services: set<string>
    const cooldowns: CooldownManager
    const chain: seq<string>
    var failed: set<string>
    var current: Option<string>

    constructor (services: set<string>, cooldowns: CooldownManager, chain: seq<string>)
      ensures this.services == services && this.cooldowns == cooldowns && this.chain == chain
      ensures failed == {} && current == None
    {
      this.services, this.cooldowns, this.chain, failed, current := services, cooldowns, chain, {}, None;
    }

    /** `resolve_model_chain`. */
    method Resolve(names: seq<string>, now: real) returns (found: Option<string>)
      modifies cooldowns
      ensures found == First(names, UsableFrom({}, old(cooldowns.states), now))
      ensures forall n :: Cooling(cooldowns.config, cooldowns.states, n, now)
                      <==> Cooling(cooldowns.config, old(cooldowns.states), n, now)
      ensures Forgets(old(cooldowns.states), cooldowns.states)
      ensures forall n :: n in old(cooldowns.states) && n !in names ==> n in cooldowns.states
      ensures !cooldowns.config.enabled ==> cooldowns.states == old(cooldowns.states)
      ensures found.Some? && cooldowns.config.enabled ==> found.value !in cooldowns.states
    {
      ghost var usable := UsableFrom({}, cooldowns.states, now);
      var i := 0;
      while i < |names|
        invariant i <= |names| && First(names[i..], usable) == First(names, usable)
        invariant forall n :: Cooling(cooldowns.config, cooldowns.states, n, now)
                          <==> Cooling(cooldowns.config, old(cooldowns.states), n, now)
        invariant Forgets(old(cooldowns.states), cooldowns.states)
        invariant forall n :: n in old(cooldowns.states) && n !in names ==> n in cooldowns.states
        invariant !cooldowns.config.enabled ==> cooldowns.states == old(cooldowns.states)
      {
        assert names[i..][0] == names[i] && names[i..][1..] == names[i + 1..];
        var cooling := cooldowns.IsCooledDown(names[i], now);
        if !cooling && names[i] in services {
          return Some(names[i]);
        }
        i := i + 1;
      }
      found := None;
    }

    /** The first model left that is not cooling. */
    method Acquire(now: real) returns (ok: bool)
      modifies this`current, cooldowns
      ensures current == First(Remaining(chain, failed), UsableFrom({}, old(cooldowns.states), now))
      ensures ok == current.Some?
      ensures forall n :: Cooling(cooldowns.config, cooldowns.states, n, now)
                      <==> Cooling(cooldowns.config, old(cooldowns.states), n, now)
      ensures Forgets(old(cooldowns.states), cooldowns.states)
      ensures Asked(cooldowns.config, old(cooldowns.states), cooldowns.states, failed, now)
      ensures ok && cooldowns.config.enabled ==> current.value !in cooldowns.states
    {
      RemainingHas(chain, failed);
      current := Resolve(Remaining(chain, failed), now);
      ok := current.Some?;
    }

    method MarkFailure(record: bool, now: real)
      requires current.Some?
      modifies this, cooldowns
      ensures failed == old(failed) + {old(current).value} && current == None
      ensures var name, config := old(current).value, cooldowns.config;
              if record && config.enabled then
                && FailuresOf(cooldowns.states, name) == FailuresOf(old(cooldowns.states), name) + 1
                && forall t :: Cooling(config, cooldowns.states, name, t) <==>
                     && FailuresOf(cooldowns.states, name) >= config.threshold
                     && t < now + Delay(config, FailuresOf(cooldowns.states, name))
              else cooldowns.states == old(cooldowns.states)
      ensures forall n :: n != old(current).value ==>
                (Cooling(cooldowns.config, cooldowns.states, n, now)
                 <==> Cooling(cooldowns.config, old(cooldowns.states), n, now))
      ensures Counted(old(cooldowns.states)) && old(Forgotten(current.value)) ==> Counted(cooldowns.states)
      ensures cooldowns.states == if record && cooldowns.config.enabled
                                  then Failed(cooldowns.config, old(cooldowns.states), old(current).value, now)
                                  else old(cooldowns.states)
    {
      failed := failed + {current.value};
      if record {
        cooldowns.RecordFailure(current.value, now);
      }
      current := None;
    }

    method MarkSuccess()
      requires current.Some?
      modifies cooldowns
      ensures Forgets(old(cooldowns.states), cooldowns.states)
      ensures cooldowns.states ==
              if cooldowns.config.enabled then old(cooldowns.states) - {current.value} else old(cooldowns.states)
    {
      cooldowns.RecordSuccess(current.value);
    }

    /** `calls` were tried on the first `p` places of the chain; all else is as it was at the
        start, when `usable` models were. */
    ghost predicate Underway(p: nat, calls: seq<string>, usable: string -> bool, call: string -> Outcome,
                             before: set<string>, now: real)
      reads this, cooldowns
    {
      && Tried(chain, p, usable, call, calls) && failed == before + SetOf(calls)
      && (forall n :: n in before ==> !usable(n))
      && (forall n :: n !in failed ==> (usable(n) <==> UsableFrom({}, cooldowns.states, now)(n)))
    }

    /** Finds the next model to call, at position `q` of the chain. */
    method AcquireNext(now: real, ghost p: nat, ghost calls: seq<string>, ghost usable: string -> bool,
                       ghost call: string -> Outcome, ghost before: set<string>, ghost record: bool,
                       ghost start: map<string, Cooldown>)
      returns (ok: bool, ghost q: nat)
      requires Underway(p, calls, usable, call, before, now) && OnRecord(start, calls, call, record, now)
      modifies this`current, cooldowns
      ensures !ok ==> Tried(chain, |chain|, usable, call, calls)
      ensures ok ==> current.Some? && q < |chain| && NextCall(chain, q, current.value, usable, call, calls)
      ensures Underway(p, calls, usable, call, before, now)
      ensures Counted(old(cooldowns.states)) ==> Counted(cooldowns.states)
      ensures ok ==> Forgotten(current.value)
      ensures OnRecord(start, calls, call, record, now)
    {
      ghost var usableNow := UsableFrom({}, cooldowns.states, now);
      ok := Acquire(now);
      RecordedAsked(cooldowns.config, start, old(cooldowns.states), cooldowns.states, failed, calls, call, record, now);
      ghost var out := failed;
      ghost var left := n => n !in out && usableNow(n);
      FirstInChain(chain, failed, usableNow, left);
      q := 0;
      if ok {
        q := NextCalled(chain, p, usable, call, calls, left);
      } else {
        TriedAll(chain, p, usable, call, calls, left);
      }
    }

    /** Calls the current model; None means that it failed and the run goes on. */
    method CallCurrent(call: string -> Outcome, record: bool, now: real, m: string) returns (r: Option<Result>)
      requires current == Some(m) && Forgotten(m)
      modifies this, cooldowns
      ensures cooldowns.states == AfterCall(cooldowns.config, old(cooldowns.states), m, call(m), record, now)
      ensures r == (match call(m)
                    case Interrupted => Some(Cancelled)
                    case Message(text) => Some(Answer(m, text))
                    case _ => None)
      ensures failed == if Fails(call(m)) then old(failed) + {m} else old(failed)
      ensures Counted(old(cooldowns.states)) ==> Counted(cooldowns.states)
      ensures forall n :: n != m ==> (Cooling(cooldowns.config, cooldowns.states, n, now)
                                      <==> Cooling(cooldowns.config, old(cooldowns.states), n, now))
    {
      match call(m) {
        case Interrupted =>
          return Some(Cancelled);
        case Message(text) =>
          MarkSuccess();
          return Some(Answer(m, text));
        case Raises =>
          MarkFailure(true, now);
        case Empty =>
          MarkFailure(record, now);
      }
      r := None;
    }

    /** One model's turn; None means that it failed and the run goes on. */
    method TakeTurn(call: string -> Outcome, record: bool, now: real, ghost p: nat, ghost q: nat, m: string,
                    ghost calls: seq<string>, ghost usable: string -> bool, ghost before: set<string>,
                    ghost start: map<string, Cooldown>)
      returns (r: Option<Result>, ghost all: seq<string>)
      requires OnRecord(start, calls, call, record, now)
      requires current == Some(m) && Underway(p, calls, usable, call, before, now) && Forgotten(m)
      requires NextCall(chain, q, m, usable, call, calls)
      modifies this, cooldowns
      ensures r.None? ==> Underway(q + 1, all, usable, call, before, now)
                          && SetOf(chain) - SetOf(all) < SetOf(chain) - SetOf(calls)
      ensures r.Some? ==> !r.value.Nothing? && Ends(r.value, all, chain, usable, call)
                          && failed == before + SetOf(all[..|all| - 1])
      ensures Counted(old(cooldowns.states)) ==> Counted(cooldowns.states)
      ensures OnRecord(start, all, call, record, now)
    {
      CallCounts(chain, q, m, usable, call, calls);
      CallEnds(chain, q, m, usable, call, calls);
      RecordedMore(cooldowns.config, start, cooldowns.states, calls, m, call, record, now);
      if Fails(call(m)) { CallFails(chain, q, m, usable, call, calls); }
      r := CallCurrent(call, record, now, m);
      all := calls + [m];
    }

    /** The next model's turn, if there is one; None means that it failed and the run goes on. */
    method Turn(call: string -> Outcome, record: bool, now: real, ghost p: nat, ghost calls: seq<string>,
                ghost usable: string -> bool, ghost before: set<string>, ghost start: map<string, Cooldown>)
      returns (r: Option<Result>, ghost q: nat, ghost all: seq<string>)
      requires Underway(p, calls, usable, call, before, now) && OnRecord(start, calls, call, record, now)
      modifies this, cooldowns
      ensures r.None? ==> Underway(q, all, usable, call, before, now)
                          && SetOf(chain) - SetOf(all) < SetOf(chain) - SetOf(calls)
      ensures r.Some? ==> Ends(r.value, all, chain, usable, call)
                          && failed == before + SetOf(if r.value.Nothing? then all else all[..|all| - 1])
      ensures Counted(old(cooldowns.states)) ==> Counted(cooldowns.states)
      ensures OnRecord(start, all, call, record, now)
    {
      var ok;
      ok, q := AcquireNext(now, p, calls, usable, call, before, record, start);
      if !ok {
        return Some(Nothing), q, calls;
      }
      r, all := TakeTurn(call, record, now, p, q, current.value, calls, usable, before, start);
      q := q + 1;
    }

    /** Calls the models that are left, in order, until one answers. `calls` are the models
        that were called. */
    method Run(call: string -> Outcome, record: bool, now: real) returns (r: Result, ghost calls: seq<string>)
      modifies this, cooldowns
      ensures Ends(r, calls, chain, UsableFrom(old(failed), old(cooldowns.states), now), call)
      ensures failed == old(failed) + SetOf(if r.Nothing? then calls else calls[..|calls| - 1])
      // a model is asked about before it is called, which forgets its earlier failures
      ensures Counted(old(cooldowns.states)) ==> Counted(cooldowns.states)
      ensures OnRecord(old(cooldowns.states), calls, call, record, now)
    {
      ghost var usable, before, start := UsableFrom(failed, cooldowns.states, now), failed, cooldowns.states;
      calls := [];
      NothingRecorded(cooldowns.config, start, call, record, now);
      ghost var p: nat := 0;
      while true
        invariant Underway(p, calls, usable, call, before, now)
        invariant Counted(old(cooldowns.states)) ==> Counted(cooldowns.states)
        invariant OnRecord(start, calls, call, record, now)
        decreases SetOf(chain) - SetOf(calls)
      {
        var ended;
        ended, p, calls := Turn(call, record, now, p, calls, usable, before, start);
        if ended.Some? {
          return ended.value, calls;
        }
      }
    }

    ghost predicate OnRecord(start: map<string, Cooldown>, calls: seq<string>, call: string -> Outcome, record: bool,
                             now: real)
      reads cooldowns
    {
      Recorded(cooldowns.config, start, cooldowns.states, calls, call, record, now)
    }

    predicate Counted(states: map<string, Cooldown>) {
      OneFailureEach(cooldowns.config, states)
    }

    /** No failure of the model is recorded. */
    predicate Forgotten(name: string)
      reads cooldowns
    {
      cooldowns.config.enabled ==> name !in cooldowns.states
    }

    /** A registered model that has not failed and is not cooling. */
    ghost function UsableFrom(failed: set<string>, states: map<string, Cooldown>, now: real): string -> bool {
      n => n in services && n !in failed && !Cooling(cooldowns.config, states, n, now)
    }
  }

  function SetOf(s: seq<string>): set<string> {
    set x | x in s
  }

  // ---- What a run leaves on record ----

  function Failed(c: Config, states: map<string, Cooldown>, name: string, now: real): map<string, Cooldown> {
    var n := FailuresOf(states, name) + 1;
    states[name := Cooldown(n, now, now + Delay(c, n))]
  }

  /** A call that raises is recorded, an empty answer only if that was asked for. */
  predicate IsRecorded(o: Outcome, record: bool) {
    o == Raises || (o == Empty && record)
  }

  function AfterCall(c: Config, states: map<string, Cooldown>, m: string, o: Outcome, record: bool, now: real)
    : map<string, Cooldown>
  {
    if c.enabled && IsRecorded(o, record) then Failed(c, states, m, now) else states
  }

  /** Models were asked about, but none of those that are out: some that are not cooling may
      have been forgotten. */
  ghost predicate Asked(
    c: Config, before: map<string, Cooldown>, after: map<string, Cooldown>, out: set<string>, now: real)
  {
    && Forgets(before, after)
    && (forall n :: n in before && n in out ==> n in after)
    && (forall n :: Cooling(c, after, n, now) <==> Cooling(c, before, n, now))
    && (!c.enabled ==> after == before)
  }

  /** Of the models that were called, just those whose failure is recorded are on record, with
      one failure and its delay from now on; of the others nothing is new, and what cooled
      cools on. */
  ghost predicate Recorded(c: Config, before: map<string, Cooldown>, after: map<string, Cooldown>, calls: seq<string>,
                           call: string -> Outcome, record: bool, now: real)
  {
    if !c.enabled then after == before
    else
      && (forall n :: n in calls ==> (n in after <==> call(n) == Raises || (call(n) == Empty && record)))
      && (forall n :: n in calls && n in after ==> after[n] == Cooldown(1, now, now + Delay(c, 1)))
      && (forall n :: n !in calls && n in after ==> n in before && after[n] == before[n])
      && (forall n :: n !in calls && Cooling(c, before, n, now) ==> n in after)
  }

  lemma {:induction false} NothingRecorded(
    c: Config, states: map<string, Cooldown>, call: string -> Outcome, record: bool, now: real)
    ensures Recorded(c, states, states, [], call, record, now)
  {
  }

  lemma {:induction false} RecordedAsked(
    c: Config, before: map<string, Cooldown>, mid: map<string, Cooldown>, after: map<string, Cooldown>, out: set<string>,
    calls: seq<string>, call: string -> Outcome, record: bool, now: real)
    requires Recorded(c, before, mid, calls, call, record, now) && Asked(c, mid, after, out, now)
    requires forall n :: n in calls ==> n in out
    ensures Recorded(c, before, after, calls, call, record, now)
  {
    if c.enabled {
      forall n | n !in calls && Cooling(c, before, n, now) ensures n in after {
        assert Cooling(c, mid, n, now) && Cooling(c, after, n, now);
      }
    }
  }

  lemma {:induction false} RecordedMore(
    c: Config, before: map<string, Cooldown>, mid: map<string, Cooldown>,
    calls: seq<string>, m: string, call: string -> Outcome, record: bool, now: real)
    requires Recorded(c, before, mid, calls, call, record, now) && m !in calls && (c.enabled ==> m !in mid)
    ensures Recorded(c, before, AfterCall(c, mid, m, call(m), record, now), calls + [m], call, record, now)
  {
  }

  predicate Fails(o: Outcome) {
    o == Empty || o == Raises
  }

  /** The usable models of a chain, each at its first place. */
  function FirstUses(chain: seq<string>, usable: string -> bool): (calls: seq<string>)
    ensures forall n :: n in calls <==> n in chain && usable(n)
    ensures forall i, j :: 0 <= i < j < |calls| ==> calls[i] != calls[j]
  {
    if chain == [] then []
    else
      var before := FirstUses(chain[..|chain| - 1], usable);
      var last := chain[|chain| - 1];
      assert chain == chain[..|chain| - 1] + [last];
      if usable(last) && last !in before then before + [last] else before
  }

  /** All usable models before position `p` were called once, in order, and failed. */
  ghost predicate Tried(chain: seq<string>, p: nat, usable: string -> bool, call: string -> Outcome, calls: seq<string>) {
    p <= |chain| && calls == FirstUses(chain[..p], usable) && forall n :: n in calls ==> Fails(call(n))
  }

  /** A run calls each usable model of the chain at most once, in chain order, up to the
      first one that does not fail; that one's message is the answer. */
  ghost predicate Ends(r: Result, calls: seq<string>, chain: seq<string>, usable: string -> bool, call: string -> Outcome) {
    match r
    case Nothing => Tried(chain, |chain|, usable, call, calls)
    case Answer(model, text) =>
      exists i :: 0 <= i < |chain| && chain[i] == model && usable(model) && call(model) == Message(text)
                  && calls != [] && Tried(chain, i, usable, call, calls[..|calls| - 1]) && calls[|calls| - 1] == model
    case Cancelled =>
      exists i :: 0 <= i < |chain| && usable(chain[i]) && call(chain[i]) == Interrupted
                  && calls != [] && Tried(chain, i, usable, call, calls[..|calls| - 1]) && calls[|calls| - 1] == chain[i]
  }

  /** Model `m` at position `q` is the next to be called. */
  ghost predicate NextCall(chain: seq<string>, q: nat, m: string, usable: string -> bool, call: string -> Outcome,
                           calls: seq<string>)
  {
    && q < |chain| && chain[q] == m && usable(m) && m !in calls
    && Tried(chain, q, usable, call, calls) && FirstUses(chain[..q + 1], usable) == calls + [m]
  }

  lemma {:induction false} CallFails(
      chain: seq<string>, q: nat, m: string, usable: string -> bool, call: string -> Outcome, calls: seq<string>)
    requires NextCall(chain, q, m, usable, call, calls) && Fails(call(m))
    ensures Tried(chain, q + 1, usable, call, calls + [m])
    ensures SetOf(calls + [m]) == SetOf(calls) + {m}
  {
  }

  lemma {:induction false} CallEnds(
      chain: seq<string>, q: nat, m: string, usable: string -> bool, call: string -> Outcome, calls: seq<string>)
    requires NextCall(chain, q, m, usable, call, calls)
    ensures call(m) == Interrupted ==> Ends(Cancelled, calls + [m], chain, usable, call)
    ensures call(m).Message? ==> Ends(Answer(m, call(m).text), calls + [m], chain, usable, call)
  {
    assert (calls + [m])[..|calls|] == calls;
  }

  lemma {:induction false} CallCounts(
      chain: seq<string>, q: nat, m: string, usable: string -> bool, call: string -> Outcome, calls: seq<string>)
    requires NextCall(chain, q, m, usable, call, calls)
    ensures SetOf(chain) - SetOf(calls + [m]) < SetOf(chain) - SetOf(calls)
    ensures (calls + [m])[..|calls|] == calls
  {
    assert m in SetOf(chain) - SetOf(calls) && m !in SetOf(chain) - SetOf(calls + [m]);
  }

  lemma {:induction false} FirstInChain(
      chain: seq<string>, failed: set<string>, usable: string -> bool, left: string -> bool)
    requires forall n :: left(n) <==> n !in failed && usable(n)
    ensures First(Remaining(chain, failed), usable) == First(chain, left)
  {
    if chain != [] {
      var rest := Remaining(chain[1..], failed);
      FirstInChain(chain[1..], failed, usable, left);
      if chain[0] !in failed {
        assert Remaining(chain, failed)[1..] == rest;
      } else {
        assert Remaining(chain, failed) == rest;
      }
    }
  }

  lemma {:induction false} FirstAt(names: seq<string>, usable: string -> bool) returns (q: nat)
    ensures q <= |names| && forall j :: 0 <= j < q ==> !usable(names[j])
    ensures First(names, usable) == if q < |names| then Some(names[q]) else None
    ensures q < |names| ==> usable(names[q])
  {
    if names == [] || usable(names[0]) {
      q := 0;
    } else {
      var r := FirstAt(names[1..], usable);
      q := r + 1;
    }
  }

  /** Models that are not usable, or were called already, add nothing. */
  lemma {:induction false} Skip(chain: seq<string>, p: nat, q: nat, usable: string -> bool)
    requires p <= q <= |chain|
    requires forall j :: p <= j < q ==> !usable(chain[j]) || chain[j] in FirstUses(chain[..p], usable)
    ensures FirstUses(chain[..q], usable) == FirstUses(chain[..p], usable)
    decreases q
  {
    if p < q {
      Skip(chain, p, q - 1, usable);
      assert chain[..q][..q - 1] == chain[..q - 1] && chain[..q][q - 1] == chain[q - 1];
    }
  }

  lemma {:induction false} TriedAll(
      chain: seq<string>, p: nat, usable: string -> bool, call: string -> Outcome, calls: seq<string>,
      left: string -> bool)
    requires Tried(chain, p, usable, call, calls) && First(chain, left) == None
    requires forall n :: left(n) <==> usable(n) && n !in calls
    ensures Tried(chain, |chain|, usable, call, calls)
  {
    var q := FirstAt(chain, left);
    Skip(chain, p, |chain|, usable);
  }

  lemma {:induction false} NextCalled(
      chain: seq<string>, p: nat, usable: string -> bool, call: string -> Outcome, calls: seq<string>,
      left: string -> bool) returns (q: nat)
    requires Tried(chain, p, usable, call, calls) && First(chain, left).Some?
    requires forall n :: left(n) <==> usable(n) && n !in calls
    ensures NextCall(chain, q, First(chain, left).value, usable, call, calls)
  {
    q := FirstAt(chain, left);
    assert forall j :: 0 <= j < p ==> chain[j] in chain[..p];
    assert p <= q;
    Skip(chain, p, q, usable);
    assert chain[..q + 1][..q] == chain[..q] && chain[..q + 1][q] == chain[q];
  }

  /** However a run ends, no model was called twice, every usable model before the one that
      ended it has failed, and none was left out if nothing answered. */
  lemma {:induction false} AnswerIsFirst(
      r: Result, calls: seq<string>, chain: seq<string>, usable: string -> bool, call: string -> Outcome)
    requires Ends(r, calls, chain, usable, call)
    ensures forall i, j :: 0 <= i < j < |calls| ==> calls[i] != calls[j]
    ensures r.Nothing? <==> forall n :: n in chain && usable(n) ==> Fails(call(n))
    ensures r.Answer? ==> exists i :: 0 <= i < |chain| && chain[i] == r.model && usable(r.model)
                                      && call(r.model) == Message(r.text)
                                      && forall j :: 0 <= j < i && usable(chain[j]) ==> Fails(call(chain[j]))
  {
    assert chain[..|chain|] == chain;
    if !r.Nothing? {
      var i :| 0 <= i < |chain| && chain[i] == calls[|calls| - 1] && usable(chain[i]) && !Fails(call(chain[i]))
               && Tried(chain, i, usable, call, calls[..|calls| - 1]);
      forall j | 0 <= j < i && usable(chain[j]) ensures Fails(call(chain[j])) { assert chain[j] in chain[..i]; }
      NotTriedYet(chain, i, usable, call, calls);
    }
  }

  lemma {:induction false} NotTriedYet(
      chain: seq<string>, i: nat, usable: string -> bool, call: string -> Outcome, calls: seq<string>)
    requires i < |chain| && calls != [] && Tried(chain, i, usable, call, calls[..|calls| - 1])
    requires calls[|calls| - 1] == chain[i] && !Fails(call(chain[i]))
    ensures forall j, k :: 0 <= j < k < |calls| ==> calls[j] != calls[k]
  {
    var before := calls[..|calls| - 1];
    forall j, k | 0 <= j < k < |calls| ensures calls[j] != calls[k] {
      assert before[j] == calls[j] && before[j] in before;
      if k < |calls| - 1 { assert before[k] == calls[k]; }
    }
  }
}
