/** The pass that moves a heading or lead-in at the end of a chunk to the front of
    the next one, pushing that chunk's last lines further back to make room. */
module Headings {
  import opened Text
  import opened LineKinds
  import opened TextChunks

  /** How lines are classified; only consistency of the verdicts is used. */
  type View = string -> Kind

  ghost predicate Consistent(v: View) {
    v("").blank && forall s :: v(s).Consistent()
  }

  /** How many of the next chunk's lines still fit behind the moved line. */
  function Room(last: string, ls: seq<string>, max: nat): (n: nat)
    ensures n <= |ls|
    ensures n == 0 || Size(last) + 1 + Size(Unlines(ls[..n])) <= max
    ensures n == |ls| || Size(last) + 1 + Size(Unlines(ls[..n + 1])) > max
    decreases |ls|
  {
    if ls == [] then 0
    else if Size(last) + 1 + Size(Unlines(ls)) <= max then
      assert ls[..|ls|] == ls;
      |ls|
    else
      var shorter := ls[..|ls| - 1];
      var n := Room(last, shorter, max);
      assert shorter[..n] == ls[..n];
      assert n < |shorter| ==> shorter[..n + 1] == ls[..n + 1];
      assert n == |shorter| ==> ls[..n + 1] == ls;
      n
  }

  /** The last line of a chunk is to be moved: a heading in its context, or a lead-in. */
  predicate Movable(v: View, ls: seq<string>)
    requires ls != []
  {
    var last := ls[|ls| - 1];
    var prev := if |ls| >= 2 then Strip(ls[|ls| - 2]) else "";
    !v(last).blank && (v(last).IsHeading(prev == "" || !v(prev).Continues()) || v(last).leadIn)
  }

  /** What has been written and what is still to be walked. */
  datatype Walk = Walk(out: seq<string>, rest: seq<string>)

  predicate Moves(v: View, rest: seq<string>) {
    |rest| >= 2 && Movable(v, Lines(rest[0])) && v(Lines(rest[1])[0]).fence.None?
  }

  /** What is pushed back; rows of a table page take the header along. */
  function Carried(v: View, next: seq<string>, n: nat): seq<string>
    requires n <= |next|
  {
    if n < |next| && |next| >= 2 && v(next[1]).separator
    then next[..if n < 2 then n else 2] + next[n..] else next[n..]
  }

  /** The moved line in front of what is left of the next chunk. */
  function Given(last: string, kept: seq<string>): string {
    last + ['\n'] + Unlines(kept)
  }

  /** What is left of the front chunk once its last line has moved. */
  function Closed(front: seq<string>): seq<string> {
    if front != [] then [Unlines(front) + ['\n']] else []
  }

  function Pushed(carried: seq<string>): seq<string> {
    if carried != [] then [Unlines(carried)] else []
  }

  /** The chunks still to be walked after a move. */
  function MovedRest(v: View, rest: seq<string>, max: nat): seq<string>
    requires |rest| >= 2
  {
    var ls, next := Lines(rest[0]), Lines(rest[1]);
    var last := ls[|ls| - 1];
    var n := Room(last, next, max);
    [Given(last, next[..n])] + Pushed(Carried(v, next, n)) + rest[2..]
  }

  /** One step of the walk. */
  function Advance(v: View, w: Walk, max: nat): Walk
    requires w.rest != []
  {
    if !Moves(v, w.rest) then Walk(w.out + [w.rest[0]], w.rest[1..])
    else
      var ls := Lines(w.rest[0]);
      var front := ls[..|ls| - 1];
      Walk(w.out + Closed(front), MovedRest(v, w.rest, max))
  }

  // ---- The lines of the chunks a move writes ----

  lemma {:induction false} GivenLines(last: string, kept: seq<string>)
    requires '\n' !in last && forall l :: l in kept ==> '\n' !in l
    ensures Lines(Given(last, kept)) == [last] + (if kept == [] then [""] else kept)
    ensures Size(Given(last, kept)) == Size(last) + 1 + Size(Unlines(kept))
  {
    SplitAround(last, '\n', Unlines(kept));
    SplitPlain(last, '\n');
    if kept != [] { SplitJoin(kept, '\n'); }
    SizeConcat(last + ['\n'], Unlines(kept));
    SizeConcat(last, ['\n']);
    assert ['\n'][1..] == "";
  }

  // ---- The walk comes to an end, or repeats one move for ever ----

  function Last(ls: seq<string>): string
    requires ls != []
  {
    ls[|ls| - 1]
  }

  /** The line to be moved already stands first in the next chunk, above a separator;
      just that copy has room behind it, and it may be moved again from there. */
  predicate Stuck(v: View, rest: seq<string>, max: nat) {
    Moves(v, rest) &&
    var next := Lines(rest[1]);
    var b := next[0];
    && Last(Lines(rest[0])) == b && |next| >= 2 && v(next[1]).separator
    && Movable(v, [b, b]) && Room(b, next, max) == 1
  }

  /** The lines of a chunk that a move can push out of it for good: a table page
      never loses its first two. */
  function Rows(v: View, c: string): nat {
    var ls := Lines(c);
    if |ls| >= 2 && v(ls[1]).separator then |ls| - 2 else |ls|
  }

  function AllRows(v: View, chunks: seq<string>): nat {
    if chunks == [] then 0 else Rows(v, chunks[0]) + AllRows(v, chunks[1..])
  }

  /** How many moves in a row may leave all rows where they are. */
  function Rank(v: View, rest: seq<string>): (n: nat)
    ensures n <= 2
  {
    if !Moves(v, rest) then 0 else if Last(Lines(rest[0])) == Lines(rest[1])[0] then 1 else 2
  }

  /** An upper bound on the number of steps left. */
  function Effort(v: View, rest: seq<string>): nat {
    if rest == [] then 0 else 3 * (AllRows(v, rest[1..]) + |rest|) + Rank(v, rest)
  }

  /** The whole chunk is pushed back, though up to two of its lines had room. */
  predicate Returned(v: View, next: seq<string>, n: nat) {
    n < |next| && (n == 0 || (n <= 2 && |next| >= 2 && v(next[1]).separator))
  }

  lemma {:induction false} CarriedRows(v: View, next: seq<string>, n: nat)
    requires n < |next| && forall l :: l in next ==> '\n' !in l
    ensures var c, whole := Unlines(Carried(v, next, n)), Unlines(next);
            if Returned(v, next, n) then c == whole else Rows(v, c) < Rows(v, whole)
  {
    var carried := Carried(v, next, n);
    assert n <= 2 ==> next[..n] + next[n..] == next;
    SplitJoin(carried, '\n');
    SplitJoin(next, '\n');
  }

  lemma {:induction false} EndsInSeparator(v: View, ls: seq<string>)
    requires Consistent(v) && ls != [] && (Last(ls) == "" || v(Last(ls)).separator)
    ensures !Movable(v, ls)
  {
    assert v(Last(ls)).Consistent();
  }

  /** What the front chunk looks like after a move that pushed everything back. */
  lemma {:induction false} GivenFront(v: View, last: string, next: seq<string>, n: nat)
    requires Consistent(v) && '\n' !in last && (forall l :: l in next ==> '\n' !in l) && Returned(v, next, n)
    ensures var front := Lines(Given(last, next[..n]));
            if n == 1 then front == [last, next[0]] else !Movable(v, front)
  {
    GivenLines(last, next[..n]);
    if n == 2 { assert Last([last] + next[..n]) == next[1]; }
    if n != 1 { EndsInSeparator(v, Lines(Given(last, next[..n]))); }
  }

  lemma {:induction false} RankDrops(v: View, rest: seq<string>, max: nat)
    requires Consistent(v) && Moves(v, rest) && !Stuck(v, rest, max)
    requires Returned(v, Lines(rest[1]), Room(Last(Lines(rest[0])), Lines(rest[1]), max))
    requires |MovedRest(v, rest, max)| >= 2 && MovedRest(v, rest, max)[1] == rest[1]
    ensures Rank(v, MovedRest(v, rest, max)) < Rank(v, rest)
  {
    var last, next := Last(Lines(rest[0])), Lines(rest[1]);
    SplitPieces(rest[0], '\n');
    SplitPieces(rest[1], '\n');
    GivenFront(v, last, next, Room(last, next, max));
  }

  lemma {:induction false} RowsPushed(v: View, carried: seq<string>, tail: seq<string>)
    ensures AllRows(v, Pushed(carried) + tail)
         == (if carried == [] then 0 else Rows(v, Unlines(carried))) + AllRows(v, tail)
  {
    if carried == [] {
      assert Pushed(carried) + tail == tail;
    } else {
      assert (Pushed(carried) + tail)[1..] == tail;
    }
  }

  /** A move takes rows or chunks out of the walk, or leaves the next chunk as it is. */
  lemma {:induction false} MoveTakesRows(v: View, rest: seq<string>, max: nat)
    requires |rest| >= 2
    ensures var moved := MovedRest(v, rest, max);
            var n := Room(Last(Lines(rest[0])), Lines(rest[1]), max);
            || AllRows(v, moved[1..]) + |moved| < AllRows(v, rest[1..]) + |rest|
            || (AllRows(v, moved[1..]) + |moved| == AllRows(v, rest[1..]) + |rest|
                && |moved| >= 2 && moved[1] == rest[1] && Returned(v, Lines(rest[1]), n))
  {
    var next := Lines(rest[1]);
    var n := Room(Last(Lines(rest[0])), next, max);
    var carried := Carried(v, next, n);
    SplitPieces(rest[1], '\n');
    JoinSplit(rest[1], '\n');
    MovedTail(v, rest, max);
    assert rest[1..][1..] == rest[2..];
    RowsPushed(v, carried, rest[2..]);
    if n < |next| { CarriedRows(v, next, n); }
  }

  /** A move that is not stuck takes rows or chunks out of the walk, or brings it
      closer to a step that does. */
  lemma {:induction false} MoveProgresses(v: View, rest: seq<string>, max: nat)
    requires Consistent(v) && Moves(v, rest) && !Stuck(v, rest, max)
    ensures Effort(v, MovedRest(v, rest, max)) < Effort(v, rest)
  {
    var moved := MovedRest(v, rest, max);
    MoveTakesRows(v, rest, max);
    if AllRows(v, moved[1..]) + |moved| == AllRows(v, rest[1..]) + |rest| {
      RankDrops(v, rest, max);
    }
  }

  /** Every step that is not stuck brings the walk nearer to its end. */
  lemma {:induction false} AdvanceProgresses(v: View, w: Walk, max: nat)
    requires Consistent(v) && w.rest != [] && !Stuck(v, w.rest, max)
    ensures Effort(v, Advance(v, w, max).rest) < Effort(v, w.rest)
  {
    if Moves(v, w.rest) {
      MoveProgresses(v, w.rest, max);
    }
  }

  lemma {:induction false} StuckMove(v: View, rest: seq<string>, max: nat)
    requires Stuck(v, rest, max)
    ensures var b := Lines(rest[1])[0]; MovedRest(v, rest, max) == [Given(b, [b]), rest[1]] + rest[2..]
  {
    var next := Lines(rest[1]);
    JoinSplit(rest[1], '\n');
    assert next[..1] == [next[0]] && next[..1] + next[1..] == next;
    assert Carried(v, next, 1) == next;
  }

  lemma {:induction false} StuckPair(v: View, front: string, whole: string, tail: seq<string>, max: nat)
    requires var next := Lines(whole);
             var b := next[0];
             && Lines(front) == [b, b] && v(b).fence.None? && |next| >= 2 && v(next[1]).separator
             && Movable(v, [b, b]) && Room(b, next, max) == 1
    ensures Stuck(v, [front, whole] + tail, max)
  {
  }

  /** A stuck walk makes the same move again. */
  lemma {:induction false} StuckStaysStuck(v: View, w: Walk, max: nat)
    requires Stuck(v, w.rest, max)
    ensures Stuck(v, Advance(v, w, max).rest, max)
  {
    var b := Lines(w.rest[1])[0];
    SplitPieces(w.rest[1], '\n');
    GivenLines(b, [b]);
    StuckMove(v, w.rest, max);
    StuckPair(v, Given(b, [b]), w.rest[1], w.rest[2..], max);
  }

  function Iterate(step: Walk -> Walk, w: Walk, n: nat): Walk
    decreases n
  {
    if n == 0 then w else Iterate(step, step(w), n - 1)
  }

  lemma {:induction false} IterateMore(step: Walk -> Walk, w: Walk, m: nat, n: nat)
    ensures Iterate(step, Iterate(step, w, m), n) == Iterate(step, w, m + n)
    decreases m
  {
    if m > 0 { IterateMore(step, step(w), m - 1, n); }
  }

  lemma {:induction false} IterateKeeps(step: Walk -> Walk, inv: Walk -> bool, w: Walk, n: nat)
    requires inv(w) && forall x :: inv(x) ==> inv(step(x))
    ensures inv(Iterate(step, w, n))
    decreases n
  {
    if n > 0 { IterateKeeps(step, inv, step(w), n - 1); }
  }

  lemma {:induction false} EffortSuffices(
    step: Walk -> Walk, effort: Walk -> nat, stuck: Walk -> bool, w: Walk, n: nat)
    requires forall x: Walk :: x.rest != [] && !stuck(x) ==> effort(step(x)) < effort(x)
    requires forall x: Walk :: x.rest == [] ==> step(x) == x && effort(x) == 0
    requires effort(w) <= n && forall k: nat :: k <= n ==> !stuck(Iterate(step, w, k))
    ensures Iterate(step, w, n).rest == []
    decreases n
  {
    if n > 0 {
      assert Iterate(step, w, 0) == w;
      forall k: nat | k <= n - 1 ensures !stuck(Iterate(step, step(w), k)) {
        assert Iterate(step, w, k + 1) == Iterate(step, step(w), k);
      }
      EffortSuffices(step, effort, stuck, step(w), n - 1);
    } else {
      assert Iterate(step, w, 0) == w;
    }
  }

  function Stepper(v: View, max: nat): Walk -> Walk {
    (w: Walk) => if w.rest == [] then w else Advance(v, w, max)
  }

  /** The walk after `n` steps. */
  function After(v: View, w: Walk, max: nat, n: nat): Walk {
    Iterate(Stepper(v, max), w, n)
  }

  lemma {:induction false} AfterOne(v: View, w: Walk, max: nat, k: nat)
    requires w.rest != []
    ensures After(v, w, max, k + 1) == After(v, Advance(v, w, max), max, k)
  {
    assert Stepper(v, max)(w) == Advance(v, w, max);
  }

  lemma {:induction false} AfterMore(v: View, w: Walk, max: nat, m: nat, n: nat)
    ensures After(v, After(v, w, max, m), max, n) == After(v, w, max, m + n)
  {
    IterateMore(Stepper(v, max), w, m, n);
  }

  lemma {:induction false} AfterEnd(v: View, w: Walk, max: nat, n: nat)
    requires w.rest == []
    ensures After(v, w, max, n) == w
    decreases n
  {
    if n > 0 { AfterEnd(v, w, max, n - 1); }
  }

  lemma {:induction false} StuckForEver(v: View, w: Walk, max: nat, n: nat)
    requires Stuck(v, w.rest, max)
    ensures Stuck(v, After(v, w, max, n).rest, max)
  {
    var inv := (x: Walk) => Stuck(v, x.rest, max);
    forall x | inv(x) ensures inv(Stepper(v, max)(x)) {
      StuckStaysStuck(v, x, max);
    }
    IterateKeeps(Stepper(v, max), inv, w, n);
    assert inv(After(v, w, max, n));
  }

  ghost predicate Ends(v: View, w: Walk, max: nat) {
    exists n: nat :: After(v, w, max, n).rest == []
  }

  /** Not stuck in any of the first `n` states. */
  ghost predicate Free(v: View, w: Walk, max: nat, n: nat) {
    forall k: nat :: k <= n ==> !Stuck(v, After(v, w, max, k).rest, max)
  }

  lemma {:induction false} EndedStays(v: View, w: Walk, max: nat, m: nat, n: nat)
    requires After(v, w, max, m).rest == []
    ensures After(v, w, max, m + n).rest == []
  {
    AfterMore(v, w, max, m, n);
    AfterEnd(v, After(v, w, max, m), max, n);
  }

  lemma {:induction false} FreeEnds(v: View, w: Walk, max: nat)
    requires Consistent(v) && Free(v, w, max, Effort(v, w.rest))
    ensures After(v, w, max, Effort(v, w.rest)).rest == []
  {
    var step, effort := Stepper(v, max), (x: Walk) => Effort(v, x.rest);
    var stuck := (x: Walk) => Stuck(v, x.rest, max);
    forall x: Walk | x.rest != [] && !stuck(x) ensures effort(step(x)) < effort(x) {
      AdvanceProgresses(v, x, max);
    }
    forall k: nat | k <= effort(w) ensures !stuck(Iterate(step, w, k)) {
      assert After(v, w, max, k) == Iterate(step, w, k);
    }
    EffortSuffices(step, effort, stuck, w, effort(w));
  }

  lemma {:induction false} NeverStuck(v: View, w: Walk, max: nat, n: nat)
    requires Ends(v, w, max)
    ensures !Stuck(v, After(v, w, max, n).rest, max)
  {
    var m: nat :| After(v, w, max, m).rest == [];
    EndedStays(v, w, max, m, n);
    AfterMore(v, w, max, n, m);
    if Stuck(v, After(v, w, max, n).rest, max) {
      StuckForEver(v, After(v, w, max, n), max, m);
    }
  }

  /** The walk comes to an end exactly when none of its first states is stuck, and
      then within as many steps as three times its lines and chunks. */
  lemma {:induction false} EndsUnlessStuck(v: View, w: Walk, max: nat)
    requires Consistent(v)
    ensures Ends(v, w, max) <==> Free(v, w, max, Effort(v, w.rest))
    ensures Ends(v, w, max) ==> After(v, w, max, Effort(v, w.rest)).rest == []
  {
    if Free(v, w, max, Effort(v, w.rest)) {
      FreeEnds(v, w, max);
    }
    if Ends(v, w, max) {
      forall k: nat ensures !Stuck(v, After(v, w, max, k).rest, max) {
        NeverStuck(v, w, max, k);
      }
    }
  }

  /** A line above a separator on which the walk can get stuck: it may be moved from
      below itself, and one copy has room behind another, but the separator has not. */
  predicate Sticky(v: View, line: string, below: string, max: nat) {
    && v(below).separator && v(line).fence.None? && Movable(v, [line, line])
    && 2 * Size(line) + 1 <= max < 2 * Size(line) + 2 + Size(below)
  }

  ghost predicate NoneSticky(v: View, ls: seq<string>, max: nat) {
    forall i, j :: 0 <= i && j == i + 1 && j < |ls| ==> !Sticky(v, ls[i], ls[j], max)
  }

  ghost predicate AllLoose(v: View, chunks: seq<string>, max: nat) {
    forall c :: c in chunks ==> NoneSticky(v, Lines(c), max)
  }

  lemma {:induction false} StuckIsSticky(v: View, rest: seq<string>, max: nat)
    requires Stuck(v, rest, max)
    ensures Sticky(v, Lines(rest[1])[0], Lines(rest[1])[1], max)
  {
    var next := Lines(rest[1]);
    assert next[..1] == [next[0]] && next[..2] == [next[0], next[1]];
    UnlinesOfTwo(next[0], next[1]);
  }

  lemma {:induction false} NotStuck(v: View, rest: seq<string>, max: nat)
    requires rest != [] && AllLoose(v, rest[1..], max)
    ensures !Stuck(v, rest, max)
  {
    assert |rest| >= 2 ==> rest[1] in rest[1..];
    if Stuck(v, rest, max) {
      StuckIsSticky(v, rest, max);
    }
  }

  lemma {:induction false} UnlinesOfTwo(a: string, b: string)
    ensures Unlines([a, b]) == a + ['\n'] + b
    ensures Size(Unlines([a, b])) == Size(a) + 1 + Size(b)
  {
    assert [a, b][1..] == [b] && Unlines([b]) == b;
    SizeConcat(a + ['\n'], b);
    SizeConcat(a, ['\n']);
    assert ['\n'][1..] == "";
  }

  lemma {:induction false} CarriedLoose(v: View, next: seq<string>, n: nat, max: nat)
    requires Consistent(v) && n <= |next| && NoneSticky(v, next, max)
    ensures NoneSticky(v, Carried(v, next, n), max)
  {
    if n < |next| && |next| >= 2 && v(next[1]).separator {
      if n <= 2 {
        assert next[..n] + next[n..] == next;
      } else {
        assert v(next[1]).Consistent();
      }
    }
  }

  lemma {:induction false} PushedLoose(v: View, c: string, n: nat, max: nat)
    requires Consistent(v) && n <= |Lines(c)| && NoneSticky(v, Lines(c), max)
    ensures AllLoose(v, Pushed(Carried(v, Lines(c), n)), max)
  {
    var carried := Carried(v, Lines(c), n);
    CarriedLoose(v, Lines(c), n, max);
    SplitPieces(c, '\n');
    if carried != [] { SplitJoin(carried, '\n'); }
  }

  lemma {:induction false} MovedTail(v: View, rest: seq<string>, max: nat)
    requires |rest| >= 2
    ensures MovedRest(v, rest, max)[1..]
         == Pushed(Carried(v, Lines(rest[1]), Room(Last(Lines(rest[0])), Lines(rest[1]), max))) + rest[2..]
  {
  }

  lemma {:induction false} AdvanceLoose(v: View, w: Walk, max: nat)
    requires Consistent(v) && w.rest != [] && AllLoose(v, w.rest[1..], max)
    ensures var x := Advance(v, w, max); x.rest != [] ==> AllLoose(v, x.rest[1..], max)
  {
    var rest := w.rest;
    if Moves(v, rest) {
      assert forall c :: c in rest[2..] ==> c in rest[1..];
      MovedTail(v, rest, max);
      assert rest[1] in rest[1..];
      PushedLoose(v, rest[1], Room(Last(Lines(rest[0])), Lines(rest[1]), max), max);
    }
  }

  /** Without such a line behind the first chunk the walk comes to an end. */
  lemma {:induction false} LooseEnds(v: View, w: Walk, max: nat)
    requires Consistent(v) && (w.rest != [] ==> AllLoose(v, w.rest[1..], max))
    ensures Ends(v, w, max)
    decreases Effort(v, w.rest)
  {
    if w.rest == [] {
      assert After(v, w, max, 0).rest == [];
    } else {
      NotStuck(v, w.rest, max);
      AdvanceProgresses(v, w, max);
      AdvanceLoose(v, w, max);
      var x := Advance(v, w, max);
      LooseEnds(v, x, max);
      var n: nat :| After(v, x, max, n).rest == [];
      AfterOne(v, w, max, n);
    }
  }

  // ---- The walk keeps the text and the size limit ----

  predicate NoSeparators(v: View, chunks: seq<string>) {
    forall c, l :: c in chunks && l in Lines(c) ==> !v(l).separator
  }

  /** A line that may be moved, whatever stands in front of it. */
  predicate Title(v: View, line: string) {
    v(line).IsHeading(true) || v(line).leadIn
  }

  /** At most `max` bytes, or a moved line of exactly `max` bytes with its newline. */
  ghost predicate Fits(v: View, c: string, max: nat) {
    Size(c) <= max || exists line :: c == line + ['\n'] && '\n' !in line && Title(v, line) && Size(line) == max
  }

  ghost predicate WalkFits(v: View, w: Walk, max: nat) {
    && (forall c :: c in w.out ==> Fits(v, c, max))
    && (w.rest != [] ==> Fits(v, w.rest[0], max) && Bounded(w.rest[1..], max))
  }

  /** The lines that hold something. */
  function Full(ls: seq<string>): seq<string> {
    if ls == [] then [] else (if ls[0] == "" then [] else [ls[0]]) + Full(ls[1..])
  }

  function FullLines(chunks: seq<string>): seq<string> {
    if chunks == [] then [] else Full(Lines(chunks[0])) + FullLines(chunks[1..])
  }

  lemma {:induction false} FullConcat(a: seq<string>, b: seq<string>)
    ensures Full(a + b) == Full(a) + Full(b)
  {
    if a == [] {
      assert a + b == b;
    } else {
      assert (a + b)[1..] == a[1..] + b;
      FullConcat(a[1..], b);
    }
  }

  lemma {:induction false} FullLinesConcat(a: seq<string>, b: seq<string>)
    ensures FullLines(a + b) == FullLines(a) + FullLines(b)
  {
    if a == [] {
      assert a + b == b;
    } else {
      assert (a + b)[1..] == a[1..] + b;
      FullLinesConcat(a[1..], b);
    }
  }

  lemma {:induction false} FullOne(c: string)
    ensures Full([c]) == if c == "" then [] else [c]
    ensures FullLines([c]) == Full(Lines(c))
  {
    assert [c][1..] == [];
  }

  lemma {:induction false} FullOfThree(a: seq<string>, b: seq<string>, c: seq<string>)
    ensures FullLines(a + b + c) == FullLines(a) + FullLines(b) + FullLines(c)
  {
    FullLinesConcat(a + b, c);
    FullLinesConcat(a, b);
  }

  lemma {:induction false} GivenFull(last: string, kept: seq<string>)
    requires '\n' !in last && forall l :: l in kept ==> '\n' !in l
    ensures FullLines([Given(last, kept)]) == Full([last]) + Full(kept)
  {
    GivenLines(last, kept);
    FullOne(Given(last, kept));
    FullConcat([last], kept);
    FullConcat([last], [""]);
    FullOne("");
  }

  lemma {:induction false} PushedFullLines(carried: seq<string>)
    requires forall l :: l in carried ==> '\n' !in l
    ensures FullLines(Pushed(carried)) == Full(carried)
  {
    if carried != [] {
      SplitJoin(carried, '\n');
      FullOne(Unlines(carried));
    }
  }

  lemma {:induction false} ClosedLines(front: seq<string>)
    requires front != [] && forall l :: l in front ==> '\n' !in l
    ensures Lines(Unlines(front) + ['\n']) == front + [""]
  {
    SplitAround(Unlines(front), '\n', "");
    SplitJoin(front, '\n');
    assert Unlines(front) + ['\n'] + "" == Unlines(front) + ['\n'];
  }

  lemma {:induction false} ClosedFull(front: seq<string>)
    requires forall l :: l in front ==> '\n' !in l
    ensures FullLines(Closed(front)) == Full(front)
  {
    if front != [] {
      ClosedLines(front);
      FullOne(Unlines(front) + ['\n']);
      FullConcat(front, [""]);
      FullOne("");
    }
  }

  lemma {:induction false} FullOfFirstTwo(rest: seq<string>)
    requires |rest| >= 2
    ensures FullLines(rest) == Full(Lines(rest[0])) + Full(Lines(rest[1])) + FullLines(rest[2..])
  {
    assert rest == [rest[0]] + [rest[1]] + rest[2..];
    FullOfThree([rest[0]], [rest[1]], rest[2..]);
    FullOne(rest[0]);
    FullOne(rest[1]);
  }

  lemma {:induction false} FullOfMoved(last: string, next: seq<string>, n: nat, tail: seq<string>)
    requires n <= |next| && '\n' !in last && forall l :: l in next ==> '\n' !in l
    ensures FullLines([Given(last, next[..n])] + Pushed(next[n..]) + tail)
         == Full([last]) + Full(next) + FullLines(tail)
  {
    var kept, carried := next[..n], next[n..];
    FullOfThree([Given(last, kept)], Pushed(carried), tail);
    FullConcat(kept, carried);
    assert kept + carried == next;
    GivenFull(last, kept);
    PushedFullLines(carried);
    Regroup(Full([last]), Full(kept), Full(carried), FullLines(tail));
  }

  /** Where no header is repeated, a move keeps all lines that hold something. */
  lemma {:induction false} MoveKeepsLines(v: View, rest: seq<string>, max: nat)
    requires Moves(v, rest) && NoSeparators(v, rest)
    ensures var ls := Lines(rest[0]);
            FullLines(rest) == Full(ls[..|ls| - 1]) + FullLines(MovedRest(v, rest, max))
  {
    var ls, next := Lines(rest[0]), Lines(rest[1]);
    SplitPieces(rest[0], '\n');
    SplitPieces(rest[1], '\n');
    FullOfFirstTwo(rest);
    FullOfLast(ls);
    FullOfMoved(Last(ls), next, Room(Last(ls), next, max), rest[2..]);
    MovedPlainly(v, rest, max);
    Regroup(Full(ls[..|ls| - 1]), Full([Last(ls)]), Full(next), FullLines(rest[2..]));
  }

  lemma {:induction false} FullOfLast(ls: seq<string>)
    requires ls != []
    ensures Full(ls) == Full(ls[..|ls| - 1]) + Full([Last(ls)])
  {
    FullConcat(ls[..|ls| - 1], [Last(ls)]);
    assert ls[..|ls| - 1] + [Last(ls)] == ls;
  }

  lemma {:induction false} MovedPlainly(v: View, rest: seq<string>, max: nat)
    requires |rest| >= 2 && NoSeparators(v, rest)
    ensures var next := Lines(rest[1]);
            var n := Room(Last(Lines(rest[0])), next, max);
            MovedRest(v, rest, max) == [Given(Last(Lines(rest[0])), next[..n])] + Pushed(next[n..]) + rest[2..]
  {
    var next := Lines(rest[1]);
    assert |next| >= 2 ==> next[1] in Lines(rest[1]);
  }

  lemma {:induction false} Regroup(a: seq<string>, b: seq<string>, c: seq<string>, d: seq<string>)
    ensures a + (b + c + d) == a + b + c + d
    ensures a + (b + c) + d == a + b + c + d
  {
  }

  lemma {:induction false} MoveKeepsNoSeparators(v: View, rest: seq<string>, max: nat)
    requires Consistent(v) && Moves(v, rest) && NoSeparators(v, rest)
    ensures NoSeparators(v, MovedRest(v, rest, max))
  {
    var ls, next := Lines(rest[0]), Lines(rest[1]);
    var last := ls[|ls| - 1];
    var n := Room(last, next, max);
    assert |next| >= 2 ==> next[1] in Lines(rest[1]);
    SplitPieces(rest[0], '\n');
    SplitPieces(rest[1], '\n');
    GivenLines(last, next[..n]);
    if n < |next| { SplitJoin(next[n..], '\n'); }
    assert v("").Consistent();
    forall c, l | c in MovedRest(v, rest, max) && l in Lines(c) ensures !v(l).separator {
      if c == Given(last, next[..n]) {
        assert l == last || l == "" || l in next;
      } else if c in rest[2..] {
      } else {
        assert c == Unlines(next[n..]) && l in next;
      }
    }
  }

  /** A step keeps every line that holds something, in order. */
  lemma {:induction false} AdvanceKeepsLines(v: View, w: Walk, max: nat)
    requires Consistent(v) && w.rest != [] && NoSeparators(v, w.rest)
    ensures var x := Advance(v, w, max);
            FullLines(x.out + x.rest) == FullLines(w.out + w.rest) && NoSeparators(v, x.rest)
  {
    if Moves(v, w.rest) {
      var ls := Lines(w.rest[0]);
      SplitPieces(w.rest[0], '\n');
      MoveKeepsLines(v, w.rest, max);
      MoveKeepsNoSeparators(v, w.rest, max);
      MovedOutFull(w, ls[..|ls| - 1], MovedRest(v, w.rest, max));
    } else {
      assert w.out + [w.rest[0]] + w.rest[1..] == w.out + w.rest;
    }
  }

  lemma {:induction false} MovedOutFull(w: Walk, front: seq<string>, moved: seq<string>)
    requires FullLines(w.rest) == Full(front) + FullLines(moved) && forall l :: l in front ==> '\n' !in l
    ensures FullLines(w.out + Closed(front) + moved) == FullLines(w.out + w.rest)
  {
    ClosedFull(front);
    FullLinesConcat(w.out, w.rest);
    FullOfThree(w.out, Closed(front), moved);
  }

  /** Equal lines, equal ink. */
  lemma {:induction false} FullInk(ls: seq<string>)
    ensures InkOf(Full(ls)) == InkOf(ls)
  {
    if ls != [] {
      var first := if ls[0] == "" then [] else [ls[0]];
      FullInk(ls[1..]);
      InkOfConcat(first, Full(ls[1..]));
      InkOfConcat([ls[0]], ls[1..]);
      InkOfOne(ls[0]);
      assert [ls[0]] + ls[1..] == ls;
    }
  }

  lemma {:induction false} LinesCarryInk(chunks: seq<string>)
    ensures InkOf(FullLines(chunks)) == InkOf(chunks)
  {
    if chunks != [] {
      var ls := Lines(chunks[0]);
      LinesCarryInk(chunks[1..]);
      FullInk(ls);
      JoinSplit(chunks[0], '\n');
      JoinKeepsInk(ls);
      InkOfConcat(Full(ls), FullLines(chunks[1..]));
      InkOfConcat([chunks[0]], chunks[1..]);
      InkOfOne(chunks[0]);
      assert [chunks[0]] + chunks[1..] == chunks;
    }
  }

  lemma {:induction false} SizeOfPart(ls: seq<string>, n: nat)
    requires n <= |ls|
    ensures Size(Unlines(ls[n..])) <= Size(Unlines(ls))
    ensures 0 < n < |ls| ==> Size(Unlines(ls)) == Size(Unlines(ls[..n])) + 1 + Size(Unlines(ls[n..]))
  {
    assert ls[..n] + ls[n..] == ls;
    if 0 < n < |ls| {
      JoinConcat(ls[..n], ls[n..], '\n');
      SizeConcat(Unlines(ls[..n]) + ['\n'], Unlines(ls[n..]));
      SizeConcat(Unlines(ls[..n]), ['\n']);
      assert ['\n'][1..] == "";
    }
  }

  /** Even with its header repeated, what is pushed back is no larger than the chunk it came from. */
  lemma {:induction false} CarriedSize(v: View, next: seq<string>, n: nat)
    requires n <= |next|
    ensures Size(Unlines(Carried(v, next, n))) <= Size(Unlines(next))
  {
    SizeOfPart(next, n);
    if n < |next| && |next| >= 2 && v(next[1]).separator {
      if n <= 2 {
        assert next[..n] + next[n..] == next;
      } else {
        var a, b, c := next[..2], next[2..n], next[n..];
        SizeOfPart(next, 2);
        SizeOfPart(next[2..], n - 2);
        assert next[2..][n - 2..] == c;
        SizeOfPart(a + c, 2);
        assert (a + c)[..2] == a && (a + c)[2..] == c;
      }
    }
  }

  lemma {:induction false} FrontFits(c: string)
    ensures var ls := Lines(c);
            var front := ls[..|ls| - 1];
            && Size(ls[|ls| - 1]) <= Size(c)
            && (front != [] ==> Size(Unlines(front) + ['\n']) <= Size(c))
  {
    var ls := Lines(c);
    JoinSplit(c, '\n');
    SizeOfPart(ls, |ls| - 1);
    assert ls[|ls| - 1..] == [ls[|ls| - 1]];
    SizeConcat(Unlines(ls[..|ls| - 1]), ['\n']);
    assert ['\n'][1..] == "";
  }

  lemma {:induction false} GivenFits(v: View, last: string, next: seq<string>, max: nat)
    requires '\n' !in last && (forall l :: l in next ==> '\n' !in l) && Title(v, last) && Size(last) <= max
    ensures Fits(v, Given(last, next[..Room(last, next, max)]), max)
  {
    var n := Room(last, next, max);
    GivenLines(last, next[..n]);
    if n == 0 {
      assert Given(last, next[..n]) == last + ['\n'];
    }
  }

  lemma {:induction false} PushedFits(v: View, c: string, n: nat, max: nat)
    requires Size(c) <= max && n <= |Lines(c)|
    ensures Bounded(Pushed(Carried(v, Lines(c), n)), max)
  {
    JoinSplit(c, '\n');
    CarriedSize(v, Lines(c), n);
  }

  /** A step keeps every chunk within the limit, except for a moved line of exactly
      the limit, which stands alone with its newline. */
  lemma {:induction false} AdvanceFits(v: View, w: Walk, max: nat)
    requires Consistent(v) && w.rest != [] && WalkFits(v, w, max)
    ensures WalkFits(v, Advance(v, w, max), max)
  {
    if Moves(v, w.rest) {
      MovedFits(v, w.rest, max);
      FrontFits(w.rest[0]);
    } else if |w.rest| > 1 {
      assert w.rest[1] in w.rest[1..];
      BoundedTail(w.rest, [], max);
      assert w.rest[1..][1..] == [] + w.rest[2..];
    }
  }

  lemma {:induction false} MovedFits(v: View, rest: seq<string>, max: nat)
    requires Consistent(v) && Moves(v, rest) && Fits(v, rest[0], max) && Bounded(rest[1..], max)
    ensures Size(rest[0]) <= max
    ensures var r := MovedRest(v, rest, max); Fits(v, r[0], max) && Bounded(r[1..], max)
  {
    var ls, next := Lines(rest[0]), Lines(rest[1]);
    var last := ls[|ls| - 1];
    var carried := Carried(v, next, Room(last, next, max));
    SplitPieces(rest[0], '\n');
    SplitPieces(rest[1], '\n');
    MovedFromSmall(v, rest[0], max);
    FrontFits(rest[0]);
    GivenFits(v, last, next, max);
    assert rest[1] in rest[1..];
    PushedFits(v, rest[1], Room(last, next, max), max);
    BoundedTail(rest, Pushed(carried), max);
    assert MovedRest(v, rest, max)[1..] == Pushed(carried) + rest[2..];
  }

  lemma {:induction false} BoundedTail(rest: seq<string>, more: seq<string>, max: nat)
    requires |rest| >= 2 && Bounded(rest[1..], max) && Bounded(more, max)
    ensures Bounded(more + rest[2..], max)
  {
    forall c | c in rest[2..] ensures Size(c) <= max { assert c in rest[1..]; }
  }

  /** The oversized exception ends in a newline, so it is never moved from again. */
  lemma {:induction false} MovedFromSmall(v: View, c: string, max: nat)
    requires Consistent(v) && Movable(v, Lines(c)) && Fits(v, c, max)
    ensures Size(c) <= max
  {
    if Size(c) > max {
      var line :| c == line + ['\n'] && '\n' !in line && Title(v, line) && Size(line) == max;
      assert line + ['\n'] + "" == c;
      SplitAround(line, '\n', "");
    }
  }

  /** The next step moves a line that leaves no byte for anything behind it. */
  predicate MovesFull(v: View, rest: seq<string>, max: nat) {
    Moves(v, rest) && Size(Last(Lines(rest[0]))) == max
  }

  /** A move writes a chunk over the limit exactly when the moved line fills the limit. */
  lemma {:induction false} MovedOver(v: View, rest: seq<string>, max: nat)
    requires Consistent(v) && Moves(v, rest) && Fits(v, rest[0], max)
    ensures Size(MovedRest(v, rest, max)[0]) > max <==> MovesFull(v, rest, max)
  {
    var last, next := Last(Lines(rest[0])), Lines(rest[1]);
    SplitPieces(rest[0], '\n');
    SplitPieces(rest[1], '\n');
    MovedFromSmall(v, rest[0], max);
    FrontFits(rest[0]);
    GivenLines(last, next[..Room(last, next, max)]);
  }

  ghost predicate Over(w: Walk, max: nat) {
    (exists c :: c in w.out && Size(c) > max) || (w.rest != [] && Size(w.rest[0]) > max)
  }

  lemma {:induction false} AdvanceOver(v: View, w: Walk, max: nat)
    requires Consistent(v) && w.rest != [] && WalkFits(v, w, max)
    ensures Over(Advance(v, w, max), max) <==> Over(w, max) || MovesFull(v, w.rest, max)
  {
    var x := Advance(v, w, max);
    if Moves(v, w.rest) {
      MovedFits(v, w.rest, max);
      MovedOver(v, w.rest, max);
      FrontFits(w.rest[0]);
      assert forall c :: c in w.out ==> c in x.out;
      assert Size(w.rest[0]) <= max;
    } else {
      assert forall c :: c in w.out ==> c in x.out;
      assert w.rest[0] in x.out;
      if |w.rest| > 1 { assert w.rest[1] in w.rest[1..]; }
    }
  }

  ghost predicate Sometime(v: View, w: Walk, max: nat, n: nat, p: Walk -> bool) {
    exists k: nat :: k < n && p(After(v, w, max, k))
  }

  lemma {:induction false} SometimeStep(v: View, w: Walk, max: nat, n: nat, p: Walk -> bool)
    requires w.rest != []
    ensures Sometime(v, w, max, n + 1, p) <==> p(w) || Sometime(v, Advance(v, w, max), max, n, p)
  {
    var x := Advance(v, w, max);
    assert After(v, w, max, 0) == w;
    if k: nat :| k < n && p(After(v, x, max, k)) { AfterOne(v, w, max, k); }
    if k: nat :| k < n + 1 && p(After(v, w, max, k)) {
      if k > 0 {
        AfterOne(v, w, max, k - 1);
        assert p(After(v, x, max, k - 1));
      }
    }
  }

  lemma {:induction false} NeverLater(v: View, w: Walk, max: nat, n: nat, p: Walk -> bool)
    requires w.rest == [] && !p(w)
    ensures !Sometime(v, w, max, n, p)
  {
    forall k: nat ensures After(v, w, max, k) == w { AfterEnd(v, w, max, k); }
  }

  /** Over a whole run: a chunk over the limit is written exactly when some step moves
      a line of exactly the limit. */
  lemma {:induction false} RunOver(v: View, w: Walk, max: nat, n: nat, full: Walk -> bool)
    requires Consistent(v) && WalkFits(v, w, max)
    requires forall x: Walk :: full(x) <==> MovesFull(v, x.rest, max)
    ensures WalkFits(v, After(v, w, max, n), max)
    ensures Over(After(v, w, max, n), max) <==> Over(w, max) || Sometime(v, w, max, n, full)
    decreases n
  {
    if n > 0 && w.rest != [] {
      var x := Advance(v, w, max);
      AdvanceFits(v, w, max);
      AdvanceOver(v, w, max);
      RunOver(v, x, max, n - 1, full);
      SometimeStep(v, w, max, n - 1, full);
      AfterOne(v, w, max, n - 1);
    } else if n > 0 {
      NeverLater(v, w, max, n, full);
      AfterEnd(v, w, max, n);
    }
  }

  function FullMove(v: View, max: nat): Walk -> bool {
    (w: Walk) => MovesFull(v, w.rest, max)
  }

  // ---- No heading or lead-in stays behind ----

  /** A chunk ends in a lead-in or in a heading with nothing in front that goes on in it,
      and the chunk behind does not start with a fence. */
  predicate Orphaned(v: View, c: string, d: string) {
    var ls := Lines(c);
    var last := ls[|ls| - 1];
    && v(Lines(d)[0]).fence.None? && !v(last).blank
    && (v(last).leadIn || v(last).IsHeading(|ls| == 1 || Blank(ls[|ls| - 2]) || !v(Strip(ls[|ls| - 2])).Continues()))
  }

  ghost predicate NoOrphans(v: View, chunks: seq<string>) {
    forall i, j :: 0 <= i && j == i + 1 && j < |chunks| ==> !Orphaned(v, chunks[i], chunks[j])
  }

  lemma {:induction false} LastIsMovable(v: View, ls: seq<string>)
    requires ls != []
    ensures Movable(v, ls) <==>
            var last := ls[|ls| - 1];
            && !v(last).blank
            && (v(last).leadIn
                || v(last).IsHeading(|ls| == 1 || Blank(ls[|ls| - 2]) || !v(Strip(ls[|ls| - 2])).Continues()))
  {
  }

  lemma {:induction false} OrphanedMoves(v: View, rest: seq<string>)
    requires |rest| >= 2
    ensures Orphaned(v, rest[0], rest[1]) <==> Moves(v, rest)
  {
    LastIsMovable(v, Lines(rest[0]));
  }

  /** Nothing written so far is an orphan, whatever the walk does next. */
  ghost predicate Settled(v: View, w: Walk) {
    && NoOrphans(v, w.out)
    && (w.out != [] && w.rest != [] ==> !Orphaned(v, w.out[|w.out| - 1], w.rest[0]))
  }

  lemma {:induction false} SameStart(v: View, c: string, d: string, e: string)
    requires Lines(d)[0] == Lines(e)[0]
    ensures Orphaned(v, c, d) <==> Orphaned(v, c, e)
  {
  }

  lemma {:induction false} OneMoreSettled(v: View, out: seq<string>, c: string)
    requires NoOrphans(v, out) && (out != [] ==> !Orphaned(v, out[|out| - 1], c))
    ensures NoOrphans(v, out + [c])
  {
  }

  /** What is left of the front chunk starts as it did and ends in an empty line. */
  lemma {:induction false} ClosedStarts(v: View, front: seq<string>, last: string, d: string)
    requires Consistent(v) && front != [] && forall l :: l in front ==> '\n' !in l
    ensures var c := Unlines(front) + ['\n']; Lines(c)[0] == front[0] && !Orphaned(v, c, d)
  {
    ClosedLines(front);
    assert Last(front + [""]) == "";
  }

  lemma {:induction false} MoveSettles(v: View, w: Walk, max: nat)
    requires Consistent(v) && Settled(v, w) && Moves(v, w.rest)
    ensures Settled(v, Walk(w.out + Closed(Lines(w.rest[0])[..|Lines(w.rest[0])| - 1]), MovedRest(v, w.rest, max)))
  {
    var ls, next := Lines(w.rest[0]), Lines(w.rest[1]);
    var front, last := ls[..|ls| - 1], ls[|ls| - 1];
    var given := Given(last, next[..Room(last, next, max)]);
    SplitPieces(w.rest[0], '\n');
    SplitPieces(w.rest[1], '\n');
    if front != [] {
      ClosedStarts(v, front, last, given);
      if w.out != [] { SameStart(v, w.out[|w.out| - 1], w.rest[0], Unlines(front) + ['\n']); }
      OneMoreSettled(v, w.out, Unlines(front) + ['\n']);
    } else {
      GivenLines(last, next[..Room(last, next, max)]);
      assert w.out + Closed(front) == w.out;
      if w.out != [] { SameStart(v, w.out[|w.out| - 1], w.rest[0], given); }
    }
  }

  lemma {:induction false} AdvanceSettles(v: View, w: Walk, max: nat)
    requires Consistent(v) && w.rest != [] && Settled(v, w)
    ensures Settled(v, Advance(v, w, max))
  {
    if Moves(v, w.rest) {
      MoveSettles(v, w, max);
    } else {
      StaySettles(v, w);
    }
  }

  lemma {:induction false} StaySettles(v: View, w: Walk)
    requires w.rest != [] && Settled(v, w) && !Moves(v, w.rest)
    ensures Settled(v, Walk(w.out + [w.rest[0]], w.rest[1..]))
  {
    OneMoreSettled(v, w.out, w.rest[0]);
    if |w.rest| >= 2 { OrphanedMoves(v, w.rest); }
  }

  lemma {:induction false} RunSettles(v: View, w: Walk, max: nat, n: nat)
    requires Consistent(v) && Settled(v, w)
    ensures Settled(v, After(v, w, max, n))
  {
    forall x | Settled(v, x) ensures Settled(v, Stepper(v, max)(x)) {
      if x.rest != [] { AdvanceSettles(v, x, max); }
    }
    IterateKeeps(Stepper(v, max), x => Settled(v, x), w, n);
  }

  lemma {:induction false} NothingMoves(v: View, w: Walk, max: nat, n: nat)
    requires NoOrphans(v, w.rest) && After(v, w, max, n).rest == []
    ensures After(v, w, max, n).out == w.out + w.rest
    decreases n
  {
    if n > 0 && w.rest != [] {
      if |w.rest| >= 2 { OrphanedMoves(v, w.rest); }
      AfterOne(v, w, max, n - 1);
      NothingMoves(v, Walk(w.out + [w.rest[0]], w.rest[1..]), max, n - 1);
    } else {
      AfterStill(v, w, max, n);
    }
  }

  /** The pass leaves no orphan, and it leaves alone exactly the lists that have none. */
  lemma {:induction false} OrphansAreMoved(v: View, list: seq<string>, max: nat, n: nat, out: seq<string>)
    requires Consistent(v) && After(v, Walk([], list), max, n) == Walk(out, [])
    ensures NoOrphans(v, out)
    ensures out == list <==> NoOrphans(v, list)
  {
    RunSettles(v, Walk([], list), max, n);
    if NoOrphans(v, list) {
      NothingMoves(v, Walk([], list), max, n);
      assert [] + list == list;
    }
  }

  // ---- The pass itself ----

  lemma {:induction false} RoomShrinks(last: string, ls: seq<string>, max: nat)
    ensures ls == [] || Size(last) + 1 + Size(Unlines(ls)) <= max ==> Room(last, ls, max) == |ls|
    ensures ls != [] && Size(last) + 1 + Size(Unlines(ls)) > max ==>
              Room(last, ls, max) == Room(last, ls[..|ls| - 1], max)
  {
  }

  lemma {:induction false} BackOne(next: seq<string>, carried: seq<string>)
    requires next != []
    ensures next[..|next| - 1] + ([next[|next| - 1]] + carried) == next + carried
  {
  }

  /** Push lines of the next chunk back, last one first, until the moved line fits. */
  method MakeRoom(last: string, whole: seq<string>, max: nat) returns (next: seq<string>, carried: seq<string>)
    ensures next == whole[..Room(last, whole, max)] && carried == whole[Room(last, whole, max)..]
  {
    next, carried := whole, [];
    while next != [] && Size(last) + 1 + Size(Unlines(next)) > max
      invariant next + carried == whole && Room(last, next, max) == Room(last, whole, max)
      decreases |next|
    {
      RoomShrinks(last, next, max);
      BackOne(next, carried);
      carried := [next[|next| - 1]] + carried;
      next := next[..|next| - 1];
    }
    RoomShrinks(last, next, max);
    assert next == whole[..|next|] && carried == whole[|next|..];
  }

  /** The indexed list, seen from the walk. */
  lemma {:induction false} ReplaceNext(chunks: seq<string>, i: nat, more: seq<string>)
    requires i + 1 < |chunks|
    ensures var new' := chunks[..i + 1] + more + chunks[i + 2..];
            new'[i + 1..] == more + chunks[i..][2..]
  {
  }

  /** `_de_orphan_headings`. It inserts chunks into the list it is walking. It is
      called for lists on which the walk comes to an end: `EndsUnlessStuck` says which. */
  method DeOrphanHeadings(v: View, list: seq<string>, max: nat) returns (out: seq<string>)
    requires Consistent(v) && Ends(v, Walk([], list), max)
    ensures Walked(v, list, max, out)
    ensures NoOrphans(v, out) && (out == list <==> NoOrphans(v, list))
    ensures NoSeparators(v, list) ==> FullLines(out) == FullLines(list)
    ensures Bounded(list, max) ==> forall c :: c in out ==> Fits(v, c, max)
    ensures Bounded(list, max) ==> ((exists c :: c in out && Size(c) > max) <==> HasFullPair(v, list, max))
  {
    out := [];
    var chunks := list;
    var i := 0;
    ghost var n: nat := 0;
    ghost var start := Walk([], list);
    assert chunks[0..] == list;
    while i < |chunks|
      invariant i <= |chunks| && Walk(out, chunks[i..]) == After(v, start, max, n)
      decreases Effort(v, chunks[i..])
    {
      ghost var w := Walk(out, chunks[i..]);
      StepProgresses(v, start, max, n);
      out, chunks := Turn(v, out, chunks, i, max);
      i, n := i + 1, n + 1;
    }
    assert After(v, start, max, n) == Walk(out, []);
    WalkedFacts(v, list, max, n, out);
    OrphansAreMoved(v, list, max, n, out);
    if Bounded(list, max) {
      OverlongExactly(v, list, max, out);
      FullPairAt(v, list, max);
    }
  }

  /** `out` is what the walk over `list` ends with. */
  ghost predicate Walked(v: View, list: seq<string>, max: nat, out: seq<string>) {
    exists n: nat :: After(v, Walk([], list), max, n) == Walk(out, [])
  }

  lemma {:induction false} StepProgresses(v: View, start: Walk, max: nat, n: nat)
    requires Consistent(v) && Ends(v, start, max) && After(v, start, max, n).rest != []
    ensures After(v, start, max, n + 1) == Advance(v, After(v, start, max, n), max)
    ensures Effort(v, After(v, start, max, n + 1).rest) < Effort(v, After(v, start, max, n).rest)
  {
    var w := After(v, start, max, n);
    AfterMore(v, start, max, n, 1);
    AfterOne(v, w, max, 0);
    NeverStuck(v, start, max, n);
    AdvanceProgresses(v, w, max);
  }

  lemma {:induction false} WalkedFacts(v: View, list: seq<string>, max: nat, n: nat, out: seq<string>)
    requires Consistent(v) && After(v, Walk([], list), max, n) == Walk(out, [])
    ensures NoSeparators(v, list) ==> FullLines(out) == FullLines(list)
    ensures Bounded(list, max) ==> forall c :: c in out ==> Fits(v, c, max)
  {
    var w := Walk([], list);
    if NoSeparators(v, list) {
      RunKeepsLines(v, w, max, n);
      assert [] + list == list && out + [] == out;
    }
    if Bounded(list, max) {
      RunOver(v, w, max, n, FullMove(v, max));
    }
  }

  lemma {:induction false} AfterStill(v: View, w: Walk, max: nat, n: nat)
    requires n == 0 || w.rest == []
    ensures After(v, w, max, n) == w
  {
    if n > 0 { AfterEnd(v, w, max, n); }
  }

  ghost predicate Carries(v: View, lines: seq<string>, w: Walk) {
    FullLines(w.out + w.rest) == lines && NoSeparators(v, w.rest)
  }

  lemma {:induction false} RunKeepsLines(v: View, w: Walk, max: nat, n: nat)
    requires Consistent(v) && NoSeparators(v, w.rest)
    ensures var x := After(v, w, max, n); FullLines(x.out + x.rest) == FullLines(w.out + w.rest)
  {
    var lines := FullLines(w.out + w.rest);
    forall x | Carries(v, lines, x) ensures Carries(v, lines, Stepper(v, max)(x)) {
      if x.rest != [] { AdvanceKeepsLines(v, x, max); }
    }
    IterateKeeps(Stepper(v, max), x => Carries(v, lines, x), w, n);
  }

  // ---- Which lists of chunks come out over the limit ----

  /** A chunk of one line that fills the limit and is to be moved. */
  predicate FullLine(v: View, c: string, max: nat) {
    Size(c) == max && '\n' !in c && Movable(v, [c])
  }

  /** Such a chunk in front of one that is no fence. */
  predicate FullPair(v: View, c: string, d: string, max: nat) {
    FullLine(v, c, max) && v(Lines(d)[0]).fence.None?
  }

  predicate HasFullPair(v: View, chunks: seq<string>, max: nat) {
    |chunks| >= 2 && (FullPair(v, chunks[0], chunks[1], max) || HasFullPair(v, chunks[1..], max))
  }

  lemma {:induction false} FullPairAt(v: View, chunks: seq<string>, max: nat)
    ensures HasFullPair(v, chunks, max)
       <==> exists i, j :: 0 <= i && j == i + 1 && j < |chunks| && FullPair(v, chunks[i], chunks[j], max)
  {
    if |chunks| >= 2 {
      var rest := chunks[1..];
      FullPairAt(v, rest, max);
      if HasFullPair(v, rest, max) {
        var i, j :| 0 <= i && j == i + 1 && j < |rest| && FullPair(v, rest[i], rest[j], max);
        assert FullPair(v, chunks[i + 1], chunks[j + 1], max);
      }
      if i, j :| 0 <= i && j == i + 1 && j < |chunks| && FullPair(v, chunks[i], chunks[j], max) {
        if i > 0 { assert FullPair(v, rest[i - 1], rest[j - 1], max); }
      }
    }
  }

  /** The first chunk of the walk makes the next step a move of a full line exactly when
      it is such a chunk. */
  lemma {:induction false} FullMoveIsPair(v: View, rest: seq<string>, max: nat)
    requires Consistent(v) && rest != [] && Fits(v, rest[0], max)
    ensures MovesFull(v, rest, max) <==> |rest| >= 2 && FullPair(v, rest[0], rest[1], max)
  {
    var ls := Lines(rest[0]);
    if MovesFull(v, rest, max) {
      MovedFromSmall(v, rest[0], max);
      LastIsWhole(rest[0]);
      SplitPieces(rest[0], '\n');
    } else if '\n' !in rest[0] {
      SplitPlain(rest[0], '\n');
    }
  }

  /** A last line as large as its chunk is all of it. */
  lemma {:induction false} LastIsWhole(c: string)
    requires Size(Last(Lines(c))) >= Size(c)
    ensures Lines(c) == [c]
  {
    var ls := Lines(c);
    JoinSplit(c, '\n');
    SizeOfPart(ls, |ls| - 1);
    assert ls[|ls| - 1..] == [Last(ls)];
  }

  /** A full line that is next in the walk is pushed back as it is, and nothing else that
      is pushed back is full. */
  lemma {:induction false} PushedFull(v: View, last: string, d: string, max: nat)
    requires Size(d) <= max
    ensures var carried := Carried(v, Lines(d), Room(last, Lines(d), max));
            && (carried == [] ==> Size(d) < max)
            && (Size(d) == max && '\n' !in d ==> carried == [d])
            && (carried != [] && Size(Unlines(carried)) == max && '\n' !in Unlines(carried) ==> Unlines(carried) == d)
  {
    var next := Lines(d);
    var n := Room(last, next, max);
    var carried := Carried(v, next, n);
    JoinSplit(d, '\n');
    SplitPieces(d, '\n');
    assert next[..|next|] == next && next[..0] == [] && next[0..] == next && Unlines([]) == "";
    if '\n' !in d { SplitPlain(d, '\n'); }
    if n > 0 && carried != [] && '\n' !in Unlines(carried) {
      SplitJoin(carried, '\n');
      SplitPlain(Unlines(carried), '\n');
      SizeOfPart(next, n);
    }
  }

  lemma {:induction false} GivenIsNotFull(v: View, last: string, kept: seq<string>, max: nat)
    ensures !FullLine(v, Given(last, kept), max)
  {
    assert '\n' in Given(last, kept) by { assert Given(last, kept)[|last|] == '\n'; }
  }

  lemma {:induction false} MovedPairs(v: View, rest: seq<string>, max: nat)
    requires |rest| >= 2 && Size(rest[1]) <= max
    ensures HasFullPair(v, MovedRest(v, rest, max), max) <==> HasFullPair(v, rest[1..], max)
  {
    var last, d := Last(Lines(rest[0])), rest[1];
    var n := Room(last, Lines(d), max);
    var carried := Carried(v, Lines(d), n);
    var moved := MovedRest(v, rest, max);
    MovedTail(v, rest, max);
    GivenIsNotFull(v, last, Lines(d)[..n], max);
    PushedFull(v, last, d, max);
    assert HasFullPair(v, moved, max) <==> HasFullPair(v, moved[1..], max);
    assert rest[1..][1..] == rest[2..];
    if carried == [] {
      assert moved[1..] == rest[2..];
    } else {
      assert moved[1..][0] == Unlines(carried) && moved[1..][1..] == rest[2..];
    }
  }

  /** What is full in the walk is moved now or stays. */
  lemma {:induction false} AdvancePairs(v: View, w: Walk, max: nat)
    requires Consistent(v) && w.rest != [] && WalkFits(v, w, max)
    ensures HasFullPair(v, w.rest, max)
       <==> MovesFull(v, w.rest, max) || HasFullPair(v, Advance(v, w, max).rest, max)
  {
    FullMoveIsPair(v, w.rest, max);
    if Moves(v, w.rest) {
      assert w.rest[1] in w.rest[1..];
      MovedPairs(v, w.rest, max);
    }
  }

  lemma {:induction false} RunMovesPairs(v: View, w: Walk, max: nat, n: nat, full: Walk -> bool)
    requires Consistent(v) && WalkFits(v, w, max) && After(v, w, max, n).rest == []
    requires forall x: Walk :: full(x) <==> MovesFull(v, x.rest, max)
    ensures Sometime(v, w, max, n, full) <==> HasFullPair(v, w.rest, max)
    decreases n
  {
    if w.rest == [] {
      NeverLater(v, w, max, n, full);
    } else {
      assert n > 0 by { AfterStill(v, w, max, 0); }
      var x := Advance(v, w, max);
      AfterOne(v, w, max, n - 1);
      AdvanceFits(v, w, max);
      AdvancePairs(v, w, max);
      RunMovesPairs(v, x, max, n - 1, full);
      SometimeStep(v, w, max, n - 1, full);
    }
  }

  /** A list of chunks within the limit comes out with a chunk over it exactly when one of
      its chunks is a single line of just the limit that is to be moved, and the next one
      is no fence. */
  lemma {:induction false} OverlongExactly(v: View, list: seq<string>, max: nat, out: seq<string>)
    requires Consistent(v) && Bounded(list, max) && Walked(v, list, max, out)
    ensures (exists c :: c in out && Size(c) > max)
       <==> exists i, j :: 0 <= i && j == i + 1 && j < |list| && FullPair(v, list[i], list[j], max)
  {
    var w, full := Walk([], list), FullMove(v, max);
    var n: nat :| After(v, w, max, n) == Walk(out, []);
    RunOver(v, w, max, n, full);
    RunMovesPairs(v, w, max, n, full);
    FullPairAt(v, list, max);
    assert !Over(w, max);
  }

  /** One turn of the walk at index `i`. */
  method Turn(v: View, out0: seq<string>, chunks0: seq<string>, i: nat, max: nat)
    returns (out: seq<string>, chunks: seq<string>)
    requires i < |chunks0|
    ensures i < |chunks| && Walk(out, chunks[i + 1..]) == Advance(v, Walk(out0, chunks0[i..]), max)
  {
    out, chunks := out0, chunks0;
    var lines := Lines(chunks[i]);
    if i + 1 < |chunks| && Movable(v, lines) && v(Lines(chunks[i + 1])[0]).fence.None? {
      var front, last := lines[..|lines| - 1], lines[|lines| - 1];
      if front != [] {
        out := out + [Unlines(front) + ['\n']];
      }
      assert out == out0 + Closed(front);
      chunks := MoveLine(v, chunks, i, last, max);
    } else {
      out := out + [chunks[i]];
    }
  }

  lemma {:induction false} CarriedAlong(v: View, whole: seq<string>, n: nat)
    requires n <= |whole|
    ensures var next, carried := whole[..n], whole[n..];
            Carried(v, whole, n) == if |whole| >= 2 && v(whole[1]).separator && carried != []
                                    then (if |next| < 2 then next else next[..2]) + carried else carried
  {
  }

  /** Move `last` in front of the chunk behind index `i`. */
  method MoveLine(v: View, chunks0: seq<string>, i: nat, last: string, max: nat) returns (chunks: seq<string>)
    requires i + 1 < |chunks0| && last == Lines(chunks0[i])[|Lines(chunks0[i])| - 1]
    ensures i < |chunks| && chunks[i + 1..] == MovedRest(v, chunks0[i..], max)
  {
    var whole := Lines(chunks0[i + 1]);
    var tablePage := |whole| >= 2 && v(whole[1]).separator;
    var next, carried := MakeRoom(last, whole, max);
    ghost var n := Room(last, whole, max);
    CarriedAlong(v, whole, n);
    if tablePage && carried != [] {
      carried := (if |next| < 2 then next else next[..2]) + carried;
    }
    var inserted := if carried != [] then [Unlines(carried)] else [];
    ReplaceNext(chunks0, i, [Given(last, next)] + inserted);
    chunks := chunks0[..i + 1] + ([Given(last, next)] + inserted) + chunks0[i + 2..];
  }

  /** A list has one result. */
  lemma {:induction false} WalkedOnce(
      v: View, list: seq<string>, max: nat, n: nat, out: seq<string>, other: seq<string>)
    requires After(v, Walk([], list), max, n) == Walk(out, []) && Walked(v, list, max, other)
    ensures other == out
  {
    var w := Walk([], list);
    var m: nat :| After(v, w, max, m) == Walk(other, []);
    AfterMore(v, w, max, m, n);
    AfterMore(v, w, max, n, m);
    AfterEnd(v, Walk(other, []), max, n);
    AfterEnd(v, Walk(out, []), max, m);
  }
}
