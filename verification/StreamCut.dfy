/** Where a growing Markdown stream may be cut: the structure left open by the
    text already sent, the safe cut in the pending text, and what both guarantee
    over a whole streamed run. */
module StreamCut {
  import opened Text
  import opened LineKinds

  /** A line as the cutter scans it: its kind and its number of characters. */
  datatype Line = Line(kind: Kind, len: nat)

  /** The lines of a text. */
  function Scan(view: string -> Kind, ls: seq<string>): (r: seq<Line>)
    ensures |r| == |ls|
  {
    seq(|ls|, i requires 0 <= i < |ls| => Line(view(ls[i]), |ls[i]|))
  }

  // ---- Structure left open by the text already sent ----

  /** Inside a fence exactly when `fence` holds the marker that opened it. */
  datatype Trailing = Trailing(inTable: bool, fence: Option<Marker>, inItem: bool)

  const START := Trailing(false, None, false)

  function FenceStep(fence: Option<Marker>, k: Kind): Option<Marker> {
    if k.fence.None? then fence
    else if fence.None? then k.fence
    else if k.Closes(fence.value) then None
    else fence
  }

  function TrailStep(t: Trailing, k: Kind): Trailing {
    if k.fence.Some? || t.fence.Some? then t.(fence := FenceStep(t.fence, k))
    else if k.separator || k.row then t.(inTable := true, inItem := false)
    else if k.marker || k.url then t.(inTable := false, inItem := true)
    else if k.note then t.(inTable := false, inItem := false)
    else if !k.blank then t.(inTable := false)
    else t.(inTable := false, inItem := false)
  }

  function TrailFold(t: Trailing, ls: seq<Line>): Trailing {
    if ls == [] then t else TrailStep(TrailFold(t, ls[..|ls| - 1]), ls[|ls| - 1].kind)
  }

  function DropTrailingNewlines(s: string): (r: string)
    ensures r <= s
  {
    if s != "" && s[|s| - 1] == '\n' then DropTrailingNewlines(s[..|s| - 1]) else s
  }

  function TrailingOf(m: Machine, text: string): Trailing {
    TrailFold(START, Scan(m.view, Lines(DropTrailingNewlines(text))))
  }

  /** `trailing_structure`, one line after the other. */
  method TrailingStructure(m: Machine, text: string) returns (t: Trailing)
    ensures t == TrailingOf(m, text)
  {
    var inTable, inItem := false, false;
    var fence: Option<Marker> := None;
    var lines := Lines(DropTrailingNewlines(text));
    ghost var scan := Scan(m.view, lines);
    for i := 0 to |lines|
      invariant Trailing(inTable, fence, inItem) == TrailFold(START, scan[..i])
    {
      assert scan[..i + 1][..i] == scan[..i] && scan[..i + 1][i] == scan[i];
      var k := m.view(lines[i]);
      if k.fence.Some? {
        if fence.None? {
          fence := k.fence;
        } else if k.Closes(fence.value) {
          fence := None;
        }
      } else if fence.Some? {
      } else if k.separator {
        inTable := true;
        inItem := false;
      } else if k.row {
        inTable := true;
        inItem := false;
      } else if k.marker || k.url {
        inTable := false;
        inItem := true;
      } else if k.note {
        inTable := false;
        inItem := false;
      } else if !k.blank {
        inTable := false;
      } else {
        inTable := false;
        inItem := false;
      }
    }
    assert scan[..|lines|] == scan;
    t := Trailing(inTable, fence, inItem);
  }

  // ---- The safe cut ----

  /** The cutter's view of the structure it stands in. */
  datatype State = State(
    fence: Option<Marker>, inTable: bool, inItem: bool,
    prevBoundary: bool, headingPending: bool, itemBind: bool)

  /** The part a line plays, given the structure it stands in. */
  datatype Role =
    | FenceOpen | FenceClose | FenceInner
    | Separator | DataRow | HeaderRow | HalfRow
    | ItemMarker | ItemBlank | ItemNote | ItemLead | ItemText
    | TopMarker | TopUrl | TopNote | Heading | LeadIn | Entry | TopBlank | Ordinary

  /** `unfinished` says that the line is the last one, so it has no newline yet. */
  function RoleOf(st: State, k: Kind, next: Kind, unfinished: bool): Role {
    if k.fence.Some? && st.fence.None? then FenceOpen
    else if k.fence.Some? && k.Closes(st.fence.value) then FenceClose
    else if st.fence.Some? then FenceInner
    else if k.separator then Separator
    else if k.row then (if st.inTable then DataRow else HeaderRow)
    else if k.pipe then HalfRow
    else if st.inItem then
      if k.marker then ItemMarker
      else if k.blank && !unfinished then ItemBlank
      else if k.note then ItemNote
      else if k.leadIn || k.IsHeading(true) then ItemLead
      else ItemText
    else if k.marker then TopMarker
    else if k.Continues() then TopUrl
    else if k.note then TopNote
    else if k.IsHeading(st.prevBoundary) then Heading
    else if k.leadIn then LeadIn
    else if next.note || next.url then Entry
    else if k.blank then TopBlank
    else Ordinary
  }

  /** The cut may fall right before a line in this role. */
  predicate CutsBefore(st: State, r: Role) {
    match r
    case FenceOpen => true
    case ItemMarker => !st.itemBind
    case TopMarker => !st.headingPending
    case _ => false
  }

  /** The cut may fall right behind a line in this role; `last` says that nothing
      follows its newline yet. */
  predicate CutsAfter(st: State, r: Role, next: Kind, unfinished: bool, last: bool) {
    match r
    case FenceClose => true
    case DataRow => true
    case ItemBlank => true
    case ItemNote => !unfinished
    case TopNote => !unfinished
    case TopBlank => !st.headingPending && !last
    case Ordinary => !last && !next.leadIn
    case _ => false
  }

  predicate Binds(r: Role) { r.Heading? || r.LeadIn? }

  /** Ordinary text outside every fence, table and list item. */
  predicate TopLevel(r: Role) {
    r.TopMarker? || r.TopUrl? || r.TopNote? || Binds(r) || r.Entry? || r.TopBlank? || r.Ordinary?
  }

  /** A new block may start behind a line in this role. */
  predicate EndsBlock(st: State, r: Role) {
    r.FenceOpen? || r.FenceClose? || r.Separator? || r.ItemMarker? || r.ItemBlank? || r.ItemNote? ||
    r.TopMarker? || r.TopNote? || (r.TopBlank? && !st.headingPending) || r.Ordinary?
  }

  /** Roles that leave the block boundary in front of them standing. */
  predicate KeepsBoundary(k: Kind, r: Role) {
    (r.FenceInner? && k.fence.Some?) || r.LeadIn? || r.TopBlank?
  }

  predicate EndsItem(r: Role) {
    r.Separator? || r.DataRow? || r.HeaderRow? || r.ItemBlank? || r.ItemNote?
  }

  /** A heading or lead-in keeps binding up to the next non-blank line; inside a
      list item it binds the next marker. */
  function Step(st: State, k: Kind, r: Role): State {
    State(
      FenceStep(st.fence, k),
      r.Separator? || (st.inTable && !TopLevel(r)),
      r.TopMarker? || (st.inItem && !EndsItem(r)),
      EndsBlock(st, r) || (KeepsBoundary(k, r) && st.prevBoundary),
      Binds(r) || (k.blank && st.headingPending),
      r.ItemLead? || (st.itemBind && !r.ItemMarker? && !r.ItemBlank? && !r.ItemNote?))
  }

  function Next(st: State, k: Kind, next: Kind, unfinished: bool): State {
    Step(st, k, RoleOf(st, k, next, unfinished))
  }

  /** Whether the start and the end of a line are safe cuts. */
  datatype Mark = Mark(before: bool, after: bool)

  function MarkOf(st: State, k: Kind, next: Kind, unfinished: bool, last: bool): Mark {
    var r := RoleOf(st, k, next, unfinished);
    Mark(CutsBefore(st, r), CutsAfter(st, r, next, unfinished, last))
  }

  /** The rules a scan runs on: how a line is classified, how it changes the
      structure, and which cuts it allows. `MARKDOWN` is the one in use; what
      holds of every sound machine is proved for every sound machine. */
  datatype Machine = Machine(
    view: string -> Kind,
    step: (State, Kind, Kind, bool) -> State,
    mark: (State, Kind, Kind, bool, bool) -> Mark)

  const MARKDOWN := Machine(Classify, Next, MarkOf)

  /** Lines are classified consistently, fences open and close as `FenceStep`
      says, and cuts are allowed outside fences only. */
  ghost predicate Sound(m: Machine) {
    && m.view("").blank
    && (forall s :: m.view(s).Consistent())
    && (forall st, k: Kind, n: Kind, u :: m.step(st, k, n, u).fence == FenceStep(st.fence, k))
    && (forall st, k: Kind, n: Kind, u, l :: m.mark(st, k, n, u, l).before ==> st.fence.None?)
    && (forall st, k: Kind, n: Kind, u, l :: m.mark(st, k, n, u, l).after && !m.mark(st, k, n, u, l).before ==>
          FenceStep(st.fence, k).None?)
  }

  function NextKind(m: Machine, ls: seq<Line>, i: nat): Kind {
    if i + 1 < |ls| then ls[i + 1].kind else m.view("")
  }

  /** Where line `k` starts. */
  function Offset(ls: seq<Line>, k: nat): nat
    requires k <= |ls|
  {
    if k == 0 then 0 else Offset(ls, k - 1) + ls[k - 1].len + 1
  }

  /** Length of the text; its last line has no newline. */
  function Total(ls: seq<Line>): nat
    requires ls != []
  {
    Offset(ls, |ls| - 1) + ls[|ls| - 1].len
  }

  function Initial(t: Trailing): State {
    State(t.fence, t.inTable, t.inItem, true, false, false)
  }

  /** The state in front of line `k`. */
  function At(m: Machine, ls: seq<Line>, t: Trailing, k: nat): State
    requires k <= |ls|
  {
    if k == 0 then Initial(t)
    else
      m.step(At(m, ls, t, k - 1), ls[k - 1].kind, NextKind(m, ls, k - 1), k == |ls|)
  }

  function MarkAt(m: Machine, ls: seq<Line>, t: Trailing, i: nat): Mark
    requires i < |ls|
  {
    m.mark(At(m, ls, t, i), ls[i].kind, NextKind(m, ls, i), i + 1 == |ls|, Offset(ls, i + 1) >= Total(ls))
  }

  function Marks(m: Machine, ls: seq<Line>, t: Trailing): (ms: seq<Mark>)
    ensures |ms| == |ls|
  {
    seq(|ls|, i requires 0 <= i < |ls| =>
      MarkAt(m, ls, t, i))
  }

  lemma {:induction false} MarkLookup(m: Machine, ls: seq<Line>, t: Trailing, i: nat)
    requires i < |ls|
    ensures Marks(m, ls, t)[i] == MarkAt(m, ls, t, i)
  {
  }

  /** The best cut after `k` lines. */
  function CutAt(ls: seq<Line>, ms: seq<Mark>, k: nat): nat
    requires k <= |ls| == |ms|
  {
    if k == 0 then 0
    else if ms[k - 1].before then Offset(ls, k - 1)
    else if ms[k - 1].after then Offset(ls, k)
    else CutAt(ls, ms, k - 1)
  }

  /** How many lines start before `limit`. */
  function Reach(ls: seq<Line>, limit: int, k: nat): (n: nat)
    requires k <= |ls|
    ensures k <= n <= |ls|
    ensures forall i :: k <= i < n ==> Offset(ls, i) < limit
    ensures n < |ls| ==> Offset(ls, n) >= limit
    decreases |ls| - k
  {
    if k == |ls| || Offset(ls, k) >= limit then k else Reach(ls, limit, k + 1)
  }

  function CutOf(m: Machine, ls: seq<Line>, limit: int, t: Trailing): nat {
    CutAt(ls, Marks(m, ls, t), Reach(ls, limit, 0))
  }

  function SafeCut(m: Machine, text: string, limit: int, t: Trailing): nat {
    CutOf(m, Scan(m.view, Lines(text)), limit, t)
  }

  lemma {:induction false} CutOneMore(m: Machine, ls: seq<Line>, t: Trailing, i: nat)
    requires i < |ls|
    ensures var mark := MarkAt(m, ls, t, i);
            CutAt(ls, Marks(m, ls, t), i + 1) ==
            if mark.before then Offset(ls, i) else if mark.after then Offset(ls, i + 1) else CutAt(ls, Marks(m, ls, t), i)
  {
    MarkLookup(m, ls, t, i);
  }

  /** `markdown_safe_cut`: walk the lines that start before `limit`. */
  method MarkdownSafeCut(m: Machine, text: string, limit: int, initial: Option<Trailing>) returns (safe: nat)
    ensures safe == SafeCut(m, text, limit, if initial.Some? then initial.value else START)
  {
    if limit <= 0 {
      return 0;
    }
    var t := if initial.Some? then initial.value else START;
    var lines := Lines(text);
    safe := 0;
    var pos: nat, idx: nat := 0, 0;
    var st := Initial(t);
    ghost var ls := Scan(m.view, lines);
    while idx < |lines| && pos < limit
      invariant idx <= |lines|
      invariant Scanned(pos, st, safe) == ScannedTo(m, ls, t, idx)
      invariant Reach(ls, limit, 0) == Reach(ls, limit, idx)
    {
      var kind := m.view(lines[idx]);
      var next := if idx + 1 < |lines| then m.view(lines[idx + 1]) else m.view("");
      var unfinished := idx + 1 == |lines|;
      var end := pos + |lines[idx]| + 1;
      LineStep(m, text, limit, t, idx, Scanned(pos, st, safe), kind, next, end);
      var mark := m.mark(st, kind, next, unfinished, end >= |text|);
      if mark.before {
        safe := pos;
      } else if mark.after {
        safe := end;
      }
      st := m.step(st, kind, next, unfinished);
      pos := end;
      idx := idx + 1;
    }
    ScanStops(m, ls, t, limit, idx);
  }

  lemma {:induction false} ScanStops(m: Machine, ls: seq<Line>, t: Trailing, limit: int, i: nat)
    requires i <= |ls| && Reach(ls, limit, 0) == Reach(ls, limit, i)
    requires i == |ls| || ScannedTo(m, ls, t, i).pos >= limit
    ensures CutOf(m, ls, limit, t) == ScannedTo(m, ls, t, i).safe
  {
  }

  /** Where the loop stands: the next line's start, the structure, the best cut. */
  datatype Scanned = Scanned(pos: nat, st: State, safe: nat)

  function ScannedTo(m: Machine, ls: seq<Line>, t: Trailing, i: nat): Scanned
    requires i <= |ls|
  {
    Scanned(Offset(ls, i), At(m, ls, t, i), CutAt(ls, Marks(m, ls, t), i))
  }

  /** What one turn of the loop computes. */
  lemma {:induction false} LineStep(
    m: Machine, text: string, limit: int, t: Trailing, i: nat, p: Scanned, kind: Kind, next: Kind, end: nat)
    requires i < |Lines(text)| && kind == m.view(Lines(text)[i]) && p == ScannedTo(m, Scan(m.view, Lines(text)), t, i)
    requires next == if i + 1 < |Lines(text)| then m.view(Lines(text)[i + 1]) else m.view("")
    requires end == p.pos + |Lines(text)[i]| + 1
    ensures var unfinished := i + 1 == |Lines(text)|;
            var mark := m.mark(p.st, kind, next, unfinished, end >= |text|);
            var safe := if mark.before then p.pos else if mark.after then end else p.safe;
            ScannedTo(m, Scan(m.view, Lines(text)), t, i + 1) == Scanned(end, m.step(p.st, kind, next, unfinished), safe)
    ensures p.pos < limit ==> Reach(Scan(m.view, Lines(text)), limit, i) == Reach(Scan(m.view, Lines(text)), limit, i + 1)
  {
    TextLength(m, text);
    CutOneMore(m, Scan(m.view, Lines(text)), t, i);
  }

  // ---- Offsets and text ----

  lemma {:induction false} OffsetGrows(ls: seq<Line>, i: nat, j: nat)
    requires i <= j <= |ls|
    ensures Offset(ls, i) + (j - i) <= Offset(ls, j)
    decreases j
  {
    if i < j { OffsetGrows(ls, i, j - 1); }
  }

  lemma {:induction false} OffsetPrefix(ls: seq<Line>, more: seq<Line>, k: nat)
    requires k <= |ls|
    ensures Offset(ls + more, k) == Offset(ls, k)
  {
    if k > 0 { OffsetPrefix(ls, more, k - 1); }
  }

  lemma {:induction false} JoinedLength(m: Machine, ls: seq<string>)
    requires ls != []
    ensures |Unlines(ls)| + 1 == Offset(Scan(m.view, ls), |ls|)
    decreases |ls|
  {
    if |ls| > 1 {
      var front := ls[..|ls| - 1];
      JoinedLength(m, front);
      JoinConcat(front, [ls[|ls| - 1]], '\n');
      assert front + [ls[|ls| - 1]] == ls;
      OffsetPrefix(Scan(m.view, front), [Scan(m.view, ls)[|ls| - 1]], |front|);
      assert Scan(m.view, front) + [Scan(m.view, ls)[|ls| - 1]] == Scan(m.view, ls);
    }
  }

  lemma {:induction false} TextLength(m: Machine, text: string)
    ensures Total(Scan(m.view, Lines(text))) == |text|
  {
    JoinSplit(text, '\n');
    JoinedLength(m, Lines(text));
    TotalIsOffset(Scan(m.view, Lines(text)));
  }

  lemma {:induction false} TotalIsOffset(ls: seq<Line>)
    requires ls != []
    ensures Total(ls) + 1 == Offset(ls, |ls|)
  {
  }

  /** The text up to the start of line `k` is the first `k` lines, each with its newline. */
  lemma {:induction false} TextUpToLine(m: Machine, text: string, k: nat)
    requires 0 < k < |Lines(text)|
    ensures var c := Offset(Scan(m.view, Lines(text)), k);
            && 0 < c <= |text| && text[c - 1] == '\n'
            && text[..c - 1] == Unlines(Lines(text)[..k])
            && text[c..] == Unlines(Lines(text)[k..])
  {
    var ls := Lines(text);
    JoinSplit(text, '\n');
    LengthUpTo(m, ls, k);
    JoinConcat(ls[..k], ls[k..], '\n');
    assert ls[..k] + ls[k..] == ls;
    AroundBreak(Unlines(ls[..k]), Unlines(ls[k..]));
  }

  lemma {:induction false} AroundBreak(a: string, b: string)
    ensures var text, c := a + ['\n'] + b, |a| + 1;
            c <= |text| && text[c - 1] == '\n' && text[..c - 1] == a && text[c..] == b
  {
  }

  lemma {:induction false} LengthUpTo(m: Machine, ls: seq<string>, k: nat)
    requires 0 < k <= |ls|
    ensures Offset(Scan(m.view, ls), k) == |Unlines(ls[..k])| + 1
  {
    var a, b := ls[..k], ls[k..];
    JoinedLength(m, a);
    OffsetPrefix(Scan(m.view, a), Scan(m.view, b), k);
    assert Scan(m.view, a) + Scan(m.view, b) == Scan(m.view, ls);
  }

  // ---- Cuts and fences ----

  lemma {:induction false} TrailStepKeepsFence(t: Trailing, k: Kind)
    ensures TrailStep(t, k).fence == FenceStep(t.fence, k)
  {
  }

  lemma {:induction false} FenceFollowsLines(m: Machine, ls: seq<Line>, t: Trailing, k: nat)
    requires Sound(m) && k <= |ls|
    ensures At(m, ls, t, k).fence == TrailFold(t, ls[..k]).fence
  {
    if k > 0 {
      FenceFollowsLines(m, ls, t, k - 1);
      assert ls[..k][..k - 1] == ls[..k - 1];
      TrailStepKeepsFence(TrailFold(t, ls[..k - 1]), ls[k - 1].kind);
    }
  }

  /** After `k` lines, the start of line `b` has been accepted as a cut. */
  predicate Marked(ms: seq<Mark>, k: nat, b: nat)
    requires b <= k <= |ms|
  {
    (b < k && ms[b].before) || (b > 0 && !ms[b - 1].before && ms[b - 1].after)
  }

  /** The cut is the last accepted line start: nothing safe is left behind it, and
      nothing else is cut. */
  lemma {:induction false} CutIsLastMark(ls: seq<Line>, ms: seq<Mark>, k: nat) returns (b: nat)
    requires k <= |ls| == |ms|
    ensures b <= k && CutAt(ls, ms, k) == Offset(ls, b)
    ensures b > 0 ==> Marked(ms, k, b)
    ensures forall c :: b < c <= k ==> !Marked(ms, k, c)
  {
    if k == 0 {
      b := 0;
    } else if ms[k - 1].before {
      b := k - 1;
    } else if ms[k - 1].after {
      b := k;
    } else {
      b := CutIsLastMark(ls, ms, k - 1);
      forall c | b < c <= k ensures !Marked(ms, k, c) {
        if c < k { assert !Marked(ms, k - 1, c); }
      }
    }
  }

  lemma {:induction false} MarkedOutsideFence(m: Machine, ls: seq<Line>, t: Trailing, b: nat)
    requires Sound(m) && b <= |ls| && Marked(Marks(m, ls, t), |ls|, b)
    ensures TrailFold(t, ls[..b]).fence.None?
  {
    FenceFollowsLines(m, ls, t, b);
  }

  /** The fence part of the trailing structure composes over any split at a line
      end: scanning `b` from the state `a` leaves gives the state `a + b` leaves. */
  lemma {:induction false} FenceComposes(m: Machine, a: string, b: string)
    requires Sound(m)
    requires a == "" || a[|a| - 1] == '\n'
    ensures TrailingOf(m, a + b).fence == TrailFold(TrailingOf(m, a), Scan(m.view, Lines(b))).fence
  {
    FenceOfText(m, a + b);
    var y := Scan(m.view, Lines(b));
    if a == "" {
      assert a + b == b;
      NothingSent(m);
      FenceOnly(TrailingOf(m, a), START, y);
    } else {
      FenceOfText(m, a);
      ScanAtLineEnd(m, a, b);
      var x := Scan(m.view, Lines(a[..|a| - 1]));
      TrailFoldConcat(START, x, y);
      TrailFoldConcat(START, x, [Line(m.view(""), 0)]);
      EmptyLineKeepsFence(m, TrailFold(START, x));
      FenceOnly(TrailFold(START, x), TrailingOf(m, a), y);
    }
  }

  /** A text cut at a line end: the lines on either side. */
  lemma {:induction false} ScanAtLineEnd(m: Machine, a: string, b: string)
    requires a != "" && a[|a| - 1] == '\n'
    ensures var x := Scan(m.view, Lines(a[..|a| - 1]));
            && Scan(m.view, Lines(a + b)) == x + Scan(m.view, Lines(b))
            && Scan(m.view, Lines(a)) == x + [Line(m.view(""), 0)]
  {
    var c := a[..|a| - 1];
    assert c + ['\n'] + b == a + b;
    assert c + ['\n'] + "" == a;
    SplitAround(c, '\n', b);
    SplitAround(c, '\n', "");
  }

  lemma {:induction false} EmptyLineKeepsFence(m: Machine, t: Trailing)
    requires Sound(m)
    ensures TrailFold(t, [Line(m.view(""), 0)]).fence == t.fence
  {
    var ls := [Line(m.view(""), 0)];
    assert m.view("").Consistent();
    assert ls[..0] == [] && TrailFold(t, []) == t;
  }

  lemma {:induction false} NothingSent(m: Machine)
    requires Sound(m)
    ensures TrailingOf(m, "").fence == None && TrailingOf(m, "") == START
  {
    EmptyLineKeepsFence(m, START);
    assert Scan(m.view, Lines("")) == [Line(m.view(""), 0)];
  }

  lemma {:induction false} TrailFoldConcat(t: Trailing, a: seq<Line>, b: seq<Line>)
    ensures TrailFold(t, a + b) == TrailFold(TrailFold(t, a), b)
    decreases |b|
  {
    if b == [] {
      assert a + b == a;
    } else {
      assert (a + b)[..|a + b| - 1] == a + b[..|b| - 1];
      TrailFoldConcat(t, a, b[..|b| - 1]);
    }
  }

  /** Fences depend on nothing but fences. */
  lemma {:induction false} FenceOnly(t: Trailing, u: Trailing, ls: seq<Line>)
    requires t.fence == u.fence
    ensures TrailFold(t, ls).fence == TrailFold(u, ls).fence
    decreases |ls|
  {
    if ls != [] { FenceOnly(t, u, ls[..|ls| - 1]); }
  }

  /** The newlines `trailing_structure` drops do not matter for the fence. */
  lemma {:induction false} FenceOfText(m: Machine, text: string)
    requires Sound(m)
    ensures TrailingOf(m, text).fence == TrailFold(START, Scan(m.view, Lines(text))).fence
  {
    if text != "" && text[|text| - 1] == '\n' {
      var c := text[..|text| - 1];
      FenceOfText(m, c);
      assert c + ['\n'] + "" == text;
      SplitAround(c, '\n', "");
      assert Scan(m.view, Lines(text)) == Scan(m.view, Lines(c)) + [Line(m.view(""), 0)];
      TrailFoldConcat(START, Scan(m.view, Lines(c)), [Line(m.view(""), 0)]);
      EmptyLineKeepsFence(m, TrailFold(START, Scan(m.view, Lines(c))));
    }
  }

  /** The lines of the text in front of line `b` are the first `b` lines. */
  lemma {:induction false} LinesBefore(m: Machine, text: string, b: nat)
    requires 0 < b < |Lines(text)|
    ensures var ls := Scan(m.view, Lines(text));
            && Offset(ls, b) <= |text|
            && Scan(m.view, Lines(text[..Offset(ls, b)])) == ls[..b] + [Line(m.view(""), 0)]
  {
    var strings := Lines(text);
    var ls := Scan(m.view, strings);
    var front := strings[..b];
    TextUpToLine(m, text, b);
    SplitPieces(text, '\n');
    SplitJoin(front, '\n');
    assert text[..Offset(ls, b)] == Unlines(front) + ['\n'] + "";
    SplitAround(Unlines(front), '\n', "");
  }

  /** A cut inside the text falls just after a newline, and the part in front of it
      leaves no fence open. */
  lemma {:induction false} CutEndsOutsideFences(m: Machine, text: string, limit: int, t: Trailing)
    requires Sound(m)
    requires 0 < SafeCut(m, text, limit, t) <= |text|
    ensures var c := SafeCut(m, text, limit, t);
            text[c - 1] == '\n' && TrailFold(t, Scan(m.view, Lines(text[..c]))).fence == None
  {
    var ls := Scan(m.view, Lines(text));
    var ms := Marks(m, ls, t);
    TextLength(m, text);
    var b := CutIsLastMark(ls, ms, Reach(ls, limit, 0));
    assert 0 < b < |ls| && Marked(ms, |ls|, b);
    MarkedOutsideFence(m, ls, t, b);
    TextUpToLine(m, text, b);
    LinesBefore(m, text, b);
    TrailFoldConcat(t, ls[..b], [Line(m.view(""), 0)]);
    EmptyLineKeepsFence(m, TrailFold(t, ls[..b]));
  }

  // ---- The rules in use ----

  lemma {:induction false} MarkdownStep(st: State, k: Kind, next: Kind, unfinished: bool, last: bool)
    ensures Next(st, k, next, unfinished).fence == FenceStep(st.fence, k)
    ensures MarkOf(st, k, next, unfinished, last).before ==> st.fence.None?
    ensures MarkOf(st, k, next, unfinished, last).after && !MarkOf(st, k, next, unfinished, last).before ==>
              FenceStep(st.fence, k).None?
  {
  }

  /** The rules in use are sound. */
  lemma {:induction false} MarkdownIsSound()
    ensures Sound(MARKDOWN)
  {
    ClassifyIsConsistent(MARKDOWN.view);
    NextFollowsFence(MARKDOWN.step);
    MarksOutsideFence(MARKDOWN.mark);
  }

  lemma {:induction false} ClassifyIsConsistent(view: string -> Kind)
    requires view == Classify
    ensures view("").blank && forall s :: view(s).Consistent()
  {
    forall s: string ensures view(s).Consistent() {
      ClassifyFacts(s);
    }
    assert Blank("");
  }

  lemma {:induction false} NextFollowsFence(step: (State, Kind, Kind, bool) -> State)
    requires step == Next
    ensures forall st, k: Kind, n: Kind, u :: step(st, k, n, u).fence == FenceStep(st.fence, k)
  {
    forall st, k: Kind, n: Kind, u ensures step(st, k, n, u).fence == FenceStep(st.fence, k) {
      MarkdownStep(st, k, n, u, false);
    }
  }

  lemma {:induction false} MarksOutsideFence(mark: (State, Kind, Kind, bool, bool) -> Mark)
    requires mark == MarkOf
    ensures forall st, k: Kind, n: Kind, u, l :: mark(st, k, n, u, l).before ==> st.fence.None?
    ensures forall st, k: Kind, n: Kind, u, l :: mark(st, k, n, u, l).after && !mark(st, k, n, u, l).before ==>
              FenceStep(st.fence, k).None?
  {
    forall st, k: Kind, n: Kind, u, l
      ensures mark(st, k, n, u, l).before ==> st.fence.None?
      ensures mark(st, k, n, u, l).after && !mark(st, k, n, u, l).before ==> FenceStep(st.fence, k).None?
    {
      MarkdownStep(st, k, n, u, l);
    }
  }

  // ---- Structures the cut keeps together ----

  /** A line start nobody accepts is never the cut. */
  lemma {:induction false} UnmarkedIsNoCut(ls: seq<Line>, ms: seq<Mark>, k: nat, b: nat)
    requires 0 < b <= |ls| == |ms| && k <= |ls| && !Marked(ms, |ms|, b)
    ensures CutAt(ls, ms, k) != Offset(ls, b)
  {
    var c := CutIsLastMark(ls, ms, k);
    OffsetGrows(ls, if b < c then b else c, if b < c then c else b);
  }

  /** A cut at the start of line `b` needs the line in front of it or the one
      behind it to allow it. */
  lemma {:induction false} RefusedIsNoCut(m: Machine, ls: seq<Line>, t: Trailing, limit: int, b: nat)
    requires 0 < b <= |ls|
    requires MarkAt(m, ls, t, b - 1).before || !MarkAt(m, ls, t, b - 1).after
    requires b < |ls| ==> !MarkAt(m, ls, t, b).before
    ensures CutOf(m, ls, limit, t) != Offset(ls, b)
  {
    UnmarkedIsNoCut(ls, Marks(m, ls, t), Reach(ls, limit, 0), b);
  }

  /** A heading or lead-in still waits for its content. */
  predicate Pending(st: State) {
    st.headingPending && st.fence.None? && !st.inItem
  }

  /** Blank lines keep a heading waiting, and nothing but a fence may be cut off it. */
  ghost predicate KeepsPending(m: Machine) {
    && (forall st, k: Kind, n: Kind, u :: Pending(st) && k.blank && k.Consistent() ==> Pending(m.step(st, k, n, u)))
    && (forall st, k: Kind, n: Kind, u, l :: Pending(st) && k.blank && k.Consistent() ==> !m.mark(st, k, n, u, l).after)
    && (forall st, k: Kind, n: Kind, u, l :: Pending(st) && k.fence.None? ==> !m.mark(st, k, n, u, l).before)
  }

  lemma {:induction false} StaysPending(m: Machine, ls: seq<Line>, t: Trailing, i: nat, b: nat)
    requires KeepsPending(m) && i < b <= |ls| && Pending(At(m, ls, t, i + 1))
    requires forall j :: i < j < b ==> ls[j].kind.blank && ls[j].kind.Consistent()
    ensures Pending(At(m, ls, t, b))
    decreases b
  {
    if b > i + 1 {
      StaysPending(m, ls, t, i, b - 1);
    }
  }

  lemma {:induction false} PendingIsNotCut(m: Machine, ls: seq<Line>, t: Trailing, limit: int, i: nat, b: nat)
    requires KeepsPending(m) && i < b <= |ls| && Pending(At(m, ls, t, i + 1)) && !MarkAt(m, ls, t, i).after
    requires forall j :: i < j < b ==> ls[j].kind.blank && ls[j].kind.Consistent()
    requires b < |ls| ==> ls[b].kind.fence.None?
    ensures CutOf(m, ls, limit, t) != Offset(ls, b)
  {
    StaysPending(m, ls, t, i, b);
    if b > i + 1 {
      StaysPending(m, ls, t, i, b - 1);
    }
    RefusedIsNoCut(m, ls, t, limit, b);
  }

  lemma {:induction false} MarkdownPending(st: State, k: Kind, next: Kind, unfinished: bool, last: bool)
    ensures Pending(st) && k.blank && k.Consistent() ==> Pending(Next(st, k, next, unfinished))
    ensures Pending(st) && k.blank && k.Consistent() ==> !MarkOf(st, k, next, unfinished, last).after
    ensures Pending(st) && k.fence.None? ==> !MarkOf(st, k, next, unfinished, last).before
    ensures Binds(RoleOf(st, k, next, unfinished)) ==>
              Pending(Next(st, k, next, unfinished)) && !MarkOf(st, k, next, unfinished, last).after
  {
  }

  lemma {:induction false} MarkdownKeepsPending()
    ensures KeepsPending(MARKDOWN)
  {
    forall st, k: Kind, n: Kind, u, l
      ensures Pending(st) && k.blank && k.Consistent() ==> Pending(MARKDOWN.step(st, k, n, u))
      ensures Pending(st) && k.blank && k.Consistent() ==> !MARKDOWN.mark(st, k, n, u, l).after
      ensures Pending(st) && k.fence.None? ==> !MARKDOWN.mark(st, k, n, u, l).before
    {
      MarkdownPending(st, k, n, u, l);
    }
  }

  /** The role line `i` plays in a text. */
  function RoleAt(ls: seq<Line>, t: Trailing, i: nat): Role
    requires i < |ls|
  {
    RoleOf(At(MARKDOWN, ls, t, i), ls[i].kind, NextKind(MARKDOWN, ls, i), i + 1 == |ls|)
  }

  /** No cut between a top-level heading or lead-in line and the next non-blank
      line, unless that line opens a fence. */
  lemma {:induction false} HeadingKeepsItsContent(ls: seq<Line>, t: Trailing, limit: int, i: nat, b: nat)
    requires i < b <= |ls| && Binds(RoleAt(ls, t, i))
    requires forall j :: i < j < b ==> ls[j].kind.blank && ls[j].kind.Consistent()
    requires b < |ls| ==> ls[b].kind.fence.None?
    ensures CutOf(MARKDOWN, ls, limit, t) != Offset(ls, b)
  {
    MarkdownKeepsPending();
    MarkdownPending(At(MARKDOWN, ls, t, i), ls[i].kind, NextKind(MARKDOWN, ls, i), i + 1 == |ls|,
                    Offset(ls, i + 1) >= Total(ls));
    PendingIsNotCut(MARKDOWN, ls, t, limit, i, b);
  }

  lemma {:induction false} PairsKeptTogether(
      st: State, k: Kind, next: Kind, next2: Kind, u: bool, last: bool, last2: bool)
    requires next.Consistent()
    ensures var r := RoleOf(st, k, next, false);
            (r.ItemLead? && next.marker) || (r.HeaderRow? && next.separator) ==>
              && !MarkOf(st, k, next, false, last).after
              && !MarkOf(Next(st, k, next, false), next, next2, u, last2).before
  {
  }

  /** After a line of kind `k` in structure `st` no cut is allowed before a line of
      kind `next`. */
  ghost predicate Refuses(m: Machine, st: State, k: Kind, next: Kind) {
    && (forall last :: !m.mark(st, k, next, false, last).after)
    && (forall n: Kind, u, last :: !m.mark(m.step(st, k, next, false), next, n, u, last).before)
  }

  lemma {:induction false} NeighboursRefuse(m: Machine, ls: seq<Line>, t: Trailing, limit: int, i: nat)
    requires i + 1 < |ls| && Refuses(m, At(m, ls, t, i), ls[i].kind, ls[i + 1].kind)
    ensures CutOf(m, ls, limit, t) != Offset(ls, i + 1)
  {
    RefusedIsNoCut(m, ls, t, limit, i + 1);
  }

  lemma {:induction false} MarkdownRefuses(st: State, k: Kind, next: Kind)
    requires next.Consistent()
    requires var r := RoleOf(st, k, next, false);
             (r.ItemLead? && next.marker) || (r.HeaderRow? && next.separator)
    ensures Refuses(MARKDOWN, st, k, next)
  {
    forall last ensures !MARKDOWN.mark(st, k, next, false, last).after {
      PairsKeptTogether(st, k, next, next, false, last, last);
    }
    forall n: Kind, u, last
      ensures !MARKDOWN.mark(MARKDOWN.step(st, k, next, false), next, n, u, last).before
    {
      PairsKeptTogether(st, k, next, n, u, last, last);
    }
  }

  /** No cut between a lead-in or title line inside a list item and a list marker
      right behind it, and none between a table's header row and its separator. */
  lemma {:induction false} LeadAndHeaderKeepNextLine(ls: seq<Line>, t: Trailing, limit: int, i: nat)
    requires i + 1 < |ls| && ls[i + 1].kind.Consistent()
    requires (RoleAt(ls, t, i).ItemLead? && ls[i + 1].kind.marker) ||
             (RoleAt(ls, t, i).HeaderRow? && ls[i + 1].kind.separator)
    ensures CutOf(MARKDOWN, ls, limit, t) != Offset(ls, i + 1)
  {
    MarkdownRefuses(At(MARKDOWN, ls, t, i), ls[i].kind, ls[i + 1].kind);
    NeighboursRefuse(MARKDOWN, ls, t, limit, i);
  }

  /** The roles a URL or annotation may be cut off from. */
  predicate ClosedStructure(r: Role) {
    r.FenceClose? || r.DataRow? || r.ItemBlank? || r.ItemNote? || r.TopNote?
  }

  lemma {:induction false} EntryMark(st: State, k: Kind, next: Kind, u: bool, last: bool)
    ensures next.url || next.note ==>
              (MarkOf(st, k, next, u, last).after ==> ClosedStructure(RoleOf(st, k, next, u)))
    ensures k.fence.None? && !k.marker ==> !MarkOf(st, k, next, u, last).before
  {
  }

  /** A bare URL or annotation is cut off only from a closed structure: a closed
      fence, a finished table row, an ended list item or an earlier annotation. */
  lemma {:induction false} EntryStaysTogether(ls: seq<Line>, t: Trailing, limit: int, b: nat)
    requires 0 < b < |ls| && CutOf(MARKDOWN, ls, limit, t) == Offset(ls, b)
    requires ls[b].kind.url || ls[b].kind.note
    requires ls[b].kind.fence.None? && !ls[b].kind.marker
    ensures ClosedStructure(RoleAt(ls, t, b - 1))
  {
    EntryMark(At(MARKDOWN, ls, t, b - 1), ls[b - 1].kind, ls[b].kind, false, Offset(ls, b) >= Total(ls));
    EntryMark(At(MARKDOWN, ls, t, b), ls[b].kind, NextKind(MARKDOWN, ls, b), b + 1 == |ls|,
              Offset(ls, b + 1) >= Total(ls));
    if !MarkAt(MARKDOWN, ls, t, b - 1).after {
      RefusedIsNoCut(MARKDOWN, ls, t, limit, b);
    }
  }

  lemma {:induction false} LastLineMark(st: State, k: Kind, next: Kind)
    ensures var x, r := MarkOf(st, k, next, true, true), RoleOf(st, k, next, true);
            !x.before && x.after <==> r.FenceClose? || r.DataRow?
  {
  }

  lemma {:induction false} CutPastLastLine(m: Machine, ls: seq<Line>, t: Trailing, limit: int)
    requires ls != []
    ensures CutOf(m, ls, limit, t) <= Total(ls) + 1
    ensures CutOf(m, ls, limit, t) == Total(ls) + 1 <==>
              Reach(ls, limit, 0) == |ls| && !MarkAt(m, ls, t, |ls| - 1).before && MarkAt(m, ls, t, |ls| - 1).after
  {
    var n := |ls|;
    var ms := Marks(m, ls, t);
    var k := Reach(ls, limit, 0);
    var b := CutIsLastMark(ls, ms, k);
    assert Offset(ls, n) == Total(ls) + 1 && ms[n - 1] == MarkAt(m, ls, t, n - 1);
    OffsetGrows(ls, b, n);
  }

  /** The cut may lie one past the end of the text, and exactly when its last,
      unfinished line was reached and closes a fence or is a row inside a table. */
  lemma {:induction false} CutBeyondTheEnd(text: string, limit: int, t: Trailing)
    ensures var ls := Scan(MARKDOWN.view, Lines(text));
            var r := RoleAt(ls, t, |ls| - 1);
            && SafeCut(MARKDOWN, text, limit, t) <= |text| + 1
            && (SafeCut(MARKDOWN, text, limit, t) == |text| + 1 <==>
                Reach(ls, limit, 0) == |ls| && (r.FenceClose? || r.DataRow?))
  {
    var ls := Scan(MARKDOWN.view, Lines(text));
    var n := |ls|;
    TextLength(MARKDOWN, text);
    CutPastLastLine(MARKDOWN, ls, t, limit);
    LastLineMark(At(MARKDOWN, ls, t, n - 1), ls[n - 1].kind, NextKind(MARKDOWN, ls, n - 1));
  }

  /** Cuts past the end never follow a blank last line. */
  ghost predicate EndsInLine(m: Machine) {
    forall st, k: Kind, n: Kind :: k.blank && k.Consistent() ==> !m.mark(st, k, n, true, true).after
  }

  lemma {:induction false} BlankLastLine(st: State, k: Kind, next: Kind)
    ensures k.blank && k.Consistent() ==> !MarkOf(st, k, next, true, true).after
  {
  }

  lemma {:induction false} MarkdownEndsInLine()
    ensures EndsInLine(MARKDOWN)
  {
    forall st, k: Kind, n: Kind | k.blank && k.Consistent() ensures !MARKDOWN.mark(st, k, n, true, true).after {
      BlankLastLine(st, k, n);
    }
  }

  /** A text that is cut past its end does not end in a newline. */
  lemma {:induction false} CutPastEndIsUnfinished(m: Machine, text: string, limit: int, t: Trailing)
    requires Sound(m) && EndsInLine(m) && SafeCut(m, text, limit, t) > |text|
    ensures text != "" && text[|text| - 1] != '\n'
  {
    var ls := Scan(m.view, Lines(text));
    TextLength(m, text);
    CutPastLastLine(m, ls, t, limit);
    assert MarkAt(m, ls, t, |ls| - 1).after && Offset(ls, |ls|) >= Total(ls);
    assert m.view("").Consistent();
    if text == "" || text[|text| - 1] == '\n' {
      LastLineEmpty(text);
    }
  }

  lemma {:induction false} LastLineEmpty(text: string)
    requires text == "" || text[|text| - 1] == '\n'
    ensures Lines(text)[|Lines(text)| - 1] == ""
  {
    if text != "" {
      var c := text[..|text| - 1];
      assert c + ['\n'] + "" == text;
      SplitAround(c, '\n', "");
    }
  }

  lemma {:induction false} TwoLineFence(m: Machine, first: string, second: string)
    requires Sound(m) && '\n' !in first && '\n' !in second
    requires m.view(first).fence.Some?
    ensures TrailingOf(m, first + ['\n'] + second).fence == FenceStep(m.view(first).fence, m.view(second))
  {
    SplitAround(first, '\n', second);
    SplitPlain(first, '\n');
    SplitPlain(second, '\n');
    FenceOfText(m, first + ['\n'] + second);
    var a, b := Line(m.view(first), |first|), Line(m.view(second), |second|);
    assert Scan(m.view, [first, second]) == [a, b];
    assert [a, b][..1] == [a] && [a][..0] == [];
    TrailStepKeepsFence(START, a.kind);
    assert TrailFold(START, [a]) == TrailStep(START, a.kind);
    TrailStepKeepsFence(TrailFold(START, [a]), b.kind);
    assert TrailFold(START, [a, b]) == TrailStep(TrailFold(START, [a]), b.kind);
  }
}
