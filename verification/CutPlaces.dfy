/** Where a growing text may be cut, said on its lines alone: which fence, list item or
    table a line stands in, which heading it is bound to, and what that means for the cut. */
module CutPlaces {
  import opened Text
  import opened LineKinds
  import opened StreamCut

  predicate AllConsistent(ls: seq<Line>) {
    forall i :: 0 <= i < |ls| ==> ls[i].kind.Consistent()
  }

  /** The rules in use, whatever classifies the lines. */
  ghost predicate Ruled(m: Machine) {
    Sound(m) && m.step == Next && m.mark == MarkOf
  }

  // ---- Fences ----

  /** Line `i` stands in the fence that marker `f` opened: a line opened it, or it was open
      at the start, and no line since has closed it. */
  ghost predicate InFence(ls: seq<Line>, t: Trailing, i: nat, f: Marker)
    requires i <= |ls|
    decreases i
  {
    || (t.fence == Some(f) && NoneCloses(ls, 0, i, f))
    || exists j :: 0 <= j < i && ls[j].kind.fence == Some(f) && (forall g :: !InFence(ls, t, j, g))
                   && NoneCloses(ls, j + 1, i, f)
  }

  predicate NoneCloses(ls: seq<Line>, from: nat, to: nat, f: Marker)
    requires to <= |ls|
  {
    forall j :: from <= j < to ==> !ls[j].kind.Closes(f)
  }

  ghost predicate Fenced(ls: seq<Line>, t: Trailing, i: nat)
    requires i <= |ls|
  {
    exists f :: InFence(ls, t, i, f)
  }

  lemma {:induction false} NoneClosesMore(ls: seq<Line>, from: nat, to: nat, f: Marker)
    requires from <= to < |ls|
    ensures NoneCloses(ls, from, to + 1, f) <==> NoneCloses(ls, from, to, f) && !ls[to].kind.Closes(f)
  {
  }

  /** A line opens a fence, closes the one it stands in, or leaves it as it is. */
  lemma {:induction false} OneMoreFenced(ls: seq<Line>, t: Trailing, i: nat, was: Option<Marker>, f: Marker)
    requires i < |ls| && forall g :: InFence(ls, t, i, g) <==> was == Some(g)
    ensures InFence(ls, t, i + 1, f) <==> FenceStep(was, ls[i].kind) == Some(f)
  {
    NoneClosesMore(ls, 0, i, f);
    assert InFence(ls, t, i, f) <==> was == Some(f);
    if InFence(ls, t, i + 1, f) {
      StillFenced(ls, t, i, f);
    } else if was == Some(f) && !ls[i].kind.Closes(f) {
      StaysFenced(ls, t, i, f);
    } else if was == None && ls[i].kind.fence == Some(f) {
      assert forall g :: !InFence(ls, t, i, g);
      assert NoneCloses(ls, i + 1, i + 1, f);
    }
  }

  lemma {:induction false} StillFenced(ls: seq<Line>, t: Trailing, i: nat, f: Marker)
    requires i < |ls| && InFence(ls, t, i + 1, f)
    ensures (InFence(ls, t, i, f) && !ls[i].kind.Closes(f)) ||
            (ls[i].kind.fence == Some(f) && forall g :: !InFence(ls, t, i, g))
  {
    if t.fence == Some(f) && NoneCloses(ls, 0, i + 1, f) {
      NoneClosesMore(ls, 0, i, f);
    } else {
      var j :| 0 <= j < i + 1 && ls[j].kind.fence == Some(f) && (forall g :: !InFence(ls, t, j, g))
               && NoneCloses(ls, j + 1, i + 1, f);
      if j < i { NoneClosesMore(ls, j + 1, i, f); }
    }
  }

  lemma {:induction false} StaysFenced(ls: seq<Line>, t: Trailing, i: nat, f: Marker)
    requires i < |ls| && InFence(ls, t, i, f) && !ls[i].kind.Closes(f)
    ensures InFence(ls, t, i + 1, f)
  {
    if t.fence == Some(f) && NoneCloses(ls, 0, i, f) {
      NoneClosesMore(ls, 0, i, f);
    } else {
      var j :| 0 <= j < i && ls[j].kind.fence == Some(f) && (forall g :: !InFence(ls, t, j, g))
               && NoneCloses(ls, j + 1, i, f);
      NoneClosesMore(ls, j + 1, i, f);
    }
  }

  /** The fence open in front of line `i`, as the scan computes it. */
  lemma {:induction false} FenceIs(ls: seq<Line>, t: Trailing, i: nat)
    requires i <= |ls|
    ensures forall f :: InFence(ls, t, i, f) <==> TrailFold(t, ls[..i]).fence == Some(f)
  {
    if i == 0 {
      assert ls[..0] == [];
    } else {
      FenceIs(ls, t, i - 1);
      assert ls[..i][..i - 1] == ls[..i - 1];
      var was := TrailFold(t, ls[..i - 1]).fence;
      TrailStepKeepsFence(TrailFold(t, ls[..i - 1]), ls[i - 1].kind);
      forall f ensures InFence(ls, t, i, f) <==> FenceStep(was, ls[i - 1].kind) == Some(f) {
        OneMoreFenced(ls, t, i - 1, was, f);
      }
    }
  }

  // ---- Conditions that hold until something ends them ----

  /** Something has started the condition, or it held at the start, and nothing since has
      ended it. */
  ghost predicate Held(start: bool, on: nat -> bool, off: nat -> bool, i: nat) {
    || (start && forall x :: 0 <= x < i ==> !off(x))
    || exists j :: 0 <= j < i && on(j) && forall x :: j < x < i ==> !off(x)
  }

  lemma {:induction false} HeldMore(start: bool, on: nat -> bool, off: nat -> bool, i: nat)
    ensures Held(start, on, off, i + 1) <==> on(i) || (Held(start, on, off, i) && !off(i))
  {
    if Held(start, on, off, i) && !off(i) {
      if !(start && forall x :: 0 <= x < i ==> !off(x)) {
        var j :| 0 <= j < i && on(j) && forall x :: j < x < i ==> !off(x);
        assert forall x :: j < x < i + 1 ==> !off(x);
      }
    }
  }

  /** Outside every fence, and no fence line. */
  ghost predicate Plain(ls: seq<Line>, t: Trailing, i: nat) {
    i < |ls| && ls[i].kind.fence.None? && !Fenced(ls, t, i)
  }

  ghost function ItemStarts(ls: seq<Line>, t: Trailing): nat -> bool {
    (j: nat) => Plain(ls, t, j) && ls[j].kind.marker
  }

  ghost function ItemEnds(ls: seq<Line>, t: Trailing): nat -> bool {
    (j: nat) => Plain(ls, t, j) && (ls[j].kind.row || ls[j].kind.blank || ls[j].kind.note)
  }

  /** Line `i` stands in a list item: after its marker no table row, blank line or
      annotation has come. */
  ghost predicate InItem(ls: seq<Line>, t: Trailing, i: nat) {
    Held(t.inItem, ItemStarts(ls, t), ItemEnds(ls, t), i)
  }

  /** Outside fences, tables rows and list items. */
  ghost predicate TopLine(ls: seq<Line>, t: Trailing, i: nat) {
    Plain(ls, t, i) && !ls[i].kind.row && !ls[i].kind.pipe && !InItem(ls, t, i)
  }

  ghost function TableStarts(ls: seq<Line>, t: Trailing): nat -> bool {
    (j: nat) => Plain(ls, t, j) && ls[j].kind.separator
  }

  ghost function TableEnds(ls: seq<Line>, t: Trailing): nat -> bool {
    (j: nat) => TopLine(ls, t, j)
  }

  /** A row at line `i` belongs to a table: after its separator no line of text has come. */
  ghost predicate InTable(ls: seq<Line>, t: Trailing, i: nat) {
    Held(t.inTable, TableStarts(ls, t), TableEnds(ls, t), i)
  }

  /** A title or lead-in inside a list item. */
  ghost predicate ItemLead(ls: seq<Line>, t: Trailing, i: nat) {
    Plain(ls, t, i) && InItem(ls, t, i) && !ls[i].kind.marker && !ls[i].kind.note
    && (ls[i].kind.leadIn || ls[i].kind.heading || ls[i].kind.title)
  }

  ghost predicate ItemGoesOn(ls: seq<Line>, t: Trailing, i: nat) {
    Plain(ls, t, i) && InItem(ls, t, i) && (ls[i].kind.marker || ls[i].kind.blank || ls[i].kind.note)
  }

  /** Such a line waits for the marker behind it. */
  ghost predicate LeadWaits(ls: seq<Line>, t: Trailing, i: nat) {
    Held(false, (j: nat) => ItemLead(ls, t, j), (j: nat) => ItemGoesOn(ls, t, j), i)
  }

  // ---- Headings ----

  /** What follows the line, if it has arrived. */
  function After(ls: seq<Line>, i: nat): Option<Kind> {
    if i + 1 < |ls| then Some(ls[i + 1].kind) else None
  }

  predicate BeforeEntry(ls: seq<Line>, i: nat) {
    After(ls, i).Some? && (After(ls, i).value.note || After(ls, i).value.url)
  }

  /** A heading or lead-in outside everything else. A short title is a heading only where
      a block may start. */
  ghost predicate Heads(ls: seq<Line>, t: Trailing, i: nat)
    requires i < |ls|
    decreases i, 2
  {
    var k := ls[i].kind;
    TopLine(ls, t, i) && !k.marker && !k.url && !k.note
    && (k.heading || k.leadIn || (k.title && BlockStart(ls, t, i)))
  }

  /** Line `i` belongs to a heading: right behind it, or behind blank lines that do. */
  ghost predicate Bound(ls: seq<Line>, t: Trailing, i: nat)
    requires i <= |ls|
    decreases i, 0
  {
    i > 0 && (Heads(ls, t, i - 1) || (ls[i - 1].kind.blank && Bound(ls, t, i - 1)))
  }

  /** A block may start with line `i`. */
  ghost predicate BlockStart(ls: seq<Line>, t: Trailing, i: nat)
    requires i <= |ls|
    decreases i, 1
  {
    i == 0 || EndsBlockAt(ls, t, i - 1) || (LeavesBlock(ls, t, i - 1) && BlockStart(ls, t, i - 1))
  }

  /** Behind this line a new block may start. */
  ghost predicate EndsBlockAt(ls: seq<Line>, t: Trailing, i: nat)
    requires i < |ls|
    decreases i, 4
  {
    var k := ls[i].kind;
    || (k.fence.Some? && (!Fenced(ls, t, i) || ClosesAt(ls, t, i)))
    || (Plain(ls, t, i) && k.separator)
    || ItemGoesOn(ls, t, i)
    || (TopLine(ls, t, i) && (k.marker || (k.note && !k.url)))
    || (Body(ls, t, i) && !(k.blank && Bound(ls, t, i)))
  }

  /** This line does not matter for whether a block may start behind it. */
  ghost predicate LeavesBlock(ls: seq<Line>, t: Trailing, i: nat)
    requires i < |ls|
    decreases i, 4
  {
    var k := ls[i].kind;
    || (k.fence.Some? && Fenced(ls, t, i) && !ClosesAt(ls, t, i))
    || (TopLine(ls, t, i) && !k.marker && !k.url && !k.note && k.leadIn && !k.heading && !k.title)
    || (Body(ls, t, i) && k.blank)
  }

  ghost predicate ClosesAt(ls: seq<Line>, t: Trailing, i: nat)
    requires i < |ls|
  {
    exists f :: InFence(ls, t, i, f) && ls[i].kind.Closes(f)
  }

  /** Text or a blank line, of no special kind and not in front of a URL or annotation. */
  ghost predicate Body(ls: seq<Line>, t: Trailing, i: nat)
    requires i < |ls|
    decreases i, 3
  {
    var k := ls[i].kind;
    TopLine(ls, t, i) && !k.marker && !k.url && !k.note && !Heads(ls, t, i) && !BeforeEntry(ls, i)
  }

  // ---- The scan keeps track of just that ----

  /** What one step makes of each part of the state. */
  lemma {:induction false} StepParts(st: State, k: Kind, next: Kind)
    requires k.Consistent()
    ensures var x, plain := Next(st, k, next, false), k.fence.None? && st.fence.None?;
            var top := plain && !k.row && !k.pipe && !st.inItem;
            && (x.inItem <==> (plain && k.marker) || (st.inItem && !(plain && (k.row || k.blank || k.note))))
            && (x.inTable <==> (plain && k.separator) || (st.inTable && !top))
            && (x.itemBind <==>
                  || (plain && st.inItem && !k.marker && !k.note && (k.leadIn || k.heading || k.title))
                  || (st.itemBind && !(plain && st.inItem && (k.marker || k.blank || k.note))))
  {
  }

  predicate HeadsIn(st: State, k: Kind) {
    k.fence.None? && st.fence.None? && !k.row && !k.pipe && !st.inItem && !k.marker && !k.url && !k.note
    && (k.heading || k.leadIn || (k.title && st.prevBoundary))
  }

  lemma {:induction false} StepHeads(st: State, k: Kind, next: Kind)
    requires k.Consistent()
    ensures Next(st, k, next, false).headingPending <==> HeadsIn(st, k) || (k.blank && st.headingPending)
  {
  }

  predicate BodyIn(st: State, k: Kind, next: Kind) {
    k.fence.None? && st.fence.None? && !k.row && !k.pipe && !st.inItem && !k.marker && !k.url && !k.note
    && !HeadsIn(st, k) && !next.note && !next.url
  }

  lemma {:induction false} StepBlocks(st: State, k: Kind, next: Kind)
    requires k.Consistent()
    ensures var plain := k.fence.None? && st.fence.None?;
            var top := plain && !k.row && !k.pipe && !st.inItem;
            var closes := st.fence.Some? && k.Closes(st.fence.value);
            Next(st, k, next, false).prevBoundary <==>
              || (k.fence.Some? && (st.fence.None? || closes))
              || (plain && k.separator)
              || (plain && st.inItem && (k.marker || k.blank || k.note))
              || (top && (k.marker || (k.note && !k.url)))
              || (BodyIn(st, k, next) && !(k.blank && st.headingPending))
              || (st.prevBoundary &&
                    (|| (k.fence.Some? && st.fence.Some? && !closes)
                     || (top && !k.marker && !k.url && !k.note && k.leadIn && !k.heading && !k.title)
                     || (BodyIn(st, k, next) && k.blank)))
  {
  }

  /** Where a line lets the cut fall. */
  lemma {:induction false} StepMarks(st: State, k: Kind, next: Kind, unfinished: bool, last: bool)
    requires k.Consistent()
    ensures var plain := k.fence.None? && st.fence.None?;
            var top := plain && !k.row && !k.pipe && !st.inItem;
            var x := MarkOf(st, k, next, unfinished, last);
            && (x.before <==>
                  || (k.fence.Some? && st.fence.None?)
                  || (plain && k.marker && if st.inItem then !st.itemBind else !st.headingPending))
            && (x.after <==>
                  || (k.fence.Some? && st.fence.Some? && k.Closes(st.fence.value))
                  || (plain && k.row && !k.separator && st.inTable)
                  || (plain && st.inItem && k.blank && !unfinished)
                  || (plain && st.inItem && k.note && !unfinished)
                  || (top && k.note && !k.url && !unfinished)
                  || (BodyIn(st, k, next) && k.blank && !st.headingPending && !last)
                  || (BodyIn(st, k, next) && !k.blank && !last && !next.leadIn))
  {
  }

  /** The state in front of line `i` says where that line stands. */
  ghost predicate Tells(st: State, ls: seq<Line>, t: Trailing, i: nat)
    requires i <= |ls|
  {
    && (forall f :: InFence(ls, t, i, f) <==> st.fence == Some(f))
    && (st.inItem <==> InItem(ls, t, i)) && (st.inTable <==> InTable(ls, t, i))
    && (st.itemBind <==> LeadWaits(ls, t, i))
    && (st.headingPending <==> Bound(ls, t, i)) && (st.prevBoundary <==> BlockStart(ls, t, i))
  }

  lemma {:induction false} TellsFenced(st: State, ls: seq<Line>, t: Trailing, i: nat)
    requires i <= |ls| && forall f :: InFence(ls, t, i, f) <==> st.fence == Some(f)
    ensures st.fence.Some? <==> Fenced(ls, t, i)
    ensures i < |ls| ==> (ClosesAt(ls, t, i) <==> st.fence.Some? && ls[i].kind.Closes(st.fence.value))
    ensures i < |ls| ==> (Plain(ls, t, i) <==> ls[i].kind.fence.None? && st.fence.None?)
  {
    if st.fence.Some? { assert InFence(ls, t, i, st.fence.value); }
  }

  /** The heading `j`, and nothing but blank lines behind it. */
  ghost predicate BoundTo(ls: seq<Line>, t: Trailing, i: nat, j: nat)
    requires i <= |ls|
  {
    j < i && Heads(ls, t, j) && forall x :: j < x < i ==> ls[x].kind.blank
  }

  /** The last line before that is not blank is the heading. */
  lemma {:induction false} BoundByHeading(ls: seq<Line>, t: Trailing, i: nat)
    requires i <= |ls|
    ensures Bound(ls, t, i) <==> exists j :: BoundTo(ls, t, i, j)
  {
    if i > 0 {
      BoundByHeading(ls, t, i - 1);
      assert Heads(ls, t, i - 1) ==> BoundTo(ls, t, i, i - 1);
      if ls[i - 1].kind.blank && Bound(ls, t, i - 1) {
        var j :| BoundTo(ls, t, i - 1, j);
        assert BoundTo(ls, t, i, j);
      }
      if j: nat :| BoundTo(ls, t, i, j) {
        if j < i - 1 {
          assert ls[i - 1].kind.blank && BoundTo(ls, t, i - 1, j);
        }
      }
    }
  }

  lemma {:induction false} TellsItem(st: State, ls: seq<Line>, t: Trailing, i: nat, next: Kind)
    requires i < |ls| && ls[i].kind.Consistent() && Tells(st, ls, t, i)
    ensures var x := Next(st, ls[i].kind, next, false);
            (x.inItem <==> InItem(ls, t, i + 1)) && (x.inTable <==> InTable(ls, t, i + 1))
  {
    TellsFenced(st, ls, t, i);
    StepParts(st, ls[i].kind, next);
    HeldMore(t.inItem, ItemStarts(ls, t), ItemEnds(ls, t), i);
    HeldMore(t.inTable, TableStarts(ls, t), TableEnds(ls, t), i);
  }

  lemma {:induction false} TellsLead(st: State, ls: seq<Line>, t: Trailing, i: nat, next: Kind)
    requires i < |ls| && ls[i].kind.Consistent() && Tells(st, ls, t, i)
    ensures Next(st, ls[i].kind, next, false).itemBind <==> LeadWaits(ls, t, i + 1)
  {
    TellsFenced(st, ls, t, i);
    StepParts(st, ls[i].kind, next);
    HeldMore(false, (j: nat) => ItemLead(ls, t, j), (j: nat) => ItemGoesOn(ls, t, j), i);
  }

  lemma {:induction false} TellsHeads(st: State, ls: seq<Line>, t: Trailing, i: nat, next: Kind)
    requires i < |ls| && Tells(st, ls, t, i) && (next.note || next.url <==> BeforeEntry(ls, i))
    ensures Heads(ls, t, i) <==> HeadsIn(st, ls[i].kind)
    ensures TopLine(ls, t, i) <==>
            ls[i].kind.fence.None? && st.fence.None? && !ls[i].kind.row && !ls[i].kind.pipe && !st.inItem
    ensures Body(ls, t, i) <==> BodyIn(st, ls[i].kind, next)
  {
    TellsFenced(st, ls, t, i);
  }

  lemma {:induction false} TellsBlocks(st: State, ls: seq<Line>, t: Trailing, i: nat, next: Kind)
    requires i < |ls| && ls[i].kind.Consistent() && Tells(st, ls, t, i)
    requires next.note || next.url <==> BeforeEntry(ls, i)
    ensures var x := Next(st, ls[i].kind, next, false);
            (x.headingPending <==> Bound(ls, t, i + 1)) && (x.prevBoundary <==> BlockStart(ls, t, i + 1))
  {
    TellsFenced(st, ls, t, i);
    TellsHeads(st, ls, t, i, next);
    StepHeads(st, ls[i].kind, next);
    StepBlocks(st, ls[i].kind, next);
  }

  lemma {:induction false} FirstTells(ls: seq<Line>, t: Trailing)
    ensures Tells(Initial(t), ls, t, 0)
  {
    assert forall f :: InFence(ls, t, 0, f) <==> t.fence == Some(f);
  }

  lemma {:induction false} FenceTells(m: Machine, ls: seq<Line>, t: Trailing, i: nat)
    requires Ruled(m) && i <= |ls|
    ensures forall f :: InFence(ls, t, i, f) <==> At(m, ls, t, i).fence == Some(f)
  {
    FenceIs(ls, t, i);
    FenceFollowsLines(m, ls, t, i);
  }

  lemma {:induction false} EntryBehind(m: Machine, ls: seq<Line>, i: nat)
    requires Ruled(m) && i < |ls|
    ensures NextKind(m, ls, i).note || NextKind(m, ls, i).url <==> BeforeEntry(ls, i)
    ensures NextKind(m, ls, i).leadIn <==> After(ls, i).Some? && After(ls, i).value.leadIn
  {
    assert m.view("").Consistent();
  }

  /** What the scan keeps track of is where each line stands. */
  lemma {:induction false} StateTells(m: Machine, ls: seq<Line>, t: Trailing, i: nat)
    requires Ruled(m) && AllConsistent(ls) && i < |ls|
    ensures Tells(At(m, ls, t, i), ls, t, i)
  {
    TellsAtStart(m, ls, t);
    TellingGoesOn(m, ls, t);
    UpTo(Telling(m, ls, t), i);
    assert Telling(m, ls, t)(i);
  }

  ghost predicate TellsAt(m: Machine, ls: seq<Line>, t: Trailing, i: nat)
    requires i <= |ls|
  {
    Tells(At(m, ls, t, i), ls, t, i)
  }

  lemma {:induction false} TellsAtStart(m: Machine, ls: seq<Line>, t: Trailing)
    ensures TellsAt(m, ls, t, 0)
  {
    FirstTells(ls, t);
  }

  lemma {:induction false} TellsOn(m: Machine, ls: seq<Line>, t: Trailing, i: nat)
    requires Ruled(m) && AllConsistent(ls) && i + 1 < |ls| && TellsAt(m, ls, t, i)
    ensures TellsAt(m, ls, t, i + 1)
  {
    OneMoreTells(m, ls, t, i);
  }

  ghost function Telling(m: Machine, ls: seq<Line>, t: Trailing): nat -> bool {
    (j: nat) => j < |ls| && TellsAt(m, ls, t, j)
  }

  lemma {:induction false} TellingGoesOn(m: Machine, ls: seq<Line>, t: Trailing)
    requires Ruled(m) && AllConsistent(ls)
    ensures forall j: nat :: j + 1 < |ls| && Telling(m, ls, t)(j) ==> Telling(m, ls, t)(j + 1)
  {
    forall j: nat | j + 1 < |ls| && Telling(m, ls, t)(j) ensures Telling(m, ls, t)(j + 1) {
      TellsOn(m, ls, t, j);
    }
  }

  lemma {:induction false} UpTo(p: nat -> bool, n: nat)
    requires p(0) && forall j: nat :: j < n && p(j) ==> p(j + 1)
    ensures p(n)
  {
    if n > 0 { UpTo(p, n - 1); }
  }

  lemma {:induction false} OneMoreTells(m: Machine, ls: seq<Line>, t: Trailing, i: nat)
    requires Ruled(m) && AllConsistent(ls) && i + 1 < |ls| && Tells(At(m, ls, t, i), ls, t, i)
    ensures Tells(At(m, ls, t, i + 1), ls, t, i + 1)
  {
    var st, next := At(m, ls, t, i), NextKind(m, ls, i);
    assert At(m, ls, t, i + 1) == Next(st, ls[i].kind, next, false);
    EntryBehind(m, ls, i);
    FenceTells(m, ls, t, i + 1);
    StepTells(st, ls, t, i, next);
  }

  lemma {:induction false} StepTells(st: State, ls: seq<Line>, t: Trailing, i: nat, next: Kind)
    requires i < |ls| && ls[i].kind.Consistent() && Tells(st, ls, t, i)
    requires next.note || next.url <==> BeforeEntry(ls, i)
    requires forall f :: InFence(ls, t, i + 1, f) <==> Next(st, ls[i].kind, next, false).fence == Some(f)
    ensures Tells(Next(st, ls[i].kind, next, false), ls, t, i + 1)
  {
    TellsItem(st, ls, t, i, next);
    TellsLead(st, ls, t, i, next);
    TellsBlocks(st, ls, t, i, next);
  }

  // ---- Where the cut may fall, and where it falls ----

  /** The start of line `i` may be cut: a fence opens, or an item begins that is bound to
      no heading in front of it. */
  ghost predicate CutBefore(ls: seq<Line>, t: Trailing, i: nat)
    requires i < |ls|
  {
    var k := ls[i].kind;
    || (k.fence.Some? && !Fenced(ls, t, i))
    || (Plain(ls, t, i) && k.marker && if InItem(ls, t, i) then !LeadWaits(ls, t, i) else !Bound(ls, t, i))
  }

  /** The end of line `i` may be cut: a fence closes, a table row or an item ends, or text
      ends that waits for nothing behind it. */
  ghost predicate CutBehind(ls: seq<Line>, t: Trailing, i: nat)
    requires i < |ls|
  {
    var k, finished := ls[i].kind, i + 1 < |ls|;
    var more := Offset(ls, i + 1) < Total(ls);
    || ClosesAt(ls, t, i)
    || (Plain(ls, t, i) && k.row && !k.separator && InTable(ls, t, i))
    || (Plain(ls, t, i) && InItem(ls, t, i) && (k.blank || k.note) && finished)
    || (TopLine(ls, t, i) && k.note && !k.url && finished)
    || (Body(ls, t, i) && k.blank && !Bound(ls, t, i) && more)
    || (Body(ls, t, i) && !k.blank && more && !(finished && ls[i + 1].kind.leadIn))
  }

  lemma {:induction false} MarkTells(m: Machine, ls: seq<Line>, t: Trailing, i: nat)
    requires Ruled(m) && AllConsistent(ls) && i < |ls|
    ensures MarkAt(m, ls, t, i).before <==> CutBefore(ls, t, i)
    ensures MarkAt(m, ls, t, i).after <==> CutBehind(ls, t, i)
  {
    var st, next := At(m, ls, t, i), NextKind(m, ls, i);
    StateTells(m, ls, t, i);
    EntryBehind(m, ls, i);
    TellsFenced(st, ls, t, i);
    TellsHeads(st, ls, t, i, next);
    StepMarks(st, ls[i].kind, next, i + 1 == |ls|, Offset(ls, i + 1) >= Total(ls));
  }

  /** The start of line `b` is a safe cut, as far as the first `k` lines tell. */
  ghost predicate SafeAt(ls: seq<Line>, t: Trailing, k: nat, b: nat)
    requires b <= k <= |ls|
  {
    (b < k && CutBefore(ls, t, b)) || (b > 0 && !CutBefore(ls, t, b - 1) && CutBehind(ls, t, b - 1))
  }

  lemma {:induction false} SafeIsMarked(m: Machine, ls: seq<Line>, t: Trailing, k: nat, b: nat)
    requires Ruled(m) && AllConsistent(ls) && b <= k <= |ls|
    ensures SafeAt(ls, t, k, b) <==> Marked(Marks(m, ls, t), k, b)
  {
    if b < k {
      MarkTells(m, ls, t, b);
      MarkLookup(m, ls, t, b);
    }
    if b > 0 {
      MarkTells(m, ls, t, b - 1);
      MarkLookup(m, ls, t, b - 1);
    }
  }

  /** The cut is the last safe one in reach, or none. */
  lemma {:induction false} CutIsLastSafe(m: Machine, ls: seq<Line>, limit: int, t: Trailing) returns (b: nat)
    requires Ruled(m) && AllConsistent(ls)
    ensures var k := Reach(ls, limit, 0);
            && b <= k && CutOf(m, ls, limit, t) == Offset(ls, b)
            && (b > 0 ==> SafeAt(ls, t, k, b))
            && forall c :: b < c <= k ==> !SafeAt(ls, t, k, c)
  {
    var k := Reach(ls, limit, 0);
    b := CutIsLastMark(ls, Marks(m, ls, t), k);
    forall c | 0 <= c <= k ensures SafeAt(ls, t, k, c) <==> Marked(Marks(m, ls, t), k, c) {
      SafeIsMarked(m, ls, t, k, c);
    }
  }

  /** So a safe cut in reach is never passed over. */
  lemma {:induction false} SafeIsReached(m: Machine, ls: seq<Line>, limit: int, t: Trailing, b: nat)
    requires Ruled(m) && AllConsistent(ls) && b <= Reach(ls, limit, 0) && SafeAt(ls, t, Reach(ls, limit, 0), b)
    ensures CutOf(m, ls, limit, t) >= Offset(ls, b)
  {
    var c := CutIsLastSafe(m, ls, limit, t);
    OffsetGrows(ls, b, c);
  }

  lemma {:induction false} InReach(ls: seq<Line>, limit: int, i: nat)
    requires i < |ls| && Offset(ls, i) < limit
    ensures i + 1 <= Reach(ls, limit, 0)
  {
    var n := Reach(ls, limit, 0);
    if n <= i { OffsetGrows(ls, n, i); }
  }

  lemma {:induction false} UnsafeIsNoCut(m: Machine, ls: seq<Line>, limit: int, t: Trailing, b: nat)
    requires Ruled(m) && AllConsistent(ls) && 0 < b <= |ls| && !SafeAt(ls, t, |ls|, b)
    ensures CutOf(m, ls, limit, t) != Offset(ls, b)
  {
    var c := CutIsLastSafe(m, ls, limit, t);
    SafeInAll(ls, t, Reach(ls, limit, 0), b);
    if Offset(ls, c) == Offset(ls, b) { SameOffset(ls, b, c); }
  }

  lemma {:induction false} SafeInAll(ls: seq<Line>, t: Trailing, k: nat, b: nat)
    requires 0 < b <= |ls| && k <= |ls|
    ensures b <= k && SafeAt(ls, t, k, b) ==> SafeAt(ls, t, |ls|, b)
  {
  }

  lemma {:induction false} SameOffset(ls: seq<Line>, b: nat, c: nat)
    requires b <= |ls| && c <= |ls| && Offset(ls, c) == Offset(ls, b)
    ensures b == c
  {
    OffsetGrows(ls, if b < c then b else c, if b < c then c else b);
  }

  // ---- What is not cut off ----

  /** No cut between a heading or lead-in and the next line that is not blank, unless that
      line opens a fence. */
  lemma {:induction false} HeadingIsKept(m: Machine, ls: seq<Line>, t: Trailing, limit: int, i: nat, b: nat)
    requires Ruled(m) && AllConsistent(ls) && i < b <= |ls| && Heads(ls, t, i)
    requires forall j :: i < j < b ==> ls[j].kind.blank
    requires b < |ls| ==> ls[b].kind.fence.None?
    ensures CutOf(m, ls, limit, t) != Offset(ls, b)
  {
    HeadingHolds(ls, t, i, b);
    if b - 1 > i { HeadingHolds(ls, t, i, b - 1); }
    UnsafeIsNoCut(m, ls, limit, t, b);
  }

  lemma {:induction false} HeadingHolds(ls: seq<Line>, t: Trailing, i: nat, b: nat)
    requires AllConsistent(ls) && i < b <= |ls| && Heads(ls, t, i) && forall j :: i < j < b ==> ls[j].kind.blank
    ensures Bound(ls, t, b) && !InItem(ls, t, b) && !Fenced(ls, t, b)
    decreases b
  {
    if b > i + 1 { HeadingHolds(ls, t, i, b - 1); }
    HeldMore(t.inItem, ItemStarts(ls, t), ItemEnds(ls, t), b - 1);
    FenceIs(ls, t, b - 1);
    NoFenceBehind(ls, t, b - 1);
  }

  lemma {:induction false} NoFenceBehind(ls: seq<Line>, t: Trailing, i: nat)
    requires i < |ls| && !Fenced(ls, t, i) && ls[i].kind.fence.None?
    ensures !Fenced(ls, t, i + 1)
  {
    forall f ensures InFence(ls, t, i + 1, f) <==> FenceStep(None, ls[i].kind) == Some(f) {
      OneMoreFenced(ls, t, i, None, f);
    }
  }

  /** No cut between a title or lead-in in a list item and a marker right behind it. */
  lemma {:induction false} LeadIsKept(m: Machine, ls: seq<Line>, t: Trailing, limit: int, i: nat)
    requires Ruled(m) && AllConsistent(ls) && i + 1 < |ls| && ItemLead(ls, t, i) && ls[i + 1].kind.marker
    requires !ls[i].kind.row && !ls[i].kind.pipe && !ls[i].kind.blank
    ensures CutOf(m, ls, limit, t) != Offset(ls, i + 1)
  {
    HeldMore(t.inItem, ItemStarts(ls, t), ItemEnds(ls, t), i);
    HeldMore(false, (j: nat) => ItemLead(ls, t, j), (j: nat) => ItemGoesOn(ls, t, j), i);
    UnsafeIsNoCut(m, ls, limit, t, i + 1);
  }

  /** No cut between the header row of a table and its separator. */
  lemma {:induction false} HeaderIsKept(m: Machine, ls: seq<Line>, t: Trailing, limit: int, i: nat)
    requires Ruled(m) && AllConsistent(ls) && i + 1 < |ls| && Plain(ls, t, i) && ls[i].kind.row && !InTable(ls, t, i)
    requires ls[i + 1].kind.separator
    ensures CutOf(m, ls, limit, t) != Offset(ls, i + 1)
  {
    UnsafeIsNoCut(m, ls, limit, t, i + 1);
  }

  /** No cut in front of a URL or annotation, but behind a closed fence, a table row, the end
      of an item or another annotation. */
  lemma {:induction false} EntryIsKept(m: Machine, ls: seq<Line>, t: Trailing, limit: int, b: nat)
    requires Ruled(m) && AllConsistent(ls) && 0 < b < |ls| && CutOf(m, ls, limit, t) == Offset(ls, b)
    requires (ls[b].kind.url || ls[b].kind.note) && ls[b].kind.fence.None? && !ls[b].kind.marker
    ensures || ClosesAt(ls, t, b - 1)
            || (Plain(ls, t, b - 1) && (ls[b - 1].kind.row || ls[b - 1].kind.note))
            || (InItem(ls, t, b - 1) && ls[b - 1].kind.blank)
  {
    if !SafeAt(ls, t, |ls|, b) { UnsafeIsNoCut(m, ls, limit, t, b); }
  }

  // ---- What is cut, said on the lines themselves ----

  function ScanOf(text: string): seq<Line> {
    Scan(MARKDOWN.view, Lines(text))
  }

  lemma {:induction false} MarkdownIsRuled(m: Machine, text: string)
    requires m == MARKDOWN
    ensures Ruled(m) && AllConsistent(Scan(m.view, Lines(text)))
  {
    MarkdownIsSound();
  }

  lemma {:induction false} ReachedSafely(m: Machine, text: string, limit: int, t: Trailing, b: nat)
    requires m == MARKDOWN
    requires var ls := Scan(m.view, Lines(text)); b <= Reach(ls, limit, 0) && SafeAt(ls, t, Reach(ls, limit, 0), b)
    ensures SafeCut(m, text, limit, t) >= Offset(Scan(m.view, Lines(text)), b)
  {
    MarkdownIsRuled(m, text);
    SafeIsReached(m, Scan(m.view, Lines(text)), limit, t, b);
  }

  /** Text of no special kind, whatever stands around it. */
  predicate IsText(line: string) {
    && FenceMarker(line).None? && !TableRow(line) && !PipeLine(line) && !ListMarker(line) && !UrlLine(line)
    && !Annotation(line) && !HeadingLine(line, true) && !HeadingLine(line, false) && !LeadInLine(line)
  }

  predicate StartsEntry(line: string) {
    UrlLine(line) || Annotation(line)
  }

  /** Line `i` stands outside fences and list items. */
  ghost predicate Outside(text: string, t: Trailing, i: nat)
    requires i < |Lines(text)|
  {
    !Fenced(ScanOf(text), t, i) && !InItem(ScanOf(text), t, i)
  }

  predicate TextKind(k: Kind) {
    && k.fence.None? && !k.row && !k.pipe && !k.marker && !k.url && !k.note && !k.heading && !k.title && !k.leadIn
  }

  lemma {:induction false} KindOfText(view: string -> Kind, line: string)
    requires view == Classify
    ensures IsText(line) <==> TextKind(view(line))
    ensures view(line).blank <==> Blank(line)
  {
  }

  lemma {:induction false} KindOfEntry(view: string -> Kind, line: string)
    requires view == Classify
    ensures StartsEntry(line) <==> view(line).url || view(line).note
    ensures LeadInLine(line) <==> view(line).leadIn
  {
  }

  lemma {:induction false} BodyIsSafe(ls: seq<Line>, t: Trailing, i: nat)
    requires i + 1 < |ls| && TextKind(ls[i].kind) && !ls[i + 1].kind.url && !ls[i + 1].kind.note
    requires !Fenced(ls, t, i) && !InItem(ls, t, i) && Offset(ls, i + 1) < Total(ls)
    requires if ls[i].kind.blank then !Bound(ls, t, i) else !ls[i + 1].kind.leadIn
    ensures CutBehind(ls, t, i) && !CutBefore(ls, t, i)
  {
  }

  /** Behind a finished line of text the text is cut, unless the next line is a lead-in or
      belongs to an entry, or has not begun. */
  lemma {:induction false} TextIsCut(m: Machine, text: string, limit: int, t: Trailing, i: nat)
    requires m == MARKDOWN && i + 1 < |Lines(text)| && Outside(text, t, i)
    requires IsText(Lines(text)[i]) && !Blank(Lines(text)[i])
    requires !StartsEntry(Lines(text)[i + 1]) && !LeadInLine(Lines(text)[i + 1])
    requires Offset(ScanOf(text), i) < limit && Offset(ScanOf(text), i + 1) < |text|
    ensures SafeCut(m, text, limit, t) >= Offset(ScanOf(text), i + 1)
  {
    BodyIsCut(m, text, limit, t, i);
  }

  lemma {:induction false} BodyIsCut(m: Machine, text: string, limit: int, t: Trailing, i: nat)
    requires m == MARKDOWN && i + 1 < |Lines(text)| && Outside(text, t, i)
    requires IsText(Lines(text)[i]) && !StartsEntry(Lines(text)[i + 1])
    requires if Blank(Lines(text)[i]) then !Bound(ScanOf(text), t, i) else !LeadInLine(Lines(text)[i + 1])
    requires Offset(ScanOf(text), i) < limit && Offset(ScanOf(text), i + 1) < |text|
    ensures SafeCut(m, text, limit, t) >= Offset(ScanOf(text), i + 1)
  {
    var ls := Scan(m.view, Lines(text));
    TextLength(m, text);
    KindOfText(m.view, Lines(text)[i]);
    KindOfEntry(m.view, Lines(text)[i + 1]);
    BodyIsSafe(ls, t, i);
    InReach(ls, limit, i);
    ReachedSafely(m, text, limit, t, i + 1);
  }

  /** Behind a blank line too, unless a heading waits in front of it. */
  lemma {:induction false} BlankIsCut(m: Machine, text: string, limit: int, t: Trailing, i: nat)
    requires m == MARKDOWN && i + 1 < |Lines(text)| && Outside(text, t, i) && Blank(Lines(text)[i])
    requires !StartsEntry(Lines(text)[i + 1]) && !Bound(ScanOf(text), t, i)
    requires Offset(ScanOf(text), i) < limit && Offset(ScanOf(text), i + 1) < |text|
    ensures SafeCut(m, text, limit, t) >= Offset(ScanOf(text), i + 1)
  {
    BlankLineFacts(Lines(text)[i]);
    BlankIsNoHeading(Lines(text)[i]);
    BodyIsCut(m, text, limit, t, i);
  }

  lemma {:induction false} BlankIsNoHeading(line: string)
    requires Blank(line)
    ensures !HeadingLine(line, false)
  {
    BlankLineFacts(line);
  }

  /** Behind a blank line or annotation that ends a list item, and behind an annotation
      outside one. */
  lemma {:induction false} ItemEndIsCut(m: Machine, text: string, limit: int, t: Trailing, i: nat)
    requires m == MARKDOWN && i + 1 < |Lines(text)| && !Fenced(ScanOf(text), t, i)
    requires if InItem(ScanOf(text), t, i) then Blank(Lines(text)[i]) || Annotation(Lines(text)[i])
             else Annotation(Lines(text)[i]) && !UrlLine(Lines(text)[i])
    requires Offset(ScanOf(text), i) < limit
    ensures SafeCut(m, text, limit, t) >= Offset(ScanOf(text), i + 1)
  {
    var ls := Scan(m.view, Lines(text));
    MarkdownIsRuled(m, text);
    assert ls[i].kind == Classify(Lines(text)[i]) && ls[i].kind.Consistent();
    InReach(ls, limit, i);
    if Annotation(Lines(text)[i]) { AnnotationIsNoFence(Lines(text)[i]); }
    ItemEndIsSafe(ls, t, i);
    ReachedSafely(m, text, limit, t, i + 1);
  }

  lemma {:induction false} AnnotationIsNoFence(line: string)
    requires Annotation(line)
    ensures FenceMarker(line).None?
  {
  }

  lemma {:induction false} ItemEndIsSafe(ls: seq<Line>, t: Trailing, i: nat)
    requires AllConsistent(ls) && i + 1 < |ls| && !Fenced(ls, t, i) && ls[i].kind.fence.None?
    requires if InItem(ls, t, i) then ls[i].kind.blank || ls[i].kind.note else ls[i].kind.note && !ls[i].kind.url
    ensures CutBehind(ls, t, i) && !CutBefore(ls, t, i)
  {
  }

  /** In front of a line that opens a fence. */
  lemma {:induction false} FenceStartIsCut(m: Machine, text: string, limit: int, t: Trailing, i: nat)
    requires m == MARKDOWN && i < |Lines(text)| && !Fenced(ScanOf(text), t, i) && FenceMarker(Lines(text)[i]).Some?
    requires Offset(ScanOf(text), i) < limit
    ensures SafeCut(m, text, limit, t) >= Offset(ScanOf(text), i)
  {
    InReach(Scan(m.view, Lines(text)), limit, i);
    ReachedSafely(m, text, limit, t, i);
  }

  /** In front of a list marker, unless a heading or, in an item, a title waits for it. */
  lemma {:induction false} MarkerStartIsCut(m: Machine, text: string, limit: int, t: Trailing, i: nat)
    requires m == MARKDOWN && i < |Lines(text)| && !Fenced(ScanOf(text), t, i) && ListMarker(Lines(text)[i])
    requires if InItem(ScanOf(text), t, i) then !LeadWaits(ScanOf(text), t, i) else !Bound(ScanOf(text), t, i)
    requires Offset(ScanOf(text), i) < limit
    ensures SafeCut(m, text, limit, t) >= Offset(ScanOf(text), i)
  {
    ListMarkerFacts(Lines(text)[i]);
    InReach(Scan(m.view, Lines(text)), limit, i);
    ReachedSafely(m, text, limit, t, i);
  }

  predicate ClosesAsFence(line: string, f: Marker) {
    FenceMarker(line).Some? && ClosesFence(line, f)
  }

  predicate IsDataRow(line: string) {
    TableRow(line) && !TableSeparator(line)
  }

  lemma {:induction false} StructureKind(view: string -> Kind, line: string, f: Marker)
    requires view == Classify && f.len >= 3
    ensures ClosesAsFence(line, f) ==> view(line).Closes(f)
    ensures IsDataRow(line) ==> view(line).row && !view(line).separator && view(line).fence.None?
  {
    ClassifyFacts(line);
    if FenceMarker(line).Some? { ClosingKind(line, f); }
  }

  /** Line `i` closes the fence around it, or is a row of the table it stands in. */
  ghost predicate EndsStructure(
    closes: (string, Marker) -> bool, row: string -> bool, ls: seq<Line>, line: string, t: Trailing, i: nat, f: Marker)
    requires i < |ls|
  {
    || (InFence(ls, t, i, f) && closes(line, f))
    || (!Fenced(ls, t, i) && InTable(ls, t, i) && row(line))
  }

  lemma {:induction false} StructureEnds(
    view: string -> Kind, closes: (string, Marker) -> bool, row: string -> bool, lines: seq<string>, t: Trailing, i: nat,
    f: Marker)
    requires i < |lines| && AllConsistent(Scan(view, lines))
    requires EndsStructure(closes, row, Scan(view, lines), lines[i], t, i, f) && ShowsEnds(view, closes, row, f)
    ensures CutBehind(Scan(view, lines), t, i) && !CutBefore(Scan(view, lines), t, i)
  {
    StructureEndIsSafe(Scan(view, lines), t, i, f);
  }

  ghost predicate ShowsEnds(
    view: string -> Kind, closes: (string, Marker) -> bool, row: string -> bool, f: Marker)
  {
    && (forall l :: closes(l, f) ==> view(l).Closes(f))
    && (forall l :: row(l) ==> view(l).row && !view(l).separator && view(l).fence.None?)
  }

  lemma {:induction false} KindsOfEnds(view: string -> Kind, f: Marker)
    requires view == Classify && f.len >= 3
    ensures ShowsEnds(view, ClosesAsFence, IsDataRow, f)
  {
    forall l ensures ClosesAsFence(l, f) ==> view(l).Closes(f) {
      StructureKind(view, l, f);
    }
    forall l ensures IsDataRow(l) ==> view(l).row && !view(l).separator && view(l).fence.None? {
      StructureKind(view, l, f);
    }
  }

  /** Behind a line that closes the fence, and behind a row of a table. */
  lemma {:induction false} StructureEndIsCut(m: Machine, text: string, limit: int, t: Trailing, i: nat, f: Marker)
    requires m == MARKDOWN && i < |Lines(text)| && f.len >= 3
    requires EndsStructure(ClosesAsFence, IsDataRow, ScanOf(text), Lines(text)[i], t, i, f)
    requires Offset(ScanOf(text), i) < limit
    ensures SafeCut(m, text, limit, t) >= Offset(ScanOf(text), i + 1)
  {
    KindsOfEnds(m.view, f);
    MarkdownIsRuled(m, text);
    StructureEnds(m.view, ClosesAsFence, IsDataRow, Lines(text), t, i, f);
    SafeEndIsCut(m, text, Scan(m.view, Lines(text)), limit, t, i);
  }

  lemma {:induction false} SafeEndIsCut(m: Machine, text: string, ls: seq<Line>, limit: int, t: Trailing, i: nat)
    requires m == MARKDOWN && ls == ScanOf(text) && i < |ls|
    requires CutBehind(ls, t, i) && !CutBefore(ls, t, i) && Offset(ls, i) < limit
    ensures SafeCut(m, text, limit, t) >= Offset(ls, i + 1)
  {
    SafeEnd(ls, limit, t, i);
    ReachedIn(m, text, ls, limit, t, i + 1);
  }

  lemma {:induction false} ReachedIn(m: Machine, text: string, ls: seq<Line>, limit: int, t: Trailing, b: nat)
    requires m == MARKDOWN && ls == ScanOf(text) && b <= Reach(ls, limit, 0) && SafeAt(ls, t, Reach(ls, limit, 0), b)
    ensures SafeCut(m, text, limit, t) >= Offset(ls, b)
  {
    ReachedSafely(m, text, limit, t, b);
  }

  lemma {:induction false} SafeEnd(ls: seq<Line>, limit: int, t: Trailing, i: nat)
    requires i < |ls| && CutBehind(ls, t, i) && !CutBefore(ls, t, i) && Offset(ls, i) < limit
    ensures i + 1 <= Reach(ls, limit, 0) && SafeAt(ls, t, Reach(ls, limit, 0), i + 1)
  {
    InReach(ls, limit, i);
  }

  lemma {:induction false} StructureEndIsSafe(ls: seq<Line>, t: Trailing, i: nat, f: Marker)
    requires AllConsistent(ls) && i < |ls|
    requires || (InFence(ls, t, i, f) && ls[i].kind.Closes(f))
             || (Plain(ls, t, i) && InTable(ls, t, i) && ls[i].kind.row && !ls[i].kind.separator)
    ensures CutBehind(ls, t, i) && !CutBefore(ls, t, i)
  {
  }

  /** Line `i` is a heading or lead-in; a short title is one at the start of the text and
      behind a line of text or a blank line that belongs to no heading. */
  ghost predicate IsHeader(text: string, t: Trailing, i: nat)
    requires i < |Lines(text)|
  {
    var lines := Lines(text);
    !ListMarker(lines[i]) &&
    (|| HeadingLine(lines[i], false) || LeadInLine(lines[i])
     || (HeadingLine(lines[i], true) &&
           (i == 0 || (IsText(lines[i - 1]) && Outside(text, t, i - 1) && !StartsEntry(lines[i])
                       && (Blank(lines[i - 1]) ==> !Bound(ScanOf(text), t, i - 1))))))
  }

  lemma {:induction false} KindOfHeader(view: string -> Kind, line: string)
    requires view == Classify
    ensures view(line).heading <==> HeadingLine(line, false)
    ensures view(line).title <==> HeadingLine(line, true)
    ensures view(line).leadIn <==> LeadInLine(line)
    ensures view(line).marker <==> ListMarker(line)
    ensures view(line).fence == FenceMarker(line)
  {
  }

  lemma {:induction false} HeaderHeads(ls: seq<Line>, t: Trailing, i: nat)
    requires AllConsistent(ls) && i < |ls| && !Fenced(ls, t, i) && !InItem(ls, t, i) && !ls[i].kind.marker
    requires ls[i].kind.heading || ls[i].kind.leadIn || (ls[i].kind.title && BehindText(ls, t, i))
    ensures Heads(ls, t, i)
  {
    assert ls[i].kind.Consistent();
    if i > 0 && ls[i].kind.title && BehindText(ls, t, i) {
      BodyInFront(ls, t, i);
    }
  }

  lemma {:induction false} BodyInFront(ls: seq<Line>, t: Trailing, i: nat)
    requires 0 < i < |ls| && BehindText(ls, t, i) && !ls[i].kind.url && !ls[i].kind.note
    ensures EndsBlockAt(ls, t, i - 1)
  {
    assert Plain(ls, t, i - 1) && TopLine(ls, t, i - 1) && !Heads(ls, t, i - 1) && !BeforeEntry(ls, i - 1);
  }

  /** Nothing is in front, or a line of text. */
  ghost predicate BehindText(ls: seq<Line>, t: Trailing, i: nat)
    requires i < |ls|
  {
    i == 0 || (TextKind(ls[i - 1].kind) && !Fenced(ls, t, i - 1) && !InItem(ls, t, i - 1)
               && !(ls[i - 1].kind.blank && Bound(ls, t, i - 1)))
  }

  lemma {:induction false} TextInFront(m: Machine, text: string, t: Trailing, i: nat)
    requires m == MARKDOWN && 0 < i < |Lines(text)| && IsText(Lines(text)[i - 1]) && Outside(text, t, i - 1)
    requires Blank(Lines(text)[i - 1]) ==> !Bound(ScanOf(text), t, i - 1)
    ensures BehindText(Scan(m.view, Lines(text)), t, i)
  {
    KindsOfText(m.view);
    TextLineInFront(m.view, IsText, Blank, Lines(text), t, i);
  }

  lemma {:induction false} KindsOfText(view: string -> Kind)
    requires view == Classify
    ensures forall l :: IsText(l) ==> TextKind(view(l))
    ensures forall l :: view(l).blank <==> Blank(l)
  {
    forall l ensures (IsText(l) ==> TextKind(view(l))) && (view(l).blank <==> Blank(l)) {
      KindOfText(view, l);
    }
  }

  lemma {:induction false} TextLineInFront(
    view: string -> Kind, isText: string -> bool, blank: string -> bool, lines: seq<string>, t: Trailing, i: nat)
    requires forall l :: isText(l) ==> TextKind(view(l))
    requires forall l :: view(l).blank <==> blank(l)
    requires 0 < i < |lines| && isText(lines[i - 1])
    requires !Fenced(Scan(view, lines), t, i - 1) && !InItem(Scan(view, lines), t, i - 1)
    requires blank(lines[i - 1]) ==> !Bound(Scan(view, lines), t, i - 1)
    ensures BehindText(Scan(view, lines), t, i)
  {
    TextBehind(Scan(view, lines), t, i, blank(lines[i - 1]));
  }

  lemma {:induction false} TextBehind(ls: seq<Line>, t: Trailing, i: nat, blank: bool)
    requires 0 < i < |ls| && TextKind(ls[i - 1].kind) && (ls[i - 1].kind.blank ==> blank)
    requires !Fenced(ls, t, i - 1) && !InItem(ls, t, i - 1) && (blank ==> !Bound(ls, t, i - 1))
    ensures BehindText(ls, t, i)
  {
  }

  /** A heading, short title or lead-in is not cut off from what follows its blank lines,
      unless that opens a fence. */
  lemma {:induction false} HeaderIsNotCutOff(m: Machine, text: string, limit: int, t: Trailing, i: nat, b: nat)
    requires m == MARKDOWN && i < b < |Lines(text)| && Outside(text, t, i) && IsHeader(text, t, i)
    requires forall j :: i < j < b ==> Blank(Lines(text)[j])
    requires FenceMarker(Lines(text)[b]).None?
    ensures SafeCut(m, text, limit, t) != Offset(ScanOf(text), b)
  {
    var ls := Scan(m.view, Lines(text));
    MarkdownIsRuled(m, text);
    HeaderIsHeading(m, text, t, i);
    BlankKinds(m, text, i, b);
    HeadingIsKept(m, ls, t, limit, i, b);
  }

  lemma {:induction false} HeaderIsHeading(m: Machine, text: string, t: Trailing, i: nat)
    requires m == MARKDOWN && i < |Lines(text)| && Outside(text, t, i) && IsHeader(text, t, i)
    ensures Heads(Scan(m.view, Lines(text)), t, i)
  {
    MarkdownIsRuled(m, text);
    KindOfHeader(m.view, Lines(text)[i]);
    if !HeadingLine(Lines(text)[i], false) && !LeadInLine(Lines(text)[i]) && i > 0 {
      TextInFront(m, text, t, i);
    }
    HeaderHeads(Scan(m.view, Lines(text)), t, i);
  }

  lemma {:induction false} BlankKinds(m: Machine, text: string, i: nat, b: nat)
    requires m == MARKDOWN && i < b < |Lines(text)|
    requires (forall j :: i < j < b ==> Blank(Lines(text)[j])) && FenceMarker(Lines(text)[b]).None?
    ensures var ls := Scan(m.view, Lines(text));
            (forall j :: i < j < b ==> ls[j].kind.blank) && ls[b].kind.fence.None?
  {
    var ls := Scan(m.view, Lines(text));
    KindOfHeader(m.view, Lines(text)[b]);
    forall j | i < j < b ensures ls[j].kind.blank {
      KindOfText(m.view, Lines(text)[j]);
    }
  }

  // ---- The structure a text leaves open ----

  ghost function EntryStarts(ls: seq<Line>, t: Trailing): nat -> bool {
    (j: nat) => Plain(ls, t, j) && !ls[j].kind.row && (ls[j].kind.marker || ls[j].kind.url)
  }

  ghost function EntryEnds(ls: seq<Line>, t: Trailing): nat -> bool {
    (j: nat) => Plain(ls, t, j) && (ls[j].kind.row || ls[j].kind.blank || ls[j].kind.note)
  }

  ghost function RowAt(ls: seq<Line>, t: Trailing): nat -> bool {
    (j: nat) => Plain(ls, t, j) && ls[j].kind.row
  }

  ghost function NoRowAt(ls: seq<Line>, t: Trailing): nat -> bool {
    (j: nat) => Plain(ls, t, j) && !ls[j].kind.row
  }

  /** An item is open when its marker or URL has come, and since then no row, blank line or
      annotation; a table when the last line outside fences is a row. */
  lemma {:induction false} TrailingIs(ls: seq<Line>, t: Trailing, i: nat)
    requires AllConsistent(ls) && i <= |ls|
    ensures var x := TrailFold(t, ls[..i]);
            && (forall f :: InFence(ls, t, i, f) <==> x.fence == Some(f))
            && (x.inItem <==> Held(t.inItem, EntryStarts(ls, t), EntryEnds(ls, t), i))
            && (x.inTable <==> Held(t.inTable, RowAt(ls, t), NoRowAt(ls, t), i))
  {
    FenceIs(ls, t, i);
    if i == 0 {
      assert ls[..0] == [];
    } else {
      TrailingIs(ls, t, i - 1);
      assert ls[..i][..i - 1] == ls[..i - 1];
      PlainIs(ls, t, i - 1, TrailFold(t, ls[..i - 1]).fence);
      HeldMore(t.inItem, EntryStarts(ls, t), EntryEnds(ls, t), i - 1);
      HeldMore(t.inTable, RowAt(ls, t), NoRowAt(ls, t), i - 1);
      TrailParts(TrailFold(t, ls[..i - 1]), ls[i - 1].kind);
    }
  }

  lemma {:induction false} PlainIs(ls: seq<Line>, t: Trailing, i: nat, was: Option<Marker>)
    requires i < |ls| && forall f :: InFence(ls, t, i, f) <==> was == Some(f)
    ensures Plain(ls, t, i) <==> ls[i].kind.fence.None? && was.None?
  {
    if was.Some? { assert InFence(ls, t, i, was.value); }
  }

  lemma {:induction false} TrailParts(t: Trailing, k: Kind)
    requires k.Consistent()
    ensures var x, plain := TrailStep(t, k), k.fence.None? && t.fence.None?;
            && (x.inItem <==> (plain && !k.row && (k.marker || k.url))
                              || (t.inItem && !(plain && (k.row || k.blank || k.note))))
            && (x.inTable <==> (plain && k.row) || (t.inTable && !(plain && !k.row)))
  {
  }
}
