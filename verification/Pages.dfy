/** Fences and tables too large for one chunk are paged: every page repeats what
    makes it readable on its own, and no line of the body is lost. */
module Pages {
  import opened Text
  import opened LineKinds

  predicate OneLine(s: string) { '\n' !in s }

  predicate OneLiners(ls: seq<string>) { forall l :: l in ls ==> OneLine(l) }

  /** The lines between a page's first `head` lines and its last `tail` lines. */
  function Body(page: string, head: nat, tail: nat): seq<string> {
    var ls := Lines(page);
    if head + tail <= |ls| then ls[head..|ls| - tail] else []
  }

  function Bodies(pages: seq<string>, head: nat, tail: nat): (bs: seq<seq<string>>)
    ensures |bs| == |pages|
  {
    if pages == [] then [] else [Body(pages[0], head, tail)] + Bodies(pages[1..], head, tail)
  }

  lemma {:induction false} BodiesLast(pages: seq<string>, p: string, head: nat, tail: nat)
    ensures Bodies(pages + [p], head, tail) == Bodies(pages, head, tail) + [Body(p, head, tail)]
  {
    if pages == [] {
      assert [p][1..] == [] && pages + [p] == [p];
    } else {
      assert (pages + [p])[1..] == pages[1..] + [p];
      BodiesLast(pages[1..], p, head, tail);
    }
  }

  /** `page` consists of `top`, a body, and `bottom`. */
  predicate Framed(page: string, top: seq<string>, bottom: seq<string>) {
    var ls := Lines(page);
    |top| + |bottom| <= |ls| && ls[..|top|] == top && ls[|ls| - |bottom|..] == bottom
  }

  lemma {:induction false} FramedPage(top: seq<string>, body: seq<string>, bottom: seq<string>)
    requires top != [] && OneLiners(top) && OneLiners(body) && OneLiners(bottom)
    ensures var page := Unlines(top + body + bottom);
            Framed(page, top, bottom) && Body(page, |top|, |bottom|) == body
  {
    var all := top + body + bottom;
    assert forall l :: l in all ==> l in top || l in body || l in bottom;
    SplitJoin(all, '\n');
  }

  function Page(top: seq<string>, body: seq<string>, bottom: seq<string>): string {
    Unlines(top + body + bottom)
  }

  /** `pages` show `body`, each between `top` and `bottom`, nothing lost and nothing
      twice; a page over the limit carries at most one body line. */
  ghost predicate Paged(pages: seq<string>, top: seq<string>, body: seq<string>, bottom: seq<string>, max: nat) {
    && (forall p :: p in pages ==> Framed(p, top, bottom))
    && Flatten(Bodies(pages, |top|, |bottom|)) == body
    && (forall p :: p in pages && Size(p) > max ==> |Body(p, |top|, |bottom|)| <= 1)
  }

  /** The first of the lines `next` does not fit on a page that carries `body`. */
  predicate Overflows(top: seq<string>, body: seq<string>, bottom: seq<string>, next: seq<string>, max: nat) {
    next != [] && Size(Page(top, body + [next[0]], bottom)) > max
  }

  /** No page could have taken the line the following page starts with. */
  ghost predicate Tight(pages: seq<string>, top: seq<string>, bottom: seq<string>, max: nat) {
    forall i, j :: 0 <= i && j == i + 1 && j < |pages| ==>
      Overflows(top, Body(pages[i], |top|, |bottom|), bottom, Body(pages[j], |top|, |bottom|), max)
  }

  /** Paging in progress: `pages` are finished, `cur` is the body of the next one. */
  ghost predicate Paging(
    pages: seq<string>, top: seq<string>, bottom: seq<string>, done: seq<string>, cur: seq<string>, max: nat)
  {
    && Paged(pages, top, done, bottom, max) && Tight(pages, top, bottom, max)
    && OneLiners(cur) && (Size(Page(top, cur, bottom)) <= max || |cur| <= 1)
    && (pages != [] ==> Overflows(top, Body(pages[|pages| - 1], |top|, |bottom|), bottom, cur, max))
  }

  lemma {:induction false} StartPaging(top: seq<string>, bottom: seq<string>, cur: seq<string>, max: nat)
    requires OneLiners(cur) && |cur| <= 1
    ensures Paging([], top, bottom, [], cur, max)
  {
  }

  lemma {:induction false} FinishPage(
    pages: seq<string>, top: seq<string>, bottom: seq<string>, done: seq<string>, cur: seq<string>, max: nat)
    requires top != [] && OneLiners(top) && OneLiners(bottom)
    requires Paging(pages, top, bottom, done, cur, max)
    ensures Paged(pages + [Page(top, cur, bottom)], top, done + cur, bottom, max)
    ensures Tight(pages + [Page(top, cur, bottom)], top, bottom, max)
    ensures Body(Page(top, cur, bottom), |top|, |bottom|) == cur
  {
    var p := Page(top, cur, bottom);
    FramedPage(top, cur, bottom);
    BodiesLast(pages, p, |top|, |bottom|);
    FlattenLast(Bodies(pages, |top|, |bottom|), cur);
    StaysTight(pages, p, top, bottom, max);
  }

  lemma {:induction false} OneMoreNeighbour(pages: seq<string>, p: string, ok: (string, string) -> bool)
    requires forall i, j :: 0 <= i && j == i + 1 && j < |pages| ==> ok(pages[i], pages[j])
    requires pages != [] ==> ok(pages[|pages| - 1], p)
    ensures var all := pages + [p]; forall i, j :: 0 <= i && j == i + 1 && j < |all| ==> ok(all[i], all[j])
  {
  }

  lemma {:induction false} StaysTight(pages: seq<string>, p: string, top: seq<string>, bottom: seq<string>, max: nat)
    requires Tight(pages, top, bottom, max)
    requires pages != [] ==>
               Overflows(top, Body(pages[|pages| - 1], |top|, |bottom|), bottom, Body(p, |top|, |bottom|), max)
    ensures Tight(pages + [p], top, bottom, max)
  {
    OneMoreNeighbour(pages, p, (q, r) => Overflows(top, Body(q, |top|, |bottom|), bottom, Body(r, |top|, |bottom|), max));
  }

  lemma {:induction false} NextPage(
    pages: seq<string>, top: seq<string>, bottom: seq<string>, done: seq<string>, cur: seq<string>, line: string,
    max: nat)
    requires top != [] && OneLiners(top) && OneLiners(bottom) && OneLine(line)
    requires Paging(pages, top, bottom, done, cur, max)
    requires Size(Page(top, cur + [line], bottom)) > max
    ensures Paging(pages + [Page(top, cur, bottom)], top, bottom, done + cur, [line], max)
  {
    FinishPage(pages, top, bottom, done, cur, max);
  }

  lemma {:induction false} SameLine(
      pages: seq<string>, top: seq<string>, bottom: seq<string>, done: seq<string>, cur: seq<string>, line: string,
      max: nat)
    requires OneLine(line) && Paging(pages, top, bottom, done, cur, max)
    requires Size(Page(top, cur + [line], bottom)) <= max
    ensures Paging(pages, top, bottom, done, cur + [line], max)
  {
  }

  /** The finished pages and the body of the one being filled. */
  datatype Filling = Filling(pages: seq<string>, cur: seq<string>)

  /** A line goes on the page being filled if that fits, else on a new one; `bare`
      pages, without any line, may be written too. */
  function Fill(p: Filling, top: seq<string>, line: string, bottom: seq<string>, max: nat, bare: bool): Filling {
    if Size(Page(top, p.cur + [line], bottom)) <= max then Filling(p.pages, p.cur + [line])
    else Filling(if bare || p.cur != [] then p.pages + [Page(top, p.cur, bottom)] else p.pages, [line])
  }

  function Filled(top: seq<string>, body: seq<string>, bottom: seq<string>, max: nat, bare: bool): Filling {
    if body == [] then Filling([], [])
    else Fill(Filled(top, body[..|body| - 1], bottom, max, bare), top, body[|body| - 1], bottom, max, bare)
  }

  function PagesOf(top: seq<string>, body: seq<string>, bottom: seq<string>, max: nat, bare: bool): seq<string> {
    var p := Filled(top, body, bottom, max, bare);
    if p.cur != [] then p.pages + [Page(top, p.cur, bottom)] else p.pages
  }

  /** `done` is the part of the body on finished pages. */
  ghost predicate FilledRight(
    p: Filling, top: seq<string>, body: seq<string>, bottom: seq<string>, max: nat, bare: bool, done: seq<string>)
  {
    && Paging(p.pages, top, bottom, done, p.cur, max) && done + p.cur == body
    && (!bare ==> forall q :: q in p.pages ==> Body(q, |top|, |bottom|) != [])
    && (p.cur == [] ==> p.pages == [])
  }

  lemma {:induction false} LineFilled(
    p: Filling, top: seq<string>, body: seq<string>, bottom: seq<string>, max: nat, bare: bool, done: seq<string>,
    line: string)
    returns (done': seq<string>)
    requires top != [] && OneLiners(top) && OneLiners(bottom) && OneLine(line)
    requires FilledRight(p, top, body, bottom, max, bare, done)
    ensures FilledRight(Fill(p, top, line, bottom, max, bare), top, body + [line], bottom, max, bare, done')
  {
    if Size(Page(top, p.cur + [line], bottom)) <= max {
      SameLine(p.pages, top, bottom, done, p.cur, line, max);
      done' := done;
    } else if bare || p.cur != [] {
      NextPage(p.pages, top, bottom, done, p.cur, line, max);
      FinishPage(p.pages, top, bottom, done, p.cur, max);
      done' := done + p.cur;
    } else {
      StartPaging(top, bottom, [line], max);
      done' := done;
    }
  }

  lemma {:induction false} NothingFilled(top: seq<string>, bottom: seq<string>, max: nat, bare: bool)
    ensures FilledRight(Filled(top, [], bottom, max, bare), top, [], bottom, max, bare, [])
  {
    StartPaging(top, bottom, [], max);
  }

  lemma {:induction false} FilledLast(
    top: seq<string>, front: seq<string>, line: string, bottom: seq<string>, max: nat, bare: bool)
    ensures Filled(top, front + [line], bottom, max, bare)
         == Fill(Filled(top, front, bottom, max, bare), top, line, bottom, max, bare)
  {
    assert (front + [line])[..|front|] == front;
  }

  lemma {:induction false} FilledPages(
    top: seq<string>, body: seq<string>, bottom: seq<string>, max: nat, bare: bool)
    returns (done: seq<string>)
    requires top != [] && OneLiners(top) && OneLiners(bottom) && OneLiners(body)
    ensures FilledRight(Filled(top, body, bottom, max, bare), top, body, bottom, max, bare, done)
  {
    if body == [] {
      NothingFilled(top, bottom, max, bare);
      done := [];
    } else {
      var front, line := body[..|body| - 1], body[|body| - 1];
      assert body == front + [line];
      FilledLast(top, front, line, bottom, max, bare);
      var before := FilledPages(top, front, bottom, max, bare);
      done := LineFilled(Filled(top, front, bottom, max, bare), top, front, bottom, max, bare, before, line);
    }
  }

  /** Paging loses no line, repeats none, and puts on each page what it can hold. */
  lemma {:induction false} PagedRight(
    top: seq<string>, body: seq<string>, bottom: seq<string>, max: nat, bare: bool)
    requires top != [] && OneLiners(top) && OneLiners(bottom) && OneLiners(body)
    ensures var pages := PagesOf(top, body, bottom, max, bare);
            && Paged(pages, top, body, bottom, max) && Tight(pages, top, bottom, max)
            && (!bare ==> forall q :: q in pages ==> Body(q, |top|, |bottom|) != [])
  {
    var done := FilledPages(top, body, bottom, max, bare);
    var p := Filled(top, body, bottom, max, bare);
    FinishPage(p.pages, top, bottom, done, p.cur, max);
    assert done + [] == done;
  }

  /** The paging loop of an oversized fence, opened by `open` and closed by `close`. */
  method PageFence(open: string, close: string, body: seq<string>, max: nat) returns (pages: seq<string>)
    requires OneLine(open) && OneLine(close) && OneLiners(body)
    ensures pages == PagesOf([open], body, [close], max, true)
    ensures Paged(pages, [open], body, [close], max) && Tight(pages, [open], [close], max)
  {
    var top, bottom := [open], [close];
    pages := [];
    var cur: seq<string> := [];
    for i := 0 to |body|
      invariant Filled(top, body[..i], bottom, max, true) == Filling(pages, cur)
    {
      var line := body[i];
      assert body[..i + 1][..i] == body[..i];
      if Size(Page(top, cur + [line], bottom)) <= max {
        cur := cur + [line];
      } else {
        pages := pages + [Page(top, cur, bottom)];
        cur := [line];
      }
    }
    assert body[..|body|] == body;
    PagedRight(top, body, bottom, max, true);
    if cur != [] {
      pages := pages + [Page(top, cur, bottom)];
    }
  }

  /** The paging loop of an oversized table; header and separator lead every page,
      and a page is only written once it has a row. */
  method PageTable(header: seq<string>, rows: seq<string>, max: nat) returns (pages: seq<string>)
    requires |header| == 2 && OneLiners(header) && OneLiners(rows)
    ensures pages == PagesOf(header, rows, [], max, false)
    ensures Paged(pages, header, rows, [], max) && Tight(pages, header, [], max)
    ensures forall p :: p in pages ==> Body(p, 2, 0) != []
  {
    pages := [];
    var cur: seq<string> := [];
    for i := 0 to |rows|
      invariant Filled(header, rows[..i], [], max, false) == Filling(pages, cur)
    {
      var row := rows[i];
      assert rows[..i + 1][..i] == rows[..i];
      if Size(Page(header, cur + [row], [])) <= max {
        cur := cur + [row];
      } else {
        if cur != [] {
          pages := pages + [Page(header, cur, [])];
        }
        cur := [row];
      }
    }
    assert rows[..|rows|] == rows;
    PagedRight(header, rows, [], max, false);
    if cur != [] {
      pages := pages + [Page(header, cur, [])];
    }
  }

  // ---- The two flushes of the splitter ----

  /** What is written for a table of at least one row: the table itself if it fits. */
  ghost predicate TableWritten(pages: seq<string>, lines: seq<string>, max: nat)
    requires |lines| >= 2
  {
    if Size(Unlines(lines)) <= max then pages == [Unlines(lines)]
    else Paged(pages, lines[..2], lines[2..], [], max) && Tight(pages, lines[..2], [], max)
  }

  /** What is written for a fence: the fence itself if it fits. */
  ghost predicate FenceWritten(pages: seq<string>, open: string, close: string, body: seq<string>, max: nat) {
    if body == [] || Size(Page([open], body, [close])) <= max then pages == [Page([open], body, [close])]
    else Paged(pages, [open], body, [close], max) && Tight(pages, [open], [close], max)
  }

  /** The chunks a table of at least one row is written as. */
  function TableChunks(lines: seq<string>, max: nat): seq<string>
    requires |lines| >= 2
  {
    if Size(Unlines(lines)) <= max then [Unlines(lines)] else PagesOf(lines[..2], lines[2..], [], max, false)
  }

  /** The chunks a fence is written as. */
  function FenceChunks(open: string, close: string, body: seq<string>, max: nat): seq<string> {
    var full := Page([open], body, [close]);
    if body == [] || Size(full) <= max then [full] else PagesOf([open], body, [close], max, true)
  }

  lemma {:induction false} TableChunksWritten(lines: seq<string>, max: nat)
    requires |lines| >= 2 && OneLiners(lines)
    ensures TableWritten(TableChunks(lines, max), lines, max)
  {
    PagedRight(lines[..2], lines[2..], [], max, false);
  }

  lemma {:induction false} FenceChunksWritten(open: string, close: string, body: seq<string>, max: nat)
    requires OneLine(open) && OneLine(close) && OneLiners(body)
    ensures FenceWritten(FenceChunks(open, close, body, max), open, close, body, max)
  {
    PagedRight([open], body, [close], max, true);
  }

  /** `_flush_table`: a table that fits stays whole; lines too few to be a table
      are left where they are. */
  method FlushTable(chunks: seq<string>, tableLines: seq<string>, max: nat)
    returns (out: seq<string>, rest: seq<string>)
    requires OneLiners(tableLines)
    ensures |tableLines| < 3 ==> out == chunks && rest == tableLines
    ensures |tableLines| >= 3 ==>
              && rest == [] && out == chunks + TableChunks(tableLines, max)
              && TableWritten(out[|chunks|..], tableLines, max)
  {
    if |tableLines| < 3 {
      return chunks, tableLines;
    }
    TableChunksWritten(tableLines, max);
    var full := Unlines(tableLines);
    if Size(full) <= max {
      return chunks + [full], [];
    }
    var pages := PageTable(tableLines[..2], tableLines[2..], max);
    out, rest := chunks + pages, [];
  }

  /** The marker that closes a fence: just the run of marker characters. */
  function MarkerText(m: Marker): string {
    seq(m.len, _ => m.ch)
  }

  /** `_flush_fence_and_close`: a fence that fits stays whole. */
  method FlushFence(chunks: seq<string>, open: string, close: string, body: seq<string>, max: nat)
    returns (out: seq<string>)
    requires OneLine(open) && OneLine(close) && OneLiners(body)
    ensures out == chunks + FenceChunks(open, close, body, max)
    ensures FenceWritten(out[|chunks|..], open, close, body, max)
  {
    FenceChunksWritten(open, close, body, max);
    var full := Page([open], body, [close]);
    if body == [] || Size(full) <= max {
      return chunks + [full];
    }
    var pages := PageFence(open, close, body, max);
    out := chunks + pages;
  }

  // ---- Exactly when all pages keep to the limit ----

  /** Bytes of the lines, each with its newline. */
  function SizeAll(ls: seq<string>): nat {
    if ls == [] then 0 else Size(ls[0]) + 1 + SizeAll(ls[1..])
  }

  lemma {:induction false} SizeAllConcat(a: seq<string>, b: seq<string>)
    ensures SizeAll(a + b) == SizeAll(a) + SizeAll(b)
  {
    if a == [] {
      assert a + b == b;
    } else {
      assert (a + b)[1..] == a[1..] + b;
      SizeAllConcat(a[1..], b);
    }
  }

  lemma {:induction false} SizeOfLines(ls: seq<string>)
    requires ls != []
    ensures Size(Unlines(ls)) + 1 == SizeAll(ls)
  {
    if |ls| > 1 {
      SizeOfLines(ls[1..]);
      SizeConcat(ls[0] + ['\n'], Unlines(ls[1..]));
      SizeConcat(ls[0], ['\n']);
      assert ['\n'][1..] == "";
    } else {
      assert ls[1..] == [];
    }
  }

  lemma {:induction false} SizeOfMember(ls: seq<string>, l: string)
    requires l in ls
    ensures SizeAll([l]) <= SizeAll(ls)
  {
    assert [l][1..] == [];
    if l != ls[0] { SizeOfMember(ls[1..], l); }
  }

  lemma {:induction false} SizeOfPage(top: seq<string>, body: seq<string>, bottom: seq<string>)
    requires top != []
    ensures Size(Page(top, body, bottom)) + 1 == SizeAll(top) + SizeAll(body) + SizeAll(bottom)
  {
    SizeOfLines(top + body + bottom);
    SizeAllConcat(top + body, bottom);
    SizeAllConcat(top, body);
  }

  /** Every line of the body has room on a page of its own. */
  predicate LinesFit(top: seq<string>, body: seq<string>, bottom: seq<string>, max: nat) {
    forall l :: l in body ==> Size(Page(top, [l], bottom)) <= max
  }

  lemma {:induction false} PageFromBody(p: string, top: seq<string>, bottom: seq<string>)
    requires Framed(p, top, bottom)
    ensures p == Page(top, Body(p, |top|, |bottom|), bottom)
  {
    var ls := Lines(p);
    assert ls == ls[..|top|] + ls[|top|..|ls| - |bottom|] + ls[|ls| - |bottom|..];
    JoinSplit(p, '\n');
  }

  lemma {:induction false} LineOnPage(pages: seq<string>, head: nat, tail: nat, l: string) returns (p: string)
    requires l in Flatten(Bodies(pages, head, tail))
    ensures p in pages && l in Body(p, head, tail)
  {
    if l in Body(pages[0], head, tail) {
      p := pages[0];
    } else {
      p := LineOnPage(pages[1..], head, tail, l);
    }
  }

  lemma {:induction false} BodyInBodies(pages: seq<string>, head: nat, tail: nat, p: string, l: string)
    requires p in pages && l in Body(p, head, tail)
    ensures l in Flatten(Bodies(pages, head, tail))
  {
    if p != pages[0] { BodyInBodies(pages[1..], head, tail, p, l); }
  }

  lemma {:induction false} OwnPage(p: string, top: seq<string>, bottom: seq<string>, l: string)
    requires top != [] && Framed(p, top, bottom) && l in Body(p, |top|, |bottom|)
    ensures Size(Page(top, [l], bottom)) <= Size(p)
  {
    PageFromBody(p, top, bottom);
    SizeOfPage(top, [l], bottom);
    SizeOfPage(top, Body(p, |top|, |bottom|), bottom);
    SizeOfMember(Body(p, |top|, |bottom|), l);
  }

  lemma {:induction false} SmallPageFits(
    pages: seq<string>, p: string, top: seq<string>, body: seq<string>, bottom: seq<string>, max: nat)
    requires top != [] && Paged(pages, top, body, bottom, max) && p in pages && LinesFit(top, body, bottom, max)
    requires body != []
    ensures Size(p) <= max
  {
    var own := Body(p, |top|, |bottom|);
    PageFromBody(p, top, bottom);
    assert Size(Page(top, [body[0]], bottom)) <= max;
    if Size(p) > max {
      if own == [] {
        SizeOfPage(top, [], bottom);
        SizeOfPage(top, [body[0]], bottom);
      } else {
        assert own == [own[0]];
        BodyInBodies(pages, |top|, |bottom|, p, own[0]);
      }
    }
  }

  /** The pages of a body keep to the limit exactly when each of its lines has room. */
  lemma {:induction false} PagesFit(top: seq<string>, body: seq<string>, bottom: seq<string>, max: nat, bare: bool)
    requires top != [] && OneLiners(top) && OneLiners(bottom) && OneLiners(body)
    ensures (forall p :: p in PagesOf(top, body, bottom, max, bare) ==> Size(p) <= max)
       <==> LinesFit(top, body, bottom, max)
  {
    var pages := PagesOf(top, body, bottom, max, bare);
    PagedRight(top, body, bottom, max, bare);
    if LinesFit(top, body, bottom, max) && body != [] {
      forall p | p in pages ensures Size(p) <= max {
        SmallPageFits(pages, p, top, body, bottom, max);
      }
    }
    if forall p :: p in pages ==> Size(p) <= max {
      forall l | l in body ensures Size(Page(top, [l], bottom)) <= max {
        var p := LineOnPage(pages, |top|, |bottom|, l);
        OwnPage(p, top, bottom, l);
      }
    }
  }

  // ---- Pages hold no characters of their own ----

  predicate PipeFree(ls: seq<string>) { forall l :: l in ls ==> '|' !in l }

  lemma {:induction false} PipeFreeJoin(ls: seq<string>)
    requires PipeFree(ls)
    ensures '|' !in Unlines(ls)
  {
    if |ls| > 1 { PipeFreeJoin(ls[1..]); }
  }

  lemma {:induction false} PipeFreeBody(pages: seq<string>, head: nat, tail: nat, p: string)
    requires p in pages && PipeFree(Flatten(Bodies(pages, head, tail)))
    ensures PipeFree(Body(p, head, tail))
  {
    if p != pages[0] {
      PipeFreeBody(pages[1..], head, tail, p);
    }
  }

  lemma {:induction false} FencePagesPipeFree(
      pages: seq<string>, open: string, close: string, body: seq<string>, max: nat)
    requires FenceWritten(pages, open, close, body, max)
    requires '|' !in open && '|' !in close && PipeFree(body)
    ensures PipeFree(pages)
  {
    PipeFreeJoin([open] + body + [close]);
    if !(body == [] || Size(Page([open], body, [close])) <= max) {
      forall p | p in pages ensures '|' !in p {
        var ls := Lines(p);
        PipeFreeBody(pages, 1, 1, p);
        assert ls == ls[..1] + ls[1..|ls| - 1] + ls[|ls| - 1..];
        PipeFreeJoin([open] + Body(p, 1, 1) + [close]);
        JoinSplit(p, '\n');
      }
    }
  }
}
