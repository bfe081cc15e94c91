/** The line by line walk over a finished message: which lines become text, which a
    fence and which a table, and exactly when no line is lost or doubled. */
module Blocks {
  import opened Text
  import opened LineKinds
  import opened TextChunks
  import opened Pages
  import opened Headings

  /** Lines that are written together. A fence closed by the end of the message has
      no closing line of its own. */
  datatype Block =
    | Plain(lines: seq<string>)
    | Fenced(open: string, marker: Marker, body: seq<string>, close: Option<string>)
    | Table(header: string, separator: string, rows: seq<string>)
  {
    /** The lines of the message it was made of. */
    function Source(): seq<string> {
      match this
      case Plain(lines) => lines
      case Fenced(open, _, body, close) => [open] + body + (if close.Some? then [close.value] else [])
      case Table(header, separator, rows) => [header, separator] + rows
    }

    ghost predicate Sound() {
      OneLiners(Source()) && (Fenced? ==> marker.ch in ['`', '~'])
    }
  }

  /** The chunks once a block is written behind them. */
  function BlockWritten(chunks: seq<string>, b: Block, max: nat): seq<string> {
    match b
    case Plain(lines) => TextChunked(chunks, Unlines(lines), max)
    case Fenced(open, marker, body, _) => chunks + FenceChunks(open, MarkerText(marker), body, max)
    case Table(header, separator, rows) => chunks + TableChunks([header, separator] + rows, max)
  }

  function AllWritten(blocks: seq<Block>, max: nat): seq<string> {
    if blocks == [] then []
    else BlockWritten(AllWritten(blocks[..|blocks| - 1], max), blocks[|blocks| - 1], max)
  }

  function AllSource(blocks: seq<Block>): seq<string> {
    if blocks == [] then [] else AllSource(blocks[..|blocks| - 1]) + blocks[|blocks| - 1].Source()
  }

  lemma {:induction false} OneMoreBlock(blocks: seq<Block>, b: Block, max: nat)
    ensures AllWritten(blocks + [b], max) == BlockWritten(AllWritten(blocks, max), b, max)
    ensures AllSource(blocks + [b]) == AllSource(blocks) + b.Source()
  {
    assert (blocks + [b])[..|blocks|] == blocks;
  }

  /** An open fence: the line that opened it and its marker. */
  datatype Fence = Fence(open: string, marker: Marker)

  /** What has been written, and what has been collected for the next blocks. */
  datatype State = State(
    blocks: seq<Block>, text: seq<string>, body: seq<string>, fence: Option<Fence>,
    header: Option<string>, table: seq<string>, inTable: bool)
  {
    function TextFlushed(): State {
      if fence.Some? || text == [] then this
      else this.(blocks := blocks + [Plain(text)], text := [])
    }

    function FenceFlushed(close: Option<string>): State {
      if fence.None? then this
      else this.(blocks := blocks + [Fenced(fence.value.open, fence.value.marker, body, close)], body := [], fence := None)
    }

    /** A table without rows goes back to the text, but its two lines stay collected. */
    function TableFlushed(): State {
      if inTable || (header.Some? && table != []) then
        if |table| < 3 then this.(text := text + table, inTable := false, header := None)
        else this.(blocks := blocks + [Table(table[0], table[1], table[2..])], table := [], inTable := false, header := None)
      else if header.Some? then this.(text := text + [header.value], header := None)
      else this
    }

    function Fed(k: Kind, line: string): State {
      if k.fence.Some? then
        if fence.None? then TableFlushed().TextFlushed().(fence := Some(Fence(line, k.fence.value)))
        else if k.Closes(fence.value.marker) then FenceFlushed(Some(line))
        else this
      else if fence.Some? then this.(body := body + [line])
      else FedOutside(k, line)
    }

    /** A line that is no fence, outside every fence. */
    function FedOutside(k: Kind, line: string): State {
      if inTable && k.row then this.(table := table + [line])
      else if k.separator then
        if header.Some? then TextFlushed().(table := [header.value, line], inTable := true, header := None)
        else this.(text := text + [line])
      else if k.row then
        if header.Some? then this.(text := text + [header.value] + [line], header := None)
        else this.(header := Some(line))
      else
        var s := TableFlushed();
        s.(text := s.text + [line])
    }

    function Finished(): State {
      TableFlushed().FenceFlushed(None).TextFlushed()
    }

    /** Collected but not yet written, in the order of the message. */
    function Pending(): seq<string> {
      text + if fence.Some? then [fence.value.open] + body
             else if inTable then table
             else if header.Some? then [header.value] else []
    }

    function Held(): seq<string> {
      AllSource(blocks) + Pending()
    }

    /** A header waits while the two lines of a table without rows are still collected:
        the next flush writes those two again, in place of the header. */
    predicate Stale() {
      !inTable && header.Some? && table != []
    }
  }

  const NOTHING_FED := State([], [], [], None, None, [], false)

  /** The state after some lines. */
  function Fed(view: View, lines: seq<string>): State {
    if lines == [] then NOTHING_FED
    else var line := lines[|lines| - 1]; Fed(view, lines[..|lines| - 1]).Fed(view(line), line)
  }

  lemma {:induction false} FedUpTo(view: View, lines: seq<string>, i: nat)
    requires i < |lines|
    ensures Fed(view, lines[..i + 1]) == Fed(view, lines[..i]).Fed(view(lines[i]), lines[i])
  {
    assert lines[..i + 1][..i] == lines[..i];
  }

  function BlocksOf(view: View, text: string): seq<Block> {
    Fed(view, Lines(text)).Finished().blocks
  }

  /** The chunks a message is collected into, before headings are moved. */
  function Collected(view: View, text: string, max: nat): seq<string> {
    AllWritten(BlocksOf(view, text), max)
  }

  // ---- What every state keeps ----

  ghost predicate TwoTableLines(view: View, table: seq<string>) {
    |table| >= 2 && view(table[0]).row && !view(table[0]).separator && view(table[1]).separator
  }

  ghost predicate Shape(view: View, s: State) {
    && (s.fence.None? ==> s.body == [])
    && (s.fence.Some? ==> s.text == [] && s.header.None? && !s.inTable)
    && (s.inTable ==> s.text == [] && s.header.None?)
    && (s.inTable || s.table != [] ==> TwoTableLines(view, s.table))
    && (!s.inTable ==> |s.table| <= 2)
    && (s.header.Some? ==> view(s.header.value).row && !view(s.header.value).separator)
  }

  lemma {:induction false} FedShape(view: View, s: State, line: string)
    requires Consistent(view) && Shape(view, s)
    ensures Shape(view, s.Fed(view(line), line))
  {
    assert view(line).Consistent();
  }

  lemma {:induction false} AlwaysShaped(view: View, lines: seq<string>)
    requires Consistent(view)
    ensures Shape(view, Fed(view, lines))
  {
    if lines != [] {
      AlwaysShaped(view, lines[..|lines| - 1]);
      FedShape(view, Fed(view, lines[..|lines| - 1]), lines[|lines| - 1]);
    }
  }

  // ---- No line is lost or doubled, but for two kinds of line ----

  /** The line is dropped: it looks like a fence but does not close the open one. */
  predicate Dropped(s: State, k: Kind) {
    k.fence.Some? && s.fence.Some? && !k.Closes(s.fence.value.marker)
  }

  /** The line has the table lines flushed while they are stale. */
  predicate Doubles(s: State, k: Kind) {
    s.Stale() && s.fence.None? && (k.fence.Some? || !k.row)
  }

  predicate Spoiled(view: View, lines: seq<string>) {
    lines != [] &&
    var s, k := Fed(view, lines[..|lines| - 1]), view(lines[|lines| - 1]);
    Spoiled(view, lines[..|lines| - 1]) || Dropped(s, k) || Doubles(s, k)
  }

  function Count(p: string -> bool, ls: seq<string>): nat {
    if ls == [] then 0 else (if p(ls[0]) then 1 else 0) + Count(p, ls[1..])
  }

  lemma {:induction false} CountConcat(p: string -> bool, a: seq<string>, b: seq<string>)
    ensures Count(p, a + b) == Count(p, a) + Count(p, b)
  {
    if a == [] {
      assert a + b == b;
    } else {
      assert (a + b)[1..] == a[1..] + b;
      CountConcat(p, a[1..], b);
    }
  }

  function FenceLike(view: View): string -> bool { l => view(l).fence.Some? }

  function SeparatorLike(view: View): string -> bool { l => view(l).separator }

  /** `held` stands for `lines`: equal, or else short of a fence line or with a
      separator too many. */
  ghost predicate Stands(view: View, held: seq<string>, lines: seq<string>, spoiled: bool) {
    var f, s := FenceLike(view), SeparatorLike(view);
    if !spoiled then held == lines
    else
      && Count(f, held) <= Count(f, lines) && Count(s, held) >= Count(s, lines)
      && (Count(f, held) < Count(f, lines) || Count(s, held) > Count(s, lines))
  }

  lemma {:induction false} StandsApart(view: View, held: seq<string>, lines: seq<string>, spoiled: bool)
    requires Stands(view, held, lines, spoiled)
    ensures held == lines <==> !spoiled
  {
  }

  /** Adding the same lines on both sides. */
  lemma {:induction false} StandsOn(
    view: View, held: seq<string>, lines: seq<string>, spoiled: bool, more: seq<string>)
    requires Stands(view, held, lines, spoiled)
    ensures Stands(view, held + more, lines + more, spoiled)
  {
    CountConcat(FenceLike(view), held, more);
    CountConcat(FenceLike(view), lines, more);
    CountConcat(SeparatorLike(view), held, more);
    CountConcat(SeparatorLike(view), lines, more);
  }

  lemma {:induction false} DroppedStands(
    view: View, held: seq<string>, lines: seq<string>, spoiled: bool, line: string)
    requires Consistent(view) && Stands(view, held, lines, spoiled) && view(line).fence.Some?
    ensures Stands(view, held, lines + [line], true)
  {
    assert view(line).Consistent();
    CountConcat(FenceLike(view), lines, [line]);
    CountConcat(SeparatorLike(view), lines, [line]);
    assert [line][1..] == [];
  }

  /** The two table lines in place of the header. */
  lemma {:induction false} DoubledStands(
    view: View, held: seq<string>, header: string, lines: seq<string>, spoiled: bool, table: seq<string>)
    requires Consistent(view) && Stands(view, held + [header], lines, spoiled)
    requires view(header).row && !view(header).separator && |table| == 2 && TwoTableLines(view, table)
    ensures Stands(view, held + table, lines, true)
  {
    var f, s := FenceLike(view), SeparatorLike(view);
    assert view(header).Consistent() && view(table[0]).Consistent() && view(table[1]).Consistent();
    CountConcat(f, held, [header]);
    CountConcat(s, held, [header]);
    CountConcat(f, held, table);
    CountConcat(s, held, table);
    assert [header][1..] == [] && table[1..] == [table[1]] && table[1..][1..] == [];
    assert Count(f, table) == 0 && Count(s, table) == 1;
    assert Count(f, [header]) == 0 && Count(s, [header]) == 0;
  }

  /** All that was pending, and perhaps one more line, has become a block. */
  lemma {:induction false} BlockHolds(s: State, t: State, b: Block, more: seq<string>)
    requires t.blocks == s.blocks + [b] && t.Pending() == [] && b.Source() == s.Pending() + more
    ensures t.Held() == s.Held() + more
  {
    OneMoreBlock(s.blocks, b, 0);
  }

  lemma {:induction false} TextBlock(s: State, t: State, b: Block)
    requires t.blocks == s.blocks + [b] && s.Pending() == b.Source() + t.Pending()
    ensures t.Held() == s.Held()
  {
    OneMoreBlock(s.blocks, b, 0);
    Regrouped(AllSource(s.blocks), b.Source(), t.Pending());
  }

  lemma {:induction false} Regrouped(a: seq<string>, b: seq<string>, c: seq<string>)
    ensures a + (b + c) == a + b + c
  {
  }

  lemma {:induction false} TextFlushedHolds(s: State)
    ensures s.TextFlushed().Held() == s.Held()
  {
    if s.fence.None? && s.text != [] {
      TextBlock(s, s.TextFlushed(), Plain(s.text));
    }
  }

  lemma {:induction false} FenceFlushedHolds(view: View, s: State, close: Option<string>)
    requires Shape(view, s)
    ensures s.FenceFlushed(close).Held() == s.Held() + (if s.fence.Some? && close.Some? then [close.value] else [])
  {
    if s.fence.Some? {
      var b := Fenced(s.fence.value.open, s.fence.value.marker, s.body, close);
      BlockHolds(s, s.FenceFlushed(close), b, if close.Some? then [close.value] else []);
    }
  }

  lemma {:induction false} SamePending(s: State, t: State)
    requires t.blocks == s.blocks && t.Pending() == s.Pending()
    ensures t.Held() == s.Held()
  {
  }

  lemma {:induction false} TableWrittenHolds(view: View, s: State)
    requires Shape(view, s) && s.inTable
    ensures s.TableFlushed().Held() == s.Held()
  {
    if |s.table| >= 3 {
      assert [s.table[0], s.table[1]] + s.table[2..] == s.table;
      BlockHolds(s, s.TableFlushed(), Table(s.table[0], s.table[1], s.table[2..]), []);
    } else {
      SamePending(s, s.TableFlushed());
    }
  }

  lemma {:induction false} HeldIs(s: State, text: seq<string>, more: seq<string>)
    requires s.Pending() == text + more
    ensures s.Held() == AllSource(s.blocks) + text + more
  {
  }

  lemma {:induction false} StaleHolds(view: View, s: State)
    requires Shape(view, s) && s.Stale()
    ensures s.Held() == AllSource(s.blocks) + s.text + [s.header.value]
    ensures s.TableFlushed().Held() == AllSource(s.blocks) + s.text + s.table
  {
    HeldIs(s, s.text, [s.header.value]);
    HeldIs(s.TableFlushed(), s.text, s.table);
  }

  lemma {:induction false} TableFlushedHolds(view: View, s: State)
    requires Shape(view, s) && !s.Stale()
    ensures s.TableFlushed().Held() == s.Held()
  {
    if s.inTable {
      TableWrittenHolds(view, s);
    }
  }

  lemma {:induction false} TableFlushedStands(view: View, s: State, lines: seq<string>, spoiled: bool)
    requires Consistent(view) && Shape(view, s) && Stands(view, s.Held(), lines, spoiled)
    ensures Stands(view, s.TableFlushed().Held(), lines, spoiled || s.Stale())
  {
    if !s.Stale() {
      TableFlushedHolds(view, s);
    } else {
      StaleHolds(view, s);
      DoubledStands(view, AllSource(s.blocks) + s.text, s.header.value, lines, spoiled, s.table);
    }
  }

  lemma {:induction false} HeldMore(s: State, t: State, line: string)
    requires t.blocks == s.blocks && t.Pending() == s.Pending() + [line]
    ensures t.Held() == s.Held() + [line]
  {
  }

  lemma {:induction false} TableFlushedShape(view: View, s: State)
    requires Consistent(view) && Shape(view, s) && s.fence.None?
    ensures var t := s.TableFlushed(); Shape(view, t) && t.fence.None? && t.header.None? && !t.inTable
  {
  }

  lemma {:induction false} OpeningLine(view: View, s: State, line: string)
    requires Consistent(view) && Shape(view, s) && s.fence.None? && view(line).fence.Some?
    ensures s.Fed(view(line), line).Held() == s.TableFlushed().Held() + [line]
  {
    var t := s.TableFlushed();
    TableFlushedShape(view, s);
    TextFlushedHolds(t);
    HeldMore(t.TextFlushed(), s.Fed(view(line), line), line);
  }

  lemma {:induction false} PlainLine(view: View, s: State, line: string)
    requires Consistent(view) && Shape(view, s) && s.fence.None? && view(line).fence.None? && !view(line).row
    ensures s.Fed(view(line), line).Held() == s.TableFlushed().Held() + [line]
  {
    assert view(line).Consistent();
    TableFlushedShape(view, s);
    HeldMore(s.TableFlushed(), s.Fed(view(line), line), line);
  }

  /** A line that opens a fence, or one that belongs to no table. */
  lemma {:induction false} FlushingLine(view: View, s: State, line: string, lines: seq<string>, spoiled: bool)
    requires Consistent(view) && Shape(view, s) && Stands(view, s.Held(), lines, spoiled)
    requires s.fence.None? && (view(line).fence.Some? || !view(line).row)
    ensures Stands(view, s.Fed(view(line), line).Held(), lines + [line], spoiled || s.Stale())
  {
    TableFlushedStands(view, s, lines, spoiled);
    StandsOn(view, s.TableFlushed().Held(), lines, spoiled || s.Stale(), [line]);
    if view(line).fence.Some? {
      OpeningLine(view, s, line);
    } else {
      PlainLine(view, s, line);
    }
  }

  lemma {:induction false} FedHolds(view: View, s: State, line: string)
    requires Consistent(view) && Shape(view, s)
    requires s.fence.Some? || (view(line).fence.None? && view(line).row)
    ensures s.Fed(view(line), line).Held() == s.Held() + (if Dropped(s, view(line)) then [] else [line])
  {
    var k := view(line);
    assert k.Consistent();
    if s.fence.Some? {
      if k.fence.Some? {
        FenceFlushedHolds(view, s, Some(line));
      } else {
        HeldMore(s, s.Fed(k, line), line);
      }
    } else if k.separator && !s.inTable && s.header.Some? {
      TextFlushedHolds(s);
      HeldMore(s.TextFlushed(), s.Fed(k, line), line);
    } else {
      HeldMore(s, s.Fed(k, line), line);
    }
  }

  lemma {:induction false} FedStands(view: View, s: State, line: string, lines: seq<string>, spoiled: bool)
    requires Consistent(view) && Shape(view, s) && Stands(view, s.Held(), lines, spoiled)
    ensures Stands(view, s.Fed(view(line), line).Held(), lines + [line],
                   spoiled || Dropped(s, view(line)) || Doubles(s, view(line)))
  {
    var k := view(line);
    if s.fence.None? && (k.fence.Some? || !k.row) {
      FlushingLine(view, s, line, lines, spoiled);
    } else {
      FedHolds(view, s, line);
      if Dropped(s, k) {
        DroppedStands(view, s.Held(), lines, spoiled, line);
      } else {
        StandsOn(view, s.Held(), lines, spoiled, [line]);
      }
    }
  }

  ghost predicate AllStands(view: View, lines: seq<string>) {
    Stands(view, Fed(view, lines).Held(), lines, Spoiled(view, lines))
  }

  lemma {:induction false} FedLast(view: View, front: seq<string>, line: string)
    ensures Fed(view, front + [line]) == Fed(view, front).Fed(view(line), line)
    ensures Spoiled(view, front + [line])
       <==> Spoiled(view, front) || Dropped(Fed(view, front), view(line)) || Doubles(Fed(view, front), view(line))
  {
    assert (front + [line])[..|front|] == front;
  }

  lemma {:induction false} OneMoreStands(view: View, front: seq<string>, line: string)
    requires Consistent(view) && AllStands(view, front)
    ensures AllStands(view, front + [line])
  {
    AlwaysShaped(view, front);
    FedStands(view, Fed(view, front), line, front, Spoiled(view, front));
    FedLast(view, front, line);
  }

  lemma {:induction false} LineByLine(p: seq<string> -> bool, lines: seq<string>)
    requires p([]) && forall front, line :: p(front) ==> p(front + [line])
    ensures p(lines)
  {
    if lines != [] {
      LineByLine(p, lines[..|lines| - 1]);
      assert lines == lines[..|lines| - 1] + [lines[|lines| - 1]];
    }
  }

  lemma {:induction false} AllFedStands(view: View, lines: seq<string>)
    requires Consistent(view)
    ensures AllStands(view, lines)
  {
    var p := (ls: seq<string>) => AllStands(view, ls);
    assert p([]);
    forall front, line | p(front) ensures p(front + [line]) {
      OneMoreStands(view, front, line);
    }
    LineByLine(p, lines);
    assert p(lines);
  }

  lemma {:induction false} FinishedHolds(view: View, s: State)
    requires Consistent(view) && Shape(view, s)
    ensures s.Finished().Pending() == [] && s.Finished().Held() == s.TableFlushed().Held()
  {
    var t := s.TableFlushed();
    assert Shape(view, t);
    FenceFlushedHolds(view, t, None);
    TextFlushedHolds(t.FenceFlushed(None));
  }

  /** Every line of a message, fences and tables included, ends up in exactly one block,
      in order, exactly when none is dropped inside a fence and no table without rows
      is written a second time in place of a later header. */
  lemma {:induction false} LinesAreKept(view: View, text: string)
    requires Consistent(view)
    ensures AllSource(BlocksOf(view, text)) == Lines(text)
       <==> !Spoiled(view, Lines(text)) && !Fed(view, Lines(text)).Stale()
  {
    var lines := Lines(text);
    var s := Fed(view, lines);
    AllFedStands(view, lines);
    AlwaysShaped(view, lines);
    TableFlushedStands(view, s, lines, Spoiled(view, lines));
    FinishedHolds(view, s);
    StandsApart(view, s.TableFlushed().Held(), lines, Spoiled(view, lines) || s.Stale());
  }

  // ---- Every block is written whole ----

  ghost predicate Clean(s: State) {
    && (forall b :: b in s.blocks ==> b.Sound())
    && OneLiners(s.text) && OneLiners(s.body) && OneLiners(s.table) && (s.header.Some? ==> OneLine(s.header.value))
    && (s.fence.Some? ==> OneLine(s.fence.value.open) && s.fence.value.marker.ch in ['`', '~'])
  }

  lemma {:induction false} TextFlushedClean(s: State)
    requires Clean(s)
    ensures Clean(s.TextFlushed())
  {
  }

  lemma {:induction false} TableFlushedClean(s: State)
    requires Clean(s)
    ensures Clean(s.TableFlushed())
  {
  }

  lemma {:induction false} FlushedClean(s: State, close: Option<string>)
    requires Clean(s) && (close.Some? ==> OneLine(close.value))
    ensures Clean(s.TextFlushed()) && Clean(s.TableFlushed()) && Clean(s.FenceFlushed(close))
  {
    TextFlushedClean(s);
    TableFlushedClean(s);
  }

  lemma {:induction false} FedClean(view: View, s: State, line: string)
    requires Consistent(view) && Clean(s) && OneLine(line)
    ensures Clean(s.Fed(view(line), line))
  {
    assert view(line).Consistent();
    FlushedClean(s, Some(line));
    FlushedClean(s.TableFlushed(), None);
  }

  lemma {:induction false} FinishedClean(s: State)
    requires Clean(s)
    ensures Clean(s.Finished())
  {
    FlushedClean(s, None);
    FlushedClean(s.TableFlushed(), None);
    FlushedClean(s.TableFlushed().FenceFlushed(None), None);
  }

  lemma {:induction false} AllFedClean(view: View, lines: seq<string>)
    requires Consistent(view) && OneLiners(lines)
    ensures Clean(Fed(view, lines))
  {
    if lines != [] {
      AllFedClean(view, lines[..|lines| - 1]);
      FedClean(view, Fed(view, lines[..|lines| - 1]), lines[|lines| - 1]);
    }
  }

  lemma {:induction false} BlocksSound(view: View, text: string)
    requires Consistent(view)
    ensures forall b :: b in BlocksOf(view, text) ==> b.Sound()
  {
    SplitPieces(text, '\n');
    AllFedClean(view, Lines(text));
    FinishedClean(Fed(view, Lines(text)));
  }

  /** Text keeps its ink, a fence or table all its lines, in order, whole if that fits. */
  lemma {:induction false} BlockIsWritten(chunks: seq<string>, b: Block, max: nat)
    requires b.Sound()
    ensures var out := BlockWritten(chunks, b, max);
            match b
            case Plain(lines) => Added(chunks, Unlines(lines), out, max)
            case Fenced(open, marker, body, _) =>
              chunks <= out && FenceWritten(out[|chunks|..], open, MarkerText(marker), body, max)
            case Table(header, separator, rows) =>
              chunks <= out && TableWritten(out[|chunks|..], [header, separator] + rows, max)
  {
    match b
    case Plain(lines) =>
      TextAdds(chunks, Unlines(lines), max);
    case Fenced(open, marker, body, _) =>
      FenceChunksWritten(open, MarkerText(marker), body, max);
    case Table(header, separator, rows) =>
      TableChunksWritten([header, separator] + rows, max);
  }

  // ---- Exactly when all chunks keep to the limit ----

  /** The block fits as a whole, or each of its lines fits into the repeated frame. */
  predicate HasRoom(b: Block, max: nat) {
    match b
    case Plain(_) => true
    case Fenced(open, marker, body, _) =>
      var close := MarkerText(marker);
      Size(Page([open], body, [close])) <= max || (body != [] && LinesFit([open], body, [close], max))
    case Table(header, separator, rows) =>
      Size(Unlines([header, separator] + rows)) <= max || LinesFit([header, separator], rows, [], max)
  }

  lemma {:induction false} BoundedConcat(a: seq<string>, b: seq<string>, max: nat)
    ensures Bounded(a + b, max) <==> Bounded(a, max) && Bounded(b, max)
  {
    assert forall c :: c in a + b <==> c in a || c in b;
  }

  lemma {:induction false} FenceBound(open: string, close: string, body: seq<string>, max: nat)
    requires OneLine(open) && OneLine(close) && OneLiners(body)
    ensures Bounded(FenceChunks(open, close, body, max), max)
       <==> Size(Page([open], body, [close])) <= max || (body != [] && LinesFit([open], body, [close], max))
  {
    PagesFit([open], body, [close], max, true);
  }

  lemma {:induction false} TableBound(header: string, separator: string, rows: seq<string>, max: nat)
    requires OneLiners([header, separator]) && OneLiners(rows)
    ensures Bounded(TableChunks([header, separator] + rows, max), max)
       <==> Size(Unlines([header, separator] + rows)) <= max || LinesFit([header, separator], rows, [], max)
  {
    PagesFit([header, separator], rows, [], max, false);
    assert ([header, separator] + rows)[..2] == [header, separator] && ([header, separator] + rows)[2..] == rows;
  }

  lemma {:induction false} BlockBound(chunks: seq<string>, b: Block, max: nat)
    requires 4 <= max && b.Sound()
    ensures Bounded(BlockWritten(chunks, b, max), max) <==> Bounded(chunks, max) && HasRoom(b, max)
  {
    match b
    case Plain(lines) =>
      TextKeepsBound(chunks, Unlines(lines), max);
    case Fenced(open, marker, body, _) =>
      FenceBound(open, MarkerText(marker), body, max);
      BoundedConcat(chunks, FenceChunks(open, MarkerText(marker), body, max), max);
    case Table(header, separator, rows) =>
      assert OneLiners([header, separator]) && OneLiners(rows) by {
        assert forall l :: l in [header, separator] || l in rows ==> l in b.Source();
      }
      TableBound(header, separator, rows, max);
      BoundedConcat(chunks, TableChunks([header, separator] + rows, max), max);
  }

  lemma {:induction false} OneMoreBound(front: seq<Block>, b: Block, max: nat)
    requires 4 <= max && b.Sound()
    ensures Bounded(AllWritten(front + [b], max), max) <==> Bounded(AllWritten(front, max), max) && HasRoom(b, max)
  {
    OneMoreBlock(front, b, max);
    BlockBound(AllWritten(front, max), b, max);
  }

  lemma {:induction false} BlocksBound(blocks: seq<Block>, max: nat)
    requires 4 <= max && forall b :: b in blocks ==> b.Sound()
    ensures Bounded(AllWritten(blocks, max), max) <==> forall b :: b in blocks ==> HasRoom(b, max)
  {
    if blocks != [] {
      var front, b := blocks[..|blocks| - 1], blocks[|blocks| - 1];
      assert blocks == front + [b];
      BlocksBound(front, max);
      OneMoreBound(front, b, max);
    }
  }

  /** The collected chunks keep to the limit exactly when every fence and table that
      does not fit as a whole has lines that each fit into its frame. */
  lemma {:induction false} CollectedBound(view: View, text: string, max: nat)
    requires Consistent(view) && 4 <= max
    ensures Bounded(Collected(view, text, max), max)
       <==> forall b :: b in BlocksOf(view, text) ==> HasRoom(b, max)
  {
    BlocksSound(view, text);
    BlocksBound(BlocksOf(view, text), max);
  }
}
