/** Splitting a finished message: the walk that collects text, fences and tables into
    chunks, and the whole pass with what it guarantees. */
module Splitter {
  import opened Text
  import opened LineKinds
  import opened TextChunks
  import opened Pages
  import opened Headings
  import opened Blocks
  import opened WordsKept

  method WriteText(chunks: seq<string>, lines: seq<string>, max: nat, ghost blocks: seq<Block>)
    returns (out: seq<string>)
    requires chunks == AllWritten(blocks, max)
    ensures out == AllWritten(blocks + [Plain(lines)], max)
  {
    OneMoreBlock(blocks, Plain(lines), max);
    out := ChunkText(Unlines(lines), max, chunks);
  }

  method WriteFence(
    chunks: seq<string>, f: Fence, body: seq<string>, max: nat, ghost blocks: seq<Block>, ghost close: Option<string>)
    returns (out: seq<string>)
    requires chunks == AllWritten(blocks, max)
    requires OneLine(f.open) && OneLine(MarkerText(f.marker)) && OneLiners(body)
    ensures out == AllWritten(blocks + [Fenced(f.open, f.marker, body, close)], max)
  {
    OneMoreBlock(blocks, Fenced(f.open, f.marker, body, close), max);
    out := FlushFence(chunks, f.open, MarkerText(f.marker), body, max);
  }

  method WriteTable(chunks: seq<string>, lines: seq<string>, max: nat, ghost blocks: seq<Block>)
    returns (out: seq<string>, rest: seq<string>)
    requires chunks == AllWritten(blocks, max) && |lines| >= 3 && OneLiners(lines)
    ensures rest == [] && out == AllWritten(blocks + [Table(lines[0], lines[1], lines[2..])], max)
  {
    OneMoreTable(blocks, lines, max);
    out, rest := FlushTable(chunks, lines, max);
  }

  lemma {:induction false} OneMoreTable(blocks: seq<Block>, lines: seq<string>, max: nat)
    requires |lines| >= 3
    ensures AllWritten(blocks + [Table(lines[0], lines[1], lines[2..])], max)
         == AllWritten(blocks, max) + TableChunks(lines, max)
  {
    OneMoreBlock(blocks, Table(lines[0], lines[1], lines[2..]), max);
    assert [lines[0], lines[1]] + lines[2..] == lines;
  }

  class Collector {
    const view: View
    const max: nat
    var chunks: seq<string>
    var textLines: seq<string>
    var fenceBody: seq<string>
    var fence: Option<Fence>
    var header: Option<string>
    var tableLines: seq<string>
    var inTable: bool
    /** What the chunks were written from. */
    ghost var blocks: seq<Block>

    constructor (view: View, max: nat)
      requires Consistent(view)
      ensures Valid() && this.view == view && this.max == max && Value() == NOTHING_FED
    {
      this.view, this.max := view, max;
      chunks, textLines, fenceBody, tableLines := [], [], [], [];
      fence, header, inTable := None, None, false;
      blocks := [];
    }

    ghost function Value(): State
      reads this
    {
      State(blocks, textLines, fenceBody, fence, header, tableLines, inTable)
    }

    ghost predicate Valid()
      reads this
    {
      Consistent(view) && Fine(view, Value()) && Written()
    }

    ghost predicate Written()
      reads this
    {
      chunks == AllWritten(blocks, max)
    }

    /** The open fence consists of single lines. */
    ghost predicate FenceReady()
      reads this
    {
      fence.Some? ==> OneLine(fence.value.open) && OneLine(MarkerText(fence.value.marker)) && OneLiners(fenceBody)
    }

    /** `flush_text_buf`. */
    method FlushText()
      requires Written()
      modifies this
      ensures Written() && Value() == old(Value()).TextFlushed()
    {
      if fence.Some? {
        return;
      }
      if textLines != [] {
        chunks := WriteText(chunks, textLines, max, blocks);
        blocks := blocks + [Plain(textLines)];
        textLines := [];
      }
    }

    /** `flush_fence_and_close`, at the line `close` or at the end of the message. */
    method FlushFenceAndClose(ghost close: Option<string>)
      requires Written() && FenceReady()
      modifies this
      ensures Written() && Value() == old(Value()).FenceFlushed(close)
    {
      if fence.None? {
        return;
      }
      chunks := WriteFence(chunks, fence.value, fenceBody, max, blocks, close);
      blocks := blocks + [Fenced(fence.value.open, fence.value.marker, fenceBody, close)];
      fenceBody := [];
      fence := None;
    }

    /** `flush_table_lines`: a header still waiting goes to the text, unless the lines
        of an earlier table are still there. */
    method FlushTableLines()
      requires Written() && OneLiners(tableLines)
      modifies this
      ensures Written() && Value() == old(Value()).TableFlushed()
      ensures fence == old(fence) && fenceBody == old(fenceBody)
    {
      if inTable || (header.Some? && tableLines != []) {
        if |tableLines| < 3 {
          textLines := textLines + tableLines;
        } else {
          blocks := blocks + [Table(tableLines[0], tableLines[1], tableLines[2..])];
          chunks, tableLines := WriteTable(chunks, tableLines, max, old(blocks));
        }
        inTable := false;
        header := None;
      } else if header.Some? {
        textLines := textLines + [header.value];
        header := None;
      }
    }

    /** One line of the message: it is kept behind all others, unless it is dropped
        inside a fence or has stale table lines written again. */
    method Feed(line: string)
      requires Valid() && OneLine(line)
      modifies this
      ensures Valid() && Value() == old(Value()).Fed(view(line), line)
      ensures Follows(view, old(Value()), line, Value())
    {
      ghost var s := Value();
      Take(line);
      assert Value() == s.Fed(view(line), line);
      FedFine(view, s, line);
    }

    /** The branches of the loop body, in their order. */
    method Take(line: string)
      requires Written() && OneLiners(tableLines) && FenceReady()
      modifies this
      ensures Written() && Value() == old(Value()).Fed(view(line), line)
    {
      var k := view(line);
      if k.fence.Some? {
        if fence.None? {
          FlushTableLines();
          FlushText();
          fence := Some(Fence(line, k.fence.value));
        } else if k.Closes(fence.value.marker) {
          FlushFenceAndClose(Some(line));
        }
      } else if fence.Some? {
        fenceBody := fenceBody + [line];
      } else {
        TakeOutside(line);
      }
    }

    /** Those for a line that is no fence, outside every fence. */
    method TakeOutside(line: string)
      requires Written() && OneLiners(tableLines)
      modifies this
      ensures Written() && Value() == old(Value()).FedOutside(view(line), line)
    {
      var k := view(line);
      if inTable && k.row {
        tableLines := tableLines + [line];
      } else if k.separator {
        if header.Some? {
          FlushText();
          tableLines := [header.value, line];
          inTable := true;
          header := None;
        } else {
          textLines := textLines + [line];
        }
      } else if k.row {
        if header.Some? {
          textLines := textLines + [header.value];
          header := None;
          textLines := textLines + [line];
        } else {
          header := Some(line);
        }
      } else {
        FlushTableLines();
        textLines := textLines + [line];
      }
    }

    /** The closing flushes: an unfinished table or fence is written as it stands, and
        nothing stays behind. */
    method Finish()
      requires Valid()
      modifies this
      ensures Written() && Value() == old(Value()).Finished()
      ensures Value().Pending() == [] && (!old(Value()).Stale() ==> AllSource(blocks) == old(Value().Held()))
    {
      ghost var s := Value();
      FlushedClean(s, None);
      FlushTableLines();
      FlushFenceAndClose(None);
      FlushText();
      assert Value() == s.Finished();
      FinishedKeeps(view, s);
    }
  }

  ghost predicate Fine(view: View, s: State) {
    Clean(s) && Shape(view, s)
  }

  /** What one line does to all that is held. */
  ghost predicate Follows(view: View, s: State, line: string, t: State) {
    && (Dropped(s, view(line)) ==> t == s)
    && (!Dropped(s, view(line)) && !Doubles(s, view(line)) ==> t.Held() == s.Held() + [line])
  }

  lemma {:induction false} FedFine(view: View, s: State, line: string)
    requires Consistent(view) && Fine(view, s) && OneLine(line)
    ensures Fine(view, s.Fed(view(line), line)) && Follows(view, s, line, s.Fed(view(line), line))
  {
    FedClean(view, s, line);
    FedShape(view, s, line);
    FedStands(view, s, line, s.Held(), false);
  }

  lemma {:induction false} FinishedKeeps(view: View, s: State)
    requires Consistent(view) && Fine(view, s)
    ensures s.Finished().Pending() == []
    ensures !s.Stale() ==> AllSource(s.Finished().blocks) == s.Held()
  {
    FinishedHolds(view, s);
    if !s.Stale() { TableFlushedHolds(view, s); }
  }

  /** The walk over all lines and the closing flushes. */
  method Collect(view: View, text: string, max: nat) returns (chunks: seq<string>)
    requires Consistent(view)
    ensures chunks == Collected(view, text, max)
    ensures PlainText(view, text) && PipesShow(view) ==> Added([], text, chunks, max)
    ensures PlainText(view, text) && PipesShow(view) ==> Reworded(WordsOf(chunks), Words(text), TextBreaks(text, max))
    ensures 4 <= max ==> (Bounded(chunks, max) <==> forall b :: b in BlocksOf(view, text) ==> HasRoom(b, max))
  {
    var c := new Collector(view, max);
    var lines := Lines(text);
    SplitPieces(text, '\n');
    for i := 0 to |lines|
      invariant fresh(c) && c.Valid() && c.view == view && c.max == max && c.Value() == Fed(view, lines[..i])
    {
      FedUpTo(view, lines, i);
      c.Feed(lines[i]);
    }
    assert lines[..|lines|] == lines;
    c.Finish();
    chunks := c.chunks;
    if PlainText(view, text) && PipesShow(view) {
      PlainIsFlat(view, text);
      FlatCollected(view, text, max);
      TextAdds([], text, max);
      FromNothing(text, max);
    }
    if 4 <= max { CollectedBound(view, text, max); }
  }

  // ---- Text without tables and fences ----

  /** Only lines that hold a `|` are taken for table rows. */
  ghost predicate PipesShow(view: View) {
    forall s :: view(s).pipe ==> '|' in s
  }

  predicate PlainText(view: View, text: string) {
    '|' !in text && forall l :: l in Lines(text) ==> view(l).fence.None?
  }

  /** No line starts a fence or can be the header of a table. */
  predicate FlatLine(k: Kind) {
    k.fence.None? && (k.row ==> k.separator)
  }

  predicate FlatText(view: View, text: string) {
    forall l :: l in Lines(text) ==> FlatLine(view(l))
  }

  lemma {:induction false} PlainIsFlat(view: View, text: string)
    requires Consistent(view) && PipesShow(view) && PlainText(view, text)
    ensures FlatText(view, text)
  {
    forall l | l in Lines(text) ensures FlatLine(view(l)) {
      SplitPieces(text, '\n');
      assert view(l).Consistent();
    }
  }

  lemma {:induction false} FlatStep(s: State, k: Kind, line: string)
    requires FlatLine(k) && s.fence.None? && s.header.None? && s.table == [] && !s.inTable
    ensures s.Fed(k, line) == s.(text := s.text + [line])
  {
  }

  function OnlyText(lines: seq<string>): State {
    State([], lines, [], None, None, [], false)
  }

  lemma {:induction false} FlatFed(view: View, lines: seq<string>)
    requires forall l :: l in lines ==> FlatLine(view(l))
    ensures Fed(view, lines) == OnlyText(lines)
  {
    if lines != [] {
      var front, line := lines[..|lines| - 1], lines[|lines| - 1];
      assert lines == front + [line];
      FlatFed(view, front);
      FedLast(view, front, line);
      FlatStep(OnlyText(front), view(line), line);
    }
  }

  /** Such text is one block. */
  lemma {:induction false} FlatCollected(view: View, text: string, max: nat)
    requires FlatText(view, text)
    ensures Collected(view, text, max) == TextChunked([], text, max)
  {
    var lines := Lines(text);
    FlatFed(view, lines);
    JoinSplit(text, '\n');
    OneMoreBlock([], Plain(lines), max);
    assert [] + [Plain(lines)] == [Plain(lines)];
  }

  // ---- Text without a pipe comes to an end ----

  ghost predicate Pipeless(s: State) {
    && PipeFree(s.text) && PipeFree(s.body) && (s.fence.Some? ==> '|' !in s.fence.value.open)
    && s.header.None? && s.table == [] && !s.inTable
    && forall b :: b in s.blocks ==> PipelessBlock(b)
  }

  ghost predicate PipelessBlock(b: Block) {
    b.Sound() && !b.Table? && PipeFree(b.Source())
  }

  lemma {:induction false} FedPipeless(view: View, lines: seq<string>)
    requires Consistent(view) && PipesShow(view) && PipeFree(lines) && OneLiners(lines)
    ensures Pipeless(Fed(view, lines)) && Pipeless(Fed(view, lines).Finished())
  {
    if lines != [] {
      var front, line := lines[..|lines| - 1], lines[|lines| - 1];
      FedPipeless(view, front);
      AllFedClean(view, front);
      OnePipeless(view, Fed(view, front), line);
      AllFedClean(view, lines);
      FinishedPipeless(Fed(view, lines));
    }
  }

  lemma {:induction false} OnePipeless(view: View, s: State, line: string)
    requires Consistent(view) && PipesShow(view) && '|' !in line && OneLine(line) && Pipeless(s) && Clean(s)
    ensures Pipeless(s.Fed(view(line), line))
  {
    assert view(line).Consistent();
  }

  lemma {:induction false} FinishedPipeless(s: State)
    requires Pipeless(s) && Clean(s)
    ensures Pipeless(s.Finished())
  {
  }

  lemma {:induction false} PipelessWritten(blocks: seq<Block>, max: nat)
    requires forall b :: b in blocks ==> PipelessBlock(b)
    ensures NoPipes(AllWritten(blocks, max))
  {
    if blocks != [] {
      var front, b := blocks[..|blocks| - 1], blocks[|blocks| - 1];
      PipelessWritten(front, max);
      assert blocks == front + [b];
      PipelessBlockWritten(AllWritten(front, max), b, max);
    }
  }

  lemma {:induction false} PipelessBlockWritten(chunks: seq<string>, b: Block, max: nat)
    requires NoPipes(chunks) && PipelessBlock(b)
    ensures NoPipes(BlockWritten(chunks, b, max))
  {
    match b
    case Plain(lines) =>
      PipeFreeJoin(lines);
      TextAdds(chunks, Unlines(lines), max);
    case Fenced(open, marker, body, _) =>
      FenceChunksWritten(open, MarkerText(marker), body, max);
      assert PipeFree(body) && '|' !in open by {
        assert forall l :: l == open || l in body ==> l in b.Source();
      }
      FencePagesPipeFree(FenceChunks(open, MarkerText(marker), body, max), open, MarkerText(marker), body, max);
  }

  lemma {:induction false} PipeInLine(chunks: seq<string>, view: View, max: nat)
    requires Consistent(view) && PipesShow(view) && NoPipes(chunks)
    ensures NoSeparators(view, chunks) && AllLoose(view, chunks, max)
  {
    forall c, l | c in chunks && l in Lines(c) ensures !view(l).separator {
      SplitPieces(c, '\n');
      assert view(l).Consistent();
    }
  }

  /** Without a `|` in the message no chunk holds one, and the pass over them ends. */
  lemma {:induction false} PipelessEnds(view: View, text: string, max: nat)
    requires Consistent(view) && PipesShow(view) && '|' !in text
    ensures NoSeparators(view, Collected(view, text, max))
    ensures Ends(view, Walk([], Collected(view, text, max)), max)
  {
    var chunks := Collected(view, text, max);
    SplitPieces(text, '\n');
    FedPipeless(view, Lines(text));
    PipelessWritten(BlocksOf(view, text), max);
    PipeInLine(chunks, view, max);
    LooseEnds(view, Walk([], chunks), max);
  }

  // ---- The whole splitter ----

  /** The pass over the collected chunks comes to an end: `EndsUnlessStuck` says when. */
  ghost predicate SplitEnds(view: View, text: string, max: nat) {
    Size(text) > max ==> Ends(view, Walk([], Collected(view, text, max)), max)
  }

  /** `split_markdown`: short text stays whole; plain text keeps its words in order, none
      grown together and none torn but where a word or two sentences had to be cut apart; no
      heading or lead-in is left at the end of a chunk; and where every fence and table has
      room, all chunks have at most `max` bytes, except that a moved heading or lead-in of
      exactly `max` bytes gains a newline. */
  method SplitMarkdown(view: View, text: string, max: nat) returns (out: seq<string>)
    requires Consistent(view) && SplitEnds(view, text, max)
    ensures text == "" ==> out == []
    ensures text != "" && Size(text) <= max ==> out == [text]
    ensures Size(text) > max ==> Walked(view, Collected(view, text, max), max, out)
    ensures Size(text) > max ==>
              NoOrphans(view, out) && (out == Collected(view, text, max) <==> NoOrphans(view, Collected(view, text, max)))
    ensures PipesShow(view) && PlainText(view, text) ==>
              InkOf(out) == Ink(text) && Reworded(WordsOf(out), Words(text), TextBreaks(text, max))
    ensures 4 <= max && (forall b :: b in BlocksOf(view, text) ==> HasRoom(b, max)) ==>
              forall c :: c in out ==> Fits(view, c, max)
    ensures Size(text) > max >= 4 && (forall b :: b in BlocksOf(view, text) ==> HasRoom(b, max)) ==>
              ((exists c :: c in out && Size(c) > max) <==> HasFullPair(view, Collected(view, text, max), max))
  {
    if text == "" {
      return [];
    }
    if Size(text) <= max {
      InkOfOne(text);
      KeptWhole(text, max);
      return [text];
    }
    var chunks := Collect(view, text, max);
    if PipesShow(view) && '|' !in text {
      PipelessEnds(view, text, max);
      assert InkOf([]) == "";
    }
    out := DeOrphanHeadings(view, chunks, max);
    LinesCarryWords(chunks);
    LinesCarryWords(out);
    LinesCarryInk(chunks);
    LinesCarryInk(out);
  }

  /** The predicates in use meet what is required of a view. */
  lemma {:induction false} MarkdownView()
    ensures Consistent(Classify) && PipesShow(Classify)
  {
    forall s: string ensures Classify(s).Consistent() {
      ClassifyFacts(s);
    }
    forall s: string | Classify(s).pipe ensures '|' in s {
      assert PipeLine(s);
      PipeInString(s);
    }
    assert Blank("");
  }

  lemma {:induction false} PipeInString(s: string)
    requires PipeLine(s)
    ensures '|' in s
  {
    assert LStrip(s)[0] in s;
  }
}
