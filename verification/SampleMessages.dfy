/** Messages on which the splitter or the delivery does not do what one would expect. */
module SampleMessages {
  import opened Text
  import opened LineKinds
  import opened TextChunks
  import opened Pages
  import opened Headings
  import opened Blocks
  import opened WordsKept
  import opened Splitter
  import StreamCut
  import Delivery

  // ---- Two paragraphs that do not fit together ----

  lemma {:induction false} ParagraphsAround(a: string, b: string)
    requires '\n' !in a
    ensures Paragraphs(a + ['\n', '\n'] + b) == [a] + Paragraphs(b)
  {
    var t := a + ['\n', '\n'] + b;
    if a == "" {
      assert t == ['\n', '\n'] + b && t[2..] == b;
    } else {
      assert t[1..] == a[1..] + ['\n', '\n'] + b;
      ParagraphsAround(a[1..], b);
      assert [a[0]] + a[1..] == a;
    }
  }

  lemma {:induction false} LinesOfTwo(a: string, b: string)
    requires '\n' !in a
    ensures Lines(a + ['\n', '\n'] + b) == [a, ""] + Lines(b)
  {
    SplitAround(a, '\n', ['\n'] + b);
    SplitPlain(a, '\n');
    SplitAround("", '\n', b);
    assert "" + ['\n'] + b == ['\n'] + b;
    assert a + ['\n'] + (['\n'] + b) == a + ['\n', '\n'] + b;
  }

  lemma {:induction false} OneWritten(chunks: seq<string>, a: string, max: nat)
    requires Strip(a) == a && Size(a) <= max
    ensures ParagraphChunked(max)(chunks, a) == AppendOrFlush(chunks, a, max, "\n\n")
  {
  }

  lemma {:induction false} NoRoomForBoth(a: string, b: string, max: nat)
    requires b != "" && max < Size(a) + 2 + Size(b)
    ensures AppendOrFlush([a], b, max, "\n\n") == [a, b]
  {
    SizeConcat(a + "\n\n", b);
    SizeConcat(a, "\n\n");
    assert "\n\n"[1..] == ['\n'] && ['\n'][1..] == "";
    assert [a] + [b] == [a, b];
  }

  lemma {:induction false} TwoWritten(a: string, b: string, max: nat)
    requires a != "" && b != "" && Strip(a) == a && Strip(b) == b
    requires Size(a) <= max && Size(b) <= max < Size(a) + 2 + Size(b)
    ensures Folded(ParagraphChunked(max), [], [a, b]) == [a, b]
  {
    FoldedTwo(ParagraphChunked(max), a, b);
    OneWritten([], a, max);
    OneWritten([a], b, max);
    NoRoomForBoth(a, b, max);
  }

  lemma {:induction false} FoldedTwo(f: Writer, a: string, b: string)
    ensures Folded(f, [], [a, b]) == f(f([], a), b)
  {
    assert [a, b][..1] == [a] && [a][..0] == [];
    assert Folded(f, [], [a]) == f([], a);
  }

  lemma {:induction false} SizeOfTwo(a: string, b: string)
    ensures Size(a + ['\n', '\n'] + b) == Size(a) + 2 + Size(b)
  {
    SizeConcat(a + ['\n', '\n'], b);
    SizeConcat(a, ['\n', '\n']);
    assert ['\n', '\n'][1..] == ['\n'] && ['\n'][1..] == "";
  }

  /** Two paragraphs of text, each within the limit, but not both: two chunks. */
  lemma {:induction false} TwoCollected(view: View, a: string, b: string, max: nat)
    requires '\n' !in a && NoEmptyLine(b) && a != "" && b != "" && Strip(a) == a && Strip(b) == b
    requires FlatLine(view(a)) && FlatLine(view("")) && forall l :: l in Lines(b) ==> FlatLine(view(l))
    requires Size(a) <= max && Size(b) <= max < Size(a) + 2 + Size(b)
    ensures Size(a + ['\n', '\n'] + b) > max
    ensures Collected(view, a + ['\n', '\n'] + b, max) == [a, b]
  {
    var text := a + ['\n', '\n'] + b;
    LinesOfTwo(a, b);
    FlatCollected(view, text, max);
    SizeOfTwo(a, b);
    ParagraphsAround(a, b);
    OneParagraph(b);
    TwoWritten(a, b, max);
    assert [a] + [b] == [a, b];
  }

  // ---- A lead-in repeated above a separator ----

  /** Two paragraphs that the splitter takes for text. */
  ghost predicate TwoTexts(view: View, a: string, b: string, max: nat) {
    && '\n' !in a && NoEmptyLine(b) && a != "" && b != "" && Strip(a) == a && Strip(b) == b
    && FlatLine(view(a)) && FlatLine(view("")) && (forall l :: l in Lines(b) ==> FlatLine(view(l)))
    && Size(a) <= max && Size(b) <= max < Size(a) + 2 + Size(b)
  }

  lemma {:induction false} StuckMessage(view: View, a: string, b: string, max: nat)
    requires TwoTexts(view, a, b, max) && Stuck(view, [a, b], max)
    ensures Collected(view, a + ['\n', '\n'] + b, max) == [a, b]
    ensures !SplitEnds(view, a + ['\n', '\n'] + b, max)
  {
    TwoCollected(view, a, b, max);
    NoEnd(view, [a, b], max);
  }

  /** A lead-in, and the same one directly above a separator, in a paragraph that meets
      the limit. */
  predicate RepeatedLeadIn(view: View, b: string, s: string, page: string, max: nat) {
    && Trimmed(b) && Trimmed(s) && '\n' !in b && '\n' !in s && page == b + ['\n'] + s
    && view(b).leadIn && view(s).separator
    && 2 * Size(b) + 1 <= max && Size(b) + 1 + Size(s) <= max < 2 * Size(b) + 2 + Size(s)
  }

  predicate Trimmed(s: string) {
    s != "" && !IsSpace(s[0]) && !IsSpace(s[|s| - 1])
  }

  lemma {:induction false} TrimmedStrip(s: string)
    requires Trimmed(s)
    ensures LStrip(s) == s && Strip(s) == s
  {
    assert LStrip(s) == s;
    NoTrailingSpace(s);
  }

  lemma {:induction false} NoTrailingSpace(s: string)
    requires Trimmed(s)
    ensures RStrip(s) == s
  {
  }

  lemma {:induction false} TrimmedPage(b: string, s: string)
    requires Trimmed(b) && Trimmed(s)
    ensures Trimmed(b + ['\n'] + s)
  {
  }

  lemma {:induction false} PageFlat(view: View, b: string, s: string, page: string, max: nat)
    requires Consistent(view) && RepeatedLeadIn(view, b, s, page, max)
    ensures FlatLine(view(b)) && FlatLine(view("")) && forall l :: l in Lines(page) ==> FlatLine(view(l))
    ensures Size(page) == Size(b) + 1 + Size(s) && NoEmptyLine(page) && Trimmed(page)
  {
    PageLines(b, s);
    LeadInFlat(view, b, s);
    LineBreakOnly(b, s);
    TrimmedPage(b, s);
  }

  lemma {:induction false} PageTexts(view: View, b: string, s: string, page: string, max: nat)
    requires Consistent(view) && RepeatedLeadIn(view, b, s, page, max)
    ensures TwoTexts(view, b, page, max)
  {
    PageFlat(view, b, s, page, max);
    TrimmedStrip(b);
    TrimmedStrip(page);
  }

  lemma {:induction false} PageStuck(view: View, b: string, s: string, page: string, max: nat)
    requires Consistent(view) && RepeatedLeadIn(view, b, s, page, max)
    ensures Stuck(view, [b, page], max)
  {
    StuckList(view, b, s, max);
  }

  /** Such a message is collected into two chunks on which the pass never ends. */
  lemma {:induction false} LeadInAboveSeparator(view: View, b: string, s: string, page: string, max: nat)
    requires Consistent(view) && RepeatedLeadIn(view, b, s, page, max)
    ensures Collected(view, b + ['\n', '\n'] + page, max) == [b, page]
    ensures !SplitEnds(view, b + ['\n', '\n'] + page, max)
  {
    PageTexts(view, b, s, page, max);
    PageStuck(view, b, s, page, max);
    StuckMessage(view, b, page, max);
  }

  lemma {:induction false} PageLines(b: string, s: string)
    requires '\n' !in b && '\n' !in s
    ensures Lines(b + ['\n'] + s) == [b, s] && Size(b + ['\n'] + s) == Size(b) + 1 + Size(s)
  {
    UnlinesOfTwo(b, s);
    SplitJoin([b, s], '\n');
  }

  lemma {:induction false} LeadInFlat(view: View, b: string, s: string)
    requires Consistent(view) && view(b).leadIn && view(s).separator
    ensures FlatLine(view(b)) && FlatLine(view("")) && FlatLine(view(s))
  {
    assert view(b).Consistent() && view("").Consistent() && view(s).Consistent();
  }

  lemma {:induction false} LineBreakOnly(b: string, s: string)
    requires '\n' !in b && '\n' !in s && s != ""
    ensures NoEmptyLine(b + ['\n'] + s)
  {
    var t := b + ['\n'] + s;
    forall i | 0 <= i < |t| ensures t[i] == '\n' <==> i == |b| {
      assert i > |b| ==> t[i] == s[i - |b| - 1];
    }
  }

  lemma {:induction false} NoEnd(view: View, list: seq<string>, max: nat)
    requires Stuck(view, list, max)
    ensures !Ends(view, Walk([], list), max)
  {
    assert After(view, Walk([], list), max, 0) == Walk([], list);
    if Ends(view, Walk([], list), max) {
      NeverStuck(view, Walk([], list), max, 0);
    }
  }

  lemma {:induction false} StuckList(view: View, b: string, s: string, max: nat)
    requires Consistent(view) && '\n' !in b && '\n' !in s
    requires view(b).leadIn && view(s).separator
    requires 2 * Size(b) + 1 <= max < 2 * Size(b) + 2 + Size(s)
    ensures Stuck(view, [b, b + ['\n'] + s], max)
  {
    UnlinesOfTwo(b, s);
    SplitJoin([b, s], '\n');
    SplitPlain(b, '\n');
    assert view(b).Consistent();
    assert [b, s][..1] == [b] && [b, s][..2] == [b, s] && Unlines([b]) == b;
  }

  // ---- A lead-in that fills the limit ----

  /** Two lead-ins as long as the limit: the first one is written with a newline behind it. */
  lemma {:induction false} LeadInOverLimit(view: View, b: string)
    requires Consistent(view) && '\n' !in b && b != "" && Strip(b) == b && view(b).leadIn
    ensures var max := Size(b);
            Collected(view, b + ['\n', '\n'] + b, max) == [b, b] && Size(b + ['\n', '\n'] + b) > max
    ensures After(view, Walk([], [b, b]), Size(b), 3) == Walk([b + ['\n'], b], [])
    ensures Size(b + ['\n']) == Size(b) + 1
  {
    var max := Size(b);
    SplitPlain(b, '\n');
    assert view(b).Consistent() && view("").Consistent();
    NoBreaks(b);
    TwoCollected(view, b, b, max);
    SizeConcat(b, ['\n']);
    assert ['\n'][1..] == "";
    FirstMoves(view, b);
    SecondStays(view, b);
    AfterOne(view, Walk([], [b, b]), max, 2);
    AfterOne(view, Walk([], [b + ['\n'], b]), max, 1);
    AfterOne(view, Walk([b + ['\n']], [b]), max, 0);
    assert [b + ['\n']] + [b] == [b + ['\n'], b];
  }

  lemma {:induction false} NoBreaks(s: string)
    requires '\n' !in s
    ensures NoEmptyLine(s)
  {
  }

  lemma {:induction false} FirstMoves(view: View, b: string)
    requires Consistent(view) && '\n' !in b && view(b).leadIn
    ensures Advance(view, Walk([], [b, b]), Size(b)) == Walk([], [b + ['\n'], b])
  {
    SplitPlain(b, '\n');
    assert view(b).Consistent();
    assert Unlines([b]) == b && [b][..0] == [] && [b][0..] == [b];
    assert Room(b, [b], Size(b)) == 0;
    assert Given(b, []) == b + ['\n'];
  }

  lemma {:induction false} SecondStays(view: View, b: string)
    requires Consistent(view) && '\n' !in b
    ensures Advance(view, Walk([], [b + ['\n'], b]), Size(b)) == Walk([b + ['\n']], [b])
    ensures Advance(view, Walk([b + ['\n']], [b]), Size(b)) == Walk([b + ['\n'], b], [])
  {
    SplitAround(b, '\n', "");
    SplitPlain(b, '\n');
    assert b + ['\n'] + "" == b + ['\n'];
  }

  // ---- A fence line inside a fence ----

  /** A fence holding a line of another marker: that line is in no block. */
  lemma {:induction false} FenceInFence(view: View, open: string, inner: string, close: string)
    requires '\n' !in open && '\n' !in inner && '\n' !in close
    requires view(open).fence.Some? && view(inner).fence.Some? && view(close).fence.Some?
    requires !view(inner).Closes(view(open).fence.value) && view(close).Closes(view(open).fence.value)
    ensures BlocksOf(view, Unlines([open, inner, close]))
         == [Fenced(open, view(open).fence.value, [], Some(close))]
  {
    var s0, s1 := Fed(view, []), Fed(view, [open]);
    SplitJoin([open, inner, close], '\n');
    FedLast(view, [], open);
    FedLast(view, [open], inner);
    FedLast(view, [open, inner], close);
    assert [] + [open] == [open] && [open] + [inner] == [open, inner];
    assert [open, inner] + [close] == [open, inner, close];
    assert s1 == s0.(fence := Some(Fence(open, view(open).fence.value)));
    assert Fed(view, [open, inner]) == s1;
  }

  // ---- A table without rows, and a table header further down ----

  lemma {:induction false} HeaderStep(s: State, k: Kind, line: string)
    requires s.fence.None? && s.header.None? && !s.inTable && k.row && !k.separator && k.fence.None?
    ensures s.Fed(k, line) == s.(header := Some(line))
  {
  }

  lemma {:induction false} SeparatorStep(h: string, k: Kind, line: string)
    requires k.separator && k.fence.None?
    ensures State([], [], [], None, Some(h), [], false).Fed(k, line)
         == State([], [], [], None, None, [h, line], true)
  {
  }

  lemma {:induction false} FlushStep(s: State, k: Kind, line: string)
    requires s.fence.None? && |s.table| == 2 && (s.inTable || s.header.Some?)
    requires k.fence.None? && !k.row && !k.separator
    ensures s.Fed(k, line) == s.(text := s.text + s.table + [line], inTable := false, header := None)
  {
  }

  function Lost(h: string, s: string, text: seq<string>, header: Option<string>): State {
    State([], text, [], None, header, [h, s], false)
  }

  lemma {:induction false} ThreeFed(view: View, h: string, s: string, p: string)
    requires Consistent(view)
    requires view(h).row && !view(h).separator && view(s).separator && !view(p).row && view(p).fence.None?
    ensures Fed(view, [h, s, p]) == Lost(h, s, [h, s, p], None)
  {
    assert view(h).Consistent() && view(s).Consistent() && view(p).Consistent();
    FedLast(view, [], h);
    FedLast(view, [h], s);
    FedLast(view, [h, s], p);
    assert [] + [h] == [h] && [h] + [s] == [h, s] && [h, s] + [p] == [h, s, p];
    HeaderStep(NOTHING_FED, view(h), h);
    SeparatorStep(h, view(s), s);
    FlushStep(State([], [], [], None, None, [h, s], true), view(p), p);
    assert [] + [h, s] + [p] == [h, s, p];
  }

  lemma {:induction false} FiveFed(view: View, h: string, s: string, p: string, r: string, q: string)
    requires Consistent(view) && Fed(view, [h, s, p]) == Lost(h, s, [h, s, p], None)
    requires view(r).row && !view(r).separator && !view(q).row && view(q).fence.None?
    ensures Fed(view, [h, s, p, r, q]) == Lost(h, s, [h, s, p, h, s, q], None)
  {
    assert view(r).Consistent() && view(q).Consistent();
    FedLast(view, [h, s, p], r);
    FedLast(view, [h, s, p, r], q);
    assert [h, s, p] + [r] == [h, s, p, r] && [h, s, p, r] + [q] == [h, s, p, r, q];
    HeaderStep(Lost(h, s, [h, s, p], None), view(r), r);
    FlushStep(Lost(h, s, [h, s, p], Some(r)), view(q), q);
    assert [h, s, p] + [h, s] + [q] == [h, s, p, h, s, q];
  }

  /** The header is in no block; the table without rows is in the text twice. */
  lemma {:induction false} HeaderLost(view: View, h: string, s: string, p: string, r: string, q: string)
    requires Consistent(view)
    requires '\n' !in h && '\n' !in s && '\n' !in p && '\n' !in r && '\n' !in q
    requires view(h).row && !view(h).separator && view(s).separator && view(r).row && !view(r).separator
    requires !view(p).row && view(p).fence.None? && !view(q).row && view(q).fence.None?
    ensures BlocksOf(view, Unlines([h, s, p, r, q])) == [Plain([h, s, p, h, s, q])]
  {
    SplitJoin([h, s, p, r, q], '\n');
    ThreeFed(view, h, s, p);
    FiveFed(view, h, s, p, r, q);
    assert Lost(h, s, [h, s, p, h, s, q], None).Finished().blocks == [Plain([h, s, p, h, s, q])];
  }

  // ---- Sample lines ----

  /** A view that shows what the line predicates say. */
  ghost predicate Shows(view: View) {
    && Consistent(view)
    && forall l ::
         && (view(l).leadIn <==> LeadInLine(l)) && (view(l).row <==> TableRow(l))
         && (view(l).separator <==> TableSeparator(l)) && view(l).fence == FenceMarker(l)
  }

  lemma {:induction false} MarkdownShows()
    ensures Shows(Classify)
  {
    MarkdownView();
  }

  lemma {:induction false} NoDotsNoUrl(line: string)
    requires Strip(line) == line && '.' !in line && '/' !in line
    ensures !UrlLine(line)
  {
    NoUrlBody(line);
  }

  lemma {:induction false} NoScheme(s: string)
    requires '/' !in s
    ensures DropScheme(s) == s
  {
    assert "http://"[5] == '/' && "https://"[6] == '/';
  }

  lemma {:induction false} NoUrlBody(s: string)
    requires '.' !in s && '/' !in s
    ensures !UrlBody(s)
  {
    NoScheme(s);
    UntilChars(s, '/');
    UntilChars(Until(s, '/'), ':');
    NoHostName(Until(s, '/'));
    NoHostName(Until(Until(s, '/'), ':'));
  }

  lemma {:induction false} NoHostName(s: string)
    requires '.' !in s
    ensures !HostName(s) && !DottedQuad(s)
  {
    SplitPlain(s, '.');
  }

  lemma {:induction false} UntilChars(s: string, c: char)
    ensures forall d :: d in Until(s, c) ==> d in s
  {
    if s != "" { UntilChars(s[1..], c); }
  }

  lemma {:induction false} WordIsText(line: string)
    requires line != "" && LStrip(line) == line && Strip(line) == line && 'a' <= line[0] <= 'z'
    ensures !TableRow(line) && !TableSeparator(line) && !PipeLine(line) && FenceMarker(line).None? && !Annotation(line)
  {
  }

  /** A word and a colon. */
  predicate WordAndColon(line: string) {
    |line| >= 2 && 'a' <= line[0] <= 'z' && line[|line| - 1] == ':' &&
    forall c :: c in line ==> 'a' <= c <= 'z' || c == ':'
  }

  lemma {:induction false} SampleLeadIn(line: string)
    requires WordAndColon(line)
    ensures LeadInLine(line) && Trimmed(line) && '\n' !in line && Size(line) == |line|
  {
    TrimmedStrip(line);
    NoDotsNoUrl(line);
    WordIsText(line);
    AsciiSize(line);
  }

  lemma {:induction false} AsciiSize(s: string)
    requires forall c :: c in s ==> c as int < 0x80
    ensures Size(s) == |s|
  {
    if s != "" {
      assert s[0] in s && forall c :: c in s[1..] ==> c in s;
      AsciiSize(s[1..]);
    }
  }

  lemma {:induction false} SplitInTwo(a: string, b: string)
    requires '|' !in a && '|' !in b
    ensures Split(a + ['|'] + b, '|') == [a, b]
  {
    SplitAround(a, '|', b);
    SplitPlain(a, '|');
    SplitPlain(b, '|');
  }

  /** A line of two cells of one character. */
  function TwoCells(a: char, b: char): string {
    ['|', a, '|', b, '|']
  }

  lemma {:induction false} CellsOfTwo(line: string, a: char, b: char)
    requires line == TwoCells(a, b) && a != '|' && b != '|'
    ensures Cells(line) == Some([[a], [b]])
  {
    TrimmedStrip(line);
    SplitInTwo([a], [b]);
    assert line[1..|line| - 1] == [a] + ['|'] + [b];
  }

  lemma {:induction false} RowOfCells(line: string, a: string, b: string)
    requires Cells(line) == Some([a, b])
    ensures TableRow(line)
    ensures TableSeparator(line) <==> DashCell(a) && DashCell(b)
  {
    assert [a, b][1..] == [b] && [b][1..] == [];
    assert DashCells([b]) <==> DashCell(b);
  }

  lemma {:induction false} RunOfAll(s: string, c: char)
    requires forall d :: d in s ==> d == c
    ensures Run(s, c) == |s|
  {
    if s != "" {
      assert s[0] in s && forall d :: d in s[1..] ==> d in s;
      RunOfAll(s[1..], c);
    }
  }

  lemma {:induction false} NoRun(s: string, c: char)
    requires c !in s
    ensures Run(s, c) == 0
  {
  }

  lemma {:induction false} LetterIsNoDash(s: string)
    requires '-' !in s
    ensures !Dashes(s)
  {
    NoRun(s, '-');
    if s != "" { NoRun(s[1..], '-'); }
  }

  lemma {:induction false} DashesAre(s: string)
    requires s != "" && forall d :: d in s ==> d == '-'
    ensures Dashes(s)
  {
    RunOfAll(s, '-');
    assert s[0] in s && s[|s|..] == "";
  }

  lemma {:induction false} OneChar(cell: string, c: char)
    requires cell == [c] && ('a' <= c <= 'z' || c == '-')
    ensures Trimmed(cell)
    ensures if c == '-' then forall d :: d in cell ==> d == '-' else '-' !in cell
  {
  }

  lemma {:induction false} CellOf(cell: string, dashes: bool)
    requires Trimmed(cell)
    requires if dashes then forall d :: d in cell ==> d == '-' else '-' !in cell
    ensures DashCell(cell) <==> dashes
  {
    TrimmedStrip(cell);
    StrippedCell(cell);
    if dashes {
      DashesAre(cell);
    } else {
      LetterIsNoDash(cell);
    }
  }

  lemma {:induction false} CellOfOne(cell: string, c: char)
    requires cell == [c] && ('a' <= c <= 'z' || c == '-')
    ensures DashCell(cell) <==> c == '-'
  {
    OneChar(cell, c);
    CellOf(cell, c == '-');
  }

  lemma {:induction false} StrippedCell(cell: string)
    requires Strip(cell) == cell
    ensures DashCell(cell) <==> Dashes(cell)
  {
  }

  lemma {:induction false} RowOfTwo(line: string, a: char, b: char, left: string, right: string)
    requires line == TwoCells(a, b) && left == [a] && right == [b]
    requires ('a' <= a <= 'z' || a == '-') && ('a' <= b <= 'z' || b == '-')
    ensures TableRow(line) && (TableSeparator(line) <==> a == '-' && b == '-')
  {
    CellsOfTwo(line, a, b);
    CellOfOne(left, a);
    CellOfOne(right, b);
    RowOfCells(line, left, right);
  }

  /** `|a|b|` is a row, and a separator when both cells are dashes. */
  lemma {:induction false} SampleRow(line: string, a: char, b: char)
    requires line == TwoCells(a, b)
    requires ('a' <= a <= 'z' || a == '-') && ('a' <= b <= 'z' || b == '-')
    ensures TableRow(line) && (TableSeparator(line) <==> a == '-' && b == '-')
  {
    RowOfTwo(line, a, b, [a], [b]);
  }

  lemma {:induction false} RowChars(line: string, a: char, b: char)
    requires line == TwoCells(a, b)
    requires ('a' <= a <= 'z' || a == '-') && ('a' <= b <= 'z' || b == '-')
    ensures Trimmed(line) && '\n' !in line && Size(line) == 5
  {
    AsciiSize(line);
  }

  lemma {:induction false} SampleFence(line: string, c: char)
    requires |line| == 3 && (forall d :: d in line ==> d == c) && (c == '`' || c == '~')
    ensures FenceMarker(line) == Some(Marker(c, 3))
  {
    assert line[0] in line && line[2] in line;
    TrimmedStrip(line);
    RunOfAll(line, c);
  }

  predicate AllOf(s: string, c: char) {
    forall d :: d in s ==> d == c
  }

  lemma {:induction false} TicksAlone(line: string)
    requires |line| == 3 && AllOf(line, '`')
    ensures LStrip(line) == line && Blank(line[3..])
  {
    assert line[0] in line && line[2] in line;
    TrimmedStrip(line);
    assert line[3..] == "" && Blank("");
  }

  lemma {:induction false} RunThenLetter(s: string, c: char, d: char)
    requires AllOf(s, c) && d != c
    ensures Run(s + [d], c) == |s|
  {
    if s != "" {
      assert s[0] in s && forall e :: e in s[1..] ==> e in s;
      assert (s + [d])[1..] == s[1..] + [d];
      RunThenLetter(s[1..], c, d);
    }
  }

  lemma {:induction false} LetterNotBlank(s: string, c: char)
    requires s == [c] && 'a' <= c <= 'z'
    ensures !Blank(s)
  {
    TrimmedStrip(s);
  }

  lemma {:induction false} TicksAndLetter(line: string, ticks: string, c: char)
    requires |ticks| == 3 && AllOf(ticks, '`') && 'a' <= c <= 'z' && line == ticks + [c]
    ensures FenceMarker(line) == Some(Marker('`', 3)) && LStrip(line) == line && !Blank(line[3..])
  {
    assert ticks[0] in ticks;
    TrimmedStrip(line);
    RunThenLetter(ticks, '`', c);
    assert line[3..] == [c];
    LetterNotBlank(line[3..], c);
  }

  lemma {:induction false} KindOfTicks(view: View, line: string)
    requires view == Classify && LStrip(line) == line && FenceMarker(line) == Some(Marker('`', 3)) && |line| >= 3
    ensures view(line).fence.Some? && (view(line).bare <==> Blank(line[3..]))
  {
  }

  lemma {:induction false} SampleWord(line: string, c: char)
    requires line == [c] && 'a' <= c <= 'z'
    ensures !TableRow(line) && FenceMarker(line).None?
  {
    TrimmedStrip(line);
    WordIsText(line);
  }

  // ---- The messages ----

  lemma {:induction false} SampleRepeats(view: View, b: string, s: string, page: string, c: char)
    requires Shows(view) && 'a' <= c <= 'z' && b == [c, ':'] && s == TwoCells('-', '-') && page == b + ['\n'] + s
    ensures RepeatedLeadIn(view, b, s, page, 8)
  {
    SampleLeadIn(b);
    SampleRow(s, '-', '-');
    RowChars(s, '-', '-');
  }

  /** With a limit of 8 bytes the message of the lines `b:`, an empty one, `b:` and
      `|-|-|` is collected into a lead-in, and the same lead-in above a separator; the
      pass over them never comes to an end. */
  lemma {:induction false} MessageWithoutEnd(view: View, b: string, s: string, page: string, c: char)
    requires Shows(view) && 'a' <= c <= 'z' && b == [c, ':'] && s == TwoCells('-', '-') && page == b + ['\n'] + s
    ensures Collected(view, b + ['\n', '\n'] + page, 8) == [b, page]
    ensures !SplitEnds(view, b + ['\n', '\n'] + page, 8)
  {
    SampleRepeats(view, b, s, page, c);
    LeadInAboveSeparator(view, b, s, page, 8);
  }

  /** A message of a lead-in, an empty line and the same lead-in, with the length of the
      lead-in as the limit, comes out with a chunk one byte over it: `abc:` with 4. */
  lemma {:induction false} MessageOverLimit(view: View, b: string, max: nat, out: seq<string>)
    requires Shows(view) && WordAndColon(b) && max == |b|
    requires Walked(view, Collected(view, b + ['\n', '\n'] + b, max), max, out)
    ensures out == [b + ['\n'], b] && Size(b + ['\n']) == max + 1
  {
    SampleLeadIn(b);
    TrimmedStrip(b);
    LeadInOverLimit(view, b);
    WalkedOnce(view, [b, b], max, 3, [b + ['\n'], b], out);
  }

  /** Three back-ticks, three tildes, and a line that closes the back-ticks: the tildes
      are in no block. */
  lemma {:induction false} MessageWithFences(view: View, ticks: string, tildes: string, close: string)
    requires Shows(view) && |ticks| == 3 && AllOf(ticks, '`') && |tildes| == 3 && AllOf(tildes, '~')
    requires '\n' !in close && view(close).Closes(Marker('`', 3))
    ensures BlocksOf(view, Unlines([ticks, tildes, close])) == [Fenced(ticks, Marker('`', 3), [], Some(close))]
  {
    SampleFence(ticks, '`');
    SampleFence(tildes, '~');
    FenceInFence(view, ticks, tildes, close);
  }

  /** The lines `|a|b|`, `|-|-|`, `x`, `|c|d|`, `x`: the second header is in no block,
      and the first two lines are in the text twice. */
  lemma {:induction false} MessageWithLostHeader(view: View, h: string, s: string, p: string, r: string)
    requires Shows(view) && p == ['x']
    requires h == TwoCells('a', 'b') && s == TwoCells('-', '-') && r == TwoCells('c', 'd')
    ensures BlocksOf(view, Unlines([h, s, p, r, p])) == [Plain([h, s, p, h, s, p])]
  {
    SampleRow(h, 'a', 'b');
    SampleRow(s, '-', '-');
    SampleRow(r, 'c', 'd');
    RowChars(h, 'a', 'b');
    RowChars(s, '-', '-');
    RowChars(r, 'c', 'd');
    SampleWord(p, 'x');
    HeaderLost(view, h, s, p, r, p);
  }

  lemma {:induction false} TickLines(m: StreamCut.Machine, ticks: string, grown: string, c: char)
    requires m == StreamCut.MARKDOWN && |ticks| == 3 && AllOf(ticks, '`') && 'a' <= c <= 'z' && grown == ticks + [c]
    ensures Delivery.ShutFence(m, ticks)
    ensures m.view(grown).fence.Some? && !m.view(grown).bare && '\n' !in grown && ticks <= grown
  {
    SampleFence(ticks, '`');
    TicksAlone(ticks);
    KindOfTicks(m.view, ticks);
    TicksAndLetter(grown, ticks, c);
    KindOfTicks(m.view, grown);
  }

  /** Two lines of three back-ticks, with no newline behind them, are cut past their end
      and sent as they stand. */
  lemma {:induction false} MessageCutPastEnd(
    m: StreamCut.Machine, most: nat, ticks: string, text: string, limit: int)
    requires m == StreamCut.MARKDOWN && |ticks| == 3 && AllOf(ticks, '`')
    requires text == ticks + ['\n'] + ticks && limit >= 5
    ensures StreamCut.SafeCut(m, text, limit, StreamCut.START) == |text| + 1
    ensures Delivery.Send(m, most, [], Delivery.Attempt(text, limit, false)) == [text]
  {
    TickLines(m, ticks, ticks + ['x'], 'x');
    Delivery.FenceCutPastEnd(m, ticks, limit);
    Delivery.UnfinishedFenceIsSent(m, most, ticks, limit, text);
  }

  /** When a letter follows, what was sent as outside the fence is inside it. */
  lemma {:induction false} MessageReopensFence(m: StreamCut.Machine, ticks: string, grown: string, c: char)
    requires m == StreamCut.MARKDOWN && |ticks| == 3 && AllOf(ticks, '`') && 'a' <= c <= 'z' && grown == ticks + [c]
    ensures StreamCut.TrailingOf(m, ticks + ['\n'] + ticks).fence == None
    ensures StreamCut.TrailingOf(m, ticks + ['\n'] + grown).fence.Some?
    ensures ticks + ['\n'] + ticks <= ticks + ['\n'] + grown
  {
    TickLines(m, ticks, grown, c);
    StreamCut.MarkdownIsSound();
    Delivery.UnfinishedFenceReopens(m, ticks, grown);
  }
}
