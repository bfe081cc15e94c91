/** Reading a long text page by page: the rules for one page, and what a chain of
    pages covers. */
module Paging {
  import opened Text

  const DEFAULT_PAGE_CHARS := 20_000
  const MAX_PAGE_CHARS := 1024 * 1024

  datatype Reason = Complete | ByLines | ByChars

  datatype Page = Page(
    content: string, startLine: nat, totalLines: nat, outputLines: nat, nextOffset: nat,
    truncatedBy: Reason, lastLinePartial: bool, maxChars: nat)

  datatype Failure = BadOffset | BadLimit | OffsetOutOfRange(offset: nat, total: nat)

  datatype Result<+T> = Ok(value: T) | Err(error: Failure)

  function ClampChars(maxChars: Option<int>): (n: nat)
    ensures 1 <= n <= MAX_PAGE_CHARS
  {
    if maxChars.None? then DEFAULT_PAGE_CHARS
    else if maxChars.value < 1 then 1
    else if maxChars.value > MAX_PAGE_CHARS then MAX_PAGE_CHARS
    else maxChars.value
  }

  /** Requested lines as a half-open range, counted from 0. */
  datatype Range = Range(start: nat, end: nat)

  function ResolveRange(total: nat, offset: Option<int>, limit: Option<int>): (r: Result<Range>)
    ensures r.Ok? ==> r.value.start < r.value.end <= total
  {
    if offset.Some? && offset.value < 1 then Err(BadOffset)
    else
      var start := if offset.Some? then offset.value - 1 else 0;
      if start >= total then Err(OffsetOutOfRange(start + 1, total))
      else if limit.Some? && limit.value < 1 then Err(BadLimit)
      else if limit.Some? && start + limit.value < total then Ok(Range(start, start + limit.value))
      else Ok(Range(start, total))
  }

  // ---- The rows of one page ----

  datatype Collected = Collected(output: seq<string>, reason: Reason, partial: bool)

  /** The character budget, continued from the rows already in `output`. */
  function CollectFrom(rows: seq<string>, output: seq<string>, used: nat, max: nat): Collected
    decreases |rows|
  {
    if rows == [] then Collected(output, Complete, false)
    else
      var row := rows[0];
      var lead := if output != [] then 1 else 0;
      if used == 0 && |row| > max then
        Collected(output + [row[..if max >= lead then max - lead else 0]], ByChars, true)
      else if used > 0 && used + |row| + lead > max then Collected(output, ByChars, false)
      else CollectFrom(rows[1..], output + [row], used + |row| + lead, max)
  }

  function CollectRows(rows: seq<string>, max: nat): Collected {
    CollectFrom(rows, [], 0, max)
  }

  /** `_collect_page_rows`. */
  method CollectPageRows(rows: seq<string>, limitRows: nat, max: nat) returns (c: Collected)
    ensures c == CollectRows(rows[..if limitRows < |rows| then limitRows else |rows|], max)
  {
    ghost var n := if limitRows < |rows| then limitRows else |rows|;
    var output: seq<string> := [];
    var used: nat, i := 0, 0;
    assert rows[..n][0..] == rows[..n];
    while i < |rows| && i < limitRows
      invariant i <= n
      invariant CollectFrom(rows[..n][i..], output, used, max) == CollectRows(rows[..n], max)
    {
      var row := rows[i];
      assert rows[..n][i..][0] == row && rows[..n][i..][1..] == rows[..n][i + 1..];
      var lead := if output != [] then 1 else 0;
      if used == 0 && |row| > max {
        var prefix := if max >= lead then max - lead else 0;
        return Collected(output + [row[..prefix]], ByChars, true);
      }
      if used > 0 && used + |row| + lead > max {
        return Collected(output, ByChars, false);
      }
      output := output + [row];
      used := used + |row| + lead;
      i := i + 1;
    }
    c := Collected(output, Complete, false);
  }

  function BuildPage(c: Collected, r: Range, total: nat, max: nat): Page {
    var reason := if c.reason == Complete && r.end < total then ByLines else c.reason;
    var next := if c.partial then r.start + 2
                else if reason != Complete then r.start + |c.output| + 1
                else 0;
    Page(Unlines(c.output), r.start + 1, total, |c.output|, if next > total then 0 else next, reason, c.partial, max)
  }

  function PageOf(lines: seq<string>, total: nat, offset: Option<int>, limit: Option<int>, max: nat): Result<Page>
    requires total == |lines|
  {
    match ResolveRange(total, offset, limit)
    case Err(e) => Err(e)
    case Ok(r) => Ok(BuildPage(CollectRows(lines[r.start..r.end], max), r, total, max))
  }

  function Paginate(text: string, offset: Option<int>, limit: Option<int>, maxChars: Option<int>): Result<Page> {
    PageOf(Lines(text), |Lines(text)|, offset, limit, ClampChars(maxChars))
  }

  /** `paginate_text`. */
  method PaginateText(text: string, offset: Option<int>, limit: Option<int>, maxChars: Option<int>)
    returns (p: Result<Page>)
    ensures p == Paginate(text, offset, limit, maxChars)
    ensures IsPage(p, Lines(text), offset, limit, ClampChars(maxChars))
  {
    PageIs(text, offset, limit, maxChars);
    var max := ClampChars(maxChars);
    var lines := Lines(text);
    var range := ResolveRange(|lines|, offset, limit);
    if range.Err? {
      return Err(range.error);
    }
    var r := range.value;
    var rows := lines[r.start..r.end];
    var c := CollectPageRows(rows, r.end - r.start, max);
    assert rows[..|rows|] == rows;
    p := Ok(BuildPage(c, r, |lines|, max));
  }

  // ---- What the rows of a page are ----

  function JoinedLen(rows: seq<string>): nat {
    |Unlines(rows)|
  }

  lemma {:induction false} JoinedLenMore(rows: seq<string>, row: string)
    ensures JoinedLen(rows + [row]) == if rows == [] then |row| else JoinedLen(rows) + 1 + |row|
  {
    if rows == [] {
      assert rows + [row] == [row];
    } else {
      JoinConcat(rows, [row], '\n');
    }
  }

  /** The first row is empty and the second fills the page by itself. */
  predicate OneOver(output: seq<string>, max: nat) {
    |output| == 2 && output[0] == "" && |output[1]| == max
  }

  /** `c` takes rows from the front of `rows`. */
  predicate Takes(c: Collected, rows: seq<string>, max: nat) {
    var n := |c.output|;
    && n <= |rows|
    && (!c.partial ==>
          && c.output == rows[..n]
          && (JoinedLen(c.output) <= max || OneOver(c.output, max))
          && (c.reason == Complete <==> n == |rows|)
          && (c.reason != Complete ==> c.reason == ByChars && JoinedLen(c.output) + 1 + |rows[n]| > max))
    && (c.partial ==>
          && 1 <= n <= 2 && c.reason == ByChars
          && c.output[..n - 1] == rows[..n - 1] && c.output[n - 1] <= rows[n - 1]
          && |rows[n - 1]| > max && JoinedLen(c.output) == max
          && (n == 2 ==> rows[0] == ""))
  }

  /** The rows so far fit. */
  predicate Fitting(rows: seq<string>, n: nat, used: nat, max: nat) {
    && n <= |rows| && used == (if n == 0 then 0 else JoinedLen(rows[..n]))
    && (JoinedLen(rows[..n]) <= max || OneOver(rows[..n], max))
  }

  lemma {:induction false} NothingUsed(rows: seq<string>, n: nat, max: nat)
    requires Fitting(rows, n, 0, max)
    ensures n <= 1 && JoinedLen(rows[..n]) == 0 && (n == 1 ==> rows[0] == "")
  {
    UsedNothing(rows, n);
    assert n == 0 ==> rows[..n] == [];
  }

  lemma {:induction false} CutTakes(rows: seq<string>, n: nat, max: nat)
    requires max >= 1 && n <= 1 && n < |rows| && |rows[n]| > max
    requires (n == 1 ==> rows[0] == "") && JoinedLen(rows[..n]) == 0
    ensures var prefix := rows[n][..if n > 0 then max - 1 else max];
            Takes(Collected(rows[..n] + [prefix], ByChars, true), rows, max)
  {
    var prefix := rows[n][..if n > 0 then max - 1 else max];
    var output := rows[..n] + [prefix];
    JoinedLenMore(rows[..n], prefix);
    assert output[..n] == rows[..n] && output[n] == prefix;
    CutIsTaken(output, rows, n, max);
  }

  lemma {:induction false} CutIsTaken(output: seq<string>, rows: seq<string>, n: nat, max: nat)
    requires |output| == n + 1 && n <= 1 && n < |rows| && (n == 1 ==> rows[0] == "")
    requires output[..n] == rows[..n] && output[n] <= rows[n] && |rows[n]| > max && JoinedLen(output) == max
    ensures Takes(Collected(output, ByChars, true), rows, max)
  {
  }

  lemma {:induction false} StopTakes(rows: seq<string>, n: nat, used: nat, max: nat)
    requires Fitting(rows, n, used, max) && 0 < n < |rows| && used + |rows[n]| + 1 > max
    ensures Takes(Collected(rows[..n], ByChars, false), rows, max)
  {
  }

  lemma {:induction false} RowFits(rows: seq<string>, n: nat, used: nat, max: nat)
    requires Fitting(rows, n, used, max) && n < |rows|
    requires used == 0 ==> |rows[n]| <= max
    requires used > 0 ==> used + |rows[n]| + 1 <= max
    ensures Fitting(rows, n + 1, used + |rows[n]| + (if n > 0 then 1 else 0), max)
  {
    assert rows[..n + 1] == rows[..n] + [rows[n]];
    JoinedLenMore(rows[..n], rows[n]);
    if used == 0 { UsedNothing(rows, n); }
  }

  /** Whether the next row is cut, does not fit, or is taken. */
  lemma {:induction false} CollectNext(rows: seq<string>, n: nat, used: nat, max: nat)
    requires max >= 1 && n < |rows| && (used > 0 ==> n > 0)
    ensures var c, row := CollectFrom(rows[n..], rows[..n], used, max), rows[n];
            if used == 0 && |row| > max then c == Collected(rows[..n] + [row[..if n > 0 then max - 1 else max]], ByChars, true)
            else if used > 0 && used + |row| + 1 > max then c == Collected(rows[..n], ByChars, false)
            else c == CollectFrom(rows[n + 1..], rows[..n + 1], used + |row| + (if n > 0 then 1 else 0), max)
  {
    assert rows[n..][0] == rows[n] && rows[n..][1..] == rows[n + 1..];
    assert rows[..n] + [rows[n]] == rows[..n + 1];
  }

  lemma {:induction false} CollectTakes(rows: seq<string>, n: nat, used: nat, max: nat)
    requires max >= 1 && Fitting(rows, n, used, max)
    ensures Takes(CollectFrom(rows[n..], rows[..n], used, max), rows, max)
    decreases |rows| - n
  {
    if n == |rows| {
      AllTaken(rows, used, max);
    } else {
      CollectNext(rows, n, used, max);
      if used == 0 && |rows[n]| > max {
        NothingUsed(rows, n, max);
        CutTakes(rows, n, max);
      } else if used > 0 && used + |rows[n]| + 1 > max {
        StopTakes(rows, n, used, max);
      } else {
        RowFits(rows, n, used, max);
        CollectTakes(rows, n + 1, used + |rows[n]| + (if n > 0 then 1 else 0), max);
      }
    }
  }

  lemma {:induction false} AllTaken(rows: seq<string>, used: nat, max: nat)
    requires Fitting(rows, |rows|, used, max)
    ensures Takes(CollectFrom(rows[|rows|..], rows[..|rows|], used, max), rows, max)
  {
    assert rows[..|rows|] == rows;
  }

  /** Rows that were taken stay, and of some rows at least one is taken. */
  lemma {:induction false} CollectKeeps(rest: seq<string>, taken: seq<string>, used: nat, max: nat)
    ensures |CollectFrom(rest, taken, used, max).output| >= |taken|
    ensures rest != [] && taken == [] && used == 0 ==> CollectFrom(rest, taken, used, max).output != []
    decreases |rest|
  {
    if rest != [] {
      CollectKeeps(rest[1..], taken + [rest[0]], used + |rest[0]| + (if taken != [] then 1 else 0), max);
    }
  }

  /** No character used yet: no row yet, or a single empty one. */
  lemma {:induction false} UsedNothing(rows: seq<string>, n: nat)
    requires n <= |rows|
    ensures n == 1 ==> JoinedLen(rows[..n]) == |rows[0]|
    ensures n >= 2 ==> JoinedLen(rows[..n]) > 0
  {
    if n >= 2 {
      assert rows[..n] == rows[..n - 1] + [rows[n - 1]];
      JoinedLenMore(rows[..n - 1], rows[n - 1]);
    }
  }

  lemma {:induction false} PageTakes(rows: seq<string>, max: nat)
    requires rows != [] && max >= 1
    ensures Takes(CollectRows(rows, max), rows, max) && CollectRows(rows, max).output != []
  {
    assert rows[0..] == rows && rows[..0] == [];
    CollectTakes(rows, 0, 0, max);
    CollectKeeps(rows, [], 0, max);
  }

  // ---- One page ----

  /** The two rows that fill a page over its limit. */
  predicate FillsOver(lines: seq<string>, i: nat, limit: Option<int>, max: nat) {
    && i + 1 < |lines| && lines[i] == "" && |lines[i + 1]| == max
    && (limit.Some? ==> limit.value >= 2)
  }

  /** A page is at most `max` characters long, but one more if and only if an empty line
      and then one of exactly `max` characters are asked for. */
  lemma {:induction false} PageLength(text: string, offset: Option<int>, limit: Option<int>, maxChars: Option<int>)
    requires Paginate(text, offset, limit, maxChars).Ok?
    ensures var p := Paginate(text, offset, limit, maxChars).value;
            && p.startLine >= 1 && |p.content| <= p.maxChars + 1
            && (|p.content| == p.maxChars + 1 <==> FillsOver(Lines(text), p.startLine - 1, limit, p.maxChars))
  {
    var lines, max := Lines(text), ClampChars(maxChars);
    var r := ResolveRange(|lines|, offset, limit).value;
    PageTakes(lines[r.start..r.end], max);
    BuiltPageLength(lines, r, CollectRows(lines[r.start..r.end], max), max);
    if FillsOver(lines, r.start, limit, max) { RangeCollectsOver(lines, r, max); }
  }

  lemma {:induction false} RangeCollectsOver(lines: seq<string>, r: Range, max: nat)
    requires r.start + 2 <= r.end <= |lines| && lines[r.start] == "" && |lines[r.start + 1]| == max >= 1
    ensures JoinedLen(CollectRows(lines[r.start..r.end], max).output) == max + 1
  {
    var rows := lines[r.start..r.end];
    assert rows[0] == lines[r.start] && rows[1] == lines[r.start + 1];
    CollectsOver(rows, max);
  }

  lemma {:induction false} CollectsOver(rows: seq<string>, max: nat)
    requires |rows| >= 2 && rows[0] == "" && |rows[1]| == max >= 1
    ensures JoinedLen(CollectRows(rows, max).output) == max + 1
  {
    var rest := rows[1..];
    assert [] + [rows[0]] == [rows[0]] && CollectRows(rows, max) == CollectFrom(rest, [rows[0]], 0, max);
    var both := [rows[0]] + [rows[1]];
    assert rest[0] == rows[1];
    JoinedLenMore([rows[0]], rows[1]);
    JoinedLenMore([], rows[0]);
    assert [] + [rows[0]] == [rows[0]];
    FullPageStops(rest[1..], both, max + 1, max);
  }

  lemma {:induction false} FullPageStops(rows: seq<string>, output: seq<string>, used: nat, max: nat)
    requires used > max
    ensures CollectFrom(rows, output, used, max).output == output
  {
  }

  /** The shortest text with a page over its limit. */
  lemma {:induction false} PageOverLimit()
    ensures Paginate("\na", None, None, Some(1)).Ok?
    ensures |Paginate("\na", None, None, Some(1)).value.content| == 2
  {
    var text := "\na";
    SplitAround("", '\n', "a");
    SplitPlain("a", '\n');
    assert "" + ['\n'] + "a" == text;
    assert Lines(text) == ["", "a"];
    PageLength(text, None, None, Some(1));
  }

  lemma {:induction false} BuiltPageLength(lines: seq<string>, r: Range, c: Collected, max: nat)
    requires r.start < r.end <= |lines| && Takes(c, lines[r.start..r.end], max)
    ensures JoinedLen(c.output) <= max + 1
    ensures JoinedLen(c.output) == max + 1 ==>
              |c.output| == 2 && r.start + 1 < |lines| && lines[r.start] == "" && |lines[r.start + 1]| == max
  {
    var rows := lines[r.start..r.end];
    if OneOver(c.output, max) && !c.partial {
      JoinedLenMore([c.output[0]], c.output[1]);
      assert c.output == [c.output[0]] + [c.output[1]];
      assert c.output[0] == rows[0] && c.output[1] == rows[1];
    }
  }

  /** What a page of the lines in `r` shows, and where it says to go on. */
  predicate Continues(p: Page, lines: seq<string>, offset: nat) {
    && 1 <= offset && p.startLine == offset && p.outputLines >= 1 && offset + p.outputLines - 1 <= |lines|
    && (p.nextOffset != 0 ==> offset < p.nextOffset <= |lines| && p.nextOffset <= offset + p.outputLines)
    && (p.nextOffset == 0 ==> offset + p.outputLines - 1 == |lines|)
    && (!p.lastLinePartial ==>
          && p.content == Unlines(lines[offset - 1..offset - 1 + p.outputLines])
          && (p.nextOffset != 0 ==> p.nextOffset == offset + p.outputLines))
    && (p.lastLinePartial ==> |lines[offset + p.outputLines - 2]| > p.maxChars)
  }

  lemma {:induction false} BuiltPageContinues(lines: seq<string>, r: Range, c: Collected, max: nat)
    requires r.start < r.end <= |lines| && Takes(c, lines[r.start..r.end], max) && c.output != []
    ensures Continues(BuildPage(c, r, |lines|, max), lines, r.start + 1)
  {
    var n := |c.output|;
    assert lines[r.start..r.end][..n] == lines[r.start..r.start + n];
    assert lines[r.start..r.end][n - 1] == lines[r.start + n - 1];
  }

  /** A page starts where it was asked to, shows at least one line, and tells where to
      go on: not past the lines shown, and 0 only when the last line was shown. */
  lemma {:induction false} PageAdvances(text: string, offset: nat, limit: Option<int>, maxChars: Option<int>)
    requires 1 <= offset <= |Lines(text)| && (limit.Some? ==> limit.value >= 1)
    ensures Paginate(text, Some(offset), limit, maxChars).Ok?
    ensures Continues(Paginate(text, Some(offset), limit, maxChars).value, Lines(text), offset)
    ensures Paginate(text, Some(offset), limit, maxChars).value.maxChars == ClampChars(maxChars)
  {
    var lines, max := Lines(text), ClampChars(maxChars);
    var r := ResolveRange(|lines|, Some(offset), limit).value;
    PageTakes(lines[r.start..r.end], max);
    BuiltPageContinues(lines, r, CollectRows(lines[r.start..r.end], max), max);
  }

  // ---- Exactly what is shown ----

  /** How many lines may be shown from `first` on. */
  function Wanted(total: nat, first: nat, limit: Option<int>): int {
    if limit.Some? && limit.value < total - first then limit.value else total - first
  }

  /** The page of at most `wanted` lines from line `first` on, counted from 0: as many as
      have room, or a part of one that has no room alone. */
  predicate PageShows(p: Page, lines: seq<string>, first: nat, wanted: nat, max: nat)
    requires max >= 1
  {
    var n := p.outputLines;
    && 1 <= n <= wanted && first + wanted <= |lines|
    && p.startLine == first + 1 && p.totalLines == |lines| && p.maxChars == max
    && if p.lastLinePartial then
         && n <= 2 && (n == 2 ==> lines[first] == "") && |lines[first + n - 1]| > max
         && p.content == (if n == 2 then ['\n'] else []) + lines[first + n - 1][..max - (n - 1)]
         && p.truncatedBy == ByChars && p.nextOffset == (if first + 2 <= |lines| then first + 2 else 0)
       else
         && p.content == Unlines(lines[first..first + n])
         && (n < wanted ==> |p.content| + 1 + |lines[first + n]| > max)
         && p.truncatedBy == (if n < wanted then ByChars else if first + n < |lines| then ByLines else Complete)
         && p.nextOffset == (if first + n < |lines| then first + n + 1 else 0)
  }

  lemma {:induction false} CollectedShows(lines: seq<string>, r: Range, c: Collected, max: nat)
    requires r.start < r.end <= |lines| && Takes(c, lines[r.start..r.end], max) && c.output != [] && max >= 1
    ensures PageShows(BuildPage(c, r, |lines|, max), lines, r.start, r.end - r.start, max)
  {
    var rows, n := lines[r.start..r.end], |c.output|;
    assert rows[..n] == lines[r.start..r.start + n];
    if c.partial {
      PartShows(c.output, rows, max);
      assert rows[n - 1] == lines[r.start + n - 1];
    }
  }

  lemma {:induction false} PartShows(output: seq<string>, rows: seq<string>, max: nat)
    requires 1 <= |output| <= 2 && |output| <= |rows| && output[..|output| - 1] == rows[..|output| - 1]
    requires output[|output| - 1] <= rows[|output| - 1] && JoinedLen(output) == max >= 1
    requires |output| == 2 ==> rows[0] == ""
    ensures var n := |output|;
            && max - (n - 1) <= |rows[n - 1]|
            && Unlines(output) == (if n == 2 then ['\n'] else []) + rows[n - 1][..max - (n - 1)]
  {
    if |output| == 2 {
      assert output[..1] == rows[..1] && output[..1][0] == output[0] && rows[..1][0] == rows[0];
      assert output == [output[0]] + [output[1]];
      JoinConcat([output[0]], [output[1]], '\n');
      assert "" + ['\n'] == ['\n'];
    }
  }

  /** When a page is refused, and otherwise exactly what it shows. */
  predicate IsPage(p: Result<Page>, lines: seq<string>, offset: Option<int>, limit: Option<int>, max: nat)
    requires max >= 1
  {
    var first := if offset.Some? then offset.value - 1 else 0;
    if first < 0 then p == Err(BadOffset)
    else if first >= |lines| then p == Err(OffsetOutOfRange(first + 1, |lines|))
    else if limit.Some? && limit.value < 1 then p == Err(BadLimit)
    else p.Ok? && PageShows(p.value, lines, first, Wanted(|lines|, first, limit), max)
  }

  lemma {:induction false} RangeIs(total: nat, offset: Option<int>, limit: Option<int>)
    ensures var first := if offset.Some? then offset.value - 1 else 0;
            ResolveRange(total, offset, limit) ==
              if first < 0 then Err(BadOffset)
              else if first >= total then Err(OffsetOutOfRange(first + 1, total))
              else if limit.Some? && limit.value < 1 then Err(BadLimit)
              else Ok(Range(first, first + Wanted(total, first, limit)))
  {
  }

  lemma {:induction false} PageOfLines(lines: seq<string>, offset: Option<int>, limit: Option<int>, max: nat)
    requires max >= 1
    ensures IsPage(PageOf(lines, |lines|, offset, limit, max), lines, offset, limit, max)
  {
    RangeIs(|lines|, offset, limit);
    var range := ResolveRange(|lines|, offset, limit);
    if range.Ok? {
      var rows := lines[range.value.start..range.value.end];
      PageTakes(rows, max);
      CollectedShows(lines, range.value, CollectRows(rows, max), max);
    }
  }

  lemma {:induction false} PageIs(text: string, offset: Option<int>, limit: Option<int>, maxChars: Option<int>)
    ensures IsPage(Paginate(text, offset, limit, maxChars), Lines(text), offset, limit, ClampChars(maxChars))
  {
    PageOfLines(Lines(text), offset, limit, ClampChars(maxChars));
  }

  // ---- A chain of pages ----

  datatype Choice = Choice(limit: Option<int>, maxChars: Option<int>)

  predicate Usable(c: Choice) {
    c.limit.Some? ==> c.limit.value >= 1
  }

  /** The pages read by following `nextOffset`, with limits chosen page by page. */
  function Chain(text: string, offset: nat, choices: seq<Choice>): seq<Page>
    decreases |choices|
  {
    if choices == [] || offset == 0 then []
    else
      match Paginate(text, Some(offset), choices[0].limit, choices[0].maxChars)
      case Err(_) => []
      case Ok(p) => [p] + Chain(text, p.nextOffset, choices[1..])
  }

  predicate Shows(p: Page, line: nat) {
    p.startLine <= line < p.startLine + p.outputLines
  }

  /** Each page continues where the one before said, from `offset` to the end. */
  predicate Linked(pages: seq<Page>, lines: seq<string>, offset: nat) {
    && pages != [] && Continues(pages[0], lines, offset)
    && (pages[0].nextOffset == 0 ==> |pages| == 1)
    && (pages[0].nextOffset != 0 ==> Linked(pages[1..], lines, pages[0].nextOffset))
  }

  /** A chain always advances, so with a choice for every line left it comes to its end. */
  lemma {:induction false} ChainIsLinked(text: string, offset: nat, choices: seq<Choice>)
    requires 1 <= offset <= |Lines(text)| && |choices| > |Lines(text)| - offset
    requires forall c :: c in choices ==> Usable(c)
    ensures Linked(Chain(text, offset, choices), Lines(text), offset)
    decreases |choices|
  {
    assert choices[0] in choices;
    PageAdvances(text, offset, choices[0].limit, choices[0].maxChars);
    var p := Paginate(text, Some(offset), choices[0].limit, choices[0].maxChars).value;
    var rest := Chain(text, p.nextOffset, choices[1..]);
    assert ([p] + rest)[1..] == rest;
    if p.nextOffset != 0 {
      ChainIsLinked(text, p.nextOffset, choices[1..]);
    }
  }

  /** Linked pages leave no line out. */
  lemma {:induction false} LinkedCovers(pages: seq<Page>, lines: seq<string>, offset: nat, line: nat)
    requires Linked(pages, lines, offset) && offset <= line <= |lines|
    ensures exists p :: p in pages && Shows(p, line)
    decreases |pages|
  {
    var p := pages[0];
    if p.nextOffset == 0 || line < p.nextOffset {
      assert p in pages && Shows(p, line);
    } else {
      LinkedCovers(pages[1..], lines, p.nextOffset, line);
      var q :| q in pages[1..] && Shows(q, line);
      assert q in pages;
    }
  }

  /** Reading with any limits, one choice for each line at most, visits every line. */
  lemma {:induction false} ChainCoversText(text: string, choices: seq<Choice>, line: nat)
    requires |choices| >= |Lines(text)| && 1 <= line <= |Lines(text)|
    requires forall c :: c in choices ==> Usable(c)
    ensures Linked(Chain(text, 1, choices), Lines(text), 1)
    ensures exists p :: p in Chain(text, 1, choices) && Shows(p, line)
  {
    ChainIsLinked(text, 1, choices);
    LinkedCovers(Chain(text, 1, choices), Lines(text), 1, line);
  }

  function Contents(pages: seq<Page>): (cs: seq<string>)
    ensures |cs| == |pages|
  {
    if pages == [] then [] else [pages[0].content] + Contents(pages[1..])
  }

  predicate NoneCut(pages: seq<Page>) {
    forall p :: p in pages ==> !p.lastLinePartial
  }

  lemma {:induction false} FromTo(lines: seq<string>, i: nat, j: nat)
    requires i <= j <= |lines|
    ensures lines[i..j] + lines[j..] == lines[i..]
    ensures j == |lines| ==> lines[i..j] == lines[i..]
  {
  }

  lemma {:induction false} LinkedRebuilds(pages: seq<Page>, lines: seq<string>, offset: nat)
    requires Linked(pages, lines, offset) && NoneCut(pages)
    ensures Unlines(Contents(pages)) == Unlines(lines[offset - 1..])
    decreases |pages|
  {
    var p := pages[0];
    assert p in pages && !p.lastLinePartial;
    var shown := lines[offset - 1..offset - 1 + p.outputLines];
    if p.nextOffset != 0 {
      assert NoneCut(pages[1..]);
      LinkedRebuilds(pages[1..], lines, p.nextOffset);
      JoinConcat([p.content], Contents(pages[1..]), '\n');
      JoinConcat(shown, lines[p.nextOffset - 1..], '\n');
      FromTo(lines, offset - 1, p.nextOffset - 1);
    } else {
      FromTo(lines, offset - 1, |lines|);
      assert pages[1..] == [];
    }
  }

  /** No line is longer than any page may be. */
  predicate NoLongLines(text: string, choices: seq<Choice>) {
    forall l, c :: l in Lines(text) && c in choices ==> |l| <= ClampChars(c.maxChars)
  }

  lemma {:induction false} NoLineCut(text: string, offset: nat, choices: seq<Choice>)
    requires offset <= |Lines(text)| && (forall c :: c in choices ==> Usable(c)) && NoLongLines(text, choices)
    ensures NoneCut(Chain(text, offset, choices))
    decreases |choices|
  {
    if choices != [] && offset != 0 {
      assert choices[0] in choices;
      PageAdvances(text, offset, choices[0].limit, choices[0].maxChars);
      var p := Paginate(text, Some(offset), choices[0].limit, choices[0].maxChars).value;
      assert Lines(text)[offset + p.outputLines - 2] in Lines(text);
      NoLineCut(text, p.nextOffset, choices[1..]);
    }
  }

  /** If no line is longer than a page may be, the page contents of a chain from the
      first line, joined by newline, are the text again. */
  lemma {:induction false} ChainRebuildsText(text: string, choices: seq<Choice>)
    requires |choices| >= |Lines(text)|
    requires (forall c :: c in choices ==> Usable(c)) && NoLongLines(text, choices)
    ensures Unlines(Contents(Chain(text, 1, choices))) == text
  {
    ChainIsLinked(text, 1, choices);
    NoLineCut(text, 1, choices);
    LinkedRebuilds(Chain(text, 1, choices), Lines(text), 1);
    assert Lines(text)[0..] == Lines(text);
    JoinSplit(text, '\n');
  }
}
