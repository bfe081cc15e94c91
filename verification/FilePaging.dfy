/** Reading one page of a file without reading the whole file into memory: lines are
    counted over the bytes, skipped in pieces, and over-long lines are only buffered
    as far as the page can need. */
module FilePaging {
  import opened Text
  import opened Paging

  newtype byte = x: int | 0 <= x < 256

  const LF: byte := 10
  const CR: byte := 13

  // ---- The file as bytes and as text ----

  /** UTF-8 (section 3 of RFC 3629). */
  function EncodeChar(c: char): (bs: seq<byte>)
    ensures |bs| == Width(c)
    ensures c as int < 0x80 ==> bs == [c as int as byte]
    ensures c as int >= 0x80 ==> LF !in bs && CR !in bs
  {
    var n := c as int;
    if n < 0x80 then [n as byte]
    else if n < 0x800 then [(0xC0 + n / 0x40) as byte, (0x80 + n % 0x40) as byte]
    else if n < 0x10000 then
      [(0xE0 + n / 0x1000) as byte, (0x80 + n / 0x40 % 0x40) as byte, (0x80 + n % 0x40) as byte]
    else
      [(0xF0 + n / 0x40000) as byte, (0x80 + n / 0x1000 % 0x40) as byte, (0x80 + n / 0x40 % 0x40) as byte,
       (0x80 + n % 0x40) as byte]
  }

  function Encode(s: string): seq<byte> {
    if s == "" then [] else EncodeChar(s[0]) + Encode(s[1..])
  }

  /** Universal newlines: both `\r\n` and `\r` read as `\n`. */
  function Normalize(raw: string): string {
    if raw == "" then ""
    else if raw[0] == '\r' && |raw| > 1 && raw[1] == '\n' then ['\n'] + Normalize(raw[2..])
    else if raw[0] == '\r' then ['\n'] + Normalize(raw[1..])
    else [raw[0]] + Normalize(raw[1..])
  }

  // ---- Counting separators ----

  function Count(s: seq<byte>, b: byte): nat {
    if s == [] then 0 else (if s[0] == b then 1 else 0) + Count(s[1..], b)
  }

  /** Occurrences of CR LF. */
  function Pairs(s: seq<byte>): nat {
    if |s| < 2 then 0 else (if s[0] == CR && s[1] == LF then 1 else 0) + Pairs(s[1..])
  }

  function Separators(s: seq<byte>): int {
    Count(s, LF) + Count(s, CR) - Pairs(s)
  }

  predicate Splits(a: seq<byte>, b: seq<byte>) {
    a != [] && b != [] && a[|a| - 1] == CR && b[0] == LF
  }

  lemma {:induction false} CountConcat(a: seq<byte>, b: seq<byte>, x: byte)
    ensures Count(a + b, x) == Count(a, x) + Count(b, x)
  {
    if a == [] {
      assert a + b == b;
    } else {
      assert (a + b)[1..] == a[1..] + b;
      CountConcat(a[1..], b, x);
    }
  }

  lemma {:induction false} PairsConcat(a: seq<byte>, b: seq<byte>)
    ensures Pairs(a + b) == Pairs(a) + Pairs(b) + (if Splits(a, b) then 1 else 0)
  {
    if a == [] {
      assert a + b == b;
    } else {
      assert (a + b)[1..] == a[1..] + b;
      PairsConcat(a[1..], b);
      if |a| == 1 {
        assert a[1..] == [] && a[1..] + b == b;
      }
    }
  }

  lemma {:induction false} SeparatorsConcat(a: seq<byte>, b: seq<byte>)
    ensures Separators(a + b) == Separators(a) + Separators(b) - (if Splits(a, b) then 1 else 0)
  {
    CountConcat(a, b, LF);
    CountConcat(a, b, CR);
    PairsConcat(a, b);
  }

  predicate EndsLine(s: seq<byte>) {
    s != [] && (s[|s| - 1] == LF || s[|s| - 1] == CR)
  }

  /** Read boundaries that directly follow a line separator byte. */
  function Boundaries(chunks: seq<seq<byte>>): nat {
    if |chunks| < 2 then 0 else (if EndsLine(chunks[0]) then 1 else 0) + Boundaries(chunks[1..])
  }

  lemma {:induction false} BoundariesMore(chunks: seq<seq<byte>>, c: seq<byte>)
    ensures Boundaries(chunks + [c]) ==
            Boundaries(chunks) + (if chunks != [] && EndsLine(chunks[|chunks| - 1]) then 1 else 0)
  {
    if |chunks| == 0 {
    } else if |chunks| == 1 {
      assert (chunks + [c])[1..] == [c];
    } else {
      assert (chunks + [c])[1..] == chunks[1..] + [c];
      BoundariesMore(chunks[1..], c);
    }
  }

  /** `_count_newlines`: every chunk is counted together with the last byte before it,
      so each boundary behind a separator byte counts that separator once more. */
  method CountNewlines(chunks: seq<seq<byte>>) returns (count: int)
    requires forall c :: c in chunks ==> c != []
    ensures count == Separators(Flatten(chunks)) + Boundaries(chunks)
  {
    count := 0;
    var carry: seq<byte> := [];
    for i := 0 to |chunks|
      invariant Counted(chunks[..i], count, carry)
    {
      assert chunks[i] in chunks;
      assert chunks[..i + 1] == chunks[..i] + [chunks[i]];
      CountMore(chunks[..i], count, carry, chunks[i]);
      var chunk := carry + chunks[i];
      count := count + Count(chunk, LF) + Count(chunk, CR) - Pairs(chunk);
      carry := chunk[|chunk| - 1..];
    }
    assert chunks[..|chunks|] == chunks;
  }

  lemma {:induction false} CarryCounts(before: seq<byte>, carry: seq<byte>, chunk: seq<byte>)
    requires chunk != [] && carry == LastByte(before)
    ensures Separators(before) + Separators(carry + chunk) ==
            Separators(before + chunk) + (if EndsLine(before) then 1 else 0)
  {
    SeparatorsConcat(before, chunk);
    SeparatorsConcat(carry, chunk);
    if before == [] {
      assert carry + chunk == chunk && before + chunk == chunk;
    } else {
      assert carry[1..] == [];
    }
  }

  /** What counting has come to behind `read`. */
  predicate Counted(read: seq<seq<byte>>, count: int, carry: seq<byte>) {
    && count == Separators(Flatten(read)) + Boundaries(read)
    && carry == LastByte(Flatten(read))
    && (read != [] ==> carry != [] && carry == LastByte(read[|read| - 1]))
  }

  lemma {:induction false} CountMore(read: seq<seq<byte>>, count: int, carry: seq<byte>, chunk: seq<byte>)
    requires Counted(read, count, carry) && chunk != []
    ensures Counted(read + [chunk], count + Separators(carry + chunk), LastByte(carry + chunk))
  {
    var before := Flatten(read);
    FlattenLast(read, chunk);
    BoundariesMore(read, chunk);
    CarryCounts(before, carry, chunk);
    assert read != [] ==> LastByte(before)[0] == LastByte(read[|read| - 1])[0];
    assert LastByte(carry + chunk) == LastByte(chunk) == LastByte(before + chunk);
  }

  function LastByte(s: seq<byte>): seq<byte> {
    if s == [] then [] else s[|s| - 1..]
  }

  /** The bytes hold one separator for every line end of the text. */
  lemma {:induction false} SeparatorsAreLineEnds(raw: string)
    ensures Separators(Encode(raw)) + 1 == |Lines(Normalize(raw))|
    decreases |raw|
  {
    if raw != "" {
      var head := EncodeChar(raw[0]);
      var rest := Encode(raw[1..]);
      SeparatorsConcat(head, rest);
      OneChar(raw[0]);
      if raw[0] == '\r' && |raw| > 1 && raw[1] == '\n' {
        var tail := Encode(raw[2..]);
        assert raw[1..][1..] == raw[2..];
        SeparatorsConcat(EncodeChar(raw[1]), tail);
        OneChar(raw[1]);
        SeparatorsAreLineEnds(raw[2..]);
        LineEnd(Normalize(raw[2..]));
      } else {
        SeparatorsAreLineEnds(raw[1..]);
        StartsWithLF(raw[1..]);
        if raw[0] == '\r' { LineEnd(Normalize(raw[1..])); }
        var t := Normalize(raw);
        assert t[1..] == Normalize(raw[1..]);
      }
    }
  }

  lemma {:induction false} LineEnd(t: string)
    ensures |Lines(['\n'] + t)| == 1 + |Lines(t)|
  {
    assert (['\n'] + t)[1..] == t;
  }

  lemma {:induction false} OneChar(c: char)
    ensures Separators(EncodeChar(c)) == if c == '\n' || c == '\r' then 1 else 0
    ensures EncodeChar(c)[|EncodeChar(c)| - 1] == CR <==> c == '\r'
  {
    var bs := EncodeChar(c);
    if c as int < 0x80 {
      assert bs == [bs[0]] && bs[1..] == [];
      assert Count(bs, LF) == (if bs[0] == LF then 1 else 0) && Count(bs, CR) == (if bs[0] == CR then 1 else 0);
    } else {
      NoneCounted(bs);
    }
  }

  lemma {:induction false} NoneCounted(bs: seq<byte>)
    requires LF !in bs && CR !in bs
    ensures Count(bs, LF) == 0 && Count(bs, CR) == 0 && Pairs(bs) == 0
  {
    if bs != [] { NoneCounted(bs[1..]); }
  }

  lemma {:induction false} StartsWithLF(s: string)
    ensures Encode(s) != [] && Encode(s)[0] == LF <==> s != "" && s[0] == '\n'
  {
    if s != "" {
      assert Encode(s)[0] == EncodeChar(s[0])[0];
      if s[0] as int >= 0x80 { assert EncodeChar(s[0])[0] in EncodeChar(s[0]); }
    }
  }

  // ---- Reading the text ----

  /** What `readline(limit)` returns at the front of `rest`. */
  function TakeLine(rest: string, limit: nat): (l: string)
    ensures l <= rest && |l| <= limit
  {
    if rest == "" || limit == 0 then ""
    else if rest[0] == '\n' then ['\n']
    else [rest[0]] + TakeLine(rest[1..], limit - 1)
  }

  /** A file opened as text, with its read position. */
  class TextFile {
    const text: string
    var pos: nat

    predicate Valid()
      reads this
    {
      pos <= |text|
    }

    function Rest(): string
      requires Valid()
      reads this
    {
      text[pos..]
    }

    constructor (text: string)
      ensures this.text == text && pos == 0 && Valid()
    {
      this.text, pos := text, 0;
    }

    method ReadLine(limit: nat) returns (line: string)
      requires Valid()
      modifies this
      ensures Valid() && line == TakeLine(old(Rest()), limit) && Rest() == old(Rest())[|line|..]
    {
      line := TakeLine(text[pos..], limit);
      pos := pos + |line|;
    }
  }

  const READ_CHUNK: nat := 65536

  /** The text behind its first line end; nothing if there is none. */
  function AfterLine(rest: string): (r: string)
    ensures |r| <= |rest|
  {
    if rest == "" then ""
    else if rest[0] == '\n' then rest[1..]
    else AfterLine(rest[1..])
  }

  predicate HasLineEnd(s: string) { '\n' in s }

  /** Taking part of a line leaves what is behind the line where it is. */
  lemma {:induction false} TakePart(rest: string, limit: nat)
    requires limit > 0
    ensures var l := TakeLine(rest, limit);
            && (EndsWithNewline(l) ==> rest[|l|..] == AfterLine(rest) && HasLineEnd(rest))
            && (!EndsWithNewline(l) ==> AfterLine(rest[|l|..]) == AfterLine(rest) && (HasLineEnd(rest) <==> HasLineEnd(rest[|l|..])))
            && (l == "" <==> rest == "")
    decreases limit
  {
    if rest != "" && rest[0] != '\n' {
      assert rest == [rest[0]] + rest[1..];
      if limit > 1 {
        TakePart(rest[1..], limit - 1);
        var l := TakeLine(rest[1..], limit - 1);
        assert rest[|l| + 1..] == rest[1..][|l|..];
      } else {
        assert TakeLine(rest[1..], 0) == "";
      }
    }
  }

  predicate EndsWithNewline(s: string) { s != "" && s[|s| - 1] == '\n' }

  /** `_discard_line`: false means that the file ended before the line did. */
  method DiscardLine(f: TextFile) returns (found: bool)
    requires f.Valid()
    modifies f
    ensures f.Valid() && found == HasLineEnd(old(f.Rest())) && f.Rest() == AfterLine(old(f.Rest()))
  {
    while true
      invariant f.Valid()
      invariant AfterLine(f.Rest()) == AfterLine(old(f.Rest())) && (HasLineEnd(f.Rest()) <==> HasLineEnd(old(f.Rest())))
      decreases |f.Rest()|
    {
      TakePart(f.Rest(), READ_CHUNK);
      var chunk := f.ReadLine(READ_CHUNK);
      if chunk == "" {
        return false;
      }
      if EndsWithNewline(chunk) {
        return true;
      }
    }
  }

  /** The first line of a text, and the text behind it. */
  lemma {:induction false} FirstLine(rest: string)
    ensures var ls := Lines(rest);
            && (|ls| > 1 <==> HasLineEnd(rest))
            && (|ls| > 1 ==> Lines(AfterLine(rest)) == ls[1..])
            && (|ls| == 1 ==> ls[0] == rest && AfterLine(rest) == "")
  {
    if rest != "" && rest[0] != '\n' {
      FirstLine(rest[1..]);
      assert rest == [rest[0]] + rest[1..];
    } else if rest != "" {
      assert Lines(rest)[1..] == Lines(rest[1..]);
    }
  }

  /** As much of a line as the page can need. */
  function Buffered(line: string, max: nat): string {
    if |line| > max then line[..max + 1] else line
  }

  /** The first line, up to `limit` characters of it. */
  function Cut(line: string, limit: nat): string {
    if |line| > limit then line[..limit] else line
  }

  /** What `readline(limit)` returns: the first line, cut, with its newline if it has one
      and that still fits. */
  function FirstRead(first: string, ended: bool, limit: nat): string {
    if ended && |first| < limit then first + ['\n'] else Cut(first, limit)
  }

  lemma {:induction false} TakeLineReads(rest: string, limit: nat)
    ensures TakeLine(rest, limit) == FirstRead(Lines(rest)[0], HasLineEnd(rest), limit)
    decreases limit
  {
    if rest != "" && rest[0] != '\n' && limit > 0 {
      var tail := Lines(rest[1..])[0];
      TakeLineReads(rest[1..], limit - 1);
      assert Lines(rest)[0] == [rest[0]] + tail;
      assert HasLineEnd(rest) <==> HasLineEnd(rest[1..]);
      FirstReadMore(rest[0], tail, HasLineEnd(rest), limit);
    } else if rest == "" {
      assert Lines(rest)[0] == "" && !HasLineEnd(rest);
    } else if rest[0] == '\n' {
      assert Lines(rest)[0] == "" && HasLineEnd(rest);
    }
  }

  lemma {:induction false} FirstReadMore(c: char, tail: string, ended: bool, limit: nat)
    requires limit > 0
    ensures FirstRead([c] + tail, ended, limit) == [c] + FirstRead(tail, ended, limit - 1)
  {
    assert [c] + (tail + ['\n']) == [c] + tail + ['\n'];
  }

  // ---- The rows of the requested window ----

  /** The text behind its first `n` lines. */
  function Skip(rest: string, n: nat): string
    decreases n
  {
    if n == 0 then rest else Skip(AfterLine(rest), n - 1)
  }

  lemma {:induction false} SkipNothing(n: nat)
    ensures Skip("", n) == ""
  {
    if n > 0 { SkipNothing(n - 1); }
  }

  lemma {:induction false} SkipMore(rest: string, n: nat)
    ensures Skip(rest, n + 1) == AfterLine(Skip(rest, n))
    decreases n
  {
    if n > 0 { SkipMore(AfterLine(rest), n - 1); }
  }

  /** The next `n` buffered lines; at the end of the file, the empty line behind a
      final newline. */
  function ReadRows(rest: string, n: nat, max: nat, trailing: bool): seq<string>
    decreases n
  {
    if n == 0 then []
    else if rest == "" then (if trailing then [""] else [])
    else [Buffered(Lines(rest)[0], max)] + ReadRows(AfterLine(rest), n - 1, max, trailing)
  }

  /** `_window_rows`. */
  method WindowRows(text: string, start: nat, end: nat, max: nat, lastNewline: bool, empty: bool)
    returns (rows: seq<string>)
    requires start <= end
    ensures rows == ReadRows(Skip(text, start), end - start, max, lastNewline || empty)
  {
    var f := new TextFile(text);
    SkipLines(f, start);
    rows := NextRows(f, end - start, max, lastNewline || empty);
  }

  method NextRows(f: TextFile, n: nat, max: nat, trailing: bool) returns (rows: seq<string>)
    requires f.Valid()
    modifies f
    ensures rows == ReadRows(old(f.Rest()), n, max, trailing)
  {
    ghost var all := ReadRows(f.Rest(), n, max, trailing);
    rows := [];
    var eof := false;
    var left := n;
    while left > 0 && !eof
      invariant f.Valid()
      invariant if eof then rows == all else Remaining(rows, f.Rest(), left, max, trailing, all)
      decreases left
    {
      RowRead(rows, f.Rest(), left, max, trailing, all);
      var row, more := ReadRow(f, max);
      if more {
        rows := rows + [row];
      } else {
        eof := true;
        if trailing {
          rows := rows + [""];
        }
      }
      left := left - 1;
    }
    NoMoreRows(rows, f.Rest(), max, trailing, all);
  }

  lemma {:induction false} NoMoreRows(rows: seq<string>, rest: string, max: nat, trailing: bool, all: seq<string>)
    ensures Remaining(rows, rest, 0, max, trailing, all) ==> rows == all
  {
  }

  /** `rows` and the next `n` rows behind them are `all`. */
  predicate Remaining(rows: seq<string>, rest: string, n: nat, max: nat, trailing: bool, all: seq<string>) {
    all == rows + ReadRows(rest, n, max, trailing)
  }

  lemma {:induction false} RowRead(rows: seq<string>, rest: string, n: nat, max: nat, trailing: bool, all: seq<string>)
    requires n > 0 && Remaining(rows, rest, n, max, trailing, all)
    ensures rest != "" ==>
              Remaining(rows + [Buffered(Lines(rest)[0], max)], AfterLine(rest), n - 1, max, trailing, all)
    ensures rest == "" ==> all == if trailing then rows + [""] else rows
  {
    if rest != "" {
      var row, more := Buffered(Lines(rest)[0], max), ReadRows(AfterLine(rest), n - 1, max, trailing);
      assert rows + ([row] + more) == (rows + [row]) + more;
    }
  }

  method SkipLines(f: TextFile, n: nat)
    requires f.Valid()
    modifies f
    ensures f.Valid() && f.Rest() == Skip(old(f.Rest()), n)
  {
    var i := 0;
    while i < n
      invariant f.Valid() && i <= n && f.Rest() == Skip(old(f.Rest()), i)
    {
      SkipMore(old(f.Rest()), i);
      var found := DiscardLine(f);
      i := i + 1;
      if !found {
        FirstLine(Skip(old(f.Rest()), i - 1));
        SkipAll(old(f.Rest()), i, n);
        break;
      }
    }
  }

  lemma {:induction false} SkipAll(rest: string, i: nat, n: nat)
    requires i <= n && Skip(rest, i) == ""
    ensures Skip(rest, n) == ""
    decreases i
  {
    if i == 0 { SkipNothing(n); } else { SkipAll(AfterLine(rest), i - 1, n - 1); }
  }

  /** One row of the window; not `more` at the end of the file. */
  method ReadRow(f: TextFile, max: nat) returns (row: string, more: bool)
    requires f.Valid()
    modifies f
    ensures f.Valid() && (more <==> old(f.Rest()) != "")
    ensures more ==> row == Buffered(Lines(old(f.Rest()))[0], max) && f.Rest() == AfterLine(old(f.Rest()))
    ensures !more ==> f.Rest() == ""
  {
    ghost var rest := f.Rest();
    ReadsFirstLine(rest, max);
    var line := f.ReadLine(max + 1);
    if line == "" {
      return "", false;
    }
    row := if EndsWithNewline(line) then line[..|line| - 1] else line;
    if |line| > max && !EndsWithNewline(line) {
      var _ := DiscardLine(f);
    }
    more := true;
  }

  /** A bounded read gives the buffered first line. It has reached the end of the line,
      or else, if it is short, the end of the file. */
  lemma {:induction false} ReadsFirstLine(rest: string, max: nat)
    ensures var line := TakeLine(rest, max + 1);
            && (line == "" <==> rest == "")
            && Buffered(Lines(rest)[0], max) == (if EndsWithNewline(line) then line[..|line| - 1] else line)
            && AfterLine(rest) ==
               if |line| > max && !EndsWithNewline(line) then AfterLine(rest[|line|..]) else rest[|line|..]
  {
    TakePart(rest, max + 1);
    TakeLineReads(rest, max + 1);
    FirstLine(rest);
    SplitPieces(rest, '\n');
    BufferedRead(Lines(rest)[0], HasLineEnd(rest), max);
  }

  lemma {:induction false} BufferedRead(first: string, ended: bool, max: nat)
    requires '\n' !in first
    ensures var line := FirstRead(first, ended, max + 1);
            && (EndsWithNewline(line) <==> ended && |first| <= max)
            && Buffered(first, max) == (if EndsWithNewline(line) then line[..|line| - 1] else line)
            && (|line| <= max && !EndsWithNewline(line) ==> !ended && line == first)
  {
    var line := FirstRead(first, ended, max + 1);
    if ended && |first| <= max {
      assert line[..|line| - 1] == first;
    } else {
      assert line != "" ==> line[|line| - 1] in first;
    }
  }

  // ---- Rows and lines ----

  function BufferedLines(lines: seq<string>, max: nat): (bs: seq<string>)
    ensures |bs| == |lines|
  {
    if lines == [] then [] else [Buffered(lines[0], max)] + BufferedLines(lines[1..], max)
  }

  /** Skipping lines leads to the line asked for. */
  lemma {:induction false} SkipToLine(rest: string, n: nat)
    requires n < |Lines(rest)|
    ensures Lines(Skip(rest, n)) == Lines(rest)[n..]
    decreases n
  {
    FirstLine(rest);
    if n > 0 {
      SkipToLine(AfterLine(rest), n - 1);
      assert Lines(rest)[1..][n - 1..] == Lines(rest)[n..];
    }
  }

  predicate Trails(rest: string) {
    Lines(rest)[|Lines(rest)| - 1] == ""
  }

  /** The rows read are the lines asked for, each buffered as far as needed. */
  lemma {:induction false} RowsAreLines(rest: string, ls: seq<string>, n: nat, max: nat)
    requires ls == Lines(rest) && n <= |ls|
    ensures ReadRows(rest, n, max, ls[|ls| - 1] == "") == BufferedLines(ls[..n], max)
    decreases n
  {
    if n > 0 {
      assert ls[..n][0] == ls[0] && ls[..n][1..] == ls[1..][..n - 1];
      FirstLine(rest);
      if |ls| > 1 {
        assert rest != "";
        RowsAreLines(AfterLine(rest), ls[1..], n - 1, max);
      } else {
        assert BufferedLines(ls[1..][..n - 1], max) == [];
      }
    }
  }

  /** The character budget cannot tell a buffered line from the whole one. */
  lemma {:induction false} BudgetIgnoresBuffering(rows: seq<string>, output: seq<string>, used: nat, max: nat)
    requires max >= 1
    ensures CollectFrom(BufferedLines(rows, max), output, used, max) == CollectFrom(rows, output, used, max)
    decreases |rows|
  {
    if rows != [] {
      var row, buffered := rows[0], Buffered(rows[0], max);
      var more := BufferedLines(rows, max);
      assert more[0] == buffered && more[1..] == BufferedLines(rows[1..], max);
      var lead := if output != [] then 1 else 0;
      if |row| > max {
        assert buffered[..max - lead] == row[..max - lead];
      } else {
        BudgetIgnoresBuffering(rows[1..], output + [row], used + |row| + lead, max);
      }
    }
  }

  /** For lines of the file, the bounded reader collects what the pager in memory would. */
  lemma {:induction false} WindowCollects(text: string, start: nat, end: nat, max: nat)
    requires start < end <= |Lines(text)| && max >= 1
    ensures CollectRows(ReadRows(Skip(text, start), end - start, max, Trails(text)), max)
         == CollectRows(Lines(text)[start..end], max)
  {
    WindowIsLines(text, start, end, max);
    BudgetIgnoresBuffering(Lines(text)[start..end], [], 0, max);
  }

  lemma {:induction false} WindowIsLines(text: string, start: nat, end: nat, max: nat)
    requires start < end <= |Lines(text)|
    ensures ReadRows(Skip(text, start), end - start, max, Trails(text)) == BufferedLines(Lines(text)[start..end], max)
  {
    var ls := Lines(text);
    SkipToLine(text, start);
    LastOfWindow(ls, start, end);
    RowsAreLines(Skip(text, start), ls[start..], end - start, max);
  }

  lemma {:induction false} LastOfWindow(ls: seq<string>, start: nat, end: nat)
    requires start < end <= |ls|
    ensures ls[start..][|ls[start..]| - 1] == ls[|ls| - 1]
    ensures ls[start..][..end - start] == ls[start..end]
  {
  }

  // ---- The end of the file ----

  /** The last line is empty just when the file is, or ends with a separator byte. */
  lemma {:induction false} TrailsByLastByte(raw: string)
    ensures Trails(Normalize(raw)) <==> EndsLine(Encode(raw)) || Encode(raw) == []
    decreases |raw|
  {
    if raw != "" {
      var rest := Encode(raw[1..]);
      LastOfChar(raw[0], rest);
      if raw[0] == '\r' && |raw| > 1 && raw[1] == '\n' {
        assert raw[1..][1..] == raw[2..];
        LastOfChar(raw[1], Encode(raw[2..]));
        TrailsByLastByte(raw[2..]);
        TrailsBehind('\n', Normalize(raw[2..]));
      } else {
        TrailsByLastByte(raw[1..]);
        TrailsBehind(if raw[0] == '\r' then '\n' else raw[0], Normalize(raw[1..]));
        EmptyText(raw[1..]);
      }
    }
  }

  lemma {:induction false} EmptyText(raw: string)
    ensures raw == "" <==> Encode(raw) == []
    ensures raw == "" <==> Normalize(raw) == ""
  {
  }

  lemma {:induction false} LastOfChar(c: char, rest: seq<byte>)
    ensures EndsLine(EncodeChar(c) + rest) <==> if rest == [] then c == '\n' || c == '\r' else EndsLine(rest)
    ensures EncodeChar(c) + rest != []
  {
    var bs := EncodeChar(c);
    if rest == [] {
      assert bs + rest == bs;
      if c as int >= 0x80 { assert bs[|bs| - 1] in bs; }
    }
  }

  lemma {:induction false} TrailsBehind(c: char, t: string)
    ensures Trails([c] + t) <==> if t == "" then c == '\n' else Trails(t)
  {
    assert ([c] + t)[1..] == t;
    if t == "" {
      assert Lines(t) == [""];
    } else {
      TrailsLonger(c, t);
    }
  }

  lemma {:induction false} TrailsLonger(c: char, t: string)
    requires t != ""
    ensures Trails([c] + t) <==> Trails(t)
  {
    assert ([c] + t)[1..] == t;
    var ls := Lines(t);
    if c == '\n' {
      assert Lines([c] + t) == [""] + ls;
    } else {
      assert Lines([c] + t) == [[c] + ls[0]] + ls[1..];
      if |ls| == 1 {
        FirstLine(t);
        assert ls[0] == t;
      }
    }
  }

  // ---- One page of a file ----

  /** The page for a file whose separators were counted as `total - 1`. */
  function WindowCollected(text: string, r: Range, max: nat): Collected
    requires r.start <= r.end
  {
    CollectRows(ReadRows(Skip(text, r.start), r.end - r.start, max, Trails(text)), max)
  }

  function FilePage(text: string, total: nat, offset: Option<int>, limit: Option<int>, max: nat): Result<Page> {
    match ResolveRange(total, offset, limit)
    case Err(e) => Err(e)
    case Ok(r) => Ok(BuildPage(WindowCollected(text, r, max), r, total, max))
  }

  lemma {:induction false} ReadRowsAtMost(rest: string, n: nat, max: nat, trailing: bool)
    ensures |ReadRows(rest, n, max, trailing)| <= n
    decreases n
  {
    if n > 0 && rest != "" { ReadRowsAtMost(AfterLine(rest), n - 1, max, trailing); }
  }

  method CollectWindow(text: string, r: Range, max: nat, lastNewline: bool, empty: bool) returns (c: Collected)
    requires r.start <= r.end && Trails(text) == (lastNewline || empty)
    ensures c == WindowCollected(text, r, max)
  {
    var rows := WindowRows(text, r.start, r.end, max, lastNewline, empty);
    ReadRowsAtMost(Skip(text, r.start), r.end - r.start, max, lastNewline || empty);
    assert rows[..|rows|] == rows;
    c := CollectPageRows(rows, r.end - r.start, max);
  }

  method ReadWindow(text: string, total: nat, lastNewline: bool, empty: bool, offset: Option<int>, limit: Option<int>,
                    max: nat)
    returns (p: Result<Page>)
    requires Trails(text) == (lastNewline || empty)
    ensures p == FilePage(text, total, offset, limit, max)
  {
    var range := ResolveRange(total, offset, limit);
    if range.Err? {
      return Err(range.error);
    }
    var c := CollectWindow(text, range.value, max, lastNewline, empty);
    p := Ok(BuildPage(c, range.value, total, max));
  }

  /** The file with text `raw`, read in `chunks`. */
  predicate Holds(chunks: seq<seq<byte>>, raw: string) {
    Flatten(chunks) == Encode(raw) && forall c :: c in chunks ==> c != []
  }

  function CountedTotal(text: string, chunks: seq<seq<byte>>): (n: nat)
    ensures n == |Lines(text)| + Boundaries(chunks)
  {
    |Lines(text)| + Boundaries(chunks)
  }

  method CountLines(raw: string, chunks: seq<seq<byte>>) returns (total: nat)
    requires Holds(chunks, raw)
    ensures total == CountedTotal(Normalize(raw), chunks)
  {
    var count := CountNewlines(chunks);
    SeparatorsAreLineEnds(raw);
    total := count + 1;
  }

  method HasTrailingRow(raw: string, bytes: seq<byte>) returns (lastNewline: bool, empty: bool)
    requires bytes == Encode(raw)
    ensures Trails(Normalize(raw)) == (lastNewline || empty)
  {
    TrailsByLastByte(raw);
    lastNewline, empty := EndsLine(bytes), bytes == [];
  }

  /** `paginate_text`, but with bounded reads and the counted number of lines. */
  function FilePaginate(text: string, total: nat, offset: Option<int>, limit: Option<int>, maxChars: Option<int>)
    : Result<Page>
  {
    FilePage(text, total, offset, limit, ClampChars(maxChars))
  }

  method ReadClamped(text: string, total: nat, lastNewline: bool, empty: bool, offset: Option<int>,
                     limit: Option<int>, maxChars: Option<int>)
    returns (p: Result<Page>)
    requires Trails(text) == (lastNewline || empty)
    ensures p == FilePaginate(text, total, offset, limit, maxChars)
  {
    p := ReadWindow(text, total, lastNewline, empty, offset, limit, ClampChars(maxChars));
  }

  /** `read_text_page` on the text `raw`, whose bytes arrive in `chunks` while they are counted. */
  method ReadTextPage(raw: string, chunks: seq<seq<byte>>, offset: Option<int>, limit: Option<int>,
                      maxChars: Option<int>)
    returns (p: Result<Page>)
    requires Holds(chunks, raw)
    ensures p == FilePaginate(Normalize(raw), CountedTotal(Normalize(raw), chunks), offset, limit, maxChars)
  {
    var text := Normalize(raw);
    var total := CountLines(raw, chunks);
    var lastNewline, empty := HasTrailingRow(raw, Flatten(chunks));
    p := ReadClamped(text, total, lastNewline, empty, offset, limit, maxChars);
  }

  lemma {:induction false} FilePageShows(
      text: string, total: nat, offset: Option<int>, limit: Option<int>, maxChars: Option<int>, r: Range)
    requires ResolveRange(total, offset, limit) == Ok(r)
    ensures var max := ClampChars(maxChars);
            FilePaginate(text, total, offset, limit, maxChars) == Ok(BuildPage(WindowCollected(text, r, max), r, total, max))
  {
  }

  /** With the right number of lines, bounded reads give the page `paginate_text` gives. */
  lemma {:induction false} BoundedReadsAgree(
      text: string, offset: Option<int>, limit: Option<int>, maxChars: Option<int>)
    ensures FilePaginate(text, |Lines(text)|, offset, limit, maxChars) == Paginate(text, offset, limit, maxChars)
  {
    var range := ResolveRange(|Lines(text)|, offset, limit);
    if range.Ok? {
      WindowCollects(text, range.value.start, range.value.end, ClampChars(maxChars));
      FilePageShows(text, |Lines(text)|, offset, limit, maxChars, range.value);
    }
  }

  /** A page, or an out-of-range error, tells the number of lines. */
  predicate Tells(p: Result<Page>, total: nat) {
    match p
    case Ok(page) => page.totalLines == total
    case Err(OffsetOutOfRange(_, n)) => n == total
    case _ => false
  }

  /** The request is refused for itself: the offset is below 1, or it is a line of the text
      and the limit is below 1. */
  predicate Refused(total: nat, offset: Option<int>, limit: Option<int>) {
    || (offset.Some? && offset.value < 1)
    || ((offset.Some? ==> offset.value <= total) && limit.Some? && limit.value < 1)
  }

  lemma {:induction false} FilePageTells(text: string, total: nat, offset: Option<int>, limit: Option<int>,
                                         maxChars: Option<int>)
    ensures !Refused(total, offset, limit) ==> Tells(FilePaginate(text, total, offset, limit, maxChars), total)
  {
  }

  lemma {:induction false} PageTells(text: string, offset: Option<int>, limit: Option<int>, maxChars: Option<int>)
    ensures !Refused(|Lines(text)|, offset, limit) ==>
              Tells(Paginate(text, offset, limit, maxChars), |Lines(text)|)
  {
  }

  lemma {:induction false} RefusedAlike(text: string, total: nat, offset: Option<int>, limit: Option<int>,
                                        maxChars: Option<int>)
    requires total >= |Lines(text)| && Refused(|Lines(text)|, offset, limit)
    ensures FilePaginate(text, total, offset, limit, maxChars) == Paginate(text, offset, limit, maxChars)
  {
  }

  lemma {:induction false} RefusedDiffers(text: string, total: nat, offset: Option<int>, limit: Option<int>,
                                          maxChars: Option<int>)
    requires total > |Lines(text)| && !Refused(|Lines(text)|, offset, limit)
    ensures FilePaginate(text, total, offset, limit, maxChars) != Paginate(text, offset, limit, maxChars)
  {
    PageTells(text, offset, limit, maxChars);
    if !Refused(total, offset, limit) { FilePageTells(text, total, offset, limit, maxChars); }
  }

  /** The page read from a file is the page `paginate_text` gives for its text just when no
      chunk boundary directly follows a separator byte, or when the request itself is refused. */
  lemma {:induction false} FilePageIsPage(text: string, chunks: seq<seq<byte>>, offset: Option<int>,
                                          limit: Option<int>, maxChars: Option<int>)
    ensures FilePaginate(text, CountedTotal(text, chunks), offset, limit, maxChars) ==
            Paginate(text, offset, limit, maxChars) <==>
            Boundaries(chunks) == 0 || Refused(|Lines(text)|, offset, limit)
  {
    if Boundaries(chunks) == 0 {
      BoundedReadsAgree(text, offset, limit, maxChars);
    } else if Refused(|Lines(text)|, offset, limit) {
      RefusedAlike(text, CountedTotal(text, chunks), offset, limit, maxChars);
    } else {
      RefusedDiffers(text, CountedTotal(text, chunks), offset, limit, maxChars);
    }
  }

  // ---- The chunks that are read ----

  /** The size of one read while separators are counted. */
  const COUNT_CHUNK: nat := 1048576

  function Chunks(bytes: seq<byte>, size: nat): (cs: seq<seq<byte>>)
    requires size > 0
    ensures Flatten(cs) == bytes && forall c :: c in cs ==> c != []
  {
    if bytes == [] then []
    else if |bytes| <= size then
      assert Flatten([bytes]) == bytes + Flatten<byte>([]) == bytes;
      [bytes]
    else
      assert ([bytes[..size]] + Chunks(bytes[size..], size))[1..] == Chunks(bytes[size..], size);
      [bytes[..size]] + Chunks(bytes[size..], size)
  }

  /** The byte in front of position `i` is a separator. */
  predicate SeparatorAt(bytes: seq<byte>, i: nat)
    requires 0 < i <= |bytes|
  {
    bytes[i - 1] == LF || bytes[i - 1] == CR
  }

  /** A full read, not the last one, ends with a separator. */
  predicate ReadEndsLine(bytes: seq<byte>, size: nat)
    requires size > 0
    decreases |bytes|
  {
    |bytes| > size && (SeparatorAt(bytes, size) || ReadEndsLine(bytes[size..], size))
  }

  lemma {:induction false} BoundariesAtReads(bytes: seq<byte>, size: nat)
    requires size > 0
    ensures Boundaries(Chunks(bytes, size)) == 0 <==> !ReadEndsLine(bytes, size)
    decreases |bytes|
  {
    if |bytes| > size {
      var rest := Chunks(bytes[size..], size);
      var cs := [bytes[..size]] + rest;
      assert cs[1..] == rest && cs[0] == bytes[..size];
      assert rest != [];
      BoundariesAtReads(bytes[size..], size);
    }
  }

  /** A file that is counted in reads of 2 to the power of 20 bytes: its pages are right
      unless one of the reads, not the last, ends with a separator. */
  lemma {:induction false} FileIsPagedRight(raw: string, offset: Option<int>, limit: Option<int>, maxChars: Option<int>)
    ensures var text, chunks := Normalize(raw), Chunks(Encode(raw), COUNT_CHUNK);
            && Holds(chunks, raw)
            && (FilePaginate(text, CountedTotal(text, chunks), offset, limit, maxChars) ==
                Paginate(text, offset, limit, maxChars) <==>
                !ReadEndsLine(Encode(raw), COUNT_CHUNK) || Refused(|Lines(text)|, offset, limit))
  {
    BoundariesAtReads(Encode(raw), COUNT_CHUNK);
    FilePageIsPage(Normalize(raw), Chunks(Encode(raw), COUNT_CHUNK), offset, limit, maxChars);
  }

  lemma {:induction false} EncodeConcat(a: string, b: string)
    ensures Encode(a + b) == Encode(a) + Encode(b)
  {
    if a == "" {
      assert a + b == b;
    } else {
      assert (a + b)[1..] == a[1..] + b;
      EncodeConcat(a[1..], b);
    }
  }

  predicate Ascii(s: string) {
    forall c :: c in s ==> c as int < 0x80
  }

  lemma {:induction false} AsciiBytes(s: string)
    requires Ascii(s)
    ensures |Encode(s)| == |s|
  {
    if s != "" {
      assert s[0] in s && forall c :: c in s[1..] ==> c in s;
      AsciiBytes(s[1..]);
    }
  }

  lemma {:induction false} EncodedLine(front: string, rest: string)
    requires Ascii(front) && rest != ""
    ensures var bytes := Encode(front + ['\n'] + rest); |bytes| > |front| + 1 && bytes[|front|] == LF
  {
    EncodeConcat(front + ['\n'], rest);
    EncodeConcat(front, ['\n']);
    AsciiBytes(front);
    assert ['\n'][1..] == "" && Encode(['\n']) == [LF];
    assert |Encode(rest)| > 0;
  }

  /** A file of ASCII characters whose first line ends exactly with the first read, and that
      goes on: one line too many is seen, so every request that is not refused gets another
      page than from the text, and one right behind its end gets a page at all. */
  lemma {:induction false} MiscountedFile(
    front: string, rest: string, offset: Option<int>, limit: Option<int>, maxChars: Option<int>)
    requires Ascii(front) && |front| == COUNT_CHUNK - 1 && rest != ""
    ensures var raw := front + ['\n'] + rest;
            var text, total := Normalize(raw), CountedTotal(Normalize(raw), Chunks(Encode(raw), COUNT_CHUNK));
            && (!Refused(|Lines(text)|, offset, limit) ==>
                  FilePaginate(text, total, offset, limit, maxChars) != Paginate(text, offset, limit, maxChars))
            && FilePaginate(text, total, Some(|Lines(text)| + 1), None, maxChars).Ok?
            && Paginate(text, Some(|Lines(text)| + 1), None, maxChars).Err?
  {
    var raw := front + ['\n'] + rest;
    EncodedLine(front, rest);
    BoundariesAtReads(Encode(raw), COUNT_CHUNK);
    FileIsPagedRight(raw, offset, limit, maxChars);
    BehindTheEnd(Normalize(raw), CountedTotal(Normalize(raw), Chunks(Encode(raw), COUNT_CHUNK)), maxChars);
  }

  lemma {:induction false} BehindTheEnd(text: string, total: nat, maxChars: Option<int>)
    requires total > |Lines(text)|
    ensures FilePaginate(text, total, Some(|Lines(text)| + 1), None, maxChars).Ok?
    ensures Paginate(text, Some(|Lines(text)| + 1), None, maxChars).Err?
  {
  }

  /** Such a file: one character short of a full read, a newline, one character more. */
  lemma {:induction false} SampleFile(front: string)
    requires front == seq(COUNT_CHUNK - 1, _ => 'x')
    ensures var raw := front + ['\n'] + ['y'];
            FilePaginate(Normalize(raw), CountedTotal(Normalize(raw), Chunks(Encode(raw), COUNT_CHUNK)), None, None, None)
              != Paginate(Normalize(raw), None, None, None)
  {
    MiscountedFile(front, ['y'], None, None, None);
  }
}
