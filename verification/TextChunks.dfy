/** Cutting plain text into chunks of bounded size: by paragraph, list item,
    sentence and, if need be, character. */
module TextChunks {
  import opened Text
  import opened LineKinds

  // ---- What must survive: the characters that are not white space ----

  function Ink(s: string): string {
    if s == "" then ""
    else (if IsSpace(s[0]) then "" else [s[0]]) + Ink(s[1..])
  }

  lemma {:induction false} InkConcat(a: string, b: string)
    ensures Ink(a + b) == Ink(a) + Ink(b)
  {
    if a == "" {
      assert a + b == b;
    } else {
      assert (a + b)[1..] == a[1..] + b;
      InkConcat(a[1..], b);
    }
  }

  lemma {:induction false} NoInk(s: string)
    requires forall c :: c in s ==> IsSpace(c)
    ensures Ink(s) == ""
  {
    if s != "" { NoInk(s[1..]); }
  }

  lemma {:induction false} StripKeepsInk(s: string)
    ensures Ink(Strip(s)) == Ink(s) && Size(Strip(s)) <= Size(s)
    ensures forall c :: c in Strip(s) ==> c in s
  {
    LStripKeepsInk(s);
    RStripKeepsInk(LStrip(s));
  }

  lemma {:induction false} LStripKeepsInk(s: string)
    ensures Ink(LStrip(s)) == Ink(s) && Size(LStrip(s)) <= Size(s)
  {
    if s != "" && IsSpace(s[0]) { LStripKeepsInk(s[1..]); }
  }

  lemma {:induction false} RStripKeepsInk(s: string)
    ensures Ink(RStrip(s)) == Ink(s) && Size(RStrip(s)) <= Size(s)
  {
    if s != "" && IsSpace(s[|s| - 1]) {
      var t := s[..|s| - 1];
      assert s == t + [s[|s| - 1]];
      InkConcat(t, [s[|s| - 1]]);
      SizeConcat(t, [s[|s| - 1]]);
      RStripKeepsInk(t);
    }
  }

  lemma {:induction false} JoinKeepsInk(ls: seq<string>)
    ensures Ink(Unlines(ls)) == Ink(Flatten(ls))
  {
    if |ls| > 1 {
      JoinKeepsInk(ls[1..]);
      InkConcat(ls[0] + ['\n'], Unlines(ls[1..]));
      InkConcat(ls[0], ['\n']);
      InkConcat(ls[0], Flatten(ls[1..]));
      assert ls[0] + ['\n'] + Unlines(ls[1..]) == Unlines(ls);
    } else if |ls| == 1 {
      assert Flatten(ls) == ls[0] + Flatten<char>([]) == ls[0];
    }
  }

  // ---- Lists of chunks ----

  predicate Bounded(chunks: seq<string>, max: nat) {
    forall c :: c in chunks ==> Size(c) <= max
  }

  function InkOf(chunks: seq<string>): string {
    Ink(Flatten(chunks))
  }

  lemma {:induction false} InkOfConcat(a: seq<string>, b: seq<string>)
    ensures InkOf(a + b) == InkOf(a) + InkOf(b)
  {
    FlattenConcat(a, b);
    InkConcat(Flatten(a), Flatten(b));
  }

  lemma {:induction false} InkOfOne(c: string)
    ensures InkOf([c]) == Ink(c)
  {
    assert Flatten([c]) == c + Flatten([]) == c;
  }

  /** `out` is `chunks` with all ink of `text` added behind it, within the size limit,
      and without the character `|` unless it was already there. */
  ghost predicate Added(chunks: seq<string>, text: string, out: seq<string>, max: nat) {
    && InkOf(out) == InkOf(chunks) + Ink(text)
    && (4 <= max && Bounded(chunks, max) ==> Bounded(out, max))
    && ('|' !in text && NoPipes(chunks) ==> NoPipes(out))
  }

  predicate NoPipes(chunks: seq<string>) {
    forall c :: c in chunks ==> '|' !in c
  }

  lemma {:induction false} AddedTwice(a: seq<string>, s: string, b: seq<string>, t: string, c: seq<string>, max: nat)
    requires Added(a, s, b, max) && Added(b, t, c, max)
    ensures Added(a, s + t, c, max)
  {
    InkConcat(s, t);
    InkGrouped(InkOf(a), Ink(s), Ink(t));
  }

  lemma {:induction false} InkGrouped(a: string, b: string, c: string)
    ensures a + b + c == a + (b + c)
  {
  }

  /** Text of equal ink can stand in for the text added. */
  lemma {:induction false} AddedLike(a: seq<string>, s: string, b: seq<string>, t: string, max: nat)
    requires Added(a, s, b, max) && Ink(s) == Ink(t) && ('|' !in t ==> '|' !in s)
    ensures Added(a, t, b, max)
  {
  }

  /** `_append_or_flush`: merge into the last chunk if it fits, else start a new one. */
  function AppendOrFlush(chunks: seq<string>, text: string, max: nat, spacer: string): seq<string> {
    if text == "" then chunks
    else if chunks != [] && Size(chunks[|chunks| - 1] + spacer + text) <= max then
      chunks[..|chunks| - 1] + [chunks[|chunks| - 1] + spacer + text]
    else chunks + [text]
  }

  lemma {:induction false} AppendAdds(chunks: seq<string>, text: string, max: nat, spacer: string)
    requires Size(text) <= max && (forall c :: c in spacer ==> IsSpace(c)) && '|' !in spacer
    ensures Added(chunks, text, AppendOrFlush(chunks, text, max, spacer), max)
    ensures text != "" ==> AppendOrFlush(chunks, text, max, spacer) != []
  {
    if text != "" {
      var n := |chunks| - 1;
      if chunks != [] && Size(chunks[n] + spacer + text) <= max {
        var front, last := chunks[..n], chunks[n];
        assert chunks == front + [last];
        InkOfConcat(front, [last]);
        InkOfConcat(front, [last + spacer + text]);
        InkOfOne(last);
        InkOfOne(last + spacer + text);
        InkConcat(last + spacer, text);
        InkConcat(last, spacer);
        NoInk(spacer);
      } else {
        InkOfConcat(chunks, [text]);
        InkOfOne(text);
      }
    }
  }

  // ---- Plain text ----

  /** `text.split("\n\n")`. */
  function Paragraphs(t: string): (ps: seq<string>)
    ensures |ps| > 0
  {
    if t == "" then [""]
    else if t[0] == '\n' && |t| > 1 && t[1] == '\n' then [""] + Paragraphs(t[2..])
    else
      var rest := Paragraphs(t[1..]);
      [[t[0]] + rest[0]] + rest[1..]
  }

  lemma {:induction false} ParagraphsKeepInk(t: string)
    ensures Ink(Flatten(Paragraphs(t))) == Ink(t)
  {
    if t == "" {
      assert Flatten([""]) == "" + Flatten<char>([]);
    } else if t[0] == '\n' && |t| > 1 && t[1] == '\n' {
      ParagraphsKeepInk(t[2..]);
      assert ([""] + Paragraphs(t[2..]))[1..] == Paragraphs(t[2..]);
      assert Flatten(Paragraphs(t)) == "" + Flatten(Paragraphs(t[2..])) == Flatten(Paragraphs(t[2..]));
      assert t == ['\n', '\n'] + t[2..];
      InkConcat(['\n', '\n'], t[2..]);
      NoInk(['\n', '\n']);
    } else {
      var rest := Paragraphs(t[1..]);
      ParagraphsKeepInk(t[1..]);
      FlattenPrepend(t[0], rest);
      assert t == [t[0]] + t[1..];
      InkConcat([t[0]], t[1..]);
      InkConcat([t[0]], Flatten(rest));
    }
  }

  lemma {:induction false} ParagraphChars(t: string)
    ensures forall p, c :: p in Paragraphs(t) && c in p ==> c in t
  {
    if t == "" {
    } else if t[0] == '\n' && |t| > 1 && t[1] == '\n' {
      ParagraphChars(t[2..]);
    } else {
      ParagraphChars(t[1..]);
    }
  }

  function Indent(line: string): (n: nat)
    ensures n <= |line|
  {
    if line != "" && (line[0] == ' ' || line[0] == '\t') then 1 + Indent(line[1..]) else 0
  }

  /** Where the list pattern of the splitter matches: blanks and tabs only in front. */
  predicate StartsItem(line: string) {
    Indent(line) <= 4 && MarkerAt(line[Indent(line)..])
  }

  /** Lines grouped so that every list marker starts a new piece. */
  function ListPieces(ls: seq<string>): (ps: seq<seq<string>>)
    requires ls != []
    ensures |ps| > 0
  {
    if |ls| == 1 then [ls]
    else
      var rest := ListPieces(ls[1..]);
      if StartsItem(ls[1]) then [[ls[0]]] + rest
      else [[ls[0]] + rest[0]] + rest[1..]
  }

  lemma {:induction false} ListPiecesFlatten(ls: seq<string>)
    requires ls != []
    ensures Flatten(ListPieces(ls)) == ls
  {
    if |ls| == 1 {
      assert Flatten([ls]) == ls + Flatten<string>([]);
    } else {
      var rest := ListPieces(ls[1..]);
      ListPiecesFlatten(ls[1..]);
      if !StartsItem(ls[1]) {
        FlattenPrepend(ls[0], rest);
      }
    }
  }

  /** The pieces are groups of lines, in order; a list marker stands at the front of every
      piece but the first, and nowhere else. */
  lemma {:induction false} PiecesStartAtMarkers(ls: seq<string>)
    requires ls != []
    ensures Flatten(ListPieces(ls)) == ls
    ensures forall i :: 0 <= i < |ListPieces(ls)| ==> ListPieces(ls)[i] != []
    ensures forall i :: 0 < i < |ListPieces(ls)| ==> StartsItem(ListPieces(ls)[i][0])
    ensures forall i, j :: 0 <= i < |ListPieces(ls)| && 0 < j < |ListPieces(ls)[i]| ==> !StartsItem(ListPieces(ls)[i][j])
    ensures ListPieces(ls)[0][0] == ls[0]
  {
    ListPiecesFlatten(ls);
    if |ls| > 1 {
      PiecesStartAtMarkers(ls[1..]);
      var rest := ListPieces(ls[1..]);
      MarkersBehind(rest, ls[0], StartsItem(ls[1]));
    }
  }

  lemma {:induction false} MarkersBehind(rest: seq<seq<string>>, l: string, apart: bool)
    requires rest != [] && rest[0] != [] && (StartsItem(rest[0][0]) <==> apart)
    requires forall i :: 0 < i < |rest| ==> rest[i] != [] && StartsItem(rest[i][0])
    requires forall i, j :: 0 <= i < |rest| && 0 < j < |rest[i]| ==> !StartsItem(rest[i][j])
    ensures var more := if apart then [[l]] + rest else [[l] + rest[0]] + rest[1..];
            && (forall i :: 0 < i < |more| ==> more[i] != [] && StartsItem(more[i][0]))
            && (forall i, j :: 0 <= i < |more| && 0 < j < |more[i]| ==> !StartsItem(more[i][j]))
  {
    if !apart {
      var first := [l] + rest[0];
      forall j | 0 < j < |first| ensures !StartsItem(first[j]) {
        assert first[j] == rest[0][j - 1];
      }
    }
  }

  predicate EndsSentence(c: char) {
    c in ['\U{3002}', '\U{FF01}', '\U{FF1F}', '!', '?', '\n']
  }

  /** Split behind every sentence end. */
  function Sentences(s: string): (ps: seq<string>)
    ensures |ps| > 0
    ensures Flatten(ps) == s
  {
    if s == "" then
      assert Flatten([""]) == "" + Flatten<char>([]);
      [""]
    else
      var rest := Sentences(s[1..]);
      if EndsSentence(s[0]) then [[s[0]]] + rest
      else
        FlattenPrepend(s[0], rest);
        [[s[0]] + rest[0]] + rest[1..]
  }

  /** An ideographic full stop, an exclamation or question mark of either width, or a
      newline. */
  lemma {:induction false} SentenceEnds(c: char)
    ensures EndsSentence(c) <==> c as int in {0x3002, 0xFF01, 0xFF1F, 0x21, 0x3F, 0x0A}
  {
  }

  /** Every part but the last ends in a sentence end, and none holds one before. */
  ghost predicate EndsOnly(ps: seq<string>)
    requires ps != []
  {
    && (forall i :: 0 <= i < |ps| - 1 ==> ps[i] != "" && EndsSentence(ps[i][|ps[i]| - 1]))
    && (forall i, j :: 0 <= i < |ps| && 0 <= j < |ps[i]| - 1 ==> !EndsSentence(ps[i][j]))
    && (forall c :: c in ps[|ps| - 1] ==> !EndsSentence(c))
  }

  lemma {:induction false} EndInFront(rest: seq<string>, c: char)
    requires rest != [] && EndsOnly(rest) && EndsSentence(c)
    ensures EndsOnly([[c]] + rest)
  {
    var ps := [[c]] + rest;
    assert forall i :: 1 <= i < |ps| ==> ps[i] == rest[i - 1];
    assert ps[|ps| - 1] == rest[|rest| - 1];
  }

  lemma {:induction false} CharInFront(rest: seq<string>, c: char)
    requires rest != [] && EndsOnly(rest) && !EndsSentence(c)
    ensures EndsOnly([[c] + rest[0]] + rest[1..])
  {
    var first, ps := [c] + rest[0], [[c] + rest[0]] + rest[1..];
    assert forall j :: 1 <= j < |first| ==> first[j] == rest[0][j - 1];
    assert forall i :: 1 <= i < |ps| ==> ps[i] == rest[i];
  }

  lemma {:induction false} SentencesEnd(s: string)
    ensures EndsOnly(Sentences(s))
  {
    if s != "" {
      SentencesEnd(s[1..]);
      if EndsSentence(s[0]) { EndInFront(Sentences(s[1..]), s[0]); } else { CharInFront(Sentences(s[1..]), s[0]); }
    }
  }

  function TrimNewlines(s: string): string
    decreases |s|
  {
    if s != "" && s[0] == '\n' then TrimNewlines(s[1..])
    else if s != "" && s[|s| - 1] == '\n' then TrimNewlines(s[..|s| - 1])
    else s
  }

  lemma {:induction false} TrimKeepsInk(s: string)
    ensures Ink(TrimNewlines(s)) == Ink(s)
    ensures forall c :: c in TrimNewlines(s) ==> c in s
    decreases |s|
  {
    if s != "" && s[0] == '\n' {
      TrimKeepsInk(s[1..]);
    } else if s != "" && s[|s| - 1] == '\n' {
      var t := s[..|s| - 1];
      assert s == t + ['\n'];
      InkConcat(t, ['\n']);
      TrimKeepsInk(t);
    }
  }

  /** The next piece's first character did not fit any more. */
  predicate NoRoom(piece: string, next: string, max: nat) {
    next != "" && Size(piece) + Width(next[0]) > max
  }

  ghost predicate Greedy(pieces: seq<string>, max: nat) {
    forall i, j :: 0 <= i && j == i + 1 && j < |pieces| ==> NoRoom(pieces[i], pieces[j], max)
  }

  lemma {:induction false} SizeOfOneMore(s: string, c: char)
    ensures Size(s + [c]) == Size(s) + Width(c)
  {
    SizeConcat(s, [c]);
    assert [c][1..] == "";
  }

  /** A hard cut in progress: the finished pieces and the one being filled. */
  datatype Cutting = Cutting(pieces: seq<string>, piece: string)

  function CutUpTo(s: string, max: nat): Cutting {
    if s == "" then Cutting([], "")
    else
      var c, p := s[|s| - 1], CutUpTo(s[..|s| - 1], max);
      if Size(p.piece + [c]) <= max then Cutting(p.pieces, p.piece + [c])
      else Cutting(p.pieces + [p.piece], [c])
  }

  function HardCuts(s: string, max: nat): seq<string> {
    var p := CutUpTo(s, max);
    if p.piece != "" then p.pieces + [p.piece] else p.pieces
  }

  ghost predicate CutRight(p: Cutting, s: string, max: nat) {
    && Flatten(p.pieces) + p.piece == s
    && (4 <= max ==> Size(p.piece) <= max && Bounded(p.pieces, max) && Greedy(p.pieces, max))
    && (p.pieces != [] ==> NoRoom(p.pieces[|p.pieces| - 1], p.piece, max))
  }

  lemma {:induction false} CutOneMore(p: Cutting, s: string, c: char, max: nat)
    requires CutRight(p, s, max)
    ensures Size(p.piece + [c]) <= max ==> CutRight(Cutting(p.pieces, p.piece + [c]), s + [c], max)
    ensures Size(p.piece + [c]) > max ==> CutRight(Cutting(p.pieces + [p.piece], [c]), s + [c], max)
  {
    assert Flatten(p.pieces) + (p.piece + [c]) == s + [c];
    SizeOfOneMore(p.piece, c);
    SizeOfOneMore("", c);
    assert "" + [c] == [c];
    FlattenLast(p.pieces, p.piece);
  }

  lemma {:induction false} CutUpToRight(s: string, max: nat)
    ensures CutRight(CutUpTo(s, max), s, max)
  {
    if s != "" {
      var t, c := s[..|s| - 1], s[|s| - 1];
      assert s == t + [c];
      CutUpToRight(t, max);
      CutOneMore(CutUpTo(t, max), t, c, max);
    }
  }

  lemma {:induction false} HardCutsRight(s: string, max: nat)
    ensures Flatten(HardCuts(s, max)) == s
    ensures 4 <= max ==> Bounded(HardCuts(s, max), max) && Greedy(HardCuts(s, max), max)
  {
    CutUpToRight(s, max);
    var p := CutUpTo(s, max);
    FlattenLast(p.pieces, p.piece);
  }

  /** A sentence over the limit: cut between characters. Every character is kept,
      and no cut could have come later. */
  method HardCut(sentence: string, max: nat) returns (pieces: seq<string>)
    ensures pieces == HardCuts(sentence, max)
    ensures Flatten(pieces) == sentence
    ensures 4 <= max ==> Bounded(pieces, max) && Greedy(pieces, max)
  {
    pieces := [];
    var buf := "";
    for i := 0 to |sentence|
      invariant CutUpTo(sentence[..i], max) == Cutting(pieces, buf)
    {
      var c := sentence[i];
      var cand := buf + [c];
      assert sentence[..i + 1][..i] == sentence[..i];
      if Size(cand) <= max {
        buf := cand;
      } else {
        pieces := pieces + [buf];
        buf := [c];
      }
    }
    assert sentence[..|sentence|] == sentence;
    HardCutsRight(sentence, max);
    if buf != "" {
      pieces := pieces + [buf];
    }
  }

  lemma {:induction false} AddedPieces(chunks: seq<string>, pieces: seq<string>, max: nat)
    requires 4 <= max ==> Bounded(pieces, max)
    ensures Added(chunks, Flatten(pieces), chunks + pieces, max)
  {
    InkOfConcat(chunks, pieces);
    if '|' !in Flatten(pieces) {
      PiecesOfFlatten(pieces);
    }
  }

  lemma {:induction false} PiecesOfFlatten(pieces: seq<string>)
    ensures forall p, c :: p in pieces && c in p ==> c in Flatten(pieces)
  {
    if pieces != [] { PiecesOfFlatten(pieces[1..]); }
  }

  lemma {:induction false} AddedNothing(chunks: seq<string>, max: nat)
    ensures Added(chunks, "", chunks, max)
  {
  }

  // ---- Pieces written one after the other ----

  /** What writing one piece behind the chunks results in. */
  type Writer = (seq<string>, string) -> seq<string>

  function Folded(f: Writer, chunks: seq<string>, items: seq<string>): seq<string> {
    if items == [] then chunks
    else f(Folded(f, chunks, items[..|items| - 1]), items[|items| - 1])
  }

  lemma {:induction false} FoldedUpTo(f: Writer, chunks: seq<string>, items: seq<string>, i: nat)
    requires i < |items|
    ensures Folded(f, chunks, items[..i + 1]) == f(Folded(f, chunks, items[..i]), items[i])
  {
    assert items[..i + 1][..i] == items[..i];
  }

  ghost predicate Adds(f: Writer, max: nat) {
    forall cs, s :: Added(cs, s, f(cs, s), max)
  }

  lemma {:induction false} FoldedAdds(f: Writer, chunks: seq<string>, items: seq<string>, max: nat)
    requires Adds(f, max)
    ensures Added(chunks, Flatten(items), Folded(f, chunks, items), max)
  {
    if items == [] {
      AddedNothing(chunks, max);
    } else {
      var front, last := items[..|items| - 1], items[|items| - 1];
      FoldedAdds(f, chunks, front, max);
      AddedTwice(chunks, Flatten(front), Folded(f, chunks, front), last, Folded(f, chunks, items), max);
      assert items == front + [last];
      FlattenLast(front, last);
    }
  }

  // ---- Sentences, pieces, paragraphs, text ----

  /** Trim a piece first, then write it. */
  function Trimmed(trim: string -> string, write: Writer): Writer {
    (chunks: seq<string>, piece: string) => write(chunks, trim(piece))
  }

  /** Trimming takes nothing away but white space. */
  ghost predicate OnlySpace(trim: string -> string) {
    forall s :: Ink(trim(s)) == Ink(s) && ('|' !in s ==> '|' !in trim(s))
  }

  lemma {:induction false} TrimmedAdds(trim: string -> string, write: Writer, max: nat)
    requires Adds(write, max) && OnlySpace(trim)
    ensures Adds(Trimmed(trim, write), max)
  {
    forall chunks, piece ensures Added(chunks, piece, Trimmed(trim, write)(chunks, piece), max) {
      assert Added(chunks, trim(piece), write(chunks, trim(piece)), max);
      AddedLike(chunks, trim(piece), write(chunks, trim(piece)), piece, max);
    }
  }

  lemma {:induction false} TrimsOnlySpace()
    ensures OnlySpace(Strip) && OnlySpace(TrimNewlines)
  {
    forall s ensures Ink(Strip(s)) == Ink(s) && ('|' !in s ==> '|' !in Strip(s)) {
      StripKeepsInk(s);
    }
    forall s ensures Ink(TrimNewlines(s)) == Ink(s) && ('|' !in s ==> '|' !in TrimNewlines(s)) {
      TrimKeepsInk(s);
    }
  }

  function SentenceWriter(max: nat): Writer {
    (chunks: seq<string>, s: string) =>
      if Size(s) <= max then AppendOrFlush(chunks, s, max, "\n") else chunks + HardCuts(s, max)
  }

  function SentenceChunked(max: nat): Writer {
    Trimmed(Strip, SentenceWriter(max))
  }

  lemma {:induction false} SentenceAdds(max: nat)
    ensures Adds(SentenceChunked(max), max)
  {
    forall chunks, s ensures Added(chunks, s, SentenceWriter(max)(chunks, s), max) {
      if Size(s) <= max {
        AppendAdds(chunks, s, max, "\n");
      } else {
        HardCutsRight(s, max);
        AddedPieces(chunks, HardCuts(s, max), max);
      }
    }
    TrimsOnlySpace();
    TrimmedAdds(Strip, SentenceWriter(max), max);
  }

  method ChunkSentence(sentence: string, max: nat, chunks: seq<string>) returns (out: seq<string>)
    ensures out == SentenceChunked(max)(chunks, sentence)
  {
    var s := Strip(sentence);
    if s == "" {
      assert Size(s) == 0;
      out := chunks;
    } else if Size(s) <= max {
      out := AppendOrFlush(chunks, s, max, "\n");
    } else {
      var pieces := HardCut(s, max);
      out := chunks + pieces;
    }
  }

  function PieceWriter(max: nat): Writer {
    (chunks: seq<string>, p: string) =>
      if Size(p) <= max then AppendOrFlush(chunks, p, max, "\n")
      else Folded(SentenceChunked(max), chunks, Sentences(p))
  }

  function PieceChunked(max: nat): Writer {
    Trimmed(TrimNewlines, PieceWriter(max))
  }

  lemma {:induction false} PieceAdds(max: nat)
    ensures Adds(PieceChunked(max), max)
  {
    forall chunks, p ensures Added(chunks, p, PieceWriter(max)(chunks, p), max) {
      if Size(p) <= max {
        AppendAdds(chunks, p, max, "\n");
      } else {
        SentenceAdds(max);
        FoldedAdds(SentenceChunked(max), chunks, Sentences(p), max);
      }
    }
    TrimsOnlySpace();
    TrimmedAdds(TrimNewlines, PieceWriter(max), max);
  }

  method ChunkPiece(piece: string, max: nat, chunks: seq<string>) returns (out: seq<string>)
    ensures out == PieceChunked(max)(chunks, piece)
  {
    var p := TrimNewlines(piece);
    if p == "" {
      out := chunks;
    } else if Size(p) <= max {
      out := AppendOrFlush(chunks, p, max, "\n");
    } else {
      out := chunks;
      var sentences := Sentences(p);
      for i := 0 to |sentences|
        invariant out == Folded(SentenceChunked(max), chunks, sentences[..i])
      {
        FoldedUpTo(SentenceChunked(max), chunks, sentences, i);
        out := ChunkSentence(sentences[i], max, out);
      }
      assert sentences[..|sentences|] == sentences;
    }
  }

  lemma {:induction false} GroupedLinesInk(groups: seq<seq<string>>)
    ensures Ink(Flatten(Flatten(groups))) == Ink(Flatten(JoinAll(groups)))
  {
    if groups != [] {
      GroupedLinesInk(groups[1..]);
      FlattenConcat(groups[0], Flatten(groups[1..]));
      InkConcat(Flatten(groups[0]), Flatten(Flatten(groups[1..])));
      InkConcat(Unlines(groups[0]), Flatten(JoinAll(groups[1..])));
      JoinKeepsInk(groups[0]);
      assert JoinAll(groups)[1..] == JoinAll(groups[1..]);
    }
  }

  function JoinAll(groups: seq<seq<string>>): (ps: seq<string>)
    ensures |ps| == |groups|
  {
    if groups == [] then [] else [Unlines(groups[0])] + JoinAll(groups[1..])
  }

  lemma {:induction false} JoinedChars(ls: seq<string>, c: char)
    requires c != '\n' && c in Unlines(ls)
    ensures c in Flatten(ls)
  {
    if |ls| == 1 {
      assert Flatten(ls) == ls[0] + Flatten<char>([]);
    } else if c !in ls[0] {
      JoinedChars(ls[1..], c);
    }
  }

  lemma {:induction false} JoinAllChars(groups: seq<seq<string>>, c: char)
    requires c != '\n' && c in Flatten(JoinAll(groups))
    ensures c in Flatten(Flatten(groups))
  {
    FlattenConcat(groups[0], Flatten(groups[1..]));
    if c in Unlines(groups[0]) {
      JoinedChars(groups[0], c);
    } else {
      JoinAllChars(groups[1..], c);
    }
  }

  /** A paragraph's pieces carry exactly its ink. */
  lemma {:induction false} PiecesOfParagraph(p: string)
    ensures Ink(Flatten(JoinAll(ListPieces(Lines(p))))) == Ink(p)
    ensures '|' !in p ==> '|' !in Flatten(JoinAll(ListPieces(Lines(p))))
  {
    var groups := ListPieces(Lines(p));
    ListPiecesFlatten(Lines(p));
    GroupedLinesInk(groups);
    JoinSplit(p, '\n');
    JoinKeepsInk(Lines(p));
    if '|' in Flatten(JoinAll(groups)) {
      JoinAllChars(groups, '|');
      CharOfLines(Lines(p), '|');
    }
  }

  lemma {:induction false} CharOfLines(ls: seq<string>, c: char)
    requires c in Flatten(ls)
    ensures c in Unlines(ls)
  {
    if |ls| == 1 {
      assert Flatten(ls) == ls[0] + Flatten<char>([]);
    } else if c !in ls[0] {
      CharOfLines(ls[1..], c);
    }
  }

  function ParagraphWriter(max: nat): Writer {
    (chunks: seq<string>, p: string) =>
      if Size(p) <= max then AppendOrFlush(chunks, p, max, "\n\n")
      else Folded(PieceChunked(max), chunks, JoinAll(ListPieces(Lines(p))))
  }

  function ParagraphChunked(max: nat): Writer {
    Trimmed(Strip, ParagraphWriter(max))
  }

  lemma {:induction false} ParagraphAdds(max: nat)
    ensures Adds(ParagraphChunked(max), max)
  {
    forall chunks, p ensures Added(chunks, p, ParagraphWriter(max)(chunks, p), max) {
      if Size(p) <= max {
        AppendAdds(chunks, p, max, "\n\n");
      } else {
        var pieces := JoinAll(ListPieces(Lines(p)));
        PieceAdds(max);
        FoldedAdds(PieceChunked(max), chunks, pieces, max);
        PiecesOfParagraph(p);
        AddedLike(chunks, Flatten(pieces), Folded(PieceChunked(max), chunks, pieces), p, max);
      }
    }
    TrimsOnlySpace();
    TrimmedAdds(Strip, ParagraphWriter(max), max);
  }

  lemma {:induction false} ParagraphIs(max: nat, chunks: seq<string>, para: string)
    ensures ParagraphChunked(max)(chunks, para) == ParagraphWriter(max)(chunks, Strip(para))
    ensures Added(chunks, para, ParagraphChunked(max)(chunks, para), max)
  {
    ParagraphAdds(max);
  }

  lemma {:induction false} ParagraphCases(max: nat, chunks: seq<string>, p: string)
    ensures p == "" ==> ParagraphWriter(max)(chunks, p) == chunks
    ensures Size(p) <= max ==> ParagraphWriter(max)(chunks, p) == AppendOrFlush(chunks, p, max, "\n\n")
    ensures Size(p) > max ==>
              ParagraphWriter(max)(chunks, p) == Folded(PieceChunked(max), chunks, JoinAll(ListPieces(Lines(p))))
  {
  }

  method ChunkParagraph(para: string, max: nat, chunks: seq<string>) returns (out: seq<string>)
    ensures out == ParagraphChunked(max)(chunks, para)
    ensures Added(chunks, para, out, max)
  {
    var p := Strip(para);
    ParagraphIs(max, chunks, para);
    ParagraphCases(max, chunks, p);
    if p == "" {
      out := chunks;
    } else if Size(p) <= max {
      out := AppendOrFlush(chunks, p, max, "\n\n");
    } else {
      out := ChunkPieces(JoinAll(ListPieces(Lines(p))), max, chunks);
    }
  }

  /** A paragraph over the limit, list item by list item. */
  method ChunkPieces(pieces: seq<string>, max: nat, chunks: seq<string>) returns (out: seq<string>)
    ensures out == Folded(PieceChunked(max), chunks, pieces)
  {
    out := chunks;
    for i := 0 to |pieces|
      invariant out == Folded(PieceChunked(max), chunks, pieces[..i])
    {
      FoldedUpTo(PieceChunked(max), chunks, pieces, i);
      out := ChunkPiece(pieces[i], max, out);
    }
    assert pieces[..|pieces|] == pieces;
  }

  /** The chunks once a text is written behind them. */
  function TextChunked(chunks: seq<string>, t: string, max: nat): seq<string> {
    if Size(t) <= max then AppendOrFlush(chunks, t, max, "\n\n")
    else Folded(ParagraphChunked(max), chunks, Paragraphs(t))
  }

  /** All ink of a text ends up behind the chunks, in order, in chunks no larger
      than the limit. */
  lemma {:induction false} TextAdds(chunks: seq<string>, t: string, max: nat)
    ensures Added(chunks, t, TextChunked(chunks, t, max), max)
  {
    if Size(t) <= max {
      AppendAdds(chunks, t, max, "\n\n");
    } else {
      var paras := Paragraphs(t);
      ParagraphAdds(max);
      FoldedAdds(ParagraphChunked(max), chunks, paras, max);
      ParagraphsKeepInk(t);
      ParagraphChars(t);
      if '|' !in t { NoPipeFlatten(paras); }
      AddedLike(chunks, Flatten(paras), TextChunked(chunks, t, max), t, max);
    }
  }

  /** `_chunk_text`. */
  method ChunkText(t: string, max: nat, chunks: seq<string>) returns (out: seq<string>)
    ensures out == TextChunked(chunks, t, max)
    ensures Added(chunks, t, out, max)
  {
    TextAdds(chunks, t, max);
    if Size(t) <= max {
      return AppendOrFlush(chunks, t, max, "\n\n");
    }
    out := chunks;
    var paras := Paragraphs(t);
    for i := 0 to |paras|
      invariant out == Folded(ParagraphChunked(max), chunks, paras[..i])
    {
      FoldedUpTo(ParagraphChunked(max), chunks, paras, i);
      out := ChunkParagraph(paras[i], max, out);
    }
    assert paras[..|paras|] == paras;
  }

  lemma {:induction false} NoPipeFlatten(ps: seq<string>)
    requires NoPipes(ps)
    ensures '|' !in Flatten(ps)
  {
    if ps != [] { NoPipeFlatten(ps[1..]); }
  }

  // ---- A chunk over the limit is never taken up by a later one ----

  ghost predicate LeavesOver(f: Writer, max: nat) {
    forall cs, s :: Bounded(f(cs, s), max) ==> Bounded(cs, max)
  }

  lemma {:induction false} AppendLeavesOver(chunks: seq<string>, text: string, max: nat, spacer: string)
    requires Bounded(AppendOrFlush(chunks, text, max, spacer), max)
    ensures Bounded(chunks, max)
  {
    var out := AppendOrFlush(chunks, text, max, spacer);
    forall c | c in chunks ensures Size(c) <= max {
      if c !in out {
        var n := |chunks| - 1;
        assert chunks == chunks[..n] + [chunks[n]];
        assert c == chunks[n];
        SizeConcat(c + spacer, text);
        SizeConcat(c, spacer);
      }
    }
  }

  lemma {:induction false} FoldedLeavesOver(f: Writer, chunks: seq<string>, items: seq<string>, max: nat)
    requires LeavesOver(f, max) && Bounded(Folded(f, chunks, items), max)
    ensures Bounded(chunks, max)
  {
    if items != [] { FoldedLeavesOver(f, chunks, items[..|items| - 1], max); }
  }

  lemma {:induction false} TrimmedLeavesOver(trim: string -> string, write: Writer, max: nat)
    requires LeavesOver(write, max)
    ensures LeavesOver(Trimmed(trim, write), max)
  {
  }

  lemma {:induction false} WritersLeaveOver(max: nat)
    ensures LeavesOver(SentenceChunked(max), max)
    ensures LeavesOver(PieceChunked(max), max)
    ensures LeavesOver(ParagraphChunked(max), max)
  {
    forall cs, s | Bounded(SentenceWriter(max)(cs, s), max) ensures Bounded(cs, max) {
      if Size(s) <= max { AppendLeavesOver(cs, s, max, "\n"); }
    }
    TrimmedLeavesOver(Strip, SentenceWriter(max), max);
    forall cs, p | Bounded(PieceWriter(max)(cs, p), max) ensures Bounded(cs, max) {
      if Size(p) <= max {
        AppendLeavesOver(cs, p, max, "\n");
      } else {
        FoldedLeavesOver(SentenceChunked(max), cs, Sentences(p), max);
      }
    }
    TrimmedLeavesOver(TrimNewlines, PieceWriter(max), max);
    forall cs, p | Bounded(ParagraphWriter(max)(cs, p), max) ensures Bounded(cs, max) {
      if Size(p) <= max {
        AppendLeavesOver(cs, p, max, "\n\n");
      } else {
        FoldedLeavesOver(PieceChunked(max), cs, JoinAll(ListPieces(Lines(p))), max);
      }
    }
    TrimmedLeavesOver(Strip, ParagraphWriter(max), max);
  }

  /** Writing text keeps the chunks within the limit exactly when they were before. */
  lemma {:induction false} TextKeepsBound(chunks: seq<string>, t: string, max: nat)
    requires 4 <= max
    ensures Bounded(TextChunked(chunks, t, max), max) <==> Bounded(chunks, max)
  {
    TextAdds(chunks, t, max);
    if Bounded(TextChunked(chunks, t, max), max) {
      if Size(t) <= max {
        AppendLeavesOver(chunks, t, max, "\n\n");
      } else {
        WritersLeaveOver(max);
        FoldedLeavesOver(ParagraphChunked(max), chunks, Paragraphs(t), max);
      }
    }
  }
}
