/** The pieces a text is cut into, said without the chunks, and how chunks are packed from
    them: as full as they go, each piece behind its spacer. */
module Packing {
  import opened Text
  import opened LineKinds
  import opened TextChunks

  /** A piece of text and what separates it from a piece in front of it in the same chunk.
      A piece of a hard cut starts a chunk of its own. */
  datatype Unit = Unit(spacer: string, text: string, own: bool)

  function Cut(pieces: seq<string>): (us: seq<Unit>)
    ensures |us| == |pieces|
  {
    if pieces == [] then [] else [Unit("", pieces[0], true)] + Cut(pieces[1..])
  }

  function Whole(spacer: string, text: string): seq<Unit> {
    if text == "" then [] else [Unit(spacer, text, false)]
  }

  function All(f: string -> seq<Unit>, items: seq<string>): seq<Unit> {
    if items == [] then [] else f(items[0]) + All(f, items[1..])
  }

  function TrimmedUnits(trim: string -> string, units: string -> seq<Unit>): string -> seq<Unit> {
    (s: string) => units(trim(s))
  }

  function UnitsOfSentence(max: nat): string -> seq<Unit> {
    (s: string) => if Size(s) <= max then Whole("\n", s) else Cut(HardCuts(s, max))
  }

  function SentenceUnits(max: nat): string -> seq<Unit> {
    TrimmedUnits(Strip, UnitsOfSentence(max))
  }

  function UnitsOfPiece(max: nat): string -> seq<Unit> {
    (p: string) => if Size(p) <= max then Whole("\n", p) else All(SentenceUnits(max), Sentences(p))
  }

  function PieceUnits(max: nat): string -> seq<Unit> {
    TrimmedUnits(TrimNewlines, UnitsOfPiece(max))
  }

  function UnitsOfParagraph(max: nat): string -> seq<Unit> {
    (p: string) =>
      if Size(p) <= max then Whole("\n\n", p) else All(PieceUnits(max), JoinAll(ListPieces(Lines(p))))
  }

  function ParagraphUnits(max: nat): string -> seq<Unit> {
    TrimmedUnits(Strip, UnitsOfParagraph(max))
  }

  /** Paragraphs that fit, else list items, else sentences, else as many characters as fit. */
  function TextUnits(t: string, max: nat): seq<Unit> {
    if Size(t) <= max then Whole("\n\n", t) else All(ParagraphUnits(max), Paragraphs(t))
  }

  // ---- Chunks packed from units ----

  function Packed(group: seq<Unit>): string
    requires group != []
  {
    if |group| == 1 then group[0].text
    else
      var u := group[|group| - 1];
      Packed(group[..|group| - 1]) + u.spacer + u.text
  }

  /** A chunk is a group of units that fit together, hard cut pieces only at its front. */
  ghost predicate IsChunk(c: string, group: seq<Unit>, max: nat) {
    && group != [] && c == Packed(group)
    && (|group| > 1 ==> Size(c) <= max && !group[|group| - 1].own)
    && forall i :: 1 <= i < |group| ==> !group[i].own
  }

  /** The unit would have gone into the chunk in front if it had fit. */
  predicate StartsChunk(c: string, u: Unit, max: nat) {
    u.own || Size(c + u.spacer + u.text) > max
  }

  /** The chunks are the units in order, in groups that are as long as they can be. */
  ghost predicate Grouped(chunks: seq<string>, groups: seq<seq<Unit>>, max: nat) {
    && |groups| == |chunks|
    && (forall i :: 0 <= i < |chunks| ==> IsChunk(chunks[i], groups[i], max))
    && Follow(chunks, groups, max)
  }

  /** No group could have gone on in the chunk in front of it. */
  ghost predicate Follow(chunks: seq<string>, groups: seq<seq<Unit>>, max: nat)
    requires |groups| == |chunks|
  {
    forall i, j :: 0 <= i && j == i + 1 && j < |chunks| && groups[j] != [] ==> StartsChunk(chunks[i], groups[j][0], max)
  }

  ghost predicate PackedFrom(chunks: seq<string>, units: seq<Unit>, max: nat) {
    exists groups :: Flatten(groups) == units && Grouped(chunks, groups, max)
  }

  function Write(chunks: seq<string>, u: Unit, max: nat): seq<string> {
    if u.own then chunks + [u.text] else AppendOrFlush(chunks, u.text, max, u.spacer)
  }

  function WriteAll(chunks: seq<string>, units: seq<Unit>, max: nat): seq<string>
    decreases |units|
  {
    if units == [] then chunks else WriteAll(Write(chunks, units[0], max), units[1..], max)
  }

  lemma {:induction false} WriteBoth(chunks: seq<string>, a: seq<Unit>, b: seq<Unit>, max: nat)
    ensures WriteAll(chunks, a + b, max) == WriteAll(WriteAll(chunks, a, max), b, max)
    decreases |a|
  {
    if a == [] {
      assert a + b == b;
    } else {
      assert (a + b)[0] == a[0] && (a + b)[1..] == a[1..] + b;
      WriteBoth(Write(chunks, a[0], max), a[1..], b, max);
    }
  }

  ghost predicate Real(units: seq<Unit>) {
    forall u :: u in units ==> u.text != ""
  }

  lemma {:induction false} PackedMore(group: seq<Unit>, u: Unit)
    requires group != []
    ensures Packed(group + [u]) == Packed(group) + u.spacer + u.text
  {
    assert (group + [u])[..|group|] == group;
  }

  lemma {:induction false} LongerChunk(c: string, group: seq<Unit>, u: Unit, max: nat)
    requires IsChunk(c, group, max) && !u.own && Size(c + u.spacer + u.text) <= max
    ensures IsChunk(c + u.spacer + u.text, group + [u], max) && (group + [u])[0] == group[0]
  {
    PackedMore(group, u);
  }

  lemma {:induction false} LastFollows(chunks: seq<string>, groups: seq<seq<Unit>>, c: string, group: seq<Unit>, max: nat)
    requires |groups| == |chunks| > 0 && Follow(chunks, groups, max)
    requires group != [] && groups[|groups| - 1] != [] && group[0] == groups[|groups| - 1][0]
    ensures Follow(chunks[..|chunks| - 1] + [c], groups[..|groups| - 1] + [group], max)
  {
  }

  lemma {:induction false} UnitJoins(chunks: seq<string>, groups: seq<seq<Unit>>, u: Unit, max: nat)
    requires Grouped(chunks, groups, max) && chunks != [] && !u.own
    requires Size(chunks[|chunks| - 1] + u.spacer + u.text) <= max
    ensures var n := |chunks| - 1;
            Grouped(chunks[..n] + [chunks[n] + u.spacer + u.text], groups[..n] + [groups[n] + [u]], max)
  {
    var n := |chunks| - 1;
    LongerChunk(chunks[n], groups[n], u, max);
    LastFollows(chunks, groups, chunks[n] + u.spacer + u.text, groups[n] + [u], max);
  }

  lemma {:induction false} UnitStarts(chunks: seq<string>, groups: seq<seq<Unit>>, u: Unit, max: nat)
    requires Grouped(chunks, groups, max) && (chunks != [] ==> StartsChunk(chunks[|chunks| - 1], u, max))
    ensures Grouped(chunks + [u.text], groups + [[u]], max)
  {
  }

  /** One more unit joins the last group or starts the next one. */
  lemma {:induction false} WriteGroups(chunks: seq<string>, groups: seq<seq<Unit>>, u: Unit, max: nat)
    returns (more: seq<seq<Unit>>)
    requires Grouped(chunks, groups, max) && u.text != ""
    ensures Grouped(Write(chunks, u, max), more, max) && Flatten(more) == Flatten(groups) + [u]
  {
    var n := |chunks| - 1;
    if !u.own && chunks != [] && Size(chunks[n] + u.spacer + u.text) <= max {
      more := groups[..n] + [groups[n] + [u]];
      UnitJoins(chunks, groups, u, max);
      LastGrows(groups, u);
    } else {
      more := groups + [[u]];
      UnitStarts(chunks, groups, u, max);
      FlattenLast(groups, [u]);
    }
  }

  lemma {:induction false} LastGrows(groups: seq<seq<Unit>>, u: Unit)
    requires groups != []
    ensures var n := |groups| - 1; Flatten(groups[..n] + [groups[n] + [u]]) == Flatten(groups) + [u]
  {
    var n := |groups| - 1;
    assert groups == groups[..n] + [groups[n]];
    FlattenLast(groups[..n], groups[n]);
    FlattenLast(groups[..n], groups[n] + [u]);
  }

  lemma {:induction false} WriteAllGroups(
    chunks: seq<string>, groups: seq<seq<Unit>>, units: seq<Unit>, max: nat)
    returns (more: seq<seq<Unit>>)
    requires Grouped(chunks, groups, max) && Real(units)
    ensures Grouped(WriteAll(chunks, units, max), more, max) && Flatten(more) == Flatten(groups) + units
    decreases |units|
  {
    if units == [] {
      more := groups;
    } else {
      assert units[0] in units && forall u :: u in units[1..] ==> u in units;
      var one := WriteGroups(chunks, groups, units[0], max);
      more := WriteAllGroups(Write(chunks, units[0], max), one, units[1..], max);
      FirstBack(Flatten(groups), units);
    }
  }

  lemma {:induction false} FirstBack(a: seq<Unit>, units: seq<Unit>)
    requires units != []
    ensures a + [units[0]] + units[1..] == a + units
  {
  }

  /** The chunks that were there, each for itself. */
  function Found(chunks: seq<string>): (groups: seq<seq<Unit>>)
    ensures |groups| == |chunks|
  {
    if chunks == [] then [] else [[Unit("", chunks[0], true)]] + Found(chunks[1..])
  }

  lemma {:induction false} FoundGrouped(chunks: seq<string>, max: nat)
    ensures forall i :: 0 <= i < |chunks| ==> Found(chunks)[i] == [Unit("", chunks[i], true)]
    ensures Grouped(chunks, Found(chunks), max)
  {
    if chunks != [] { FoundGrouped(chunks[1..], max); }
  }

  // ---- Writing is packing ----

  /** Units that join a chunk are set off by white space, and none is empty if the limit
      has room for a character. */
  ghost predicate Sound(units: seq<Unit>, max: nat) {
    && (forall u :: u in units ==> Spaced(u))
    && (4 <= max ==> Real(units))
  }

  predicate Spaced(u: Unit) {
    u.own || u.spacer == "\n" || u.spacer == "\n\n"
  }

  ghost predicate Writes(f: Writer, g: string -> seq<Unit>, max: nat) {
    forall cs, s :: f(cs, s) == WriteAll(cs, g(s), max) && Sound(g(s), max)
  }

  lemma {:induction false} AllConcat(g: string -> seq<Unit>, items: seq<string>, last: string)
    ensures All(g, items + [last]) == All(g, items) + g(last)
  {
    if items == [] {
      assert [last][1..] == [] && items + [last] == [last];
    } else {
      assert (items + [last])[0] == items[0] && (items + [last])[1..] == items[1..] + [last];
      AllConcat(g, items[1..], last);
    }
  }

  lemma {:induction false} FoldedWrites(
    f: Writer, g: string -> seq<Unit>, chunks: seq<string>, items: seq<string>, max: nat)
    requires Writes(f, g, max)
    ensures Folded(f, chunks, items) == WriteAll(chunks, All(g, items), max) && Sound(All(g, items), max)
  {
    if items != [] {
      var front, last := items[..|items| - 1], items[|items| - 1];
      assert items == front + [last];
      FoldedWrites(f, g, chunks, front, max);
      AllConcat(g, front, last);
      WriteBoth(chunks, All(g, front), g(last), max);
      assert f(Folded(f, chunks, front), last) == WriteAll(Folded(f, chunks, front), g(last), max);
    }
  }

  lemma {:induction false} WholeWrites(chunks: seq<string>, text: string, max: nat, spacer: string)
    ensures AppendOrFlush(chunks, text, max, spacer) == WriteAll(chunks, Whole(spacer, text), max)
    ensures spacer == "\n" || spacer == "\n\n" ==> Sound(Whole(spacer, text), max)
  {
    if text != "" {
      assert [Unit(spacer, text, false)][1..] == [];
    }
  }

  lemma {:induction false} CutOne(chunks: seq<string>, piece: string, units: seq<Unit>, max: nat)
    ensures WriteAll(chunks, [Unit("", piece, true)] + units, max) == WriteAll(chunks + [piece], units, max)
  {
    assert ([Unit("", piece, true)] + units)[1..] == units;
  }

  lemma {:induction false} PieceBack(chunks: seq<string>, pieces: seq<string>)
    ensures pieces == [] ==> chunks + pieces == chunks
    ensures pieces != [] ==> chunks + [pieces[0]] + pieces[1..] == chunks + pieces
  {
  }

  lemma {:induction false} CutWrites(chunks: seq<string>, pieces: seq<string>, max: nat)
    ensures chunks + pieces == WriteAll(chunks, Cut(pieces), max)
    decreases |pieces|
  {
    PieceBack(chunks, pieces);
    if pieces != [] {
      CutWrites(chunks + [pieces[0]], pieces[1..], max);
      CutOne(chunks, pieces[0], Cut(pieces[1..]), max);
    }
  }

  predicate NoneEmpty(pieces: seq<string>) {
    forall p :: p in pieces ==> p != ""
  }

  lemma {:induction false} CutIsSound(pieces: seq<string>, max: nat)
    requires 4 <= max ==> NoneEmpty(pieces)
    ensures Sound(Cut(pieces), max)
  {
    if pieces != [] {
      assert pieces[0] in pieces && forall p :: p in pieces[1..] ==> p in pieces;
      CutIsSound(pieces[1..], max);
    }
  }

  /** A hard cut leaves no piece empty, if one character fits. */
  lemma {:induction false} HardCutsNotEmpty(s: string, max: nat)
    requires 4 <= max
    ensures NoneEmpty(HardCuts(s, max))
  {
    CutUpToNotEmpty(s, max);
  }

  lemma {:induction false} CutUpToNotEmpty(s: string, max: nat)
    requires 4 <= max
    ensures NoneEmpty(CutUpTo(s, max).pieces) && (s != "" ==> CutUpTo(s, max).piece != "")
  {
    if s != "" {
      var c, p := s[|s| - 1], CutUpTo(s[..|s| - 1], max);
      CutUpToNotEmpty(s[..|s| - 1], max);
      SizeOfOneMore(p.piece, c);
      if p.piece == "" {
        assert Size("") == 0;
      }
    }
  }

  lemma {:induction false} TrimmedWrites(trim: string -> string, f: Writer, g: string -> seq<Unit>, max: nat)
    requires Writes(f, g, max)
    ensures Writes(Trimmed(trim, f), TrimmedUnits(trim, g), max)
  {
    var w, u := Trimmed(trim, f), TrimmedUnits(trim, g);
    forall cs, s ensures w(cs, s) == WriteAll(cs, u(s), max) && Sound(u(s), max) {
      assert w(cs, s) == f(cs, trim(s)) && u(s) == g(trim(s));
    }
  }

  lemma {:induction false} SentenceWrites(max: nat)
    ensures Writes(SentenceChunked(max), SentenceUnits(max), max)
  {
    forall cs, s ensures SentenceWriter(max)(cs, s) == WriteAll(cs, UnitsOfSentence(max)(s), max)
                         && Sound(UnitsOfSentence(max)(s), max) {
      if Size(s) <= max {
        WholeWrites(cs, s, max, "\n");
      } else {
        if 4 <= max { HardCutsNotEmpty(s, max); }
        CutWrites(cs, HardCuts(s, max), max);
        CutIsSound(HardCuts(s, max), max);
      }
    }
    TrimmedWrites(Strip, SentenceWriter(max), UnitsOfSentence(max), max);
  }

  lemma {:induction false} PieceWrites(max: nat)
    ensures Writes(PieceChunked(max), PieceUnits(max), max)
  {
    forall cs, p ensures PieceWriter(max)(cs, p) == WriteAll(cs, UnitsOfPiece(max)(p), max)
                         && Sound(UnitsOfPiece(max)(p), max) {
      if Size(p) <= max {
        WholeWrites(cs, p, max, "\n");
      } else {
        SentenceWrites(max);
        FoldedWrites(SentenceChunked(max), SentenceUnits(max), cs, Sentences(p), max);
      }
    }
    TrimmedWrites(TrimNewlines, PieceWriter(max), UnitsOfPiece(max), max);
  }

  lemma {:induction false} ParagraphWrites(max: nat)
    ensures Writes(ParagraphChunked(max), ParagraphUnits(max), max)
  {
    forall cs, p ensures ParagraphWriter(max)(cs, p) == WriteAll(cs, UnitsOfParagraph(max)(p), max)
                         && Sound(UnitsOfParagraph(max)(p), max) {
      if Size(p) <= max {
        WholeWrites(cs, p, max, "\n\n");
      } else {
        PieceWrites(max);
        FoldedWrites(PieceChunked(max), PieceUnits(max), cs, JoinAll(ListPieces(Lines(p))), max);
      }
    }
    TrimmedWrites(Strip, ParagraphWriter(max), UnitsOfParagraph(max), max);
  }

  lemma {:induction false} TextWrites(chunks: seq<string>, t: string, max: nat)
    ensures TextChunked(chunks, t, max) == WriteAll(chunks, TextUnits(t, max), max) && Sound(TextUnits(t, max), max)
  {
    if Size(t) <= max {
      WholeWrites(chunks, t, max, "\n\n");
    } else {
      ParagraphWrites(max);
      FoldedWrites(ParagraphChunked(max), ParagraphUnits(max), chunks, Paragraphs(t), max);
    }
  }

  /** Behind the chunks that were there, the chunks of a text are its units in order, each
      chunk as full as it goes. */
  lemma {:induction false} TextIsPacked(chunks: seq<string>, t: string, max: nat)
    requires 4 <= max
    ensures PackedFrom(TextChunked(chunks, t, max), Flatten(Found(chunks)) + TextUnits(t, max), max)
  {
    TextWrites(chunks, t, max);
    FoundGrouped(chunks, max);
    var groups := WriteAllGroups(chunks, Found(chunks), TextUnits(t, max), max);
  }

  /** No two neighbouring chunks have room for each other and a blank line between, unless
      the second one is a piece of a hard cut. */
  lemma {:induction false} NeighboursAreFull(chunks: seq<string>, groups: seq<seq<Unit>>, max: nat, i: nat)
    requires Grouped(chunks, groups, max) && i + 1 < |chunks| && !groups[i + 1][0].own
    requires forall u :: u in groups[i + 1] ==> u.spacer == "\n" || u.spacer == "\n\n"
    ensures Size(chunks[i] + "\n\n" + chunks[i + 1]) > max
  {
    var u := groups[i + 1][0];
    assert IsChunk(chunks[i + 1], groups[i + 1], max) && u in groups[i + 1];
    assert StartsChunk(chunks[i], u, max);
    PackedGrows(groups[i + 1]);
    SizeConcat(chunks[i] + u.spacer, u.text);
    SizeConcat(chunks[i], u.spacer);
    SizeConcat(chunks[i] + "\n\n", chunks[i + 1]);
    SizeConcat(chunks[i], "\n\n");
    SpacerSize(u.spacer);
  }

  lemma {:induction false} InGroups(groups: seq<seq<Unit>>, i: nat)
    requires i < |groups|
    ensures forall u :: u in groups[i] ==> u in Flatten(groups)
  {
    if i > 0 { InGroups(groups[1..], i - 1); }
  }

  /** Unless a sentence had to be cut, no two neighbouring chunks of a text would fit into
      one with a blank line between. */
  lemma {:induction false} NeighboursStayApart(t: string, max: nat, i: nat)
    requires 4 <= max && forall u :: u in TextUnits(t, max) ==> !u.own
    requires i + 1 < |TextChunked([], t, max)|
    ensures var out := TextChunked([], t, max); Size(out[i] + "\n\n" + out[i + 1]) > max
  {
    var out := TextChunked([], t, max);
    TextIsPacked([], t, max);
    assert Flatten(Found([])) + TextUnits(t, max) == TextUnits(t, max);
    var groups :| Flatten(groups) == TextUnits(t, max) && Grouped(out, groups, max);
    InGroups(groups, i + 1);
    TextWrites([], t, max);
    assert IsChunk(out[i + 1], groups[i + 1], max);
    NeighboursAreFull(out, groups, max, i);
  }

  lemma {:induction false} SpacerSize(spacer: string)
    requires spacer == "\n" || spacer == "\n\n"
    ensures Size(spacer) <= Size("\n\n")
  {
    assert "\n\n"[1..] == ['\n'] && ['\n'][1..] == "";
  }

  lemma {:induction false} PackedGrows(group: seq<Unit>)
    requires group != []
    ensures Size(group[0].text) <= Size(Packed(group))
  {
    if |group| > 1 {
      var front, u := group[..|group| - 1], group[|group| - 1];
      PackedGrows(front);
      SizeConcat(Packed(front) + u.spacer, u.text);
      SizeConcat(Packed(front), u.spacer);
    }
  }
}
