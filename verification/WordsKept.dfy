/** Words, that is runs without white space: which of them a split message keeps whole. */
module WordsKept {
  import opened Text
  import opened LineKinds
  import opened TextChunks
  import opened Packing
  import opened Headings

  /** The maximal runs of characters that are not white space. */
  function Words(s: string): (ws: seq<string>)
    ensures s != "" && !IsSpace(s[0]) ==> ws != []
  {
    if s == "" then []
    else if IsSpace(s[0]) then Words(s[1..])
    else Lead(s[0], |s| > 1 && !IsSpace(s[1]), Words(s[1..]))
  }

  /** One more character in front, as part of the first word or as a word of its own. */
  function Lead(c: char, joins: bool, ws: seq<string>): (r: seq<string>)
    requires joins ==> ws != []
    ensures r != []
  {
    if joins then [[c] + ws[0]] + ws[1..] else [[c]] + ws
  }

  function WordsOf(parts: seq<string>): seq<string> {
    if parts == [] then [] else Words(parts[0]) + WordsOf(parts[1..])
  }

  /** No word goes on from the one text into the other. */
  predicate Apart(a: string, b: string) {
    a == "" || b == "" || IsSpace(a[|a| - 1]) || IsSpace(b[0])
  }

  /** The last word of `us` and the first one of `ws` grown together. */
  function Glued(us: seq<string>, ws: seq<string>): seq<string>
    requires us != [] && ws != []
  {
    us[..|us| - 1] + [us[|us| - 1] + ws[0]] + ws[1..]
  }

  predicate Word(w: string) {
    w != "" && forall c :: c in w ==> !IsSpace(c)
  }

  lemma {:induction false} WordsAreRuns(s: string)
    ensures forall w :: w in Words(s) ==> Word(w)
  {
    if s != "" {
      WordsAreRuns(s[1..]);
      if !IsSpace(s[0]) { LeadRuns(s[0], |s| > 1 && !IsSpace(s[1]), Words(s[1..])); }
    }
  }

  lemma {:induction false} LeadRuns(c: char, joins: bool, ws: seq<string>)
    requires (joins ==> ws != []) && !IsSpace(c) && forall w :: w in ws ==> Word(w)
    ensures forall w :: w in Lead(c, joins, ws) ==> Word(w)
  {
    if joins {
      assert Word(ws[0]) && Word([c] + ws[0]);
    } else {
      assert Word([c]);
    }
  }

  lemma {:induction false} LeadConcat(c: char, joins: bool, us: seq<string>, ws: seq<string>)
    requires joins ==> us != []
    ensures Lead(c, joins, us + ws) == Lead(c, joins, us) + ws
  {
  }

  lemma {:induction false} LeadGlued(c: char, joins: bool, us: seq<string>, ws: seq<string>)
    requires us != [] && ws != []
    ensures Lead(c, joins, Glued(us, ws)) == Glued(Lead(c, joins, us), ws)
  {
    if |us| == 1 { assert [c] + (us[0] + ws[0]) == ([c] + us[0]) + ws[0]; }
  }

  lemma {:induction false} WordsOfLead(c: char, s: string)
    ensures Words([c] + s) == if IsSpace(c) then Words(s) else Lead(c, s != "" && !IsSpace(s[0]), Words(s))
  {
    assert ([c] + s)[1..] == s;
  }

  /** The words of two texts put together: those of both, or the last of the one and the
      first of the other grown together. */
  ghost predicate WordsMeet(a: string, b: string) {
    if Apart(a, b) then Words(a + b) == Words(a) + Words(b)
    else Words(a) != [] && Words(b) != [] && Words(a + b) == Glued(Words(a), Words(b))
  }

  lemma {:induction false} JoinOne(c: char, b: string)
    ensures WordsMeet([c], b)
  {
    WordsOfLead(c, b);
    WordsOfLead(c, "");
    assert [c] + "" == [c];
  }

  lemma {:induction false} LeadMeets(c: char, a: string, b: string)
    requires a != "" && WordsMeet(a, b)
    ensures var us, ws := Words([c] + a), Words([c] + (a + b));
            if Apart(a, b) then ws == us + Words(b) else us != [] && Words(b) != [] && ws == Glued(us, Words(b))
  {
    WordsOfLead(c, a + b);
    WordsOfLead(c, a);
    if !IsSpace(c) {
      if Apart(a, b) {
        LeadConcat(c, !IsSpace(a[0]), Words(a), Words(b));
      } else {
        LeadGlued(c, !IsSpace(a[0]), Words(a), Words(b));
      }
    }
  }

  lemma {:induction false} FirstInFront(c: char, a: string, b: string)
    requires a != ""
    ensures [c] + a + b == [c] + (a + b) && (Apart([c] + a, b) <==> Apart(a, b))
  {
    assert ([c] + a)[|a|] == a[|a| - 1];
  }

  lemma {:induction false} JoinMore(c: char, a: string, b: string)
    requires a != "" && WordsMeet(a, b)
    ensures WordsMeet([c] + a, b)
  {
    LeadMeets(c, a, b);
    FirstInFront(c, a, b);
  }

  lemma {:induction false} WordsJoin(a: string, b: string)
    ensures WordsMeet(a, b)
  {
    if a == "" {
      assert a + b == b;
    } else if |a| == 1 {
      JoinOne(a[0], b);
      assert a == [a[0]];
    } else {
      WordsJoin(a[1..], b);
      JoinMore(a[0], a[1..], b);
      assert a == [a[0]] + a[1..];
    }
  }

  // ---- Words torn apart ----

  /** `ws` are the words of `us`, some of them in several parts. */
  predicate Torn(ws: seq<string>, us: seq<string>)
    decreases |ws|
  {
    if ws == [] || us == [] then ws == us
    else if ws[0] == us[0] then Torn(ws[1..], us[1..])
    else ws[0] < us[0] && Torn(ws[1..], [us[0][|ws[0]|..]] + us[1..])
  }

  /** No fewer words than there were, and as many only if they are the same. */
  lemma {:induction false} TornCount(ws: seq<string>, us: seq<string>)
    requires Torn(ws, us)
    ensures |ws| >= |us| && (|ws| == |us| ==> ws == us)
    decreases |ws|
  {
    if ws != [] && us != [] {
      if ws[0] == us[0] {
        TornCount(ws[1..], us[1..]);
        assert ws == [ws[0]] + ws[1..] && us == [us[0]] + us[1..];
      } else {
        TornCount(ws[1..], [us[0][|ws[0]|..]] + us[1..]);
      }
    }
  }

  lemma {:induction false} TornSame(us: seq<string>)
    ensures Torn(us, us)
  {
    if us != [] { TornSame(us[1..]); }
  }

  lemma {:induction false} TornConcat(ws: seq<string>, us: seq<string>, more: seq<string>, rest: seq<string>)
    requires Torn(ws, us) && Torn(more, rest)
    ensures Torn(ws + more, us + rest)
    decreases |ws|
  {
    if ws == [] {
      assert ws + more == more && us + rest == rest;
    } else {
      assert (ws + more)[1..] == ws[1..] + more && (us + rest)[1..] == us[1..] + rest;
      if ws[0] == us[0] {
        TornConcat(ws[1..], us[1..], more, rest);
      } else {
        var tail := [us[0][|ws[0]|..]];
        TornConcat(ws[1..], tail + us[1..], more, rest);
        assert tail + us[1..] + rest == tail + (us[1..] + rest);
      }
    }
  }

  /** Two words torn from one. */
  lemma {:induction false} TornOnce(a: string, b: string)
    requires a != "" && b != ""
    ensures Torn([a, b], [a + b])
  {
    assert (a + b)[|a|..] == b && a < a + b && a != a + b;
    assert [a, b][1..] == [b] && [b] + [a + b][1..] == [b];
    TornSame([b]);
  }

  /** Tearing parts further. */
  lemma {:induction false} TornTwice(vs: seq<string>, ws: seq<string>, us: seq<string>)
    requires Torn(vs, ws) && Torn(ws, us)
    ensures Torn(vs, us)
    decreases |vs|
  {
    if vs != [] && us != [] {
      var v, w, u := vs[0], ws[0], us[0];
      var w', u' := [w[|v|..]] + ws[1..], [u[|v|..]] + us[1..];
      if v == w {
        if w == u {
          TornTwice(vs[1..], ws[1..], us[1..]);
        } else {
          TornTwice(vs[1..], ws[1..], u');
        }
      } else if w == u {
        TornHeads(w[|v|..], ws[1..], us[1..]);
        TornTwice(vs[1..], w', u');
      } else {
        TornTail(ws, us, |v|);
        TornTwice(vs[1..], w', u');
      }
    }
  }

  lemma {:induction false} TornHeads(head: string, ws: seq<string>, us: seq<string>)
    requires Torn(ws, us)
    ensures Torn([head] + ws, [head] + us)
  {
    assert ([head] + ws)[1..] == ws && ([head] + us)[1..] == us;
  }

  /** Taking the same characters off the first word of both. */
  lemma {:induction false} TornTail(ws: seq<string>, us: seq<string>, n: nat)
    requires Torn(ws, us) && ws != [] && us != [] && ws[0] < us[0] && ws[0] != us[0] && n < |ws[0]|
    ensures Torn([ws[0][n..]] + ws[1..], [us[0][n..]] + us[1..])
  {
    var w, u := ws[0][n..], us[0][n..];
    assert w < u && w != u && u[|w|..] == us[0][|ws[0]|..];
    assert ([w] + ws[1..])[1..] == ws[1..] && ([u] + us[1..])[1..] == us[1..];
  }

  // ---- Cutting a text anywhere ----

  /** At how many of the places where a text is cut a word goes on. */
  function Breaks(parts: seq<string>): nat {
    if parts == [] then 0 else (if Apart(parts[0], Flatten(parts[1..])) then 0 else 1) + Breaks(parts[1..])
  }

  lemma {:induction false} GluedTorn(us: seq<string>, ws: seq<string>)
    requires us != [] && ws != [] && us[|us| - 1] != "" && ws[0] != ""
    ensures Torn(us + ws, Glued(us, ws)) && |us + ws| == |Glued(us, ws)| + 1
  {
    var n := |us| - 1;
    TornOnce(us[n], ws[0]);
    TornSame(us[..n]);
    TornSame(ws[1..]);
    TornConcat(us[..n], us[..n], [us[n], ws[0]], [us[n] + ws[0]]);
    TornConcat(us[..n] + [us[n], ws[0]], us[..n] + [us[n] + ws[0]], ws[1..], ws[1..]);
    assert us + ws == us[..n] + [us[n], ws[0]] + ws[1..];
  }

  lemma {:induction false} JoinTorn(a: string, b: string)
    ensures Torn(Words(a) + Words(b), Words(a + b))
    ensures |Words(a)| + |Words(b)| == |Words(a + b)| + (if Apart(a, b) then 0 else 1)
  {
    WordsJoin(a, b);
    if Apart(a, b) {
      TornSame(Words(a + b));
    } else {
      WordsAreRuns(a);
      WordsAreRuns(b);
      assert Word(Words(a)[|Words(a)| - 1]) && Word(Words(b)[0]);
      GluedTorn(Words(a), Words(b));
    }
  }

  /** A text cut into parts: its words, torn where one goes on behind a cut. */
  lemma {:induction false} CutTorn(parts: seq<string>)
    ensures Torn(WordsOf(parts), Words(Flatten(parts)))
    ensures |WordsOf(parts)| == |Words(Flatten(parts))| + Breaks(parts)
  {
    if parts != [] {
      var first, rest := parts[0], Flatten(parts[1..]);
      CutTorn(parts[1..]);
      TornSame(Words(first));
      TornConcat(Words(first), Words(first), WordsOf(parts[1..]), Words(rest));
      JoinTorn(first, rest);
      TornTwice(WordsOf(parts), Words(first) + Words(rest), Words(first + rest));
    }
  }

  // ---- What is no cut ----

  lemma {:induction false} WordsOfConcat(a: seq<string>, b: seq<string>)
    ensures WordsOf(a + b) == WordsOf(a) + WordsOf(b)
  {
    if a == [] {
      assert a + b == b;
    } else {
      assert (a + b)[1..] == a[1..] + b;
      WordsOfConcat(a[1..], b);
    }
  }

  lemma {:induction false} WordsOfOne(s: string)
    ensures WordsOf([s]) == Words(s)
  {
    assert [s][1..] == [];
  }

  lemma {:induction false} AllSpace(s: string)
    requires forall c :: c in s ==> IsSpace(c)
    ensures Words(s) == []
  {
    if s != "" { AllSpace(s[1..]); }
  }

  /** White space in between keeps two texts apart. */
  lemma {:induction false} SpaceBetween(a: string, space: string, b: string)
    requires space != "" && forall c :: c in space ==> IsSpace(c)
    ensures Words(a + space + b) == Words(a) + Words(b)
  {
    AllSpace(space);
    assert IsSpace(space[0]) && (a + space)[|a + space| - 1] == space[|space| - 1];
    WordsJoin(a, space);
    WordsJoin(a + space, b);
  }

  lemma {:induction false} JoinedWords(ls: seq<string>)
    ensures Words(Unlines(ls)) == WordsOf(ls)
  {
    if |ls| == 1 {
      WordsOfOne(ls[0]);
    } else if ls != [] {
      JoinedWords(ls[1..]);
      SpaceBetween(ls[0], ['\n'], Unlines(ls[1..]));
    }
  }

  /** Trimming keeps all words. */
  ghost predicate TrimsWords(trim: string -> string) {
    forall s :: Words(trim(s)) == Words(s)
  }

  lemma {:induction false} WordsWithout(s: string)
    requires s != "" && IsSpace(s[|s| - 1])
    ensures Words(s[..|s| - 1]) == Words(s)
  {
    var t := s[..|s| - 1];
    assert s == t + [s[|s| - 1]];
    AllSpace([s[|s| - 1]]);
    WordsJoin(t, [s[|s| - 1]]);
  }

  lemma {:induction false} LStripWords(s: string)
    ensures Words(LStrip(s)) == Words(s)
  {
    if s != "" && IsSpace(s[0]) { LStripWords(s[1..]); }
  }

  lemma {:induction false} RStripWords(s: string)
    ensures Words(RStrip(s)) == Words(s)
  {
    if s != "" && IsSpace(s[|s| - 1]) {
      WordsWithout(s);
      RStripWords(s[..|s| - 1]);
    }
  }

  lemma {:induction false} TrimNewlinesWords(s: string)
    ensures Words(TrimNewlines(s)) == Words(s)
    decreases |s|
  {
    if s != "" && s[0] == '\n' {
      TrimNewlinesWords(s[1..]);
    } else if s != "" && s[|s| - 1] == '\n' {
      WordsWithout(s);
      TrimNewlinesWords(s[..|s| - 1]);
    }
  }

  lemma {:induction false} TrimsKeepWords()
    ensures TrimsWords(Strip) && TrimsWords(TrimNewlines)
  {
    forall s ensures Words(Strip(s)) == Words(s) {
      LStripWords(s);
      RStripWords(LStrip(s));
    }
    forall s ensures Words(TrimNewlines(s)) == Words(s) {
      TrimNewlinesWords(s);
    }
  }

  // ---- Paragraphs and list items are set off by white space ----

  /** Texts with a separator between. */
  function JoinBy(sep: string, parts: seq<string>): string {
    if parts == [] then ""
    else if |parts| == 1 then parts[0]
    else parts[0] + sep + JoinBy(sep, parts[1..])
  }

  lemma {:induction false} JoinedByWords(sep: string, parts: seq<string>)
    requires sep != "" && forall c :: c in sep ==> IsSpace(c)
    ensures Words(JoinBy(sep, parts)) == WordsOf(parts)
  {
    if |parts| == 1 {
      WordsOfOne(parts[0]);
    } else if parts != [] {
      JoinedByWords(sep, parts[1..]);
      SpaceBetween(parts[0], sep, JoinBy(sep, parts[1..]));
    }
  }

  lemma {:induction false} JoinByFirst(sep: string, c: char, parts: seq<string>)
    requires parts != []
    ensures JoinBy(sep, [[c] + parts[0]] + parts[1..]) == [c] + JoinBy(sep, parts)
  {
    var more := [[c] + parts[0]] + parts[1..];
    assert more[1..] == parts[1..];
    if |parts| > 1 {
      assert [c] + parts[0] + sep + JoinBy(sep, parts[1..]) == [c] + (parts[0] + sep + JoinBy(sep, parts[1..]));
    }
  }

  /** The paragraphs of a text with blank lines between are the text. */
  lemma {:induction false} ParagraphsJoin(t: string)
    ensures JoinBy("\n\n", Paragraphs(t)) == t
  {
    if t == "" {
    } else if t[0] == '\n' && |t| > 1 && t[1] == '\n' {
      ParagraphsJoin(t[2..]);
      assert ([""] + Paragraphs(t[2..]))[1..] == Paragraphs(t[2..]);
      assert t == "" + "\n\n" + t[2..];
    } else {
      ParagraphsJoin(t[1..]);
      JoinByFirst("\n\n", t[0], Paragraphs(t[1..]));
    }
  }

  /** No paragraph holds an empty line. */
  lemma {:induction false} ParagraphsHoldNone(t: string)
    ensures forall p :: p in Paragraphs(t) ==> NoEmptyLine(p)
    ensures t != "" && Paragraphs(t)[0] != "" ==> Paragraphs(t)[0][0] == t[0]
  {
    if t == "" {
    } else if t[0] == '\n' && |t| > 1 && t[1] == '\n' {
      ParagraphsHoldNone(t[2..]);
    } else {
      ParagraphsHoldNone(t[1..]);
      var rest := Paragraphs(t[1..]);
      OneMoreNoEmpty(t[0], rest[0]);
    }
  }

  lemma {:induction false} OneMoreNoEmpty(c: char, p: string)
    requires NoEmptyLine(p) && (p != "" && c == '\n' ==> p[0] != '\n')
    ensures NoEmptyLine([c] + p)
  {
    var s := [c] + p;
    assert forall i :: 1 <= i < |s| ==> s[i] == p[i - 1];
  }

  lemma {:induction false} ParagraphsKeepWords(t: string)
    ensures WordsOf(Paragraphs(t)) == Words(t)
  {
    ParagraphsJoin(t);
    JoinedByWords("\n\n", Paragraphs(t));
  }

  lemma {:induction false} GroupsKeepWords(groups: seq<seq<string>>)
    ensures WordsOf(JoinAll(groups)) == WordsOf(Flatten(groups))
  {
    if groups != [] {
      GroupsKeepWords(groups[1..]);
      JoinedWords(groups[0]);
      WordsOfConcat(groups[0], Flatten(groups[1..]));
    }
  }

  lemma {:induction false} PiecesKeepWords(p: string)
    ensures WordsOf(JoinAll(ListPieces(Lines(p)))) == Words(p)
  {
    GroupsKeepWords(ListPieces(Lines(p)));
    ListPiecesFlatten(Lines(p));
    JoinedWords(Lines(p));
    JoinSplit(p, '\n');
  }

  // ---- The units of a text ----

  function UnitWords(units: seq<Unit>): seq<string> {
    if units == [] then [] else Words(units[0].text) + UnitWords(units[1..])
  }

  lemma {:induction false} UnitWordsConcat(a: seq<Unit>, b: seq<Unit>)
    ensures UnitWords(a + b) == UnitWords(a) + UnitWords(b)
  {
    if a == [] {
      assert a + b == b;
    } else {
      assert (a + b)[1..] == a[1..] + b;
      UnitWordsConcat(a[1..], b);
    }
  }

  lemma {:induction false} WriteAddsWords(chunks: seq<string>, u: Unit, max: nat)
    requires Spaced(u)
    ensures WordsOf(Write(chunks, u, max)) == WordsOf(chunks) + Words(u.text)
  {
    var n := |chunks| - 1;
    if !u.own && u.text != "" && chunks != [] && Size(chunks[n] + u.spacer + u.text) <= max {
      var front, last := chunks[..n], chunks[n];
      assert chunks == front + [last];
      WordsOfConcat(front, [last]);
      WordsOfConcat(front, [last + u.spacer + u.text]);
      WordsOfOne(last);
      WordsOfOne(last + u.spacer + u.text);
      SpaceBetween(last, u.spacer, u.text);
    } else {
      WordsOfConcat(chunks, [u.text]);
      WordsOfOne(u.text);
    }
  }

  /** Chunks packed from units hold their words: the white space between units is kept. */
  lemma {:induction false} PackingKeepsWords(chunks: seq<string>, units: seq<Unit>, max: nat)
    requires forall u :: u in units ==> Spaced(u)
    ensures WordsOf(WriteAll(chunks, units, max)) == WordsOf(chunks) + UnitWords(units)
    decreases |units|
  {
    if units != [] {
      var next := Write(chunks, units[0], max);
      WriteAddsWords(chunks, units[0], max);
      PackingKeepsWords(next, units[1..], max);
      WordsBehind(WordsOf(chunks), units, WordsOf(next), WordsOf(WriteAll(next, units[1..], max)));
    }
  }

  lemma {:induction false} WordsBehind(before: seq<string>, units: seq<Unit>, next: seq<string>, all: seq<string>)
    requires units != [] && next == before + Words(units[0].text) && all == next + UnitWords(units[1..])
    ensures all == before + UnitWords(units)
  {
  }

  // ---- Which cuts go through words ----

  function Total(count: string -> nat, items: seq<string>): nat {
    if items == [] then 0 else count(items[0]) + Total(count, items[1..])
  }

  function TrimmedBreaks(trim: string -> string, count: string -> nat): string -> nat {
    (s: string) => count(trim(s))
  }

  /** A sentence that fits is not cut; another one may be cut anywhere. */
  function SentenceBreaks(max: nat): string -> nat {
    (s: string) => if Size(s) <= max then 0 else Breaks(HardCuts(s, max))
  }

  /** A list item that does not fit is cut behind each of its sentence ends. */
  function PieceBreaks(max: nat): string -> nat {
    (p: string) =>
      if Size(p) <= max then 0
      else Breaks(Sentences(p)) + Total(TrimmedBreaks(Strip, SentenceBreaks(max)), Sentences(p))
  }

  function ParagraphBreaks(max: nat): string -> nat {
    (p: string) =>
      if Size(p) <= max then 0
      else Total(TrimmedBreaks(TrimNewlines, PieceBreaks(max)), JoinAll(ListPieces(Lines(p))))
  }

  /** At how many places of a text the splitter cuts a word or sets it apart from the next
      sentence. */
  function TextBreaks(t: string, max: nat): nat {
    if Size(t) <= max then 0 else Total(TrimmedBreaks(Strip, ParagraphBreaks(max)), Paragraphs(t))
  }

  /** The units hold the words of the text, torn at so many places. */
  ghost predicate Tears(units: string -> seq<Unit>, breaks: string -> nat) {
    forall s :: Torn(UnitWords(units(s)), Words(s)) && |UnitWords(units(s))| == |Words(s)| + breaks(s)
  }

  lemma {:induction false} AllTears(units: string -> seq<Unit>, breaks: string -> nat, items: seq<string>)
    requires Tears(units, breaks)
    ensures Torn(UnitWords(All(units, items)), WordsOf(items))
    ensures |UnitWords(All(units, items))| == |WordsOf(items)| + Total(breaks, items)
  {
    if items != [] {
      var first, rest := units(items[0]), All(units, items[1..]);
      AllTears(units, breaks, items[1..]);
      UnitWordsConcat(first, rest);
      TornConcat(UnitWords(first), Words(items[0]), UnitWords(rest), WordsOf(items[1..]));
    }
  }

  lemma {:induction false} TrimmedTears(
    trim: string -> string, units: string -> seq<Unit>, breaks: string -> nat)
    requires Tears(units, breaks) && TrimsWords(trim)
    ensures Tears(TrimmedUnits(trim, units), TrimmedBreaks(trim, breaks))
  {
    forall s ensures Torn(UnitWords(units(trim(s))), Words(s))
                     && |UnitWords(units(trim(s)))| == |Words(s)| + breaks(trim(s)) {
      assert Words(trim(s)) == Words(s);
    }
  }

  lemma {:induction false} WholeWords(spacer: string, s: string)
    ensures UnitWords(Whole(spacer, s)) == Words(s) && Torn(Words(s), Words(s))
  {
    TornSame(Words(s));
    if s != "" {
      assert [Unit(spacer, s, false)][1..] == [];
    }
  }

  lemma {:induction false} CutWords(pieces: seq<string>)
    ensures UnitWords(Cut(pieces)) == WordsOf(pieces)
  {
    if pieces != [] {
      CutWords(pieces[1..]);
      assert ([Unit("", pieces[0], true)] + Cut(pieces[1..]))[1..] == Cut(pieces[1..]);
    }
  }

  lemma {:induction false} SentenceTears(max: nat)
    ensures Tears(SentenceUnits(max), TrimmedBreaks(Strip, SentenceBreaks(max)))
  {
    forall s ensures Torn(UnitWords(UnitsOfSentence(max)(s)), Words(s))
                     && |UnitWords(UnitsOfSentence(max)(s))| == |Words(s)| + SentenceBreaks(max)(s) {
      if Size(s) <= max {
        WholeWords("\n", s);
      } else {
        HardCutsRight(s, max);
        CutWords(HardCuts(s, max));
        CutTorn(HardCuts(s, max));
      }
    }
    TrimsKeepWords();
    TrimmedTears(Strip, UnitsOfSentence(max), SentenceBreaks(max));
  }

  lemma {:induction false} PieceTears(max: nat)
    ensures Tears(PieceUnits(max), TrimmedBreaks(TrimNewlines, PieceBreaks(max)))
  {
    forall p ensures Torn(UnitWords(UnitsOfPiece(max)(p)), Words(p))
                     && |UnitWords(UnitsOfPiece(max)(p))| == |Words(p)| + PieceBreaks(max)(p) {
      if Size(p) <= max {
        WholeWords("\n", p);
      } else {
        var units := All(SentenceUnits(max), Sentences(p));
        SentenceTears(max);
        AllTears(SentenceUnits(max), TrimmedBreaks(Strip, SentenceBreaks(max)), Sentences(p));
        CutTorn(Sentences(p));
        TornTwice(UnitWords(units), WordsOf(Sentences(p)), Words(p));
      }
    }
    TrimsKeepWords();
    TrimmedTears(TrimNewlines, UnitsOfPiece(max), PieceBreaks(max));
  }

  lemma {:induction false} ParagraphTears(max: nat)
    ensures Tears(ParagraphUnits(max), TrimmedBreaks(Strip, ParagraphBreaks(max)))
  {
    forall p ensures Torn(UnitWords(UnitsOfParagraph(max)(p)), Words(p))
                     && |UnitWords(UnitsOfParagraph(max)(p))| == |Words(p)| + ParagraphBreaks(max)(p) {
      if Size(p) <= max {
        WholeWords("\n\n", p);
      } else {
        PieceTears(max);
        AllTears(PieceUnits(max), TrimmedBreaks(TrimNewlines, PieceBreaks(max)), JoinAll(ListPieces(Lines(p))));
        PiecesKeepWords(p);
      }
    }
    TrimsKeepWords();
    TrimmedTears(Strip, UnitsOfParagraph(max), ParagraphBreaks(max));
  }

  lemma {:induction false} TextTears(t: string, max: nat)
    ensures Torn(UnitWords(TextUnits(t, max)), Words(t))
    ensures |UnitWords(TextUnits(t, max))| == |Words(t)| + TextBreaks(t, max)
  {
    if Size(t) <= max {
      WholeWords("\n\n", t);
    } else {
      ParagraphTears(max);
      AllTears(ParagraphUnits(max), TrimmedBreaks(Strip, ParagraphBreaks(max)), Paragraphs(t));
      ParagraphsKeepWords(t);
    }
  }

  /** The words of a text in order, torn at so many places: the same words exactly when
      there is no such place. */
  ghost predicate Reworded(ws: seq<string>, us: seq<string>, breaks: nat) {
    && Torn(ws, us)
    && |ws| == |us| + breaks
    && (ws == us <==> breaks == 0)
  }

  /** The chunks written for a text hold its words in order, torn where a cut goes through
      one and nowhere else. */
  lemma {:induction false} TextKeepsWords(chunks: seq<string>, t: string, max: nat)
    ensures Reworded(WordsOf(TextChunked(chunks, t, max)), WordsOf(chunks) + Words(t), TextBreaks(t, max))
  {
    var words, before := WordsOf(TextChunked(chunks, t, max)), WordsOf(chunks);
    TextWrites(chunks, t, max);
    PackingKeepsWords(chunks, TextUnits(t, max), max);
    TextTears(t, max);
    TornSame(before);
    TornConcat(before, before, UnitWords(TextUnits(t, max)), Words(t));
    TornCount(words, before + Words(t));
  }

  lemma {:induction false} FromNothing(t: string, max: nat)
    ensures Reworded(WordsOf(TextChunked([], t, max)), Words(t), TextBreaks(t, max))
  {
    TextKeepsWords([], t, max);
    assert [] + Words(t) == Words(t);
  }

  lemma {:induction false} KeptWhole(t: string, max: nat)
    requires Size(t) <= max
    ensures Reworded(WordsOf([t]), Words(t), TextBreaks(t, max))
  {
    WordsOfOne(t);
    TornSame(Words(t));
  }

  // ---- Paragraphs that fit ----

  /** What is left of the parts that are not white space only. */
  function Trims(trim: string -> string, parts: seq<string>): seq<string> {
    if parts == [] then []
    else
      var front, last := parts[..|parts| - 1], trim(parts[|parts| - 1]);
      Trims(trim, front) + if last == "" then [] else [last]
  }

  lemma {:induction false} JoinByLast(sep: string, parts: seq<string>, last: string)
    requires parts != []
    ensures JoinBy(sep, parts + [last]) == JoinBy(sep, parts) + sep + last
  {
    assert (parts + [last])[1..] == parts[1..] + [last];
    if |parts| > 1 {
      JoinByLast(sep, parts[1..], last);
      var x, y := parts[0] + sep, JoinBy(sep, parts[1..]);
      assert x + (y + sep + last) == x + y + sep + last;
    } else {
      assert parts[1..] + [last] == [last];
    }
  }

  lemma {:induction false} JoinByGrows(sep: string, front: seq<string>, last: string, text: string)
    ensures JoinBy(sep, front + [last + sep + text]) == JoinBy(sep, front + [last]) + sep + text
  {
    if front != [] {
      JoinByLast(sep, front, last);
      JoinByLast(sep, front, last + sep + text);
      GroupedRight(JoinBy(sep, front) + sep, last, sep, text);
    }
  }

  lemma {:induction false} GroupedRight(a: string, b: string, c: string, d: string)
    ensures a + (b + c + d) == a + b + c + d
  {
  }

  lemma {:induction false} AppendJoins(chunks: seq<string>, text: string, max: nat, sep: string)
    requires text != "" && chunks != []
    ensures JoinBy(sep, AppendOrFlush(chunks, text, max, sep)) == JoinBy(sep, chunks) + sep + text
  {
    var n := |chunks| - 1;
    assert chunks == chunks[..n] + [chunks[n]];
    JoinByLast(sep, chunks, text);
    JoinByGrows(sep, chunks[..n], chunks[n], text);
  }

  /** The chunks and the texts written, with a separator between, read the same. */
  predicate ReadsAs(sep: string, chunks: seq<string>, texts: seq<string>) {
    JoinBy(sep, chunks) == JoinBy(sep, texts) && (chunks == [] <==> texts == [])
  }

  lemma {:induction false} OneMoreReads(sep: string, chunks: seq<string>, texts: seq<string>, text: string, max: nat)
    requires ReadsAs(sep, chunks, texts)
    ensures ReadsAs(sep, AppendOrFlush(chunks, text, max, sep), texts + if text == "" then [] else [text])
  {
    if text == "" {
      assert texts + [] == texts;
    } else if chunks != [] {
      AppendJoins(chunks, text, max, sep);
      JoinByLast(sep, texts, text);
    }
  }

  lemma {:induction false} FoldReads(trim: string -> string, parts: seq<string>, max: nat)
    requires forall p :: p in parts ==> Size(trim(p)) <= max
    ensures ReadsAs("\n\n", Folded(Trimmed(trim, ParagraphWriter(max)), [], parts), Trims(trim, parts))
  {
    if parts != [] {
      var front, last := parts[..|parts| - 1], trim(parts[|parts| - 1]);
      FoldReads(trim, front, max);
      OneMoreReads("\n\n", Folded(Trimmed(trim, ParagraphWriter(max)), [], front), Trims(trim, front), last, max);
    }
  }

  /** Where every paragraph fits, the chunks with blank lines between are the paragraphs with
      blank lines between. */
  lemma {:induction false} WholeParagraphs(t: string, max: nat)
    requires Size(t) > max && forall p :: p in Paragraphs(t) ==> Size(Strip(p)) <= max
    ensures JoinBy("\n\n", TextChunked([], t, max)) == JoinBy("\n\n", Trims(Strip, Paragraphs(t)))
    ensures TextBreaks(t, max) == 0
  {
    FoldReads(Strip, Paragraphs(t), max);
    NoneCounted(Strip, ParagraphBreaks(max), Paragraphs(t));
  }

  lemma {:induction false} NoneCounted(trim: string -> string, count: string -> nat, items: seq<string>)
    requires forall i :: i in items ==> count(trim(i)) == 0
    ensures Total(TrimmedBreaks(trim, count), items) == 0
  {
    if items != [] {
      assert items[0] in items;
      NoneCounted(trim, count, items[1..]);
    }
  }

  // ---- Sentences without white space between ----

  lemma {:induction false} NoSpaceAround(s: string)
    requires s != "" && !IsSpace(s[0]) && !IsSpace(s[|s| - 1])
    ensures Strip(s) == s && TrimNewlines(s) == s
  {
  }

  ghost predicate NoEmptyLine(s: string) {
    forall i, j :: 0 <= i && j == i + 1 && j < |s| ==> !(s[i] == '\n' && s[j] == '\n')
  }

  lemma {:induction false} OneParagraph(s: string)
    requires NoEmptyLine(s)
    ensures Paragraphs(s) == [s]
  {
    if s != "" {
      OneParagraph(s[1..]);
      assert [s[0]] + s[1..] == s;
    }
  }

  lemma {:induction false} TotalOne(count: string -> nat, item: string)
    ensures Total(count, [item]) == count(item)
  {
    assert [item][1..] == [];
  }

  lemma {:induction false} JoinAllOne(s: string)
    ensures JoinAll([[s]]) == [s]
  {
    assert [[s]][1..] == [];
  }

  lemma {:induction false} OneTrimmed(trim: string -> string, count: string -> nat, s: string)
    requires trim(s) == s
    ensures Total(TrimmedBreaks(trim, count), [s]) == count(s)
  {
    TotalOne(TrimmedBreaks(trim, count), s);
  }

  lemma {:induction false} OneLineParagraph(s: string, max: nat)
    requires '\n' !in s && TrimNewlines(s) == s
    ensures ParagraphBreaks(max)(s) == PieceBreaks(max)(s)
  {
    SplitPlain(s, '\n');
    JoinAllOne(s);
    OneTrimmed(TrimNewlines, PieceBreaks(max), s);
  }

  /** A text of one line is one list item. */
  lemma {:induction false} OneLineBreaks(s: string, max: nat)
    requires '\n' !in s && s != "" && !IsSpace(s[0]) && !IsSpace(s[|s| - 1])
    ensures TextBreaks(s, max) == PieceBreaks(max)(s)
  {
    NoSpaceAround(s);
    OneParagraph(s);
    OneLineParagraph(s, max);
    OneTrimmed(Strip, ParagraphBreaks(max), s);
  }

  lemma {:induction false} EndedSentence(a: string, c: char, s: string)
    requires EndsSentence(c) && forall x :: x in a ==> !EndsSentence(x)
    ensures Sentences(a + [c] + s) == [a + [c]] + Sentences(s)
  {
    var t := a + [c] + s;
    if a == "" {
      assert t[1..] == s && a + [c] == [c];
    } else {
      assert t[0] == a[0] && t[1..] == a[1..] + [c] + s;
      EndedSentence(a[1..], c, s);
      assert [a[0]] + (a[1..] + [c]) == a + [c];
    }
  }

  /** A sentence end with no white space behind it: the splitter puts a newline there, or a
      chunk boundary, although no sentence has to be cut. */
  lemma {:induction false} SentenceSetApart(a: string, c: char, s: string, max: nat)
    requires EndsSentence(c) && c != '\n' && forall x :: x in a ==> !EndsSentence(x) && !IsSpace(x)
    requires s != "" && '\n' !in s && !IsSpace(s[0]) && !IsSpace(s[|s| - 1])
    requires Size(a + [c] + s) > max
    ensures var t := a + [c] + s; WordsOf(TextChunked([], t, max)) != Words(t)
  {
    var t := a + [c] + s;
    EndedSentence(a, c, s);
    NotSpaceEnd(c);
    SetApart(a + [c], s);
    OneLineBreaks(t, max);
    FromNothing(t, max);
  }

  lemma {:induction false} NotSpaceEnd(c: char)
    requires EndsSentence(c) && c != '\n'
    ensures !IsSpace(c)
  {
  }

  lemma {:induction false} SetApart(first: string, s: string)
    requires !Apart(first, s)
    ensures Breaks([first] + Sentences(s)) > 0
  {
    assert ([first] + Sentences(s))[1..] == Sentences(s);
  }

  // ---- Chunks and their lines ----

  lemma {:induction false} FullWords(ls: seq<string>)
    ensures WordsOf(Full(ls)) == WordsOf(ls)
  {
    if ls != [] {
      FullWords(ls[1..]);
      WordsOfConcat(if ls[0] == "" then [] else [ls[0]], Full(ls[1..]));
      WordsOfOne(ls[0]);
    }
  }

  /** Chunks with the same lines hold the same words. */
  lemma {:induction false} LinesCarryWords(chunks: seq<string>)
    ensures WordsOf(FullLines(chunks)) == WordsOf(chunks)
  {
    if chunks != [] {
      var ls := Lines(chunks[0]);
      LinesCarryWords(chunks[1..]);
      FullWords(ls);
      JoinSplit(chunks[0], '\n');
      JoinedWords(ls);
      WordsOfConcat(Full(ls), FullLines(chunks[1..]));
    }
  }
}
