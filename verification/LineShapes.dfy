/** The line predicates as patterns: how a line is made up when it is a fence, a list
    marker or a heading. */
module LineShapes {
  import opened Text
  import opened LineKinds
  import opened TextChunks

  predicate AllSpace(s: string) {
    forall c :: c in s ==> IsSpace(c)
  }

  function Times(c: char, n: nat): (s: string)
    ensures |s| == n && forall x :: x in s ==> x == c
  {
    if n == 0 then "" else [c] + Times(c, n - 1)
  }

  // ---- Leading white space ----

  lemma {:induction false} LeadingSpace(line: string)
    ensures AllSpace(LeadOf(line)) && line == LeadOf(line) + LStrip(line)
    ensures LStrip(line) != "" ==> !IsSpace(LStrip(line)[0])
  {
    if line != "" && IsSpace(line[0]) {
      LeadingSpace(line[1..]);
      OneMoreSpace(line, LStrip(line));
    }
  }

  lemma {:induction false} OneMoreSpace(line: string, body: string)
    requires line != "" && IsSpace(line[0]) && |body| <= |line[1..]|
    requires AllSpace(line[1..][..|line[1..]| - |body|]) && line[1..] == line[1..][..|line[1..]| - |body|] + body
    ensures AllSpace(line[..|line| - |body|]) && line == line[..|line| - |body|] + body
  {
    assert line[..|line| - |body|] == [line[0]] + line[1..][..|line[1..]| - |body|];
  }

  lemma {:induction false} CutInTwo(indent: string, body: string, n: nat)
    requires n <= |body|
    ensures indent + body == indent + body[..n] + body[n..] == indent + (body[..n] + body[n..])
  {
    assert body == body[..n] + body[n..];
  }

  /** The white space a line starts with. */
  function LeadOf(line: string): string {
    line[..|line| - |LStrip(line)|]
  }

  lemma {:induction false} Grouped(a: string, b: string, c: string, d: string)
    ensures a + b + c == a + (b + c) && a + b + c + d == a + (b + (c + d))
  {
  }

  lemma {:induction false} BehindSpace(indent: string, rest: string)
    requires AllSpace(indent) && (rest == "" || !IsSpace(rest[0]))
    ensures LStrip(indent + rest) == rest
  {
    if indent == "" {
      assert indent + rest == rest;
    } else {
      assert indent[0] in indent && (indent + rest)[1..] == indent[1..] + rest;
      BehindSpace(indent[1..], rest);
    }
  }

  // ---- Runs ----

  lemma {:induction false} RunIs(s: string, c: char, n: nat)
    ensures Run(s, c) == n <==> n <= |s| && s[..n] == Times(c, n) && (n < |s| ==> s[n] != c)
  {
    if 0 < n <= |s| {
      if s[0] == c {
        RunIs(s[1..], c, n - 1);
        OneMoreTime(s, c, n);
      } else {
        assert Times(c, n)[0] in Times(c, n) && s[..n][0] == s[0];
      }
    }
  }

  lemma {:induction false} OneMoreTime(s: string, c: char, n: nat)
    requires 0 < n <= |s| && s[0] == c
    ensures s[..n] == Times(c, n) <==> s[1..][..n - 1] == Times(c, n - 1)
  {
    assert s[..n] == [c] + s[1..][..n - 1];
    assert s[..n][1..] == s[1..][..n - 1] && Times(c, n)[1..] == Times(c, n - 1);
  }

  lemma {:induction false} RunOf(c: char, n: nat, rest: string)
    requires rest != "" ==> rest[0] != c
    ensures Run(Times(c, n) + rest, c) == n
  {
    assert (Times(c, n) + rest)[..n] == Times(c, n);
    RunIs(Times(c, n) + rest, c, n);
  }

  // ---- Fences ----

  predicate FenceShape(indent: string, m: Marker, rest: string) {
    && AllSpace(indent) && (m.ch == '`' || m.ch == '~') && m.len >= 3
    && (rest != "" ==> rest[0] != m.ch)
  }

  ghost predicate LooksLikeFence(line: string, m: Marker) {
    exists indent, rest :: FenceShape(indent, m, rest) && line == indent + Times(m.ch, m.len) + rest
  }

  lemma {:induction false} FenceHasShape(line: string, m: Marker)
    requires FenceMarker(line) == Some(m)
    ensures LooksLikeFence(line, m)
  {
    LeadingSpace(line);
    RunIs(LStrip(line), m.ch, m.len);
    CutInTwo(LeadOf(line), LStrip(line), m.len);
    assert FenceShape(LeadOf(line), m, LStrip(line)[m.len..]);
  }

  lemma {:induction false} ShapeIsFence(indent: string, m: Marker, rest: string)
    requires FenceShape(indent, m, rest)
    ensures FenceMarker(indent + Times(m.ch, m.len) + rest) == Some(m)
  {
    var run := Times(m.ch, m.len);
    assert run[0] in run && (run + rest)[0] == run[0];
    Grouped(indent, run, rest, "");
    BehindSpace(indent, run + rest);
    RunOf(m.ch, m.len, rest);
  }

  /** A fence is a run of at least three back-ticks or tildes behind white space, whatever
      comes behind it. */
  lemma {:induction false} FencePattern(line: string, m: Marker)
    ensures FenceMarker(line) == Some(m) <==> LooksLikeFence(line, m)
  {
    if FenceMarker(line) == Some(m) { FenceHasShape(line, m); }
    if LooksLikeFence(line, m) { LooksAreFence(line, m); }
  }

  lemma {:induction false} LooksAreFence(line: string, m: Marker)
    requires LooksLikeFence(line, m)
    ensures FenceMarker(line) == Some(m)
  {
    var indent, rest :| FenceShape(indent, m, rest) && line == indent + Times(m.ch, m.len) + rest;
    ShapeIsFence(indent, m, rest);
  }

  // ---- List markers ----

  /** A bullet, or a number of up to three digits with a dot or parenthesis. */
  predicate IsMark(mark: string) {
    || mark == "-" || mark == "*" || mark == "+"
    || (2 <= |mark| <= 4 && (mark[|mark| - 1] == '.' || mark[|mark| - 1] == ')')
        && forall i :: 0 <= i < |mark| - 1 ==> Digit(mark[i]))
  }

  predicate MarkerShape(indent: string, mark: string, rest: string) {
    AllSpace(indent) && |indent| <= 4 && IsMark(mark) && (rest != "" ==> IsSpace(rest[0]))
  }

  lemma {:induction false} DigitRunIs(s: string, n: nat)
    requires n < |s| && !Digit(s[n]) && forall i :: 0 <= i < n ==> Digit(s[i])
    ensures DigitRun(s) == n
  {
    if n > 0 { DigitRunIs(s[1..], n - 1); }
  }

  lemma {:induction false} DigitsOfRun(s: string)
    ensures forall i :: 0 <= i < DigitRun(s) ==> Digit(s[i])
  {
    if s != "" && Digit(s[0]) {
      DigitsOfRun(s[1..]);
      assert forall i :: 1 <= i < DigitRun(s) ==> s[i] == s[1..][i - 1];
    }
  }

  lemma {:induction false} BulletIs(mark: string, rest: string)
    requires IsMark(mark)
    ensures Bullet(mark + rest) == |mark| && !IsSpace((mark + rest)[0])
  {
    var s := mark + rest;
    if |mark| > 1 {
      var n := |mark| - 1;
      assert forall i :: 0 <= i < |mark| ==> s[i] == mark[i];
      assert !Digit(s[n]) && Digit(s[0]);
      DigitRunIs(s, n);
    }
  }

  lemma {:induction false} BulletIsMark(s: string)
    requires Bullet(s) > 0
    ensures IsMark(s[..Bullet(s)])
  {
    if s[0] != '-' && s[0] != '*' && s[0] != '+' { DigitsOfRun(s); }
  }

  ghost predicate LooksLikeMarker(line: string) {
    exists indent, mark, rest :: MarkerShape(indent, mark, rest) && line == indent + mark + rest
  }

  lemma {:induction false} MarkerHasShape(line: string)
    requires ListMarker(line)
    ensures LooksLikeMarker(line)
  {
    LeadingSpace(line);
    BulletIsMark(LStrip(line));
    MarkerParts(LeadOf(line), LStrip(line));
  }

  lemma {:induction false} MarkerParts(indent: string, body: string)
    requires AllSpace(indent) && |indent| <= 4 && MarkerAt(body) && IsMark(body[..Bullet(body)])
    ensures LooksLikeMarker(indent + body)
  {
    CutInTwo(indent, body, Bullet(body));
    assert MarkerShape(indent, body[..Bullet(body)], body[Bullet(body)..]);
  }

  lemma {:induction false} ShapeIsMarker(indent: string, mark: string, rest: string)
    requires MarkerShape(indent, mark, rest)
    ensures ListMarker(indent + mark + rest)
  {
    BulletIs(mark, rest);
    Grouped(indent, mark, rest, "");
    BehindSpace(indent, mark + rest);
  }

  /** A list marker is a mark behind at most four blanks, at the end of the line or with
      white space behind it. */
  lemma {:induction false} MarkerPattern(line: string)
    ensures ListMarker(line) <==> LooksLikeMarker(line)
  {
    if ListMarker(line) { MarkerHasShape(line); }
    if LooksLikeMarker(line) { LooksAreMarker(line); }
  }

  lemma {:induction false} LooksAreMarker(line: string)
    requires LooksLikeMarker(line)
    ensures ListMarker(line)
  {
    var indent, mark, rest :| MarkerShape(indent, mark, rest) && line == indent + mark + rest;
    ShapeIsMarker(indent, mark, rest);
  }

  /** Where a paragraph is taken apart: as a list marker, but behind blanks and tabs only. */
  ghost predicate LooksLikeItem(line: string) {
    exists indent, mark, rest :: ItemShape(indent, mark, rest) && line == indent + mark + rest
  }

  predicate ItemShape(indent: string, mark: string, rest: string) {
    Blanks(indent) && |indent| <= 4 && IsMark(mark) && (rest != "" ==> IsSpace(rest[0]))
  }

  predicate Blanks(s: string) {
    forall i :: 0 <= i < |s| ==> s[i] == ' ' || s[i] == '\t'
  }

  lemma {:induction false} IndentIs(indent: string, rest: string)
    requires Blanks(indent)
    requires rest == "" || (rest[0] != ' ' && rest[0] != '\t')
    ensures Indent(indent + rest) == |indent|
  {
    if indent == "" {
      assert indent + rest == rest;
    } else {
      assert (indent + rest)[1..] == indent[1..] + rest;
      IndentIs(indent[1..], rest);
    }
  }

  lemma {:induction false} IndentBlank(line: string)
    ensures Blanks(line[..Indent(line)])
  {
    if line != "" && (line[0] == ' ' || line[0] == '\t') {
      IndentBlank(line[1..]);
      assert line[..Indent(line)] == [line[0]] + line[1..][..Indent(line[1..])];
    }
  }

  lemma {:induction false} ItemHasShape(line: string)
    requires StartsItem(line)
    ensures LooksLikeItem(line)
  {
    var n := Indent(line);
    var body := line[n..];
    IndentBlank(line);
    BulletIsMark(body);
    ItemParts(line[..n], body);
    assert line == line[..n] + body;
  }

  lemma {:induction false} ItemParts(indent: string, body: string)
    requires Blanks(indent) && |indent| <= 4 && MarkerAt(body) && IsMark(body[..Bullet(body)])
    ensures LooksLikeItem(indent + body)
  {
    CutInTwo(indent, body, Bullet(body));
    assert ItemShape(indent, body[..Bullet(body)], body[Bullet(body)..]);
  }

  lemma {:induction false} LooksAreItem(line: string)
    requires LooksLikeItem(line)
    ensures StartsItem(line)
  {
    var indent, mark, rest :| ItemShape(indent, mark, rest) && line == indent + mark + rest;
    BulletIs(mark, rest);
    Grouped(indent, mark, rest, "");
    IndentIs(indent, mark + rest);
    assert line[|indent|..] == mark + rest;
  }

  lemma {:induction false} ItemPattern(line: string)
    ensures StartsItem(line) <==> LooksLikeItem(line)
  {
    if StartsItem(line) { ItemHasShape(line); }
    if LooksLikeItem(line) { LooksAreItem(line); }
  }

  // ---- Headings ----

  predicate HeadingShape(indent: string, level: nat, gap: string, title: string) {
    && AllSpace(indent) && |indent| <= 3 && 1 <= level <= 6
    && gap != "" && AllSpace(gap) && title != "" && !IsSpace(title[0])
  }

  ghost predicate LooksLikeHeading(line: string) {
    exists indent, level, gap, title ::
      HeadingShape(indent, level, gap, title) && line == indent + Times('#', level) + gap + title
  }

  lemma {:induction false} HeadingHasShape(line: string)
    requires AtxHeading(line)
    ensures LooksLikeHeading(line)
  {
    LeadingSpace(line);
    HeadingParts(LeadOf(line), LStrip(line), Run(LStrip(line), '#'));
  }

  lemma {:induction false} HeadingParts(indent: string, body: string, n: nat)
    requires AllSpace(indent) && |indent| <= 3 && n == Run(body, '#')
    requires 1 <= n <= 6 && n < |body| && IsSpace(body[n]) && !Blank(body[n..])
    ensures LooksLikeHeading(indent + body)
  {
    var tail := body[n..];
    LeadingSpace(tail);
    BlankMeansEmptyLStrip(tail);
    RunIs(body, '#', n);
    GapIsThere(tail);
    CutInTwo(indent, body, n);
    Grouped(indent, body[..n], LeadOf(tail), LStrip(tail));
    assert HeadingShape(indent, n, LeadOf(tail), LStrip(tail));
  }

  lemma {:induction false} GapIsThere(tail: string)
    requires tail != "" && IsSpace(tail[0])
    ensures LeadOf(tail) != ""
  {
    assert |LStrip(tail)| <= |tail[1..]|;
  }

  lemma {:induction false} ShapeIsHeading(indent: string, level: nat, gap: string, title: string)
    requires HeadingShape(indent, level, gap, title)
    ensures AtxHeading(indent + Times('#', level) + gap + title)
  {
    var marks, tail := Times('#', level), gap + title;
    assert marks[0] in marks && (marks + tail)[0] == '#';
    assert gap[0] in gap && tail[0] == gap[0];
    Grouped(indent, marks, gap, title);
    BehindSpace(indent, marks + tail);
    RunOf('#', level, tail);
    BehindSpace(gap, title);
    BlankMeansEmptyLStrip(tail);
    MarksBehind(indent + Times('#', level) + gap + title, indent, marks, tail, level);
  }

  lemma {:induction false} MarksBehind(line: string, indent: string, marks: string, tail: string, level: nat)
    requires LStrip(line) == marks + tail && |line| == |indent| + |marks| + |tail| && |indent| <= 3
    requires |marks| == level && 1 <= level <= 6 && Run(marks + tail, '#') == level
    requires tail != "" && IsSpace(tail[0]) && !Blank(tail)
    ensures AtxHeading(line)
  {
    assert (marks + tail)[level..] == tail;
  }

  /** A heading has up to six `#` behind at most three blanks, then white space and a title. */
  lemma {:induction false} HeadingPattern(line: string)
    ensures AtxHeading(line) <==> LooksLikeHeading(line)
  {
    if AtxHeading(line) { HeadingHasShape(line); }
    if LooksLikeHeading(line) { LooksAreHeading(line); }
  }

  lemma {:induction false} LooksAreHeading(line: string)
    requires LooksLikeHeading(line)
    ensures AtxHeading(line)
  {
    var indent, level, gap, title :|
      HeadingShape(indent, level, gap, title) && line == indent + Times('#', level) + gap + title;
    ShapeIsHeading(indent, level, gap, title);
  }
}
