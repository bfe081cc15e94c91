/** What one line of Markdown is, as decided by the shared line predicates, and
    the facts about them that the two state machines rely on. */
module LineKinds {
  import opened Text

  /** A fence marker: a run of back-ticks or tildes. */
  datatype Marker = Marker(ch: char, len: nat)

  function Run(s: string, c: char): (n: nat)
    ensures n <= |s|
  {
    if s != "" && s[0] == c then 1 + Run(s[1..], c) else 0
  }

  function FenceMarker(line: string): Option<Marker> {
    var body := LStrip(line);
    if body != "" && (body[0] == '`' || body[0] == '~') && Run(body, body[0]) >= 3
    then Some(Marker(body[0], Run(body, body[0]))) else None
  }

  predicate ClosesFence(line: string, m: Marker) {
    var body := LStrip(line);
    var n := Run(body, m.ch);
    n >= 3 && Blank(body[n..]) && n >= m.len
  }

  /** The cells of a line framed by `|`, or nothing when it is not framed. */
  function Cells(line: string): Option<seq<string>> {
    var s := Strip(line);
    if s != "" && s[0] == '|' && s[|s| - 1] == '|'
    then Some(Split(if |s| >= 2 then s[1..|s| - 1] else "", '|')) else None
  }

  predicate DashCell(cell: string) {
    Dashes(Strip(cell))
  }

  predicate Dashes(s: string) {
    var t := if s != "" && s[0] == ':' then s[1..] else s;
    var n := Run(t, '-');
    n >= 1 && (t[n..] == "" || t[n..] == ":")
  }

  predicate TableRow(line: string) {
    var cells := Cells(line);
    cells.Some? && |cells.value| >= 2
  }

  predicate DashCells(cells: seq<string>) {
    cells == [] || (DashCell(cells[0]) && DashCells(cells[1..]))
  }

  predicate TableSeparator(line: string) {
    var cells := Cells(line);
    cells.Some? && |cells.value| >= 2 && DashCells(cells.value)
  }

  /** Starts with `|`, whether or not the row is finished. */
  predicate PipeLine(line: string) {
    var s := LStrip(line);
    s != "" && s[0] == '|'
  }

  predicate Digit(c: char) { '0' <= c <= '9' }

  function DigitRun(s: string): (n: nat)
    ensures n <= |s|
  {
    if s != "" && Digit(s[0]) then 1 + DigitRun(s[1..]) else 0
  }

  /** Length of the bullet or number a list item starts with; 0 for none. */
  function Bullet(s: string): (n: nat)
    ensures n <= |s|
  {
    if s == "" then 0
    else if s[0] == '-' || s[0] == '*' || s[0] == '+' then 1
    else
      var d := DigitRun(s);
      if 1 <= d <= 3 && d < |s| && (s[d] == '.' || s[d] == ')') then d + 1 else 0
  }

  predicate MarkerAt(s: string) {
    var n := Bullet(s);
    n > 0 && (n == |s| || IsSpace(s[n]))
  }

  predicate ListMarker(line: string) {
    var s := LStrip(line);
    |line| - |s| <= 4 && MarkerAt(s)
  }

  predicate StartsWith(s: string, c: char) { s != "" && s[0] == c }

  predicate EndsWith(s: string, c: char) { s != "" && s[|s| - 1] == c }

  /** An annotation: a line led by an em dash. */
  predicate Annotation(line: string) {
    StartsWith(LStrip(line), '\U{2014}')
  }

  // ---- Bare URLs ----

  predicate Lower(c: char) { 'a' <= c <= 'z' }

  predicate Label(s: string) {
    s != "" && (Lower(s[0]) || Digit(s[0])) && (Lower(s[|s| - 1]) || Digit(s[|s| - 1])) &&
    forall c :: c in s ==> Lower(c) || Digit(c) || c == '-'
  }

  predicate HostName(s: string) {
    var labels := Split(s, '.');
    var top := labels[|labels| - 1];
    |labels| >= 2 && |top| >= 2 && (forall c :: c in top ==> Lower(c)) &&
    forall l :: l in labels[..|labels| - 1] ==> Label(l)
  }

  predicate AllDigits(s: string, most: nat) {
    1 <= |s| <= most && forall c :: c in s ==> Digit(c)
  }

  predicate DottedQuad(s: string) {
    var parts := Split(s, '.');
    |parts| == 4 && forall p :: p in parts ==> AllDigits(p, 3)
  }

  /** Everything before the first `c`. */
  function Until(s: string, c: char): (r: string)
    ensures r <= s
  {
    if s == "" || s[0] == c then "" else [s[0]] + Until(s[1..], c)
  }

  function DropScheme(s: string): string {
    if "http://" <= s then s[7..] else if "https://" <= s then s[8..] else s
  }

  predicate UrlBody(s: string) {
    var rest := DropScheme(s);
    var quad := Until(Until(s, '/'), ':');
    var tail := s[|quad|..];
    || HostName(Until(rest, '/'))
    || (DottedQuad(quad) && tail != "" &&
        if tail[0] == ':' then AllDigits(tail[1..], 5) else |tail| >= 2)
  }

  /** A bare URL: at most four leading blanks, no inner white space, a dotted host
      name with optional scheme and path, or an IPv4 address with port or path. */
  predicate UrlLine(line: string) {
    var s := Strip(line);
    |line| - |LStrip(line)| <= 4 && s != "" && (forall c :: c in s ==> !IsSpace(c)) && UrlBody(s)
  }

  // ---- Headings and lead-ins ----

  predicate Continuation(line: string) {
    UrlLine(line) || TableRow(line) || TableSeparator(line) || FenceMarker(line).Some? || PipeLine(line)
  }

  const HEADING_MAX_LEN := 24

  predicate AtxHeading(line: string) {
    var s := LStrip(line);
    var n := Run(s, '#');
    |line| - |s| <= 3 && 1 <= n <= 6 && n < |s| && IsSpace(s[n]) && !Blank(s[n..])
  }

  predicate ShortTitle(line: string) {
    var s := Strip(line);
    0 < |s| <= HEADING_MAX_LEN &&
    s[|s| - 1] !in ['\U{3002}', '\U{FF01}', '\U{FF1F}', '!', '?']
  }

  predicate HeadingLine(line: string, afterBoundary: bool) {
    !Annotation(line) && !Continuation(line) && (AtxHeading(line) || (ShortTitle(line) && afterBoundary))
  }

  predicate LeadInLine(line: string) {
    !Annotation(line) && !Continuation(line) &&
    (EndsWith(Strip(line), ':') || EndsWith(Strip(line), '\U{FF1A}'))
  }

  // ---- A line as the state machines see it ----

  /** The verdict of every predicate on one line; `title` is a heading only
      behind a boundary, `heading` everywhere. */
  datatype Kind = Kind(
    fence: Option<Marker>, bare: bool, separator: bool, row: bool, pipe: bool, marker: bool,
    url: bool, note: bool, heading: bool, title: bool, leadIn: bool, blank: bool)
  {
    predicate Continues() { url || row || separator || fence.Some? || pipe }

    predicate IsHeading(afterBoundary: bool) { heading || (title && afterBoundary) }

    predicate Closes(m: Marker) {
      fence.Some? && bare && fence.value.ch == m.ch && fence.value.len >= m.len
    }

    /** What the predicates guarantee about each other. */
    predicate Consistent() {
      && (fence.Some? ==> fence.value.ch in ['`', '~'])
      && (separator ==> row)
      && (row ==> pipe)
      && (pipe ==> fence.None? && !marker && !note)
      && (marker ==> fence.None? && !note)
      && (heading || title || leadIn ==> !Continues() && !note)
      && (blank ==> !Continues() && !marker && !note && !heading && !title && !leadIn)
    }
  }

  function Classify(line: string): Kind {
    var body := LStrip(line);
    var fence := FenceMarker(line);
    Kind(
      fence, fence.Some? && Blank(body[fence.value.len..]), TableSeparator(line), TableRow(line),
      PipeLine(line), ListMarker(line), UrlLine(line), Annotation(line), HeadingLine(line, false),
      HeadingLine(line, true), LeadInLine(line), Blank(line))
  }

  lemma {:induction false} LStripEdge(s: string)
    ensures LStrip(s) != "" ==> !IsSpace(LStrip(s)[0])
  {
    if s != "" && IsSpace(s[0]) { LStripEdge(s[1..]); }
  }

  lemma {:induction false} KeepsFirst(t: string)
    requires t != "" && !IsSpace(t[0])
    ensures RStrip(t) != "" && RStrip(t)[0] == t[0]
  {
    if |t| > 1 && IsSpace(t[|t| - 1]) { KeepsFirst(t[..|t| - 1]); }
  }

  lemma {:induction false} BlankMeansEmptyLStrip(s: string)
    ensures Blank(s) <==> LStrip(s) == ""
  {
    LStripEdge(s);
    if LStrip(s) != "" { KeepsFirst(LStrip(s)); }
  }

  lemma {:induction false} MarkerStart(s: string)
    requires MarkerAt(s)
    ensures s[0] !in ['`', '~', '|', '\U{2014}']
  {
    if DigitRun(s) > 0 { assert Digit(s[0]); }
  }

  lemma {:induction false} FramedLineIsPipe(line: string)
    requires TableRow(line)
    ensures PipeLine(line)
  {
    LStripEdge(line);
    if LStrip(line) != "" { KeepsFirst(LStrip(line)); }
  }

  lemma {:induction false} PipeLineFacts(line: string)
    requires PipeLine(line)
    ensures FenceMarker(line).None? && !ListMarker(line) && !Annotation(line)
  {
    if ListMarker(line) { MarkerStart(LStrip(line)); }
  }

  lemma {:induction false} ListMarkerFacts(line: string)
    requires ListMarker(line)
    ensures FenceMarker(line).None? && !Annotation(line)
  {
    MarkerStart(LStrip(line));
  }

  lemma {:induction false} BlankLineFacts(line: string)
    requires Blank(line)
    ensures !UrlLine(line) && !TableRow(line) && FenceMarker(line).None? && !PipeLine(line)
    ensures !ListMarker(line) && !Annotation(line) && !HeadingLine(line, true) && !LeadInLine(line)
  {
    BlankMeansEmptyLStrip(line);
  }

  lemma {:induction false} ClosingLine(line: string, m: Marker)
    requires m.len >= 3 && FenceMarker(line).Some?
    ensures var f := FenceMarker(line).value;
            ClosesFence(line, m) <==>
            Blank(LStrip(line)[f.len..]) && f.ch == m.ch && f.len >= m.len
  {
    var s := LStrip(line);
    assert Run(s, m.ch) > 0 ==> m.ch == s[0];
  }

  /** A fence line closes a marker exactly when its kind says so. */
  lemma {:induction false} ClosingKind(line: string, m: Marker)
    requires m.len >= 3 && FenceMarker(line).Some?
    ensures ClosesFence(line, m) <==> Classify(line).Closes(m)
  {
    ClosingLine(line, m);
  }

  /** Headings depend on the boundary as `IsHeading` says. */
  lemma {:induction false} HeadingKind(line: string, b: bool)
    ensures HeadingLine(line, b) <==> Classify(line).IsHeading(b)
    ensures Continuation(line) <==> Classify(line).Continues()
  {
  }

  /** The predicates are consistent with each other. */
  lemma {:induction false} ClassifyFacts(line: string)
    ensures Classify(line).Consistent()
  {
    if TableRow(line) { FramedLineIsPipe(line); }
    if PipeLine(line) { PipeLineFacts(line); }
    if ListMarker(line) { ListMarkerFacts(line); }
    if Blank(line) { BlankLineFacts(line); }
  }
}
