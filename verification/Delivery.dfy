/** Sending a growing reply block by block: what is sent at each attempt, that nothing
    is lost or sent twice, and exactly when all blocks can stand on their own. */
module Delivery {
  import opened Text
  import opened LineKinds
  import opened StreamCut

  // ---- What one attempt sends ----

  /** `utf8_prefix`: as many characters as fit into `most` bytes. */
  function Utf8Prefix(s: string, most: nat): (n: nat)
    ensures n <= |s| && Size(s[..n]) <= most
    ensures n < |s| ==> Size(s[..n + 1]) > most
  {
    if s == "" || Width(s[0]) > most then 0
    else
      var n := Utf8Prefix(s[1..], most - Width(s[0]));
      assert s[..n + 1][1..] == s[1..][..n];
      assert n + 1 < |s| ==> s[..n + 2][1..] == s[1..][..n + 1];
      n + 1
  }

  lemma {:induction false} PrefixSizes(s: string, i: nat, j: nat)
    requires i <= j <= |s|
    ensures Size(s[..i]) <= Size(s[..j])
  {
    assert s[..j] == s[..i] + s[i..j];
    SizeConcat(s[..i], s[i..j]);
  }

  method CountPrefix(s: string, most: nat) returns (n: nat)
    ensures n == Utf8Prefix(s, most)
  {
    var size := 0;
    var p := Utf8Prefix(s, most);
    for i := 0 to |s|
      invariant size == Size(s[..i]) <= most && i <= p
    {
      assert s[..i + 1] == s[..i] + [s[i]];
      SizeConcat(s[..i], [s[i]]);
      assert Size([s[i]]) == Width(s[i]) + Size([s[i]][1..]);
      size := size + Width(s[i]);
      if i < p { PrefixSizes(s, i + 1, p); }
      if size > most {
        return i;
      }
    }
    assert s[..|s|] == s;
    return |s|;
  }

  /** Just behind the last newline. */
  function LastBreak(s: string): (n: nat)
    ensures n <= |s|
    ensures n > 0 ==> s[n - 1] == '\n'
    ensures forall i :: n <= i < |s| ==> s[i] != '\n'
  {
    if s == "" then 0 else if s[|s| - 1] == '\n' then |s| else LastBreak(s[..|s| - 1])
  }

  /** Where a text over the limit is cut when no cut in it is safe. */
  function HardEnd(s: string, most: nat): nat {
    if LastBreak(s) > 0 then LastBreak(s) else Utf8Prefix(s, most)
  }

  /** What an attempt sends, possibly nothing: the pending text up to the safe cut; without
      one nothing, unless the text is over the limit; all of it where the cut lies past
      its end, or where the stream has broken off (`incomplete`) without a safe cut. */
  function BlockOf(
    m: Machine, most: nat, sent: string, pending: string, limit: int, incomplete: bool): (block: string)
    ensures block <= pending
  {
    var cut := SafeCut(m, pending, limit, TrailingOf(m, sent));
    if cut == 0 && !incomplete then
      if Size(pending) < most then ""
      else
        var hard := HardEnd(pending, most);
        if 0 < hard < |pending| then pending[..hard] else pending
    else if 0 < cut < |pending| then pending[..cut] else pending
  }

  lemma {:induction false} SafeBlock(
    m: Machine, most: nat, sent: string, pending: string, limit: int, incomplete: bool)
    ensures var cut := SafeCut(m, pending, limit, TrailingOf(m, sent));
            && (0 < cut <= |pending| ==> BlockOf(m, most, sent, pending, limit, incomplete) == pending[..cut])
            && (cut > |pending| ==> BlockOf(m, most, sent, pending, limit, incomplete) == pending)
            && (incomplete && pending != "" ==> BlockOf(m, most, sent, pending, limit, incomplete) != "")
  {
  }

  /** Without a safe cut: nothing is sent while the text stays under the limit; once it is
      over the limit all finished lines are sent, or for want of one as much as fits; and
      all of it if the stream broke off. */
  lemma {:induction false} WithoutSafeCut(
    m: Machine, most: nat, sent: string, pending: string, limit: int, incomplete: bool)
    requires pending != "" && SafeCut(m, pending, limit, TrailingOf(m, sent)) == 0 && 4 <= most
    ensures var block := BlockOf(m, most, sent, pending, limit, incomplete);
            && (incomplete ==> block == pending)
            && (!incomplete ==> (block == "" <==> Size(pending) < most))
            && (!incomplete && Size(pending) >= most ==>
                 if '\n' in pending then block[|block| - 1] == '\n' && '\n' !in pending[|block|..]
                 else Size(block) <= most && (block == pending || Size(pending[..|block| + 1]) > most))
  {
    var n := LastBreak(pending);
    assert '\n' in pending <==> n > 0;
    if n == 0 { assert pending[..|pending|] == pending; }
  }

  /** `pending_starts_incomplete`: the pending text goes on with a table, an entry or a
      fence of what has been sent. */
  predicate StartsIncomplete(m: Machine, pending: string, sent: string) {
    StartsInStructure(m, pending) || StartsInFence(m, sent)
  }

  predicate StartsInStructure(m: Machine, pending: string) {
    var first := Strip(Lines(pending)[0]);
    var k := m.view(first);
    first != "" && (k.separator || k.row || k.note || k.url)
  }

  predicate StartsInFence(m: Machine, sent: string) {
    var before := NonBlank(m, Lines(RStrip(sent)));
    before != [] && m.view(before[|before| - 1]).fence.Some?
  }

  function NonBlank(m: Machine, ls: seq<string>): seq<string> {
    if ls == [] then [] else (if m.view(ls[0]).blank then [] else [ls[0]]) + NonBlank(m, ls[1..])
  }

  /** One attempt: the text so far, the cut limit, and whether the stream has broken off. */
  datatype Attempt = Attempt(text: string, limit: int, incomplete: bool)

  function Rest(text: string, sent: nat): string {
    if sent <= |text| then text[sent..] else ""
  }

  function BlockAt(m: Machine, most: nat, blocks: seq<string>, a: Attempt): string {
    BlockOf(m, most, Flatten(blocks), Rest(a.text, |Flatten(blocks)|), a.limit, a.incomplete)
  }

  /** The blocks sent after one more attempt. */
  function Send(m: Machine, most: nat, blocks: seq<string>, a: Attempt): seq<string> {
    var block := BlockAt(m, most, blocks, a);
    if Rest(a.text, |Flatten(blocks)|) == "" || block == "" then blocks else blocks + [block]
  }

  /** Blocks sent so far, given the attempts in order. */
  function Deliver(m: Machine, most: nat, attempts: seq<Attempt>): seq<string>
    decreases |attempts|
  {
    if attempts == [] then []
    else Send(m, most, Deliver(m, most, attempts[..|attempts| - 1]), attempts[|attempts| - 1])
  }

  predicate Growing(attempts: seq<Attempt>) {
    forall i, j :: 0 <= i <= j < |attempts| ==> attempts[i].text <= attempts[j].text
  }

  function LatestText(attempts: seq<Attempt>): string {
    if attempts == [] then "" else attempts[|attempts| - 1].text
  }

  // ---- Nothing is lost or sent twice ----

  lemma {:induction false} SendExtends(m: Machine, most: nat, blocks: seq<string>, a: Attempt)
    requires Flatten(blocks) <= a.text
    ensures var out := Send(m, most, blocks, a);
            && (out == blocks || out == blocks + [BlockAt(m, most, blocks, a)])
            && Flatten(out) <= a.text && |Flatten(out)| >= |Flatten(blocks)|
            && (a.incomplete && Flatten(blocks) != a.text ==> |Flatten(out)| > |Flatten(blocks)|)
  {
    var sent, block := Flatten(blocks), BlockAt(m, most, blocks, a);
    FlattenLast(blocks, block);
    SafeBlock(m, most, sent, Rest(a.text, |sent|), a.limit, a.incomplete);
    PrefixMore(sent, block, a.text);
  }

  lemma {:induction false} PrefixMore(sent: string, block: string, text: string)
    requires sent <= text && block <= Rest(text, |sent|)
    ensures sent + block <= text && (sent != text ==> Rest(text, |sent|) != "")
  {
    assert text == sent + text[|sent|..];
  }

  /** Over every run on a growing text, whatever is sent when no cut is safe included,
      the blocks concatenate to a prefix of the text. */
  lemma {:induction false} BlocksArePrefix(m: Machine, most: nat, attempts: seq<Attempt>)
    requires Growing(attempts)
    ensures Flatten(Deliver(m, most, attempts)) <= LatestText(attempts)
    decreases |attempts|
  {
    if attempts != [] {
      var n := |attempts| - 1;
      var before := attempts[..n];
      BlocksArePrefix(m, most, before);
      if n > 0 { assert before[n - 1].text <= attempts[n].text; }
      SendExtends(m, most, Deliver(m, most, before), attempts[n]);
    }
  }

  /** What `finish` still has to send completes the reply. */
  lemma {:induction false} ReplyIsComplete(m: Machine, most: nat, attempts: seq<Attempt>, reply: string)
    requires Growing(attempts) && LatestText(attempts) <= reply
    ensures var blocks := Deliver(m, most, attempts);
            Flatten(blocks) + Rest(reply, |Flatten(blocks)|) == reply
  {
    BlocksArePrefix(m, most, attempts);
    RestCompletes(Flatten(Deliver(m, most, attempts)), LatestText(attempts), reply);
  }

  lemma {:induction false} RestCompletes(sent: string, text: string, reply: string)
    requires sent <= text <= reply
    ensures sent + Rest(reply, |sent|) == reply
  {
  }

  // ---- Blocks that stand on their own ----

  /** Whole lines, every fence it opens closed. */
  predicate SelfContained(m: Machine, block: string) {
    block != "" && block[|block| - 1] == '\n' && TrailingOf(m, block).fence == None
  }

  /** Every block can stand on its own, and begins outside all fences of the text. */
  ghost predicate Sent(m: Machine, blocks: seq<string>) {
    && (forall b :: b in blocks ==> SelfContained(m, b))
    && (forall i :: 0 <= i <= |blocks| ==> TrailingOf(m, Flatten(blocks[..i])).fence == None)
  }

  lemma {:induction false} SentOneMore(m: Machine, blocks: seq<string>, block: string)
    ensures Sent(m, blocks + [block])
       <==> Sent(m, blocks) && SelfContained(m, block) && TrailingOf(m, Flatten(blocks) + block).fence == None
  {
    var all := blocks + [block];
    FlattenLast(blocks, block);
    assert all[..|all|] == all;
    assert forall i :: 0 <= i <= |blocks| ==> all[..i] == blocks[..i];
    assert forall b :: b in all <==> b in blocks || b == block;
  }

  predicate FenceOpen(m: Machine, text: string) {
    TrailingOf(m, text).fence.Some?
  }

  /** The attempt is not safe, as can be told from the text alone: the cut lies past its
      end; or there is no safe cut, and the stream broke off in the middle of a line or
      with a fence open; or the text is over the limit, and holds no newline or has a
      fence open at the last one. */
  predicate Careless(m: Machine, most: nat, blocks: seq<string>, a: Attempt) {
    var sent := Flatten(blocks);
    var pending := Rest(a.text, |sent|);
    var cut := SafeCut(m, pending, a.limit, TrailingOf(m, sent));
    var n := LastBreak(pending);
    && pending != ""
    && (|| cut > |pending|
        || (cut == 0 && a.incomplete && (n < |pending| || FenceOpen(m, sent + pending)))
        || (cut == 0 && !a.incomplete && Size(pending) >= most && (n == 0 || FenceOpen(m, sent + pending[..n]))))
  }

  predicate WholeBlock(m: Machine, sent: string, block: string) {
    block != "" && block[|block| - 1] == '\n' && !FenceOpen(m, sent + block)
  }

  predicate EndsInBreak(sent: string) {
    sent == "" || sent[|sent| - 1] == '\n'
  }

  /** Behind whole blocks, a whole block is one that stands on its own. */
  lemma {:induction false} WholeIsSelfContained(m: Machine, sent: string, block: string)
    requires Sound(m) && EndsInBreak(sent) && TrailingOf(m, sent).fence == None
    ensures WholeBlock(m, sent, block) <==> SelfContained(m, block)
    ensures WholeBlock(m, sent, block) ==> TrailingOf(m, sent + block).fence == None
  {
    FenceComposes(m, sent, block);
    FenceOfText(m, block);
    FenceOnly(TrailingOf(m, sent), START, Scan(m.view, Lines(block)));
  }

  lemma {:induction false} SentEndsInLine(m: Machine, blocks: seq<string>)
    requires Sent(m, blocks)
    ensures EndsInBreak(Flatten(blocks)) && TrailingOf(m, Flatten(blocks)).fence == None
  {
    assert blocks[..|blocks|] == blocks;
    if blocks != [] {
      var front, last := blocks[..|blocks| - 1], blocks[|blocks| - 1];
      assert blocks == front + [last];
      FlattenLast(front, last);
      assert last in blocks;
    }
  }

  lemma {:induction false} CutIsWhole(m: Machine, sent: string, pending: string, limit: int)
    requires Sound(m) && EndsInBreak(sent)
    ensures var cut := SafeCut(m, pending, limit, TrailingOf(m, sent));
            0 < cut <= |pending| ==> WholeBlock(m, sent, pending[..cut])
  {
    var cut := SafeCut(m, pending, limit, TrailingOf(m, sent));
    if 0 < cut <= |pending| {
      CutEndsOutsideFences(m, pending, limit, TrailingOf(m, sent));
      FenceComposes(m, sent, pending[..cut]);
    }
  }

  lemma {:induction false} PrefixBreak(s: string, n: nat)
    requires 0 < n <= |s|
    ensures s[..n] != "" && (s[..n][n - 1] == '\n' <==> s[n - 1] == '\n')
    ensures s[n - 1] == '\n' ==> n <= LastBreak(s)
  {
  }

  /** Without a safe cut in it, a broken off text is sent to its end. */
  lemma {:induction false} BrokenOffIsWhole(m: Machine, most: nat, sent: string, pending: string, limit: int)
    requires pending != "" && SafeCut(m, pending, limit, TrailingOf(m, sent)) == 0
    ensures WholeBlock(m, sent, BlockOf(m, most, sent, pending, limit, true))
       <==> LastBreak(pending) == |pending| && !FenceOpen(m, sent + pending)
  {
    PrefixBreak(pending, |pending|);
  }

  /** Without a safe cut in it, a text over the limit is sent up to its last newline, or
      for want of one as far as the limit goes. */
  lemma {:induction false} HardCutIsWhole(m: Machine, most: nat, sent: string, pending: string, limit: int)
    requires pending != "" && SafeCut(m, pending, limit, TrailingOf(m, sent)) == 0 && Size(pending) >= most
    ensures WholeBlock(m, sent, BlockOf(m, most, sent, pending, limit, false))
       <==> LastBreak(pending) > 0 && !FenceOpen(m, sent + pending[..LastBreak(pending)])
  {
    var n, hard := LastBreak(pending), HardEnd(pending, most);
    assert pending[..|pending|] == pending;
    if 0 < hard <= |pending| { PrefixBreak(pending, hard); }
    PrefixBreak(pending, |pending|);
  }

  lemma {:induction false} CarefulIsWhole(m: Machine, most: nat, blocks: seq<string>, a: Attempt)
    requires Sound(m) && EndsInLine(m) && EndsInBreak(Flatten(blocks))
    requires Rest(a.text, |Flatten(blocks)|) != "" && BlockAt(m, most, blocks, a) != ""
    ensures Careless(m, most, blocks, a) <==> !WholeBlock(m, Flatten(blocks), BlockAt(m, most, blocks, a))
  {
    var sent := Flatten(blocks);
    var pending := Rest(a.text, |sent|);
    var cut := SafeCut(m, pending, a.limit, TrailingOf(m, sent));
    if cut > |pending| {
      SafeBlock(m, most, sent, pending, a.limit, a.incomplete);
      CutPastEndIsUnfinished(m, pending, a.limit, TrailingOf(m, sent));
    } else if cut > 0 {
      SafeBlock(m, most, sent, pending, a.limit, a.incomplete);
      CutIsWhole(m, sent, pending, a.limit);
    } else if a.incomplete {
      BrokenOffIsWhole(m, most, sent, pending, a.limit);
    } else if Size(pending) >= most {
      HardCutIsWhole(m, most, sent, pending, a.limit);
    }
  }

  lemma {:induction false} CarelessSends(m: Machine, most: nat, blocks: seq<string>, a: Attempt)
    requires Careless(m, most, blocks, a)
    ensures Rest(a.text, |Flatten(blocks)|) != "" && BlockAt(m, most, blocks, a) != ""
  {
    var sent := Flatten(blocks);
    SafeBlock(m, most, sent, Rest(a.text, |sent|), a.limit, a.incomplete);
  }

  /** An attempt keeps the blocks in order exactly when it is not careless. */
  lemma {:induction false} SendOnce(m: Machine, most: nat, blocks: seq<string>, a: Attempt)
    requires Sound(m) && EndsInLine(m) && Sent(m, blocks)
    ensures Sent(m, Send(m, most, blocks, a)) <==> !Careless(m, most, blocks, a)
  {
    var block := BlockAt(m, most, blocks, a);
    if Rest(a.text, |Flatten(blocks)|) != "" && block != "" {
      SentEndsInLine(m, blocks);
      CarefulIsWhole(m, most, blocks, a);
      WholeIsSelfContained(m, Flatten(blocks), block);
      SentOneMore(m, blocks, block);
    } else if Careless(m, most, blocks, a) {
      CarelessSends(m, most, blocks, a);
    }
  }

  predicate AllCareful(m: Machine, most: nat, attempts: seq<Attempt>)
    decreases |attempts|
  {
    attempts == [] ||
    var before := attempts[..|attempts| - 1];
    AllCareful(m, most, before) && !Careless(m, most, Deliver(m, most, before), attempts[|attempts| - 1])
  }

  lemma {:induction false} NothingSentYet(m: Machine)
    requires Sound(m)
    ensures Sent(m, [])
  {
    NothingSent(m);
  }

  /** What is sent once stays sent. */
  lemma {:induction false} SendKeeps(m: Machine, most: nat, blocks: seq<string>, a: Attempt)
    requires Sent(m, Send(m, most, blocks, a))
    ensures Sent(m, blocks)
  {
    SentOneMore(m, blocks, BlockAt(m, most, blocks, a));
  }

  /** Over a whole run every block consists of whole lines and neither begins nor ends
      inside a fence, exactly when no attempt was careless. */
  lemma {:induction false} StreamedRun(m: Machine, most: nat, attempts: seq<Attempt>)
    requires Sound(m) && EndsInLine(m)
    ensures Sent(m, Deliver(m, most, attempts)) <==> AllCareful(m, most, attempts)
    decreases |attempts|
  {
    if attempts == [] {
      NothingSentYet(m);
    } else {
      var before, a := attempts[..|attempts| - 1], attempts[|attempts| - 1];
      StreamedRun(m, most, before);
      var blocks := Deliver(m, most, before);
      if Sent(m, blocks) {
        SendOnce(m, most, blocks, a);
      } else if Sent(m, Send(m, most, blocks, a)) {
        SendKeeps(m, most, blocks, a);
      }
    }
  }

  lemma {:induction false} StreamedMarkdown(most: nat, attempts: seq<Attempt>)
    ensures Sent(MARKDOWN, Deliver(MARKDOWN, most, attempts)) <==> AllCareful(MARKDOWN, most, attempts)
  {
    MarkdownIsSound();
    MarkdownEndsInLine();
    StreamedRun(MARKDOWN, most, attempts);
  }

  // ---- A line that has closed a fence may grow on ----

  /** A line that opens a fence, and the same line again, still unfinished. */
  predicate ShutFence(m: Machine, shut: string) {
    '\n' !in shut && m.view(shut).fence.Some? && m.view(shut).bare
  }

  lemma {:induction false} ShutRole(m: Machine, k: Kind, st: State, next: Kind)
    requires m == MARKDOWN && k.fence.Some? && k.bare && st.fence == k.fence
    ensures RoleOf(st, k, next, true).FenceClose?
  {
  }

  lemma {:induction false} TwoLines(m: Machine, first: string, second: string)
    requires '\n' !in first && '\n' !in second
    ensures Scan(m.view, Lines(first + ['\n'] + second))
         == [Line(m.view(first), |first|), Line(m.view(second), |second|)]
  {
    SplitAround(first, '\n', second);
    SplitPlain(first, '\n');
    SplitPlain(second, '\n');
  }

  lemma {:induction false} SecondState(m: Machine, ls: seq<Line>)
    requires Sound(m) && |ls| == 2 && ls[0].kind.fence.Some?
    ensures At(m, ls, START, 1).fence == ls[0].kind.fence
  {
    assert At(m, ls, START, 0).fence == None;
  }

  lemma {:induction false} ReachTwo(ls: seq<Line>, limit: int)
    requires |ls| == 2 && limit >= ls[0].len + 2
    ensures Reach(ls, limit, 0) == 2
  {
    assert Offset(ls, 0) == 0 && Offset(ls, 1) == ls[0].len + 1;
    assert Reach(ls, limit, 2) == 2 && Reach(ls, limit, 1) == 2;
  }

  /** Such a text is cut one past its end. */
  lemma {:induction false} FenceCutPastEnd(m: Machine, shut: string, limit: int)
    requires m == MARKDOWN && ShutFence(m, shut) && limit >= |shut| + 2
    ensures SafeCut(m, shut + ['\n'] + shut, limit, START) == |shut + ['\n'] + shut| + 1
  {
    var text := shut + ['\n'] + shut;
    var ls := Scan(m.view, Lines(text));
    MarkdownIsSound();
    TwoLines(m, shut, shut);
    SecondState(m, ls);
    ReachTwo(ls, limit);
    ShutRole(m, ls[1].kind, At(m, ls, START, 1), NextKind(m, ls, 1));
    CutBeyondTheEnd(text, limit, START);
  }

  /** So it is sent as it stands, by a careless attempt. */
  lemma {:induction false} UnfinishedFenceIsSent(m: Machine, most: nat, shut: string, limit: int, text: string)
    requires m == MARKDOWN && ShutFence(m, shut) && limit >= |shut| + 2 && text == shut + ['\n'] + shut
    ensures Send(m, most, [], Attempt(text, limit, false)) == [text]
    ensures Careless(m, most, [], Attempt(text, limit, false)) && !Sent(m, [text])
  {
    MarkdownIsSound();
    MarkdownEndsInLine();
    FenceCutPastEnd(m, shut, limit);
    NothingSent(m);
    WholeIsSent(m, most, text, limit);
    NothingSentYet(m);
    SendOnce(m, most, [], Attempt(text, limit, false));
  }

  /** The fence counts as closed behind what was sent; but its last line may grow into
      one that does not close it, and then what follows is inside the fence. */
  lemma {:induction false} UnfinishedFenceReopens(m: Machine, shut: string, grown: string)
    requires Sound(m) && ShutFence(m, shut)
    requires shut <= grown && '\n' !in grown && m.view(grown).fence.Some? && !m.view(grown).bare
    ensures shut + ['\n'] + shut <= shut + ['\n'] + grown
    ensures TrailingOf(m, shut + ['\n'] + shut).fence == None
    ensures TrailingOf(m, shut + ['\n'] + grown).fence.Some?
  {
    TwoLineFence(m, shut, shut);
    TwoLineFence(m, shut, grown);
  }

  lemma {:induction false} WholeIsSent(m: Machine, most: nat, text: string, limit: int)
    requires Sound(m) && text != "" && SafeCut(m, text, limit, START) > |text| && TrailingOf(m, "") == START
    ensures Send(m, most, [], Attempt(text, limit, false)) == [text]
    ensures Careless(m, most, [], Attempt(text, limit, false))
  {
    assert Flatten<char>([]) == "" && Rest(text, 0) == text;
    SafeBlock(m, most, "", text, limit, false);
  }

  // ---- When an idle flush waits ----

  /** The first pending line goes on with a table or an entry. */
  predicate GoesOn(pending: string) {
    var first := Strip(Lines(pending)[0]);
    first != "" && (TableSeparator(first) || TableRow(first) || Annotation(first) || UrlLine(first))
  }

  predicate FenceLine(line: string) {
    FenceMarker(line).Some?
  }

  /** The last line that is not blank is a fence line. */
  ghost predicate LastIsFence(fence: string -> bool, blank: string -> bool, ls: seq<string>) {
    exists i :: 0 <= i < |ls| && fence(ls[i]) && forall j :: i < j < |ls| ==> blank(ls[j])
  }

  ghost predicate EndsInFence(sent: string) {
    LastIsFence(FenceLine, Blank, Lines(sent))
  }

  /** White space at its end makes no difference to a line. */
  ghost predicate IgnoresEnd(p: string -> bool) {
    forall s, c :: IsSpace(c) && c != '\n' ==> (p(s + [c]) <==> p(s))
  }

  lemma {:induction false} RunIgnoresEnd(s: string, c: char, ch: char)
    requires c != ch
    ensures Run(s + [c], ch) == Run(s, ch)
  {
    if s != "" {
      assert (s + [c])[1..] == s[1..] + [c];
      RunIgnoresEnd(s[1..], c, ch);
    }
  }

  lemma {:induction false} LStripEnd(s: string, c: char)
    requires IsSpace(c)
    ensures LStrip(s + [c]) == if LStrip(s) == "" then "" else LStrip(s) + [c]
  {
    if s == "" {
      assert [c][1..] == "";
    } else {
      assert (s + [c])[1..] == s[1..] + [c];
      if IsSpace(s[0]) { LStripEnd(s[1..], c); }
    }
  }

  lemma {:induction false} FenceIgnoresEnd()
    ensures IgnoresEnd(FenceLine)
  {
    forall s: string, c: char | IsSpace(c) && c != '\n'
      ensures FenceMarker(s + [c]).Some? <==> FenceMarker(s).Some?
    {
      FenceEnd(s, c);
    }
  }

  lemma {:induction false} FenceEnd(s: string, c: char)
    requires IsSpace(c)
    ensures FenceMarker(s + [c]).Some? <==> FenceMarker(s).Some?
  {
    var body := LStrip(s);
    LStripEnd(s, c);
    if body != "" && body[0] in ['`', '~'] {
      assert (body + [c])[0] == body[0];
      RunIgnoresEnd(body, c, body[0]);
    }
  }

  lemma {:induction false} BlankIgnoresEnd()
    ensures IgnoresEnd(Blank)
  {
    forall s: string, c: char | IsSpace(c) && c != '\n' ensures Blank(s + [c]) <==> Blank(s) {
      LStripEnd(s, c);
      assert LStrip(s) != "" ==> (LStrip(s) + [c])[..|LStrip(s)|] == LStrip(s);
    }
  }

  /** One more character on the last line. */
  function LastGrown(ls: seq<string>, c: char): seq<string>
    requires ls != []
  {
    ls[..|ls| - 1] + [ls[|ls| - 1] + [c]]
  }

  lemma {:induction false} GrownFirst(rest: seq<string>, c: char, x: char)
    requires rest != []
    ensures LastGrown([""] + rest, c) == [""] + LastGrown(rest, c)
    ensures LastGrown([[x] + rest[0]] + rest[1..], c) == [[x] + LastGrown(rest, c)[0]] + LastGrown(rest, c)[1..]
  {
    if |rest| == 1 {
      assert [x] + (rest[0] + [c]) == [x] + rest[0] + [c];
    } else {
      GrownBehind([[x] + rest[0]], rest[1..], c);
      GrownBehind([rest[0]], rest[1..], c);
      assert [rest[0]] + rest[1..] == rest;
    }
  }

  lemma {:induction false} GrownBehind(first: seq<string>, more: seq<string>, c: char)
    requires more != []
    ensures LastGrown(first + more, c) == first + LastGrown(more, c)
  {
  }

  lemma {:induction false} LastLineGrows(s: string, c: char)
    ensures Lines(s + [c]) == if c == '\n' then Lines(s) + [""] else LastGrown(Lines(s), c)
  {
    if c == '\n' {
      SplitAround(s, c, "");
      assert s + [c] + "" == s + [c];
    } else if s == "" {
      SplitPlain([c], '\n');
      assert s + [c] == [c];
    } else {
      assert (s + [c])[1..] == s[1..] + [c];
      LastLineGrows(s[1..], c);
      GrownFirst(Lines(s[1..]), c, s[0]);
    }
  }

  lemma {:induction false} FenceStaysLast(fence: string -> bool, blank: string -> bool, ls: seq<string>, c: char)
    requires ls != [] && IsSpace(c) && IgnoresEnd(fence) && IgnoresEnd(blank) && blank("") && !fence("")
    ensures c == '\n' ==> (LastIsFence(fence, blank, ls + [""]) <==> LastIsFence(fence, blank, ls))
    ensures c != '\n' ==>
              (LastIsFence(fence, blank, LastGrown(ls, c)) <==> LastIsFence(fence, blank, ls))
  {
    var more := if c == '\n' then ls + [""] else LastGrown(ls, c);
    assert forall i :: 0 <= i < |ls| ==> (fence(more[i]) <==> fence(ls[i])) && (blank(more[i]) <==> blank(ls[i]));
    if i :| 0 <= i < |more| && fence(more[i]) && forall j :: i < j < |more| ==> blank(more[j]) {
      assert i < |ls| && fence(ls[i]);
      assert forall j :: i < j < |ls| ==> blank(ls[j]);
    }
    if i :| 0 <= i < |ls| && fence(ls[i]) && forall j :: i < j < |ls| ==> blank(ls[j]) {
      assert fence(more[i]) && forall j :: i < j < |more| ==> blank(more[j]);
    }
  }

  /** White space at the end of a text makes no difference to its last line with content. */
  lemma {:induction false} StrippedEnd(fence: string -> bool, blank: string -> bool, s: string)
    requires IgnoresEnd(fence) && IgnoresEnd(blank) && blank("") && !fence("")
    ensures LastIsFence(fence, blank, Lines(RStrip(s))) <==> LastIsFence(fence, blank, Lines(s))
  {
    if s != "" && IsSpace(s[|s| - 1]) {
      var t, c := s[..|s| - 1], s[|s| - 1];
      assert s == t + [c];
      LastLineGrows(t, c);
      FenceStaysLast(fence, blank, Lines(t), c);
      StrippedEnd(fence, blank, t);
    }
  }

  lemma {:induction false} NonBlankMore(m: Machine, front: seq<string>, l: string)
    ensures NonBlank(m, front + [l]) == NonBlank(m, front) + if m.view(l).blank then [] else [l]
  {
    if front == [] {
      assert [l][1..] == [];
    } else {
      assert (front + [l])[1..] == front[1..] + [l];
      NonBlankMore(m, front[1..], l);
    }
  }

  lemma {:induction false} LastIsFenceMore(
    fence: string -> bool, blank: string -> bool, front: seq<string>, l: string)
    requires fence(l) ==> !blank(l)
    ensures LastIsFence(fence, blank, front + [l]) <==> fence(l) || (blank(l) && LastIsFence(fence, blank, front))
  {
    var ls := front + [l];
    assert forall i :: 0 <= i < |front| ==> ls[i] == front[i];
    assert ls[|front|] == l;
    if i :| 0 <= i < |front| && fence(front[i]) && forall j :: i < j < |front| ==> blank(front[j]) {
      assert blank(l) ==> fence(ls[i]) && forall j :: i < j < |ls| ==> blank(ls[j]);
    }
    if i :| 0 <= i < |ls| && fence(ls[i]) && forall j :: i < j < |ls| ==> blank(ls[j]) {
      assert i < |front| ==> fence(front[i]) && forall j :: i < j < |front| ==> blank(front[j]);
    }
  }

  ghost predicate Views(m: Machine, fence: string -> bool, blank: string -> bool) {
    forall l :: (m.view(l).fence.Some? <==> fence(l)) && (m.view(l).blank <==> blank(l)) && (fence(l) ==> !blank(l))
  }

  lemma {:induction false} LastNonBlank(m: Machine, fence: string -> bool, blank: string -> bool, ls: seq<string>)
    requires Views(m, fence, blank)
    ensures var kept := NonBlank(m, ls);
            (kept != [] && m.view(kept[|kept| - 1]).fence.Some?) <==> LastIsFence(fence, blank, ls)
  {
    if ls != [] {
      var front, l := ls[..|ls| - 1], ls[|ls| - 1];
      assert ls == front + [l];
      NonBlankMore(m, front, l);
      LastIsFenceMore(fence, blank, front, l);
      LastNonBlank(m, fence, blank, front);
    }
  }

  lemma {:induction false} MarkdownViews()
    ensures Views(MARKDOWN, FenceLine, Blank)
  {
    forall l: string ensures FenceMarker(l).Some? ==> !Blank(l) {
      BlankMeansEmptyLStrip(l);
    }
  }

  lemma {:induction false} FirstLineGoesOn(pending: string)
    ensures StartsInStructure(MARKDOWN, pending) <==> GoesOn(pending)
  {
  }

  /** An idle flush waits exactly when the pending text goes on with a table or an entry, or
      the last line sent that is not blank is a fence line. */
  lemma {:induction false} HeldBack(pending: string, sent: string)
    ensures StartsIncomplete(MARKDOWN, pending, sent) <==> GoesOn(pending) || EndsInFence(sent)
  {
    FirstLineGoesOn(pending);
    SentEndsInFence(sent);
  }

  lemma {:induction false} SentEndsInFence(sent: string)
    ensures StartsInFence(MARKDOWN, sent) <==> EndsInFence(sent)
  {
    FenceIgnoresEnd();
    BlankIgnoresEnd();
    MarkdownViews();
    LastIsFenceLine(MARKDOWN, FenceLine, Blank, sent);
  }

  lemma {:induction false} LastIsFenceLine(m: Machine, fence: string -> bool, blank: string -> bool, sent: string)
    requires Views(m, fence, blank) && IgnoresEnd(fence) && IgnoresEnd(blank) && blank("")
    ensures StartsInFence(m, sent) <==> LastIsFence(fence, blank, Lines(sent))
  {
    LastNonBlank(m, fence, blank, Lines(RStrip(sent)));
    StrippedEnd(fence, blank, sent);
  }

  // ---- The delivery of one reply ----

  lemma {:induction false} SendIs(
    m: Machine, most: nat, blocks: seq<string>, a: Attempt, sent: string, pending: string, block: string)
    requires sent == Flatten(blocks) <= a.text && pending == Rest(a.text, |sent|) != ""
    requires block == BlockOf(m, most, sent, pending, a.limit, a.incomplete)
    ensures Send(m, most, blocks, a) == if block == "" then blocks else blocks + [block]
    ensures Flatten(blocks + [block]) == sent + block <= a.text
  {
    FlattenLast(blocks, block);
    PrefixMore(sent, block, a.text);
  }

  /** The part of `_flush` that decides how much of the pending text is sent. */
  method PickBlock(m: Machine, most: nat, before: string, pending: string, limit: int, incomplete: bool)
    returns (block: string)
    ensures block == BlockOf(m, most, before, pending, limit, incomplete)
  {
    var initial := TrailingStructure(m, before);
    var cut := MarkdownSafeCut(m, pending, limit, Some(initial));
    if cut == 0 && !incomplete {
      if Size(pending) < most {
        return "";
      }
      cut := LastBreak(pending);
      if cut <= 0 {
        cut := CountPrefix(pending, most);
      }
    }
    block := if 0 < cut < |pending| then pending[..cut] else pending;
  }

  /** Replies of up to this many characters are not streamed. */
  const STREAM_PROBE_CHARS: nat := 112

  /** `blocks` is what has been handed out of the current generation, `replies` what has
      been sent at the end. */
  class StreamDelivery {
    const m: Machine
    const most: nat
    const blockChars: int
    var generation: nat
    var text: string
    var sent: nat
    var blocks: seq<string>
    var replies: seq<string>

    constructor (m: Machine, most: nat, blockChars: int)
      ensures Valid() && generation == 0 && text == "" && blocks == [] && replies == []
      ensures this.m == m && this.most == most && this.blockChars == blockChars
    {
      this.m, this.most, this.blockChars := m, most, blockChars;
      generation, text, sent, blocks, replies := 0, "", 0, [], [];
    }

    /** What has been handed out is the first `sent` characters of the text. */
    ghost predicate Valid()
      reads this
    {
      sent == |Flatten(blocks)| && Flatten(blocks) <= text
    }

    /** `on_snapshot`: a text that outgrows the block size is sent up to its safe cut. */
    method OnSnapshot(gen: nat, snapshot: string, delivered: bool)
      requires Valid() && text <= snapshot
      modifies this
      ensures Valid() && generation == old(generation) && replies == old(replies)
      ensures gen != generation ==> text == old(text) && blocks == old(blocks)
      ensures gen == generation ==>
                && text == snapshot
                && blocks ==
                   if |Strip(snapshot)| > STREAM_PROBE_CHARS && |Rest(snapshot, old(sent))| >= blockChars && !delivered
                   then Send(m, most, old(blocks), Attempt(snapshot, blockChars, false)) else old(blocks)
    {
      if gen != generation {
        return;
      }
      text := snapshot;
      var pending := Rest(snapshot, sent);
      if pending == "" {
        return;
      }
      if |Strip(snapshot)| <= STREAM_PROBE_CHARS {
        return;
      }
      if |pending| >= blockChars {
        Flush(true, false, delivered);
      }
    }

    /** `_flush`: at most one block, the one `BlockOf` says. */
    method Flush(allowPartial: bool, incomplete: bool, delivered: bool)
      requires Valid()
      modifies this
      ensures Valid() && text == old(text) && generation == old(generation) && replies == old(replies)
      ensures var pending := Rest(text, old(sent));
              blocks ==
                if delivered || (!allowPartial && StartsIncomplete(m, pending, Flatten(old(blocks)))) then old(blocks)
                else Send(m, most, old(blocks), Attempt(text, if allowPartial then blockChars else |pending|, incomplete))
    {
      var pending := Rest(text, sent);
      var before := text[..sent];
      assert before == Flatten(blocks);
      if pending == "" || delivered {
        return;
      }
      if !allowPartial && StartsIncomplete(m, pending, before) {
        return;
      }
      var limit := if allowPartial then blockChars else |pending|;
      var block := PickBlock(m, most, before, pending, limit, incomplete);
      SendIs(m, most, blocks, Attempt(text, limit, incomplete), before, pending, block);
      if block == "" {
        return;
      }
      sent := sent + |block|;
      blocks := blocks + [block];
    }

    /** `abort`: a stream that broke off is sent to its end. */
    method Abort(delivered: bool)
      requires Valid()
      modifies this
      ensures Valid() && text == old(text) && generation == old(generation) && replies == old(replies)
      ensures old(blocks) <= blocks && (if delivered then blocks == old(blocks) else Flatten(blocks) == text)
    {
      while !delivered && sent < |text|
        invariant Valid() && text == old(text) && generation == old(generation) && replies == old(replies)
        invariant old(blocks) <= blocks && (delivered ==> blocks == old(blocks))
        decreases |text| - sent
      {
        SendExtends(m, most, blocks, Attempt(text, blockChars, true));
        Flush(true, true, delivered);
      }
    }

    /** `on_reset`: a new generation starts from nothing. */
    method OnReset(gen: nat)
      modifies this
      ensures Valid() && generation == gen && text == "" && blocks == [] && replies == old(replies)
    {
      generation, text, sent, blocks := gen, "", 0, [];
    }

    /** `finish`: what has not been sent of the reply is sent as one. */
    method Finish(response: string, delivered: bool)
      requires Valid()
      modifies this
      ensures blocks == old(blocks) && generation == old(generation)
      ensures delivered ==> replies == old(replies)
      ensures !delivered && old(text) <= response ==>
                && old(replies) <= replies && |replies| <= |old(replies)| + 1
                && Flatten(blocks) + Flatten(replies[|old(replies)|..]) == response
    {
      if delivered {
        return;
      }
      text := response;
      var remaining := Rest(response, sent);
      if remaining != "" {
        replies := replies + [remaining];
        assert Flatten([remaining]) == remaining + Flatten<char>([]);
      }
      sent := |response|;
    }
  }
}
