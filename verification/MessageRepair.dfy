/** The repair pass run over a chat history before every model request: tool
    answers are pulled up behind the assistant message that asked for them,
    unanswered requests and stray answers are removed. */
module MessageRepair {

  /** A history entry. `Caller` is an assistant message with a non-empty list of
      tool calls, each given by its id ("" when the call carries no usable id);
      `Answer` is a tool message ("" when it names no call). Everything else,
      including an assistant message without calls, is `Plain`. */
  datatype Message =
    | Plain(text: string)
    | Caller(calls: seq<string>, text: string)
    | Answer(callId: string, text: string)

  function Ids(calls: seq<string>): set<string> {
    set id | id in calls && id != ""
  }

  /** What one forward scan behind a caller collects: answers to the ids still
      open, everything it had to skip, and what is left of the history. */
  datatype Scan = Scan(answers: seq<Message>, skipped: seq<Message>, rest: seq<Message>, missing: set<string>)

  function ScanAnswers(ms: seq<Message>, open: set<string>): Scan
    decreases ms
  {
    if open == {} || ms == [] then
      Scan([], [], ms, open)
    else if ms[0].Answer? && ms[0].callId in open then
      var s := ScanAnswers(ms[1..], open - {ms[0].callId});
      s.(answers := [ms[0]] + s.answers)
    else
      var s := ScanAnswers(ms[1..], open);
      s.(skipped := [ms[0]] + s.skipped)
  }

  lemma {:induction false} ScanShape(ms: seq<Message>, open: set<string>)
    ensures var s := ScanAnswers(ms, open);
            && |ms| == |s.answers| + |s.skipped| + |s.rest|
            && (s.missing != {} ==> s.rest == [])
            && (s.missing == {} ==> AnswersExactly(s.answers, open))
            && multiset(ms) == multiset(s.answers) + multiset(s.skipped) + multiset(s.rest)
    decreases ms
  {
    if open != {} && ms != [] {
      assert ms == [ms[0]] + ms[1..];
      if ms[0].Answer? && ms[0].callId in open {
        var s := ScanAnswers(ms[1..], open - {ms[0].callId});
        ScanShape(ms[1..], open - {ms[0].callId});
        assert ([ms[0]] + s.answers)[1..] == s.answers;
      } else {
        ScanShape(ms[1..], open);
      }
    }
  }

  /** One repair pass. */
  function Repair(ms: seq<Message>): seq<Message>
    decreases |ms|
  {
    if ms == [] then []
    else match ms[0]
      case Plain(_) => [ms[0]] + Repair(ms[1..])
      case Answer(_, _) => Repair(ms[1..])
      case Caller(calls, _) =>
        if Ids(calls) == {} then Repair(ms[1..])
        else
          var s := ScanAnswers(ms[1..], Ids(calls));
          ScanShape(ms[1..], Ids(calls));
          if s.missing != {} then s.skipped + Repair(s.rest)
          else [ms[0]] + s.answers + s.skipped + Repair(s.rest)
  }

  /** A scan continued after `answers` and `skipped` have been collected. */
  function Before(answers: seq<Message>, skipped: seq<Message>, s: Scan): Scan {
    Scan(answers + s.answers, skipped + s.skipped, s.rest, s.missing)
  }

  lemma {:induction false} ScanSplit(
      answers: seq<Message>, skipped: seq<Message>, m: Message, tail: seq<Message>, open: set<string>)
    requires open != {}
    ensures Before(answers, skipped, ScanAnswers([m] + tail, open)) ==
            if m.Answer? && m.callId in open
            then Before(answers + [m], skipped, ScanAnswers(tail, open - {m.callId}))
            else Before(answers, skipped + [m], ScanAnswers(tail, open))
  {
    assert ([m] + tail)[1..] == tail;
    if m.Answer? && m.callId in open {
      var s := ScanAnswers(tail, open - {m.callId});
      assert answers + ([m] + s.answers) == answers + [m] + s.answers;
    } else {
      var s := ScanAnswers(tail, open);
      assert skipped + ([m] + s.skipped) == skipped + [m] + s.skipped;
    }
  }

  class History {
    var messages: seq<Message>

    constructor (messages: seq<Message>)
      ensures this.messages == messages
    {
      this.messages := messages;
    }

    /** The inner walk behind a caller standing just before index `start`. */
    method Collect(start: nat, ids: set<string>)
      returns (tools: seq<Message>, interleaved: seq<Message>, next: nat, open: set<string>)
      requires start <= |messages|
      ensures start <= next <= |messages|
      ensures Scan(tools, interleaved, messages[next..], open) == ScanAnswers(messages[start..], ids)
    {
      tools, interleaved, next, open := [], [], start, ids;
      ghost var whole := ScanAnswers(messages[start..], ids);
      while next < |messages| && open != {}
        invariant start <= next <= |messages|
        invariant Before(tools, interleaved, ScanAnswers(messages[next..], open)) == whole
      {
        var m := messages[next];
        ghost var tail := messages[next + 1..];
        assert messages[next..] == [m] + tail;
        ScanSplit(tools, interleaved, m, tail, open);
        if m.Answer? && m.callId in open {
          tools := tools + [m];
          open := open - {m.callId};
        } else {
          interleaved := interleaved + [m];
        }
        next := next + 1;
      }
    }

    /** The pass as the service runs it: one index walking the list, a result
        list, and an inner walk behind every caller; the list is then overwritten. */
    method EnsureMessagesConsistent()
      modifies this
      ensures messages == Repair(old(messages))
    {
      var result: seq<Message> := [];
      var i := 0;
      while i < |messages|
        invariant i <= |messages|
        invariant messages == old(messages)
        invariant result + Repair(messages[i..]) == Repair(messages)
      {
        var msg := messages[i];
        ghost var kept, tail := result, messages[i + 1..];
        assert messages[i..] == [msg] + tail;
        RepairSplit(msg, tail);
        if msg.Caller? {
          var ids := Ids(msg.calls);
          if ids == {} {
            i := i + 1;
          } else {
            result := result + [msg];
            var tools, interleaved, open;
            tools, interleaved, i, open := Collect(i + 1, ids);
            if open != {} {
              result := result[..|result| - 1];
              result := result + interleaved;
              Regroup(kept, interleaved, [], [], Repair(messages[i..]));
            } else {
              result := result + tools;
              result := result + interleaved;
              Regroup(kept, [msg], tools, interleaved, Repair(messages[i..]));
            }
          }
        } else {
          if msg.Plain? {
            result := result + [msg];
            Regroup(kept, [msg], [], [], Repair(tail));
          }
          i := i + 1;
        }
      }
      messages := result;
    }
  }

  /** `Repair` on a list given as head and tail. */
  lemma {:induction false} RepairSplit(m: Message, tail: seq<Message>)
    ensures Repair([m] + tail) ==
            match m
            case Plain(_) => [m] + Repair(tail)
            case Answer(_, _) => Repair(tail)
            case Caller(calls, _) =>
              if Ids(calls) == {} then Repair(tail)
              else
                var s := ScanAnswers(tail, Ids(calls));
                if s.missing != {} then s.skipped + Repair(s.rest)
                else [m] + s.answers + s.skipped + Repair(s.rest)
    ensures m.Caller? && Ids(m.calls) != {} ==>
              |ScanAnswers(tail, Ids(m.calls)).rest| <= |tail|
  {
    assert ([m] + tail)[1..] == tail;
    if m.Caller? { ScanShape(tail, Ids(m.calls)); }
  }

  lemma {:induction false} Regroup(
      kept: seq<Message>, a: seq<Message>, b: seq<Message>, c: seq<Message>, more: seq<Message>)
    ensures kept + (a + b + c + more) == kept + a + b + c + more
    ensures b == [] && c == [] ==> kept + (a + more) == kept + a + more
  {
  }

  // ---- What becomes of a message, told from the list alone ----

  predicate AnswersTo(m: Message, id: string) {
    m.Answer? && m.callId == id
  }

  /** Every id has an answer among the messages. */
  predicate Answered(ms: seq<Message>, ids: set<string>) {
    forall id :: id in ids ==> exists m :: m in ms && AnswersTo(m, id)
  }

  /** The first answer to one of the ids. */
  predicate FirstTo(ms: seq<Message>, ids: set<string>, i: nat)
    requires i < |ms|
  {
    ms[i].Answer? && ms[i].callId in ids && forall j :: 0 <= j < i ==> !AnswersTo(ms[j], ms[i].callId)
  }

  function FirstAnswers(ms: seq<Message>, ids: set<string>): seq<Message> {
    if ms == [] then []
    else FirstAnswers(ms[..|ms| - 1], ids) + if FirstTo(ms, ids, |ms| - 1) then [ms[|ms| - 1]] else []
  }

  function Others(ms: seq<Message>, ids: set<string>): seq<Message> {
    if ms == [] then []
    else Others(ms[..|ms| - 1], ids) + if FirstTo(ms, ids, |ms| - 1) then [] else [ms[|ms| - 1]]
  }

  /** The ids still open behind a message. */
  function OpenBehind(m: Message, ids: set<string>): set<string> {
    if m.Answer? && m.callId in ids then ids - {m.callId} else ids
  }

  lemma {:induction false} FirstToBehind(m: Message, tail: seq<Message>, ids: set<string>, i: nat)
    requires i < |tail|
    ensures FirstTo([m] + tail, ids, i + 1) <==> FirstTo(tail, OpenBehind(m, ids), i)
  {
    var ms := [m] + tail;
    assert ms[0] == m && ms[i + 1] == tail[i];
    assert forall j :: 0 <= j < i ==> ms[j + 1] == tail[j];
    assert forall j :: 1 <= j < i + 1 ==> ms[j] == tail[j - 1];
  }

  lemma {:induction false} FirstAnswersSplit(m: Message, tail: seq<Message>, ids: set<string>)
    ensures var taken := m.Answer? && m.callId in ids;
            && FirstAnswers([m] + tail, ids) == (if taken then [m] else []) + FirstAnswers(tail, OpenBehind(m, ids))
            && Others([m] + tail, ids) == (if taken then [] else [m]) + Others(tail, OpenBehind(m, ids))
    decreases |tail|
  {
    if tail == [] {
      assert [m] + tail == [m] && [m][..0] == [];
    } else {
      var n := |tail| - 1;
      FirstAnswersSplit(m, tail[..n], ids);
      FirstToBehind(m, tail, ids, n);
      LastOfBoth(m, tail, ids);
      LastOfOne(tail, OpenBehind(m, ids));
    }
  }

  lemma {:induction false} LastOfOne(ms: seq<Message>, ids: set<string>)
    requires ms != []
    ensures var n := |ms| - 1;
            && FirstAnswers(ms, ids) == FirstAnswers(ms[..n], ids) + (if FirstTo(ms, ids, n) then [ms[n]] else [])
            && Others(ms, ids) == Others(ms[..n], ids) + (if FirstTo(ms, ids, n) then [] else [ms[n]])
  {
  }

  lemma {:induction false} LastOfBoth(m: Message, tail: seq<Message>, ids: set<string>)
    requires tail != []
    ensures var n, ms := |tail| - 1, [m] + tail;
            && FirstAnswers(ms, ids)
               == FirstAnswers([m] + tail[..n], ids) + (if FirstTo(ms, ids, n + 1) then [tail[n]] else [])
            && Others(ms, ids) == Others([m] + tail[..n], ids) + (if FirstTo(ms, ids, n + 1) then [] else [tail[n]])
  {
    var n, ms := |tail| - 1, [m] + tail;
    assert ms[..n + 1] == [m] + tail[..n] && ms[n + 1] == tail[n];
    LastOfOne(ms, ids);
  }

  lemma {:induction false} AnsweredSplit(m: Message, tail: seq<Message>, ids: set<string>)
    ensures Answered([m] + tail, ids) <==> Answered(tail, OpenBehind(m, ids))
  {
    var ms := [m] + tail;
    assert forall x :: x in ms <==> x == m || x in tail;
    if Answered(ms, ids) {
      forall id | id in OpenBehind(m, ids) ensures exists x :: x in tail && AnswersTo(x, id) {
        var x :| x in ms && AnswersTo(x, id);
      }
    }
    if Answered(tail, OpenBehind(m, ids)) {
      forall id | id in ids ensures exists x :: x in ms && AnswersTo(x, id) {
        if id in OpenBehind(m, ids) {
          var x :| x in tail && AnswersTo(x, id);
          assert x in ms;
        } else {
          assert m in ms && AnswersTo(m, id);
        }
      }
    }
  }

  /** The scan stops right behind the last answer it needs, or goes to the end. */
  lemma {:induction false} ScanIs(ms: seq<Message>, ids: set<string>) returns (n: nat)
    ensures n <= |ms|
    ensures ScanAnswers(ms, ids).answers == FirstAnswers(ms[..n], ids)
    ensures ScanAnswers(ms, ids).skipped == Others(ms[..n], ids) && ScanAnswers(ms, ids).rest == ms[n..]
    ensures ScanAnswers(ms, ids).missing == {} <==> Answered(ms, ids)
    ensures Answered(ms, ids) ==> Answered(ms[..n], ids) && (n > 0 ==> !Answered(ms[..n - 1], ids))
    ensures !Answered(ms, ids) ==> n == |ms|
    decreases |ms|
  {
    if ids == {} || ms == [] {
      n := 0;
      assert ms[..0] == [] && ms[0..] == ms;
    } else {
      var m, tail := ms[0], ms[1..];
      assert ms == [m] + tail;
      AnsweredSplit(m, tail, ids);
      var k := ScanIs(tail, OpenBehind(m, ids));
      n := k + 1;
      ScanStep(m, tail, ids, k);
      AnsweredSplit(m, tail[..k], ids);
      if k > 0 { AnsweredSplit(m, tail[..k - 1], ids); }
    }
  }

  lemma {:induction false} ScanStep(m: Message, tail: seq<Message>, ids: set<string>, k: nat)
    requires ids != {} && k <= |tail|
    requires ScanAnswers(tail, OpenBehind(m, ids)).answers == FirstAnswers(tail[..k], OpenBehind(m, ids))
    requires ScanAnswers(tail, OpenBehind(m, ids)).skipped == Others(tail[..k], OpenBehind(m, ids))
    ensures var ms := [m] + tail;
            && ScanAnswers(ms, ids).answers == FirstAnswers(ms[..k + 1], ids)
            && ScanAnswers(ms, ids).skipped == Others(ms[..k + 1], ids)
            && ScanAnswers(ms, ids).rest == ScanAnswers(tail, OpenBehind(m, ids)).rest
            && ScanAnswers(ms, ids).missing == ScanAnswers(tail, OpenBehind(m, ids)).missing
            && ms[k + 1..] == tail[k..] && ms[..k + 1] == [m] + tail[..k]
            && (k > 0 ==> ms[..k] == [m] + tail[..k - 1])
  {
    var ms := [m] + tail;
    assert ms[1..] == tail && ms[..k + 1] == [m] + tail[..k];
    FirstAnswersSplit(m, tail[..k], ids);
  }

  lemma {:induction false} NoneAnswered(ids: set<string>)
    requires ids != {}
    ensures !Answered([], ids)
  {
    var id :| id in ids;
  }

  /** A caller whose ids are all answered behind it stays, with the first answer to each id
      pulled up behind it and everything up to the last of these put behind them; otherwise
      it goes, with the answers there are. */
  lemma {:induction false} CallerIsRepaired(c: Message, tail: seq<Message>) returns (n: nat)
    requires c.Caller? && Ids(c.calls) != {}
    ensures n <= |tail|
    ensures var ids := Ids(c.calls);
            if Answered(tail, ids) then
              && n > 0 && Answered(tail[..n], ids) && !Answered(tail[..n - 1], ids)
              && Repair([c] + tail) == [c] + FirstAnswers(tail[..n], ids) + Others(tail[..n], ids) + Repair(tail[n..])
            else Repair([c] + tail) == Others(tail, ids)
  {
    var ids := Ids(c.calls);
    RepairSplit(c, tail);
    n := ScanIs(tail, ids);
    if Answered(tail, ids) {
      NoneAnswered(ids);
      assert tail[..0] == [];
    } else {
      assert tail[..n] == tail && tail[n..] == [];
      assert Others(tail, ids) + Repair([]) == Others(tail, ids);
    }
  }

  /** Other messages stay where they are; answers nobody asked for there and callers without
      ids go. */
  lemma {:induction false} OthersAreRepaired(m: Message, tail: seq<Message>)
    requires m.Caller? ==> forall id :: id in m.calls ==> id == ""
    ensures Repair([m] + tail) == (if m.Plain? then [m] else []) + Repair(tail)
  {
    RepairSplit(m, tail);
    if m.Caller? { assert Ids(m.calls) == {}; }
  }

  // ---- What the pass is for ----

  /** The answers `ts` cover `open`, each id exactly once. */
  predicate AnswersExactly(ts: seq<Message>, open: set<string>) {
    if ts == [] then open == {}
    else ts[0].Answer? && ts[0].callId in open && AnswersExactly(ts[1..], open - {ts[0].callId})
  }

  /** Length of the unit a list starts with: a plain message, or a caller followed
      at once by one answer for each of its ids; 0 if it starts with neither. */
  function HeadUnit(ms: seq<Message>): (n: nat)
    ensures n <= |ms|
  {
    if ms == [] || ms[0].Answer? then 0
    else if ms[0].Plain? then 1
    else
      var k := |Ids(ms[0].calls)|;
      if 0 < k < |ms| && AnswersExactly(ms[1..k + 1], Ids(ms[0].calls)) then 1 + k else 0
  }

  /** Length of the longest prefix the API accepts. */
  function GoodPrefix(ms: seq<Message>): (n: nat)
    ensures n <= |ms|
    decreases |ms|
  {
    var h := HeadUnit(ms);
    if h == 0 then 0 else h + GoodPrefix(ms[h..])
  }

  predicate WellFormed(ms: seq<Message>) {
    GoodPrefix(ms) == |ms|
  }

  function Plains(ms: seq<Message>): seq<Message> {
    if ms == [] then []
    else (if ms[0].Plain? then [ms[0]] else []) + Plains(ms[1..])
  }

  lemma {:induction false} PlainsConcat(a: seq<Message>, b: seq<Message>)
    ensures Plains(a + b) == Plains(a) + Plains(b)
    decreases |a|
  {
    if a == [] {
      assert a + b == b;
    } else {
      assert (a + b)[0] == a[0] && (a + b)[1..] == a[1..] + b;
      PlainsConcat(a[1..], b);
      var head := if a[0].Plain? then [a[0]] else [];
      assert head + (Plains(a[1..]) + Plains(b)) == head + Plains(a[1..]) + Plains(b);
    }
  }

  lemma {:induction false} ScanPlains(ms: seq<Message>, open: set<string>)
    ensures var s := ScanAnswers(ms, open);
            Plains(ms) == Plains(s.skipped) + Plains(s.rest) && Plains(s.answers) == []
    decreases ms
  {
    if open != {} && ms != [] {
      if ms[0].Answer? && ms[0].callId in open {
        ScanPlains(ms[1..], open - {ms[0].callId});
      } else {
        ScanPlains(ms[1..], open);
      }
    }
  }

  /** One pass drops no message that is neither a tool answer nor a caller, and
      keeps them in order; and it invents nothing. */
  lemma {:induction false} RepairKeepsPlainMessages(ms: seq<Message>)
    ensures Plains(Repair(ms)) == Plains(ms)
    ensures multiset(Repair(ms)) <= multiset(ms)
    decreases |ms|
  {
    if ms != [] {
      assert ms == [ms[0]] + ms[1..];
      if ms[0].Caller? && Ids(ms[0].calls) != {} {
        var open := Ids(ms[0].calls);
        var s := ScanAnswers(ms[1..], open);
        ScanShape(ms[1..], open);
        ScanPlains(ms[1..], open);
        RepairKeepsPlainMessages(s.rest);
        PlainsConcat(s.skipped, Repair(s.rest));
        PlainsConcat([ms[0]] + s.answers, s.skipped);
        PlainsConcat([ms[0]] + s.answers + s.skipped, Repair(s.rest));
        assert ([ms[0]] + s.answers)[1..] == s.answers;
      } else {
        RepairKeepsPlainMessages(ms[1..]);
      }
    }
  }

  // ---- Fixed points ----

  lemma {:induction false} AnsweredScan(ts: seq<Message>, open: set<string>, more: seq<Message>)
    requires AnswersExactly(ts, open)
    ensures ScanAnswers(ts + more, open) == Scan(ts, [], more, {})
    ensures |ts| == |open|
    decreases ts
  {
    if ts == [] {
      assert ts + more == more;
    } else {
      assert (ts + more)[1..] == ts[1..] + more;
      AnsweredScan(ts[1..], open - {ts[0].callId}, more);
    }
  }

  lemma {:induction false} HeadUnitUntouched(ms: seq<Message>)
    requires HeadUnit(ms) > 0
    ensures var h := HeadUnit(ms); Repair(ms) == ms[..h] + Repair(ms[h..])
  {
    var h := HeadUnit(ms);
    assert ms == [ms[0]] + ms[1..];
    RepairSplit(ms[0], ms[1..]);
    if ms[0].Caller? {
      var ids := Ids(ms[0].calls);
      AnsweredScan(ms[1..h], ids, ms[h..]);
      assert ms[1..] == ms[1..h] + ms[h..];
      assert ms[..h] == [ms[0]] + ms[1..h];
    }
  }

  lemma {:induction false} SlicesJoin(ms: seq<Message>, h: nat, n: nat, more: seq<Message>)
    requires h <= n <= |ms|
    ensures ms[h..][n - h..] == ms[n..]
    ensures ms[..h] + (ms[h..][..n - h] + more) == ms[..n] + more
  {
  }

  /** A good prefix passes through unchanged. */
  lemma {:induction false} GoodPrefixUntouched(ms: seq<Message>)
    ensures var n := GoodPrefix(ms); Repair(ms) == ms[..n] + Repair(ms[n..])
    decreases |ms|
  {
    var n, h := GoodPrefix(ms), HeadUnit(ms);
    if h > 0 {
      HeadUnitUntouched(ms);
      GoodPrefixUntouched(ms[h..]);
      SlicesJoin(ms, h, n, Repair(ms[n..]));
    }
  }

  lemma {:induction false} AnsweredHeadUnit(c: Message, ts: seq<Message>, more: seq<Message>)
    requires c.Caller? && Ids(c.calls) != {} && AnswersExactly(ts, Ids(c.calls))
    ensures GoodPrefix([c] + ts + more) > 0
  {
    AnsweredScan(ts, Ids(c.calls), []);
    var ms := [c] + ts + more;
    assert ms[0] == c && ms[1..|ts| + 1] == ts;
    assert HeadUnit(ms) == 1 + |ts|;
  }

  /** Where the good prefix is empty, a pass shortens the list or makes the prefix grow. */
  lemma {:induction false} BadHeadImproves(ms: seq<Message>)
    requires ms != [] && GoodPrefix(ms) == 0
    ensures |Repair(ms)| < |ms| || (|Repair(ms)| == |ms| && GoodPrefix(Repair(ms)) > 0)
  {
    RepairNotLonger(ms[1..]);
    if ms[0].Caller? && Ids(ms[0].calls) != {} {
      var open := Ids(ms[0].calls);
      var s := ScanAnswers(ms[1..], open);
      ScanShape(ms[1..], open);
      RepairNotLonger(s.rest);
      if s.missing == {} {
        var more := s.skipped + Repair(s.rest);
        assert Repair(ms) == [ms[0]] + s.answers + more;
        AnsweredHeadUnit(ms[0], s.answers, more);
      }
    }
  }

  lemma {:induction false} RepairNotLonger(ms: seq<Message>)
    ensures |Repair(ms)| <= |ms|
    decreases |ms|
  {
    if ms != [] {
      if ms[0].Caller? && Ids(ms[0].calls) != {} {
        ScanShape(ms[1..], Ids(ms[0].calls));
        RepairNotLonger(ScanAnswers(ms[1..], Ids(ms[0].calls)).rest);
      } else {
        RepairNotLonger(ms[1..]);
      }
    }
  }

  /** A list's head unit is decided by its first `HeadUnit` messages. */
  lemma {:induction false} HeadUnitLocal(a: seq<Message>, b: seq<Message>)
    requires a != [] && HeadUnit(a) > 0
    ensures HeadUnit(a + b) == HeadUnit(a)
  {
    var h := HeadUnit(a);
    assert (a + b)[0] == a[0] && (a + b)[1..h] == a[1..h];
  }

  lemma {:induction false} GoodPrefixExtends(ms: seq<Message>, tail: seq<Message>)
    ensures var n := GoodPrefix(ms);
            GoodPrefix(ms[..n] + tail) == n + GoodPrefix(tail)
    decreases |ms|
  {
    var n, h := GoodPrefix(ms), HeadUnit(ms);
    var joined := ms[..n] + tail;
    if h == 0 {
      assert joined == tail;
    } else {
      assert ms[..h][1..h] == ms[1..h];
      assert HeadUnit(ms[..h]) == h;
      HeadUnitLocal(ms[..h], ms[h..][..n - h] + tail);
      assert joined == ms[..h] + (ms[h..][..n - h] + tail);
      assert joined[h..] == ms[h..][..n - h] + tail;
      GoodPrefixExtends(ms[h..], tail);
    }
  }

  lemma {:induction false} RestAfterGoodPrefix(ms: seq<Message>)
    ensures GoodPrefix(ms[GoodPrefix(ms)..]) == 0
    decreases |ms|
  {
    var h := HeadUnit(ms);
    if h == 0 {
      assert ms[0..] == ms;
    } else {
      RestAfterGoodPrefix(ms[h..]);
      assert ms[h..][GoodPrefix(ms[h..])..] == ms[GoodPrefix(ms)..];
    }
  }

  /** The lexicographic measure behind repeated repair: a pass that is not at a
      well-formed list shortens it, or keeps its length and lengthens the good prefix. */
  lemma {:induction false} PassMakesProgress(ms: seq<Message>)
    requires !WellFormed(ms)
    ensures |Repair(ms)| < |ms| || (|Repair(ms)| == |ms| && GoodPrefix(Repair(ms)) > GoodPrefix(ms))
  {
    var n := GoodPrefix(ms);
    RestAfterGoodPrefix(ms);
    GoodPrefixUntouched(ms);
    BadHeadImproves(ms[n..]);
    GoodPrefixExtends(ms, Repair(ms[n..]));
  }

  /** The fixed points of the pass are exactly the well-formed lists. */
  lemma {:induction false} FixedPointsAreWellFormed(ms: seq<Message>)
    ensures Repair(ms) == ms <==> WellFormed(ms)
  {
    if WellFormed(ms) {
      GoodPrefixUntouched(ms);
    } else {
      PassMakesProgress(ms);
    }
  }

  function Passes(ms: seq<Message>, n: nat): seq<Message>
    decreases n
  {
    if n == 0 then ms else Passes(Repair(ms), n - 1)
  }

  /** Bound on the passes a list can need. */
  function PassBound(ms: seq<Message>): nat {
    |ms| * (|ms| + 1) + (|ms| - GoodPrefix(ms))
  }

  lemma {:induction false} PassLowersBound(ms: seq<Message>)
    requires !WellFormed(ms)
    ensures PassBound(Repair(ms)) < PassBound(ms)
  {
    PassMakesProgress(ms);
    LongerListBound(|Repair(ms)|, |ms|);
  }

  lemma {:induction false} MulMonotone(a: nat, b: nat, c: nat)
    requires a <= b
    ensures a * c <= b * c
  {
  }

  lemma {:induction false} LongerListBound(a: nat, b: nat)
    ensures a < b ==> a * (a + 1) + a < b * (b + 1)
  {
    if a < b {
      MulMonotone(a + 1, b, b + 1);
      MulMonotone(a + 2, b + 1, a + 1);
      assert a * (a + 1) + a < (a + 2) * (a + 1);
    }
  }

  /** Repeating the pass always ends in a well-formed list, within `PassBound`
      passes, and stays there; the plain messages are all still in it, in order. */
  lemma {:induction false} RepeatedRepairSettles(ms: seq<Message>, n: nat)
    requires n >= PassBound(ms)
    ensures WellFormed(Passes(ms, n)) && Repair(Passes(ms, n)) == Passes(ms, n)
    ensures Plains(Passes(ms, n)) == Plains(ms)
    decreases n
  {
    if WellFormed(ms) {
      FixedPointsAreWellFormed(ms);
      StaysFixed(ms, n);
    } else {
      RepairKeepsPlainMessages(ms);
      PassLowersBound(ms);
      RepeatedRepairSettles(Repair(ms), n - 1);
    }
  }

  lemma {:induction false} StaysFixed(ms: seq<Message>, n: nat)
    requires Repair(ms) == ms
    ensures Passes(ms, n) == ms
  {
    if n > 0 {
      StaysFixed(ms, n - 1);
    }
  }

  // ---- When one pass is enough ----

  lemma {:induction false} WellFormedConcat(a: seq<Message>, b: seq<Message>)
    requires b == [] || !b[0].Answer? || WellFormed(a)
    ensures WellFormed(a + b) <==> WellFormed(a) && WellFormed(b)
    decreases |a|
  {
    if a == [] {
      assert a + b == b;
    } else {
      var h := HeadUnit(a);
      if h > 0 {
        HeadUnitLocal(a, b);
        assert (a + b)[h..] == a[h..] + b;
        WellFormedConcat(a[h..], b);
      } else if HeadUnit(a + b) > 0 {
        HeadStopsAtNonAnswer(a, b);
      }
    }
  }

  lemma {:induction false} HeadStopsAtNonAnswer(a: seq<Message>, b: seq<Message>)
    requires a != [] && HeadUnit(a) == 0
    requires b == [] || !b[0].Answer?
    ensures HeadUnit(a + b) == 0
  {
    if a[0].Caller? {
      var ids := Ids(a[0].calls);
      var k := |ids|;
      if k < |a| {
        assert (a + b)[1..k + 1] == a[1..k + 1];
      } else if k < |a + b| {
        var ts := (a + b)[1..k + 1];
        assert (a + b)[|a|] == b[0] && ts[|a| - 1] == (a + b)[|a|];
        if AnswersExactly(ts, ids) { AllAnswers(ts, ids); }
      }
    }
  }

  lemma {:induction false} AllAnswers(ts: seq<Message>, open: set<string>)
    requires AnswersExactly(ts, open)
    ensures forall i :: 0 <= i < |ts| ==> ts[i].Answer?
  {
    if ts != [] {
      AllAnswers(ts[1..], open - {ts[0].callId});
      forall i | 0 <= i < |ts| ensures ts[i].Answer? {
        if i > 0 { assert ts[i] == ts[1..][i - 1]; }
      }
    }
  }

  lemma {:induction false} AnsweredBlockWellFormed(c: Message, ts: seq<Message>)
    requires c.Caller? && Ids(c.calls) != {} && AnswersExactly(ts, Ids(c.calls))
    ensures WellFormed([c] + ts)
  {
    AnsweredScan(ts, Ids(c.calls), []);
    var block := [c] + ts;
    assert block[1..|ts| + 1] == ts;
    assert HeadUnit(block) == |block|;
    assert block[|block|..] == [];
  }

  /** What the walk skips must be well formed where it lands: `carry` holds the
      messages skipped by the last answered caller, which are closed off by the
      next plain message or answered caller, and only what an unanswered caller
      (always the last scan) leaves behind may still complete them. */
  predicate SkipsWellFormed(carry: seq<Message>, ms: seq<Message>)
    decreases |ms|
  {
    if ms == [] then WellFormed(carry)
    else match ms[0]
      case Plain(_) => WellFormed(carry) && SkipsWellFormed([], ms[1..])
      case Answer(_, _) => SkipsWellFormed(carry, ms[1..])
      case Caller(calls, _) =>
        if Ids(calls) == {} then SkipsWellFormed(carry, ms[1..])
        else
          var s := ScanAnswers(ms[1..], Ids(calls));
          ScanShape(ms[1..], Ids(calls));
          if s.missing != {} then WellFormed(carry + s.skipped)
          else WellFormed(carry) && SkipsWellFormed(s.skipped, s.rest)
  }

  lemma {:induction false} RepairedOnto(carry: seq<Message>, ms: seq<Message>)
    ensures WellFormed(carry + Repair(ms)) <==> SkipsWellFormed(carry, ms)
    decreases |ms|
  {
    if ms == [] {
      assert carry + Repair(ms) == carry;
    } else {
      var m, tail := ms[0], ms[1..];
      assert ms == [m] + tail;
      RepairSplit(m, tail);
      if m.Plain? {
        RepairedOnto([], tail);
        assert [] + Repair(tail) == Repair(tail);
        WellFormedConcat(carry, Repair(ms));
        assert HeadUnit(Repair(ms)) == 1 && Repair(ms)[1..] == Repair(tail);
      } else if m.Answer? || Ids(m.calls) == {} {
        RepairedOnto(carry, tail);
      } else {
        RepairedOntoCaller(carry, ms);
      }
    }
  }

  lemma {:induction false} RepairedOntoCaller(carry: seq<Message>, ms: seq<Message>)
    requires ms != [] && ms[0].Caller? && Ids(ms[0].calls) != {}
    ensures WellFormed(carry + Repair(ms)) <==> SkipsWellFormed(carry, ms)
    decreases |ms|, 0
  {
    var c, ids := ms[0], Ids(ms[0].calls);
    var s := ScanAnswers(ms[1..], ids);
    ScanShape(ms[1..], ids);
    assert ms == [c] + ms[1..];
    RepairSplit(c, ms[1..]);
    if s.missing != {} {
      NothingBehind(s.skipped, s.rest);
    } else {
      RepairedOnto(s.skipped, s.rest);
      AnsweredOnto(carry, c, s.answers, s.skipped + Repair(s.rest));
      BlockFirst([c], s.answers, s.skipped, Repair(s.rest));
    }
  }

  lemma {:induction false} NothingBehind(skipped: seq<Message>, rest: seq<Message>)
    requires rest == []
    ensures skipped + Repair(rest) == skipped
  {
    assert Repair(rest) == [];
  }

  lemma {:induction false} BlockFirst(c: seq<Message>, answers: seq<Message>, skipped: seq<Message>, rest: seq<Message>)
    ensures c + answers + skipped + rest == c + answers + (skipped + rest)
  {
  }

  /** A caller with its answers is well formed wherever it lands. */
  lemma {:induction false} AnsweredOnto(
    carry: seq<Message>, c: Message, answers: seq<Message>, more: seq<Message>)
    requires c.Caller? && Ids(c.calls) != {} && AnswersExactly(answers, Ids(c.calls))
    ensures WellFormed(carry + ([c] + answers + more)) <==> WellFormed(carry) && WellFormed(more)
  {
    var block := [c] + answers;
    AnsweredBlockWellFormed(c, answers);
    WellFormedConcat(carry, block + more);
    WellFormedConcat(block, more);
  }

  /** One pass already gives a well-formed list exactly when its scans skip only
      messages that are well formed where they land. */
  lemma {:induction false} OnePassSuffices(ms: seq<Message>)
    ensures WellFormed(Repair(ms)) <==> SkipsWellFormed([], ms)
  {
    RepairedOnto([], ms);
    assert [] + Repair(ms) == Repair(ms);
  }

  /** Only plain messages stand between each caller and its last answer; a caller
      left unanswered is followed by plain messages and its own answers only. */
  predicate OnlyPlainInterleaved(ms: seq<Message>)
    decreases |ms|
  {
    ms == [] ||
    if ms[0].Caller? && Ids(ms[0].calls) != {} then
      var s := ScanAnswers(ms[1..], Ids(ms[0].calls));
      ScanShape(ms[1..], Ids(ms[0].calls));
      (forall m :: m in s.skipped ==> m.Plain?) && OnlyPlainInterleaved(s.rest)
    else
      OnlyPlainInterleaved(ms[1..])
  }

  lemma {:induction false} PlainIsWellFormed(ms: seq<Message>)
    requires forall m :: m in ms ==> m.Plain?
    ensures WellFormed(ms)
  {
    if ms != [] {
      assert ms[0] in ms && HeadUnit(ms) == 1;
      PlainIsWellFormed(ms[1..]);
    }
  }

  lemma {:induction false} PlainSkipsWellFormed(carry: seq<Message>, ms: seq<Message>)
    requires OnlyPlainInterleaved(ms)
    requires forall m :: m in carry ==> m.Plain?
    ensures SkipsWellFormed(carry, ms)
    decreases |ms|
  {
    PlainIsWellFormed(carry);
    if ms != [] {
      if ms[0].Caller? && Ids(ms[0].calls) != {} {
        var s := ScanAnswers(ms[1..], Ids(ms[0].calls));
        ScanShape(ms[1..], Ids(ms[0].calls));
        PlainIsWellFormed(carry + s.skipped);
        PlainSkipsWellFormed(s.skipped, s.rest);
      } else {
        PlainSkipsWellFormed(if ms[0].Plain? then [] else carry, ms[1..]);
      }
    }
  }

  /** In particular one pass suffices when only plain messages were interleaved. */
  lemma {:induction false} PlainInterleavingNeedsOnePass(ms: seq<Message>)
    requires OnlyPlainInterleaved(ms)
    ensures WellFormed(Repair(ms))
  {
    PlainSkipsWellFormed([], ms);
    OnePassSuffices(ms);
  }

  /** A pass is not idempotent: two callers in a row lose their place to each
      other, and the second pass drops what the first one stranded. */
  lemma {:induction false} OnePassIsNotEnough()
    ensures exists ms: seq<Message> :: Repair(Repair(ms)) != Repair(ms)
  {
    var a, b := Caller(["a"], ""), Caller(["b"], "");
    var ta, tb := Answer("a", ""), Answer("b", "");
    assert Ids(["a"]) == {"a"} && Ids(["b"]) == {"b"};
    FirstPass(a, b, ta, tb);
    SecondPass(a, b, ta);
    assert Repair(Repair([a, b, ta, tb])) != Repair([a, b, ta, tb]);
  }

  lemma {:induction false} FirstPass(a: Message, b: Message, ta: Message, tb: Message)
    requires a.Caller? && Ids(a.calls) == {"a"} && b.Caller?
    requires ta.Answer? && ta.callId == "a" && tb.Answer?
    ensures Repair([a, b, ta, tb]) == [a, ta, b]
  {
    assert [a, b, ta, tb] == [a] + [b, ta, tb];
    assert [b, ta, tb][1..] == [ta, tb] && [ta, tb][1..] == [tb];
    assert ScanAnswers([ta, tb], {"a"}) == Scan([ta], [], [tb], {"a"} - {"a"});
    RepairSplit(a, [b, ta, tb]);
    RepairSplit(tb, []);
    assert [tb] == [tb] + [];
  }

  lemma {:induction false} SecondPass(a: Message, b: Message, ta: Message)
    requires a.Caller? && Ids(a.calls) == {"a"} && b.Caller? && Ids(b.calls) != {}
    requires ta.Answer? && ta.callId == "a"
    ensures Repair([a, ta, b]) == [a, ta]
  {
    assert [a, ta, b] == [a] + [ta, b] && [ta, b][1..] == [b] && [b] == [b] + [];
    assert ScanAnswers([ta, b], {"a"}) == Scan([ta], [], [b], {"a"} - {"a"});
    RepairSplit(a, [ta, b]);
    RepairSplit(b, []);
  }
}
