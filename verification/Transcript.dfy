/**
 * What the grammar of the log buys: every tool call is answered by the very next message, so a
 * finished run leaves nothing for the orphan repair of the request planner to close.
 */
module Transcript {
  import opened Core
  import opened ReactModel

  /** Steering and follow-ups are written by plugins; they are taken not to contain tool calls. */
  predicate PluginsQuiet(t: Turn) {
    t.body.Answered? ==>
      match t.body.tail
      case Final(followups) => NoCalls(followups)
      case ToolRound(_, steering) => NoCalls(steering)
  }

  predicate NoCalls(ms: seq<Message>) {
    forall i :: 0 <= i < |ms| ==> CallIds(ms[i].content) == []
  }

  predicate AsksTools(e: Event) {
    e.MessageAppended? && CallIds(e.msg.content) != []
  }

  /** `es[i]` is paid for by the next event and answered, call by call, by the one after. */
  predicate AnsweredAt(es: seq<Event>, i: nat)
    requires i < |es| && AsksTools(es[i])
  {
    && es[i].msg.role == Assistant
    && (i + 1 < |es| ==> MainUsage(es[i + 1]))
    && (i + 2 < |es| ==>
          && es[i + 2].MessageAppended?
          && es[i + 2].msg.role == Tool
          && ResultIds(es[i + 2].msg.content) == CallIds(es[i].msg.content))
  }

  /** Nothing is answered wrongly; only the end of the log may still be open. */
  predicate Paired(es: seq<Event>) {
    forall i {:trigger es[i]} :: 0 <= i < |es| && AsksTools(es[i]) ==> AnsweredAt(es, i)
  }

  /** Nothing is open. */
  predicate Closed(es: seq<Event>) {
    Paired(es) && forall i {:trigger es[i]} :: 0 <= i < |es| && AsksTools(es[i]) ==> i + 2 < |es|
  }

  lemma ClosedThenPaired(a: seq<Event>, b: seq<Event>)
    requires Closed(a) && Paired(b)
    ensures Paired(a + b)
    ensures Closed(b) ==> Closed(a + b)
  {
    var es := a + b;
    forall i | 0 <= i < |es| && AsksTools(es[i])
      ensures AnsweredAt(es, i)
      ensures Closed(b) ==> i + 2 < |es|
    {
      if i < |a| {
        assert es[i] == a[i] && es[i + 1] == a[i + 1] && es[i + 2] == a[i + 2];
        assert AnsweredAt(a, i);
      } else {
        var j := i - |a|;
        assert es[i] == b[j];
        assert AnsweredAt(b, j);
        assert j + 1 < |b| ==> es[i + 1] == b[j + 1];
        assert j + 2 < |b| ==> es[i + 2] == b[j + 2];
      }
    }
  }

  lemma PrefixPaired(es: seq<Event>, n: nat)
    requires n <= |es| && Paired(es)
    ensures Paired(es[..n])
  {
    var p := es[..n];
    forall i | 0 <= i < |p| && AsksTools(p[i]) ensures AnsweredAt(p, i) {
      assert p[i] == es[i];
      assert AnsweredAt(es, i);
    }
  }

  lemma {:induction false} CompactionsClosed(cs: seq<CompactionStep>)
    ensures Closed(RenderCompactions(cs))
    ensures forall i :: 0 <= i < |RenderCompactions(cs)| ==> !RenderCompactions(cs)[i].UsageRecorded?
  {
    if cs != [] {
      CompactionsClosed(cs[..|cs| - 1]);
      ClosedThenPaired(RenderCompactions(cs[..|cs| - 1]), RenderCompaction(cs[|cs| - 1]));
    }
  }

  lemma MessagesClosed(ms: seq<Message>)
    requires NoCalls(ms)
    ensures Closed(Messages(ms))
  {
  }

  lemma {:induction false} OnlyResults(content: seq<Content>)
    ensures |ResultIds(content)| <= |content|
    ensures |ResultIds(content)| == |content| ==> CallIds(content) == []
  {
    if content != [] {
      OnlyResults(content[1..]);
    }
  }

  lemma TurnClosed(t: Turn)
    requires TurnOk(t) && PluginsQuiet(t)
    ensures Closed(Render(t))
  {
    CompactionsClosed(t.compactions);
    var body := RenderBody(t.body);
    assert Closed(body) by {
      match t.body {
        case NoAnswer =>
        case AbortedMidStream(usage) =>
        case Answered(m, usage, Final(followups)) =>
          MessagesClosed(followups);
          var opening := [MessageAppended(m), usage];
          assert Closed(opening);
          ClosedThenPaired(opening, Messages(followups));
        case Answered(m, usage, ToolRound(results, steering)) =>
          MessagesClosed(steering);
          OnlyResults(results.content);
          var opening := [MessageAppended(m), usage, MessageAppended(results)];
          assert AnsweredAt(opening, 0);
          assert Closed(opening);
          ClosedThenPaired(opening, Messages(steering));
      }
    }
    ClosedThenPaired(RenderCompactions(t.compactions), body);
  }

  lemma {:induction false} RoundsClosed(ts: seq<Turn>)
    requires forall i :: 0 <= i < |ts| ==> TurnOk(ts[i]) && PluginsQuiet(ts[i])
    ensures Closed(RenderAll(ts))
  {
    if ts != [] {
      RoundsClosed(ts[..|ts| - 1]);
      TurnClosed(ts[|ts| - 1]);
      ClosedThenPaired(RenderAll(ts[..|ts| - 1]), Render(ts[|ts| - 1]));
    }
  }

  /** The turn's answer asks for tools, is committed, and its results are not. */
  predicate LeftOpen(t: Turn, done: nat) {
    && t.body.Answered? && t.body.tail.ToolRound?
    && |RenderCompactions(t.compactions)| < done <= |RenderCompactions(t.compactions)| + 2
  }

  /** Only the answer of a tool round asks for tools. */
  lemma QuietElsewhere(t: Turn, i: nat)
    requires TurnOk(t) && PluginsQuiet(t) && i < |Render(t)|
    requires t.body.Answered? && t.body.tail.ToolRound? ==> i != |RenderCompactions(t.compactions)|
    ensures !AsksTools(Render(t)[i])
  {
    var before, body := RenderCompactions(t.compactions), RenderBody(t.body);
    if i < |before| {
      NoMessages(t.compactions);
      assert Render(t)[i] == before[i];
    } else {
      var k := i - |before|;
      assert Render(t)[i] == body[k];
      match t.body {
        case AbortedMidStream(_) =>
        case Answered(m, usage, Final(followups)) =>
          if k >= 2 {
            assert body[k] == MessageAppended(followups[k - 2]);
          }
        case Answered(m, usage, ToolRound(results, steering)) =>
          OnlyResults(results.content);
          if k >= 3 {
            assert body[k] == MessageAppended(steering[k - 3]);
          }
      }
    }
  }

  lemma {:induction false} NoMessages(cs: seq<CompactionStep>)
    ensures forall i :: 0 <= i < |RenderCompactions(cs)| ==> !RenderCompactions(cs)[i].MessageAppended?
  {
    if cs != [] {
      NoMessages(cs[..|cs| - 1]);
    }
  }

  /** A prefix of a turn is open exactly between its answer and its results. */
  lemma TurnOpenExactly(t: Turn, done: nat)
    requires TurnOk(t) && PluginsQuiet(t) && done <= |Render(t)|
    ensures Closed(Render(t)[..done]) <==> !LeftOpen(t, done)
  {
    TurnClosed(t);
    PrefixPaired(Render(t), done);
    var p := Render(t)[..done];
    if LeftOpen(t, done) {
      var i := |RenderCompactions(t.compactions)|;
      assert p[i] == Render(t)[i] == RenderBody(t.body)[0] == MessageAppended(t.body.assistant);
      assert AsksTools(p[i]);
    } else {
      var answer := |RenderCompactions(t.compactions)|;
      forall i | 0 <= i < |p| && AsksTools(p[i]) ensures i + 2 < |p| {
        assert p[i] == Render(t)[i];
        if !(t.body.Answered? && t.body.tail.ToolRound? && i == answer) {
          QuietElsewhere(t, i);
        }
      }
    }
  }

  lemma ClosedExactly(a: seq<Event>, b: seq<Event>)
    requires Closed(a) && Paired(b)
    ensures Closed(a + b) <==> Closed(b)
  {
    ClosedThenPaired(a, b);
    if Closed(a + b) {
      forall i | 0 <= i < |b| && AsksTools(b[i]) ensures i + 2 < |b| {
        assert (a + b)[|a| + i] == b[i];
      }
    }
  }

  /**
   * The events of a run (`done` events of its last turn reached the store): no call is answered
   * wrongly, and none is open unless the run stopped between the last answer and its results, which
   * it does when the store failed there or when a panic took the tool batch along.
   */
  lemma RunLogPaired(rounds: seq<Turn>, last: Turn, done: nat)
    requires forall i :: 0 <= i < |rounds| ==> TurnOk(rounds[i]) && PluginsQuiet(rounds[i])
    requires TurnOk(last) && PluginsQuiet(last) && done <= |Render(last)|
    ensures Paired(RenderAll(rounds) + Render(last)[..done])
    ensures Closed(RenderAll(rounds) + Render(last)[..done]) <==> !LeftOpen(last, done)
  {
    RoundsClosed(rounds);
    TurnClosed(last);
    PrefixPaired(Render(last), done);
    TurnOpenExactly(last, done);
    ClosedExactly(RenderAll(rounds), Render(last)[..done]);
  }

  /** A turn that came to its end is not open; one that a panic cut off is, if it was answered. */
  lemma LeftOpenWhen(t: Turn, done: nat)
    requires TurnOk(t) && done <= |Render(t)|
    ensures done == |Render(t)| ==> !LeftOpen(t, done)
    ensures UnwoundAt(t, done) ==> (LeftOpen(t, done) <==> t.body.Answered?)
  {
    assert |Render(t)| == |RenderCompactions(t.compactions)| + |RenderBody(t.body)|;
  }

  /** The messages of a log, in order. */
  function MessagesOf(es: seq<Event>): seq<Message> {
    if es == [] then []
    else (if es[0].MessageAppended? then [es[0].msg] else []) + MessagesOf(es[1..])
  }

  /** Some call has no result anywhere among the messages. */
  predicate HasOrphan(ms: seq<Message>) {
    exists m, id :: m in ms && id in CallIds(m.content) && forall m2 :: m2 in ms ==> id !in ResultIds(m2.content)
  }

  lemma {:induction false} MessagesAre(es: seq<Event>)
    ensures forall m :: m in MessagesOf(es) <==> exists i :: 0 <= i < |es| && es[i] == MessageAppended(m)
  {
    if es != [] {
      MessagesAre(es[1..]);
      forall m ensures m in MessagesOf(es) <==> exists i :: 0 <= i < |es| && es[i] == MessageAppended(m) {
        if m in MessagesOf(es) {
          if m in MessagesOf(es[1..]) {
            var j :| 0 <= j < |es[1..]| && es[1..][j] == MessageAppended(m);
            assert es[j + 1] == MessageAppended(m);
          } else {
            assert es[0] == MessageAppended(m);
          }
        }
        if i :| 0 <= i < |es| && es[i] == MessageAppended(m) {
          if i > 0 {
            assert es[1..][i - 1] == MessageAppended(m);
          }
        }
      }
    }
  }

  /** A closed log has no orphaned tool call. */
  lemma ClosedHasNoOrphan(es: seq<Event>)
    requires Closed(es)
    ensures !HasOrphan(MessagesOf(es))
  {
    MessagesAre(es);
    var ms := MessagesOf(es);
    forall m, id | m in ms && id in CallIds(m.content)
      ensures exists m2 :: m2 in ms && id in ResultIds(m2.content)
    {
      var i :| 0 <= i < |es| && es[i] == MessageAppended(m);
      assert AnsweredAt(es, i);
      var reply := es[i + 2].msg;
      assert es[i + 2] == MessageAppended(reply);
      assert reply in ms && id in ResultIds(reply.content);
    }
  }

  function CountUsage(es: seq<Event>): nat {
    if es == [] then 0 else (if es[0].UsageRecorded? then 1 else 0) + CountUsage(es[1..])
  }

  lemma {:induction false} CountUsageConcat(a: seq<Event>, b: seq<Event>)
    ensures CountUsage(a + b) == CountUsage(a) + CountUsage(b)
  {
    if a == [] {
      assert a + b == b;
    } else {
      assert (a + b)[1..] == a[1..] + b;
      CountUsageConcat(a[1..], b);
    }
  }

  lemma {:induction false} NoUsage(es: seq<Event>)
    requires forall i :: 0 <= i < |es| ==> !es[i].UsageRecorded?
    ensures CountUsage(es) == 0
  {
    if es != [] {
      NoUsage(es[1..]);
    }
  }

  lemma TurnUsage(t: Turn)
    requires TurnOk(t)
    ensures CountUsage(Render(t)) == if t.body.NoAnswer? then 0 else 1
  {
    CompactionsClosed(t.compactions);
    NoUsage(RenderCompactions(t.compactions));
    CountUsageConcat(RenderCompactions(t.compactions), RenderBody(t.body));
    match t.body {
      case NoAnswer =>
      case AbortedMidStream(usage) =>
        assert [usage][1..] == [];
      case Answered(m, usage, tail) =>
        var rest := match tail
                    case Final(followups) => Messages(followups)
                    case ToolRound(results, steering) => [MessageAppended(results)] + Messages(steering);
        NoUsage(rest);
        var opening := [MessageAppended(m), usage];
        assert RenderBody(t.body) == opening + rest;
        CountUsageConcat(opening, rest);
        assert opening[1..] == [usage] && [usage][1..] == [];
    }
  }

  /** Every turn that went round again was charged exactly once. */
  lemma {:induction false} OneUsagePerRound(rounds: seq<Turn>)
    requires forall i :: 0 <= i < |rounds| ==> TurnOk(rounds[i]) && Continues(rounds[i])
    ensures CountUsage(RenderAll(rounds)) == |rounds|
  {
    if rounds != [] {
      var init, t := rounds[..|rounds| - 1], rounds[|rounds| - 1];
      OneUsagePerRound(init);
      TurnUsage(t);
      CountUsageConcat(RenderAll(init), Render(t));
    }
  }
}
