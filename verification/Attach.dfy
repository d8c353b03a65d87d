/**
 * A client attaching to a running session: it subscribes, replays the stored events after its cursor,
 * then drains what its ring buffered meanwhile, while appends and publishes go on around it.
 */
module Attach {
  import opened Core
  import opened Bus

  // ----- sequence numbers -----

  /** The sequence numbers of the durable events, in order. */
  function Seqs(events: seq<Event>): seq<nat> {
    if events == [] then []
    else if events[0].Durable? then [events[0].at] + Seqs(events[1..])
    else Seqs(events[1..])
  }

  function Transients(events: seq<Event>): seq<Event> {
    if events == [] then []
    else
      var init, last := events[..|events| - 1], events[|events| - 1];
      if last.Transient? then Transients(init) + [last] else Transients(init)
  }

  lemma {:induction false} SeqsConcat(a: seq<Event>, b: seq<Event>)
    ensures Seqs(a + b) == Seqs(a) + Seqs(b)
  {
    if a == [] {
      assert a + b == b;
    } else {
      SeqsConcat(a[1..], b);
      assert (a + b)[1..] == a[1..] + b;
    }
  }

  lemma SeqsSnoc(a: seq<Event>, e: Event)
    ensures Seqs(a + [e]) == if e.Durable? then Seqs(a) + [e.at] else Seqs(a)
  {
    SeqsConcat(a, [e]);
    assert Seqs([e]) == if e.Durable? then [e.at] else [];
  }

  /** lo, lo + 1, ..., hi */
  function Range(lo: nat, hi: int): (r: seq<nat>)
    ensures |r| == if hi < lo then 0 else hi + 1 - lo
    ensures forall i :: 0 <= i < |r| ==> r[i] == lo + i
    decreases hi + 1 - lo
  {
    if hi < lo then [] else Range(lo, hi - 1) + [hi]
  }

  lemma RangeHas(lo: nat, hi: int)
    ensures forall x :: x in Range(lo, hi) <==> lo <= x <= hi
  {
    forall x | lo <= x <= hi ensures x in Range(lo, hi) {
      assert Range(lo, hi)[x - lo] == x;
    }
  }

  predicate Increasing(s: seq<nat>) {
    forall i, j :: 0 <= i < j < |s| ==> s[i] < s[j]
  }

  lemma IncreasingSnoc(s: seq<nat>, x: nat)
    ensures Increasing(s + [x]) <==> Increasing(s) && forall y :: y in s ==> y < x
  {
    var t := s + [x];
    assert t[|s|] == x && forall i :: 0 <= i < |s| ==> t[i] == s[i];
    if Increasing(t) {
      forall i, j | 0 <= i < j < |s| ensures s[i] < s[j] {
        assert t[i] < t[j];
      }
      assert Increasing(s);
      forall y | y in s ensures y < x {
        var i :| 0 <= i < |s| && s[i] == y;
        assert t[i] < t[|s|];
      }
    } else if Increasing(s) && forall y :: y in s ==> y < x {
      forall i, j | 0 <= i < j < |t| ensures t[i] < t[j] {
        assert t[i] in s;
      }
      assert false;
    }
  }

  lemma DistinctSnoc(s: seq<nat>, x: nat)
    requires Distinct(s + [x])
    ensures Distinct(s) && x !in s
  {
    var t := s + [x];
    assert t[|s|] == x && forall i :: 0 <= i < |s| ==> t[i] == s[i];
  }

  // ----- what the prelude does with the events it drains -----

  /** The state of the drain: frames forwarded, highest gapless sequence number, hole flag. */
  datatype Drained = Drained(frames: seq<Event>, contiguous: nat, gap: bool)

  function Drain(head: nat, events: seq<Event>): Drained {
    if events == [] then Drained([], head, false)
    else Forward(head, Drain(head, events[..|events| - 1]), events[|events| - 1])
  }

  function Forward(head: nat, before: Drained, e: Event): Drained {
    match e
    case Transient(_) => before.(frames := before.frames + [e])
    case Durable(at, _) =>
      if at <= head then before
      else
        Drained(before.frames + [e],
                if at == before.contiguous + 1 then at else before.contiguous,
                before.gap || at > before.contiguous + 1)
  }

  lemma DrainSnoc(head: nat, events: seq<Event>, e: Event)
    ensures Drain(head, events + [e]) == Forward(head, Drain(head, events), e)
  {
    assert (events + [e])[..|events|] == events;
  }

  /** Transient events are never held back. */
  lemma {:induction false} DrainForwardsTransients(head: nat, events: seq<Event>)
    ensures Transients(Drain(head, events).frames) == Transients(events)
  {
    if events != [] {
      var init, e := events[..|events| - 1], events[|events| - 1];
      DrainForwardsTransients(head, init);
      var before := Drain(head, init);
      assert (before.frames + [e])[..|before.frames|] == before.frames;
    }
  }

  function Above(head: nat, s: seq<nat>): (r: seq<nat>)
    ensures forall x :: x in r <==> x in s && x > head
  {
    if s == [] then []
    else
      var init, x := s[..|s| - 1], s[|s| - 1];
      assert s == init + [x];
      if x > head then Above(head, init) + [x] else Above(head, init)
  }

  /** The events above the watermark all go through in order, and no other durable event does. */
  lemma {:induction false} DrainForwards(head: nat, events: seq<Event>)
    ensures Seqs(Drain(head, events).frames) == Above(head, Seqs(events))
  {
    if events != [] {
      var init, e := events[..|events| - 1], events[|events| - 1];
      assert events == init + [e];
      SeqsSnoc(init, e);
      DrainForwards(head, init);
      SeqsSnoc(Drain(head, init).frames, e);
      if e.Durable? {
        assert (Seqs(init) + [e.at])[..|Seqs(init)|] == Seqs(init);
      }
    }
  }

  lemma {:induction false} AboveIncreasing(head: nat, s: seq<nat>)
    requires Increasing(s)
    ensures Increasing(Above(head, s))
  {
    if s != [] {
      var init, x := s[..|s| - 1], s[|s| - 1];
      assert s == init + [x];
      IncreasingSnoc(init, x);
      AboveIncreasing(head, init);
      IncreasingSnoc(Above(head, init), x);
    }
  }

  /** What a drain amounts to: a gapless run above the watermark, then whatever came after the first hole. */
  ghost predicate RunThenRest(head: nat, forwarded: seq<nat>, contiguous: nat, gap: bool) {
    && 0 <= contiguous - head <= |forwarded|
    && forwarded[..contiguous - head] == Range(head + 1, contiguous)
    && (forall i :: contiguous - head <= i < |forwarded| ==> forwarded[i] > contiguous + 1)
    && (gap <==> |forwarded| > contiguous - head)
  }

  lemma RunNext(head: nat, forwarded: seq<nat>, contiguous: nat, gap: bool, x: nat)
    requires RunThenRest(head, forwarded, contiguous, gap)
    requires x > head && forall y :: y in forwarded ==> y < x
    ensures RunThenRest(head, forwarded + [x], if x == contiguous + 1 then x else contiguous, gap || x > contiguous + 1)
  {
    if gap {
      RestNext(head, forwarded, contiguous, x);
    } else {
      RunOn(head, forwarded, contiguous, x);
    }
  }

  lemma RestNext(head: nat, forwarded: seq<nat>, contiguous: nat, x: nat)
    requires RunThenRest(head, forwarded, contiguous, true)
    requires x > head && forall y :: y in forwarded ==> y < x
    ensures x > contiguous + 1 && RunThenRest(head, forwarded + [x], contiguous, true)
  {
    var n := contiguous - head;
    assert forwarded[n] in forwarded;
    assert (forwarded + [x])[..n] == forwarded[..n];
  }

  lemma RunOn(head: nat, forwarded: seq<nat>, contiguous: nat, x: nat)
    requires RunThenRest(head, forwarded, contiguous, false)
    requires x > head && forall y :: y in forwarded ==> y < x
    ensures x > contiguous
    ensures RunThenRest(head, forwarded + [x], if x == contiguous + 1 then x else contiguous, x > contiguous + 1)
  {
    var n := contiguous - head;
    var next := forwarded + [x];
    assert forwarded[..n] == forwarded;
    RangeHas(head + 1, contiguous);
    assert n > 0 ==> contiguous in forwarded;
    assert next[..n] == forwarded && next[..n + 1] == next;
  }

  /** Echoes drained in increasing order, with any of them missing. */
  lemma {:induction false} DrainInOrder(head: nat, events: seq<Event>)
    requires Increasing(Seqs(events))
    ensures var d := Drain(head, events);
            RunThenRest(head, Above(head, Seqs(events)), d.contiguous, d.gap)
  {
    if events != [] {
      var init, e := events[..|events| - 1], events[|events| - 1];
      assert events == init + [e];
      SeqsSnoc(init, e);
      if e.Durable? {
        var s := Seqs(init);
        IncreasingSnoc(s, e.at);
        assert (s + [e.at])[..|s|] == s;
        DrainInOrder(head, init);
        var before := Drain(head, init);
        if e.at > head {
          RunNext(head, Above(head, s), before.contiguous, before.gap, e.at);
        }
      } else {
        DrainInOrder(head, init);
      }
    }
  }

  /** The drain's flag, over sequence numbers alone. */
  ghost predicate FlagExact(head: nat, forwarded: seq<nat>, contiguous: nat, gap: bool) {
    && contiguous >= head
    && (!gap <==> forwarded == Range(head + 1, head + |forwarded|))
    && (!gap ==> contiguous == head + |forwarded|)
  }

  lemma FlagNext(head: nat, forwarded: seq<nat>, contiguous: nat, gap: bool, x: nat)
    requires FlagExact(head, forwarded, contiguous, gap)
    requires x > head && x !in forwarded
    ensures FlagExact(head, forwarded + [x], if x == contiguous + 1 then x else contiguous, gap || x > contiguous + 1)
  {
    var n := |forwarded|;
    var next := forwarded + [x];
    RangeHas(head + 1, head + n);
    assert Range(head + 1, head + n + 1) == Range(head + 1, head + n) + [head + n + 1];
    assert next[..n] == forwarded && next[n] == x;
  }

  /**
   * Without any assumption on the order: when no echo comes twice, the flag stays down exactly when
   * the echoes above the watermark are the next sequence numbers, in order.
   */
  lemma {:induction false} GapExactly(head: nat, events: seq<Event>)
    requires Distinct(Seqs(events))
    ensures var d := Drain(head, events);
            FlagExact(head, Above(head, Seqs(events)), d.contiguous, d.gap)
  {
    if events != [] {
      var init, e := events[..|events| - 1], events[|events| - 1];
      assert events == init + [e];
      SeqsSnoc(init, e);
      if e.Durable? {
        var s := Seqs(init);
        DistinctSnoc(s, e.at);
        assert (s + [e.at])[..|s|] == s;
        GapExactly(head, init);
        var before := Drain(head, init);
        if e.at > head {
          FlagNext(head, Above(head, s), before.contiguous, before.gap, e.at);
        }
      } else {
        GapExactly(head, init);
      }
    }
  }

  /**
   * An append releases the store's connection before its echo is published, so two appenders can
   * publish in the other order. Nothing is lost then, but the hole flag goes up and the frames are
   * out of order.
   */
  lemma SwappedEchoesFlagAGap()
    ensures var d := Drain(4, [Durable(6, "b"), Durable(5, "a")]);
            d.gap && d.contiguous == 5 && Seqs(d.frames) == [6, 5]
  {
    var one := Durable(6, "b");
    DrainSnoc(4, [], one);
    assert [] + [one] == [one];
    DrainSnoc(4, [one], Durable(5, "a"));
    assert [one] + [Durable(5, "a")] == [one, Durable(5, "a")];
    SeqsSnoc([one], Durable(5, "a"));
  }

  // ----- one subscriber's session -----

  /**
   * Every echo after `since` up to `through` left the ring exactly once: it was handed to the
   * subscriber, or evicted.
   */
  ghost predicate Accounted(since: nat, through: nat, evicted: set<nat>, taken: seq<nat>) {
    && (forall x :: since < x <= through <==> x in evicted || x in taken)
    && (forall x :: x in evicted ==> x !in taken)
    && Increasing(taken)
  }

  lemma AccountNext(since: nat, through: nat, evicted: set<nat>, taken: seq<nat>)
    requires since <= through && Accounted(since, through, evicted, taken)
    ensures Accounted(since, through + 1, evicted + {through + 1}, taken)
    ensures Accounted(since, through + 1, evicted, taken + [through + 1])
  {
    var t := taken + [through + 1];
    IncreasingSnoc(taken, through + 1);
    assert through + 1 !in taken && through + 1 !in evicted;
    forall x ensures x in t <==> x in taken || x == through + 1 {
      if x == through + 1 {
        assert t[|taken|] == x;
      }
    }
  }

  /** The ring holds the echoes lo + 1 .. hi among transient events. */
  lemma PushSeqs(buf: seq<Event>, capacity: nat, e: Event, lo: nat, hi: nat)
    requires 1 <= capacity && |buf| <= capacity && lo <= hi
    requires Seqs(buf) == Range(lo + 1, hi)
    requires e.Durable? ==> e.at == hi + 1
    ensures |buf| == capacity && buf[0].Durable? ==> lo < hi && buf[0].at == lo + 1
    ensures Seqs(Newest(buf + [e], capacity)) ==
            Range(if |buf| == capacity && buf[0].Durable? then lo + 2 else lo + 1,
                  if e.Durable? then hi + 1 else hi)
  {
    var kept := buf;
    var first := lo + 1;
    if |buf| == capacity {
      PopSeqs(buf, lo, hi);
      kept := buf[1..];
      first := if buf[0].Durable? then lo + 2 else lo + 1;
    }
    assert Newest(buf + [e], capacity) == kept + [e];
    assert Seqs(kept) == Range(first, hi) && first <= hi + 1;
    SeqsSnoc(kept, e);
  }

  lemma PopSeqs(buf: seq<Event>, lo: nat, hi: nat)
    requires buf != [] && lo <= hi && Seqs(buf) == Range(lo + 1, hi)
    ensures buf[0].Durable? ==> lo < hi && buf[0].at == lo + 1 && Seqs(buf[1..]) == Range(lo + 2, hi)
    ensures buf[0].Transient? ==> Seqs(buf[1..]) == Range(lo + 1, hi)
  {
    if buf[0].Durable? {
      assert Seqs(buf) == [buf[0].at] + Seqs(buf[1..]);
      assert Seqs(buf)[0] == buf[0].at;
      assert Seqs(buf[1..]) == Seqs(buf)[1..];
    }
  }

  /** What other threads do between two steps of the attach. */
  datatype Step =
    | Commit(body: string)
    | Echo
    | Note(body: string)

  /** Ring, log and echo accounting fit together. */
  ghost predicate Consistent(log: seq<string>, published: nat, buf: seq<Event>, since: nat, through: nat,
                             evicted: set<nat>, drained: seq<Event>) {
    && published < |log| && since <= through <= published
    && Seqs(buf) == Range(through + 1, published)
    && Faithful(log, buf) && Faithful(log, drained)
    && Accounted(since, through, evicted, Seqs(drained))
  }

  /** Durable events show the stored body. */
  ghost predicate Faithful(log: seq<string>, events: seq<Event>) {
    forall i :: 0 <= i < |events| && events[i].Durable? ==> events[i].at < |log| && events[i].body == log[events[i].at]
  }

  lemma FaithfulNewest(log: seq<string>, buf: seq<Event>, e: Event, capacity: nat)
    requires Faithful(log, buf) && Faithful(log, [e])
    ensures Faithful(log, Newest(buf + [e], capacity))
  {
    var all := buf + [e];
    assert [e][0] == e;
    assert Faithful(log, all);
    if |all| > capacity {
      FaithfulSuffix(log, all, |all| - capacity);
    }
  }

  lemma FaithfulSuffix(log: seq<string>, events: seq<Event>, n: nat)
    requires n <= |events| && Faithful(log, events)
    ensures Faithful(log, events[n..])
  {
  }

  lemma PublishKeeps(log: seq<string>, published: nat, buf: seq<Event>, since: nat, through: nat,
                     evicted: set<nat>, drained: seq<Event>, capacity: nat, e: Event)
    requires Consistent(log, published, buf, since, through, evicted, drained)
    requires 1 <= capacity && |buf| <= capacity
    requires e.Durable? ==> e.at == published + 1
    requires Faithful(log, [e])
    ensures !Evicts(buf, capacity) ==>
              Consistent(log, Latest(published, e), Newest(buf + [e], capacity), since, through, evicted, drained)
    ensures Evicts(buf, capacity) ==>
              Consistent(log, Latest(published, e), Newest(buf + [e], capacity), since, through + 1,
                         evicted + {through + 1}, drained)
  {
    PushSeqs(buf, capacity, e, through, published);
    AccountNext(since, through, evicted, Seqs(drained));
    FaithfulNewest(log, buf, e, capacity);
    assert [e][0] == e;
  }

  /** The next push drops a durable event. */
  predicate Evicts(buf: seq<Event>, capacity: nat) {
    |buf| == capacity && buf != [] && buf[0].Durable?
  }

  function Latest(published: nat, e: Event): nat {
    if e.Durable? then e.at else published
  }

  lemma TakeKeeps(log: seq<string>, published: nat, buf: seq<Event>, since: nat, through: nat,
                  evicted: set<nat>, drained: seq<Event>)
    requires Consistent(log, published, buf, since, through, evicted, drained) && buf != []
    ensures Consistent(log, published, buf[1..], since, if buf[0].Durable? then through + 1 else through,
                       evicted, drained + [buf[0]])
  {
    PopSeqs(buf, through, published);
    SeqsSnoc(drained, buf[0]);
    AccountNext(since, through, evicted, Seqs(drained));
    assert Faithful(log, buf[1..]);
    assert Faithful(log, drained + [buf[0]]);
  }

  class Session {
    /** The stored events; an event's index is its sequence number. Number 0 is the session itself, or the event that forked it. */
    var log: seq<string>
    /** Echoes are published in sequence order; this is the last one published. */
    var published: nat
    const ring: Ring
    /** The last echo published when the subscription was taken. */
    ghost var since: nat
    /** The last echo that left the ring, read or evicted. */
    ghost var through: nat
    ghost var evicted: set<nat>
    ghost var drained: seq<Event>

    /** Subscribing to a session with some history; the ring starts empty. */
    constructor (log: seq<string>, published: nat, capacity: nat)
      requires published < |log|
      ensures Valid() && fresh(ring) && this.log == log && this.published == published
      ensures since == published && evicted == {} && drained == []
    {
      this.log, this.published := log, published;
      this.ring := new Ring(capacity);
      this.since, this.through, this.evicted, this.drained := published, published, {}, [];
    }

    ghost predicate Valid()
      reads this, ring
    {
      ring.Bounded() && Consistent(log, published, ring.buf, since, through, evicted, drained)
    }

    /** A publish reaching this subscriber's ring. */
    method Deliver(e: Event)
      requires Valid()
      requires e.Durable? ==> e.at == published + 1
      requires Faithful(log, [e])
      modifies this, ring
      ensures Valid() && log == old(log) && since == old(since) && drained == old(drained)
      ensures published == Latest(old(published), e)
      ensures old(evicted) <= evicted
    {
      PublishKeeps(log, published, ring.buf, since, through, evicted, drained, ring.capacity, e);
      if Evicts(ring.buf, ring.capacity) {
        evicted := evicted + {through + 1};
        through := through + 1;
      }
      ring.Push(e);
      if e.Durable? {
        published := e.at;
      }
    }

    /** Any number of steps by other threads; an echo with nothing left to publish does nothing. */
    method Interfere(steps: seq<Step>)
      requires Valid()
      modifies this, ring
      ensures Valid() && since == old(since) && drained == old(drained)
      ensures old(log) <= log && old(published) <= published && old(evicted) <= evicted
    {
      for i := 0 to |steps|
        invariant Valid() && since == old(since) && drained == old(drained)
        invariant old(log) <= log && old(published) <= published && old(evicted) <= evicted
      {
        match steps[i] {
          case Commit(body) => log := log + [body];
          case Echo =>
            if published + 1 < |log| {
              Deliver(Durable(published + 1, log[published + 1]));
            }
          case Note(body) => Deliver(Transient(body));
        }
      }
    }

    method TryRecv() returns (e: Option<Event>)
      requires Valid()
      modifies this, ring
      ensures Valid() && log == old(log) && published == old(published) && since == old(since)
      ensures evicted == old(evicted)
      ensures e.None? ==> through == published && drained == old(drained) && ring.buf == old(ring.buf)
      ensures e.Some? ==> drained == old(drained) + [e.value] && |ring.buf| < |old(ring.buf)|
    {
      ghost var was := ring.buf;
      e := ring.TryRecv();
      if e.Some? {
        TakeKeeps(log, published, was, since, through, evicted, drained);
        drained := drained + [e.value];
        if e.value.Durable? {
          through := through + 1;
        }
      }
    }
  }

  // ----- the prelude -----

  datatype Frame = FromEvent(event: Event) | LivePartial(text: string)

  datatype AttachPrelude = AttachPrelude(frames: seq<Frame>, headSeq: nat, contiguousThrough: nat, gapDetected: bool)

  function EventsOf(frames: seq<Frame>): seq<Event> {
    if frames == [] then []
    else
      var rest := EventsOf(frames[..|frames| - 1]);
      match frames[|frames| - 1]
      case FromEvent(e) => rest + [e]
      case LivePartial(_) => rest
  }

  lemma EventsOfSnoc(frames: seq<Frame>, f: Frame)
    ensures EventsOf(frames + [f]) == if f.FromEvent? then EventsOf(frames) + [f.event] else EventsOf(frames)
  {
    assert (frames + [f])[..|frames|] == frames;
  }

  function FramesOf(events: seq<Event>): (r: seq<Frame>)
    ensures EventsOf(r) == events
  {
    if events == [] then []
    else
      var rest := FramesOf(events[..|events| - 1]);
      var f := FromEvent(events[|events| - 1]);
      EventsOfSnoc(rest, f);
      rest + [f]
  }

  /** The stored events after a cursor: one atomic snapshot with the head it goes up to. */
  function Replay(log: seq<string>, from: nat): (r: seq<Event>)
    requires log != []
    ensures Seqs(r) == Range(from + 1, |log| - 1)
    ensures Faithful(log, r)
  {
    if |log| <= from + 1 then []
    else
      var rest := Replay(log[..|log| - 1], from);
      var e := Durable(|log| - 1, log[|log| - 1]);
      SeqsSnoc(rest, e);
      rest + [e]
  }

  /** The frames before the drain: the replay, then the message in flight, if any. */
  function Opening(log: seq<string>, from: nat, partial: Option<string>): (r: seq<Frame>)
    requires log != []
    ensures EventsOf(r) == Replay(log, from)
  {
    var replayed := FramesOf(Replay(log, from));
    if partial.None? then replayed
    else
      EventsOfSnoc(replayed, LivePartial(partial.value));
      replayed + [LivePartial(partial.value)]
  }

  /** How far the drain has come: what the frames, the reported point and the flag are after `drained`. */
  ghost predicate Follows(p: AttachPrelude, opening: seq<Frame>, drained: seq<Event>) {
    var d := Drain(p.headSeq, drained);
    && p.frames == opening + FramesOf(d.frames)
    && p.contiguousThrough == d.contiguous
    && p.gapDetected == d.gap
  }

  lemma FramesOfSnoc(events: seq<Event>, e: Event)
    ensures FramesOf(events + [e]) == FramesOf(events) + [FromEvent(e)]
  {
    assert (events + [e])[..|events|] == events;
  }

  lemma FollowsNext(p: AttachPrelude, opening: seq<Frame>, drained: seq<Event>, e: Event, next: AttachPrelude)
    requires Follows(p, opening, drained) && next.headSeq == p.headSeq
    requires e.Durable? && e.at <= p.headSeq ==> next == p
    requires e.Transient? || e.at > p.headSeq ==> next.frames == p.frames + [FromEvent(e)]
    requires e.Transient? ==> next.contiguousThrough == p.contiguousThrough && next.gapDetected == p.gapDetected
    requires e.Durable? && e.at > p.headSeq ==>
               && next.contiguousThrough == (if e.at == p.contiguousThrough + 1 then e.at else p.contiguousThrough)
               && next.gapDetected == (p.gapDetected || e.at > p.contiguousThrough + 1)
    ensures Follows(next, opening, drained + [e])
  {
    DrainSnoc(p.headSeq, drained, e);
    var sent := Drain(p.headSeq, drained).frames;
    FramesOfSnoc(sent, e);
    Regroup(opening, FramesOf(sent), [FromEvent(e)]);
  }

  /** The number just above the run is never forwarded. */
  lemma RunSkips(head: nat, forwarded: seq<nat>, contiguous: nat, gap: bool)
    requires RunThenRest(head, forwarded, contiguous, gap)
    ensures contiguous + 1 !in forwarded
    ensures !gap ==> forwarded == Range(head + 1, contiguous)
    ensures forall x :: head < x <= contiguous ==> x in forwarded
  {
    var run := contiguous - head;
    forall i | 0 <= i < run ensures forwarded[i] == head + 1 + i {
      assert forwarded[..run][i] == head + 1 + i;
    }
    forall x | head < x <= contiguous ensures x in forwarded {
      assert forwarded[x - head - 1] == x;
    }
  }

  /** The echoes above the watermark: those that were not evicted, and all of them when none was. */
  lemma EchoesAccounted(head: nat, published: nat, since: nat, evicted: set<nat>, taken: seq<nat>,
                        contiguous: nat, gap: bool)
    requires since <= head && since <= published && Accounted(since, published, evicted, taken)
    requires RunThenRest(head, Above(head, taken), contiguous, gap)
    ensures forall x :: head < x <= published ==> (x in Above(head, taken) <==> x !in evicted)
    ensures var above := Above(head, taken);
            gap <==> above != [] && above[|above| - 1] > contiguous + 1
    ensures gap ==> contiguous + 1 in evicted
    ensures (forall x :: x in evicted ==> x <= head) ==>
              !gap && contiguous == if published > head then published else head
  {
    var above, run := Above(head, taken), contiguous - head;
    RunSkips(head, above, contiguous, gap);
    if gap {
      assert above[run] in above;
      assert above[run] in taken;
    } else {
      RangeHas(head + 1, contiguous);
    }
    if run > 0 {
      assert contiguous in above;
      assert contiguous in taken;
    }
    if contiguous < published {
      assert contiguous + 1 in evicted;
    }
  }

  /** The durable frames of a prelude: the replayed ones, then the drained ones above the head. */
  ghost predicate Shows(s: seq<nat>, from: nat, p: AttachPrelude, taken: seq<nat>) {
    && s == Range(from + 1, p.headSeq) + Above(p.headSeq, taken)
    && RunThenRest(p.headSeq, Above(p.headSeq, taken), p.contiguousThrough, p.gapDetected)
  }

  lemma {:induction false} EventsOfConcat(a: seq<Frame>, b: seq<Frame>)
    ensures EventsOf(a + b) == EventsOf(a) + EventsOf(b)
  {
    if b == [] {
      assert a + b == a;
    } else {
      var init, f := b[..|b| - 1], b[|b| - 1];
      EventsOfConcat(a, init);
      EventsOfSnoc(a + init, f);
      assert a + b == (a + init) + [f] && b == init + [f];
    }
  }

  lemma PreludeEvents(snapshot: seq<string>, from: nat, partial: Option<string>, p: AttachPrelude, drained: seq<Event>)
    requires snapshot != [] && Follows(p, Opening(snapshot, from, partial), drained)
    ensures EventsOf(p.frames) == Replay(snapshot, from) + Drain(p.headSeq, drained).frames
  {
    EventsOfConcat(Opening(snapshot, from, partial), FramesOf(Drain(p.headSeq, drained).frames));
  }

  lemma PreludeShows(snapshot: seq<string>, from: nat, partial: Option<string>, p: AttachPrelude, drained: seq<Event>)
    requires snapshot != [] && p.headSeq == |snapshot| - 1
    requires Follows(p, Opening(snapshot, from, partial), drained) && Increasing(Seqs(drained))
    ensures Shows(Seqs(EventsOf(p.frames)), from, p, Seqs(drained))
  {
    PreludeEvents(snapshot, from, partial, p, drained);
    SeqsConcat(Replay(snapshot, from), Drain(p.headSeq, drained).frames);
    DrainInOrder(p.headSeq, drained);
    DrainForwards(p.headSeq, drained);
  }

  lemma GapInFrames(s: seq<nat>, from: nat, p: AttachPrelude, taken: seq<nat>, published: nat, since: nat, evicted: set<nat>)
    requires since <= p.headSeq && since <= published && Accounted(since, published, evicted, taken)
    requires Shows(s, from, p, taken)
    ensures p.gapDetected <==> s != [] && s[|s| - 1] > p.contiguousThrough + 1
    ensures p.gapDetected ==> p.contiguousThrough + 1 in evicted
    ensures forall x :: p.headSeq < x <= published ==> (x in s <==> x !in evicted)
  {
    RangeHas(from + 1, p.headSeq);
    EchoesAccounted(p.headSeq, published, since, evicted, taken, p.contiguousThrough, p.gapDetected);
    var above := Above(p.headSeq, taken);
    assert forall x :: x > p.headSeq ==> (x in s <==> x in above);
    if above == [] {
      assert s == Range(from + 1, p.headSeq);
    } else {
      assert s[|s| - 1] == above[|above| - 1];
    }
  }

  lemma HolesInFrames(s: seq<nat>, from: nat, p: AttachPrelude, taken: seq<nat>, published: nat, since: nat, evicted: set<nat>)
    requires since <= p.headSeq && since <= published && Accounted(since, published, evicted, taken)
    requires Shows(s, from, p, taken)
    ensures forall x :: from < x <= p.contiguousThrough ==> x in s
    ensures !p.gapDetected ==> s == Range(from + 1, p.headSeq) + Range(p.headSeq + 1, p.contiguousThrough)
    ensures (forall x :: x in evicted ==> x <= p.headSeq) ==>
              !p.gapDetected && p.contiguousThrough == if published > p.headSeq then published else p.headSeq
  {
    RangeHas(from + 1, p.headSeq);
    RunSkips(p.headSeq, Above(p.headSeq, taken), p.contiguousThrough, p.gapDetected);
    EchoesAccounted(p.headSeq, published, since, evicted, taken, p.contiguousThrough, p.gapDetected);
  }

  lemma IncreasingConcat(a: seq<nat>, b: seq<nat>, m: nat)
    requires Increasing(a) && Increasing(b)
    requires (forall x :: x in a ==> x <= m) && (forall x :: x in b ==> x > m)
    ensures Increasing(a + b)
  {
    var c := a + b;
    forall i, j | 0 <= i < j < |c| ensures c[i] < c[j] {
      assert i < |a| ==> c[i] in a;
      assert j >= |a| ==> c[j] in b && c[j] == b[j - |a|];
    }
  }

  /** Nothing twice, nothing out of order, and every frame shows the stored body. */
  lemma AttachInOrder(log: seq<string>, published: nat, since: nat, evicted: set<nat>, drained: seq<Event>,
                      snapshot: seq<string>, from: nat, partial: Option<string>, p: AttachPrelude)
    requires Consistent(log, published, [], since, published, evicted, drained)
    requires snapshot <= log && p.headSeq == |snapshot| - 1
    requires Follows(p, Opening(snapshot, from, partial), drained)
    ensures Increasing(Seqs(EventsOf(p.frames)))
    ensures Faithful(log, EventsOf(p.frames))
  {
    PreludeShows(snapshot, from, partial, p, drained);
    AboveIncreasing(p.headSeq, Seqs(drained));
    RangeHas(from + 1, p.headSeq);
    IncreasingConcat(Range(from + 1, p.headSeq), Above(p.headSeq, Seqs(drained)), p.headSeq);
    PreludeEvents(snapshot, from, partial, p, drained);
    SentFaithful(log, p.headSeq, drained);
  }

  /**
   * Everything after the cursor up to the reported point is delivered; without a gap, nothing else is,
   * and a drained ring that evicted nothing above the head leaves no gap and nothing behind.
   */
  lemma AttachHasNoSilentHole(log: seq<string>, published: nat, since: nat, evicted: set<nat>, drained: seq<Event>,
                              snapshot: seq<string>, from: nat, partial: Option<string>, p: AttachPrelude)
    requires Consistent(log, published, [], since, published, evicted, drained)
    requires snapshot <= log && p.headSeq == |snapshot| - 1 && since <= p.headSeq
    requires Follows(p, Opening(snapshot, from, partial), drained)
    ensures forall x :: from < x <= p.contiguousThrough ==> x in Seqs(EventsOf(p.frames))
    ensures !p.gapDetected ==>
              Seqs(EventsOf(p.frames)) == Range(from + 1, p.headSeq) + Range(p.headSeq + 1, p.contiguousThrough)
    ensures (forall x :: x in evicted ==> x <= p.headSeq) ==>
              !p.gapDetected && p.contiguousThrough == if published > p.headSeq then published else p.headSeq
  {
    PreludeShows(snapshot, from, partial, p, drained);
    HolesInFrames(Seqs(EventsOf(p.frames)), from, p, Seqs(drained), published, since, evicted);
  }

  /**
   * The gap flag means exactly that something beyond the next sequence number was delivered, and then
   * that next echo was really evicted; above the watermark exactly the evicted echoes are missing.
   */
  lemma GapMeansEviction(log: seq<string>, published: nat, since: nat, evicted: set<nat>, drained: seq<Event>,
                         snapshot: seq<string>, from: nat, partial: Option<string>, p: AttachPrelude)
    requires Consistent(log, published, [], since, published, evicted, drained)
    requires snapshot <= log && p.headSeq == |snapshot| - 1 && since <= p.headSeq
    requires Follows(p, Opening(snapshot, from, partial), drained)
    ensures var s := Seqs(EventsOf(p.frames));
            p.gapDetected <==> s != [] && s[|s| - 1] > p.contiguousThrough + 1
    ensures p.gapDetected ==> p.contiguousThrough + 1 in evicted
    ensures forall x :: p.headSeq < x <= published ==> (x in Seqs(EventsOf(p.frames)) <==> x !in evicted)
  {
    PreludeShows(snapshot, from, partial, p, drained);
    GapInFrames(Seqs(EventsOf(p.frames)), from, p, Seqs(drained), published, since, evicted);
  }

  /** Forwarding invents no event. */
  lemma {:induction false} SentFaithful(log: seq<string>, head: nat, drained: seq<Event>)
    requires Faithful(log, drained)
    ensures Faithful(log, Drain(head, drained).frames)
  {
    if drained != [] {
      var init, e := drained[..|drained| - 1], drained[|drained| - 1];
      assert Faithful(log, init);
      SentFaithful(log, head, init);
    }
  }

  /**
   * What an attach promises: durable frames in order, once, with their stored bodies; everything after
   * the cursor up to the reported point; the flag exactly when something beyond the next number was
   * delivered, which then was evicted; above the watermark exactly the evicted echoes missing; and no
   * gap, nothing left behind, when no echo above the watermark was evicted.
   */
  ghost predicate AttachOk(log: seq<string>, published: nat, evicted: set<nat>, from: nat, p: AttachPrelude) {
    var s := Seqs(EventsOf(p.frames));
    && Increasing(s) && Faithful(log, EventsOf(p.frames))
    && (forall x :: from < x <= p.contiguousThrough ==> x in s)
    && (!p.gapDetected ==> s == Range(from + 1, p.headSeq) + Range(p.headSeq + 1, p.contiguousThrough))
    && (p.gapDetected <==> s != [] && s[|s| - 1] > p.contiguousThrough + 1)
    && (p.gapDetected ==> p.contiguousThrough + 1 in evicted)
    && (forall x :: p.headSeq < x <= published ==> (x in s <==> x !in evicted))
    && ((forall x :: x in evicted ==> x <= p.headSeq) ==>
          !p.gapDetected && p.contiguousThrough == if published > p.headSeq then published else p.headSeq)
  }

  lemma PreludeOk(log: seq<string>, published: nat, buf: seq<Event>, since: nat, evicted: set<nat>, drained: seq<Event>,
                  snapshot: seq<string>, from: nat, partial: Option<string>, p: AttachPrelude)
    requires Consistent(log, published, buf, since, published, evicted, drained)
    requires snapshot <= log && p.headSeq == |snapshot| - 1 && since <= p.headSeq
    requires Follows(p, Opening(snapshot, from, partial), drained)
    ensures AttachOk(log, published, evicted, from, p)
  {
    AttachInOrder(log, published, since, evicted, drained, snapshot, from, partial, p);
    AttachHasNoSilentHole(log, published, since, evicted, drained, snapshot, from, partial, p);
    GapMeansEviction(log, published, since, evicted, drained, snapshot, from, partial, p);
  }

  /**
   * `before` is what other threads do between the subscription and the snapshot, `schedule[i]` what
   * they do before the i-th poll of the ring.
   */
  method BuildAttachPrelude(session: Session, from: nat, partial: Option<string>, before: seq<Step>,
                            schedule: seq<seq<Step>>)
    returns (p: AttachPrelude, ghost snapshot: seq<string>)
    requires session.Valid() && session.drained == [] && session.evicted == {}
    requires session.since == session.published
    modifies session, session.ring
    ensures session.Valid() && session.since == old(session.since) && session.through == session.published
    ensures old(session.log) <= snapshot <= session.log && p.headSeq == |snapshot| - 1
    ensures session.since <= p.headSeq
    ensures Follows(p, Opening(snapshot, from, partial), session.drained)
    ensures AttachOk(session.log, session.published, session.evicted, from, p)
  {
    session.Interfere(before);
    snapshot := session.log;
    var headSeq := |session.log| - 1;
    var durable := Replay(session.log, from);
    var frames := FramesOf(durable);
    if partial.Some? {
      frames := frames + [LivePartial(partial.value)];
    }
    var contiguousThrough: nat, gapDetected := headSeq, false;
    var polls, draining := 0, true;
    ghost var opening := Opening(snapshot, from, partial);
    assert frames == opening + FramesOf([]);
    while draining
      invariant session.Valid() && session.since == old(session.since) && snapshot <= session.log
      invariant 0 <= polls <= |schedule|
      invariant Follows(AttachPrelude(frames, headSeq, contiguousThrough, gapDetected), opening, session.drained)
      invariant !draining ==> session.through == session.published
      decreases |schedule| - polls, |session.ring.buf|, draining
    {
      if polls < |schedule| {
        session.Interfere(schedule[polls]);
        polls := polls + 1;
      }
      ghost var was := session.drained;
      ghost var p0 := AttachPrelude(frames, headSeq, contiguousThrough, gapDetected);
      var polled := session.TryRecv();
      if polled.None? {
        draining := false;
        continue;
      }
      var e := polled.value;
      match e {
        case Durable(at, _) =>
          if at > headSeq {
            if at == contiguousThrough + 1 {
              contiguousThrough := at;
            } else if at > contiguousThrough + 1 {
              gapDetected := true;
            }
            frames := frames + [FromEvent(e)];
          }
        case Transient(_) =>
          frames := frames + [FromEvent(e)];
      }
      FollowsNext(p0, opening, was, e, AttachPrelude(frames, headSeq, contiguousThrough, gapDetected));
    }
    p := AttachPrelude(frames, headSeq, contiguousThrough, gapDetected);
    PreludeOk(session.log, session.published, session.ring.buf, session.since, session.evicted, session.drained,
              snapshot, from, partial, p);
  }
}
