/** The broadcast bus: every subscriber has a bounded ring that drops its oldest event on overflow. */
module Bus {
  import opened Core

  /** A durable event carries its store-assigned sequence number; a transient one does not. */
  datatype Event = Durable(at: nat, body: string) | Transient(body: string)

  /** The last `capacity` events of a stream: what a ring that nobody reads holds after it. */
  function Newest(events: seq<Event>, capacity: nat): (r: seq<Event>)
    ensures |r| <= capacity
  {
    if |events| <= capacity then events else events[|events| - capacity..]
  }

  class Ring {
    const capacity: nat
    var buf: seq<Event>

    constructor (capacity: nat)
      ensures this.capacity == (if capacity < 1 then 1 else capacity)
      ensures buf == []
    {
      this.capacity := if capacity < 1 then 1 else capacity;
      buf := [];
    }

    ghost predicate Bounded()
      reads this
    {
      1 <= capacity && |buf| <= capacity
    }

    method Push(e: Event)
      requires Bounded()
      modifies this
      ensures Bounded() && buf == Newest(old(buf) + [e], capacity)
    {
      if |buf| == capacity {
        buf := buf[1..];
      }
      buf := buf + [e];
    }

    method TryRecv() returns (e: Option<Event>)
      modifies this
      ensures old(buf) == [] ==> e == None && buf == []
      ensures old(buf) != [] ==> e == Some(old(buf)[0]) && buf == old(buf)[1..]
    {
      if buf == [] {
        return None;
      }
      e := Some(buf[0]);
      buf := buf[1..];
    }
  }

  /** The subscribers that are still there, in subscription order. */
  function Remaining(rings: seq<Ring>, gone: set<Ring>): seq<Ring> {
    if rings == [] then []
    else
      var rest := Remaining(rings[..|rings| - 1], gone);
      var last := rings[|rings| - 1];
      if last in gone then rest else rest + [last]
  }

  lemma RemainingNext(rings: seq<Ring>, i: nat, gone: set<Ring>)
    requires i < |rings|
    ensures Remaining(rings[..i + 1], gone) ==
            if rings[i] in gone then Remaining(rings[..i], gone) else Remaining(rings[..i], gone) + [rings[i]]
  {
    assert rings[..i + 1][..i] == rings[..i];
  }

  lemma {:induction false} RemainingSound(rings: seq<Ring>, gone: set<Ring>)
    ensures forall x :: x in Remaining(rings, gone) ==> x in rings && x !in gone
    ensures forall x :: x in rings ==> x in gone || x in Remaining(rings, gone)
    ensures Distinct(rings) ==> Distinct(Remaining(rings, gone))
  {
    if rings != [] {
      var init, last := rings[..|rings| - 1], rings[|rings| - 1];
      assert rings == init + [last];
      RemainingSound(init, gone);
      if Distinct(rings) {
        assert last !in init;
        var rest := Remaining(init, gone);
        assert forall i :: 0 <= i < |rest| ==> rest[i] in rest && rest[i] != last;
      }
    }
  }

  /** What one publish makes of one subscriber's buffer. */
  function After(buf: seq<Event>, ring: Ring, e: Event, gone: set<Ring>): seq<Event> {
    if ring in gone then buf else Newest(buf + [e], ring.capacity)
  }

  class Broadcast {
    var subs: seq<Ring>
    /** Rings whose subscription was dropped; the bus only holds them weakly. */
    var gone: set<Ring>

    constructor ()
      ensures subs == [] && gone == {} && Valid()
    {
      subs, gone := [], {};
    }

    ghost predicate Valid()
      reads this, subs
    {
      Distinct(subs) && forall r :: r in subs ==> r.Bounded()
    }

    method Subscribe(capacity: nat) returns (ring: Ring)
      requires Valid()
      modifies this
      ensures Valid() && fresh(ring) && subs == old(subs) + [ring] && gone == old(gone)
      ensures ring.buf == [] && ring.capacity == if capacity < 1 then 1 else capacity
    {
      ring := new Ring(capacity);
      subs := subs + [ring];
    }

    /** Every remaining subscriber gets the event; dropped ones are pruned; no other ring changes. */
    method Publish(e: Event)
      requires Valid()
      modifies this, subs
      ensures Valid() && gone == old(gone)
      ensures subs == Remaining(old(subs), gone)
      ensures forall k :: 0 <= k < |old(subs)| ==>
                old(subs)[k].buf == After(old(subs[k].buf), old(subs[k]), e, gone)
    {
      var rings := subs;
      var kept: seq<Ring> := [];
      for i := 0 to |rings|
        invariant subs == rings && gone == old(gone) && kept == Remaining(rings[..i], gone)
        invariant forall k :: 0 <= k < |rings| ==> rings[k].Bounded()
        invariant forall k :: 0 <= k < |rings| ==>
                    rings[k].buf == if k < i then After(old(rings[k].buf), rings[k], e, gone) else old(rings[k].buf)
      {
        var ring := rings[i];
        assert forall k :: 0 <= k < |rings| && k != i ==> rings[k] != ring;
        if ring !in gone {
          ring.Push(e);
          kept := kept + [ring];
        }
        RemainingNext(rings, i, gone);
      }
      assert rings[..|rings|] == rings;
      RemainingSound(rings, gone);
      subs := kept;
    }
  }
}
