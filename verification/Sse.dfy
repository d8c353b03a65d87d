/**
 * Reading server-sent events: a reader that delivers a body in declared segments, two independent
 * splitters over it, and the encoder whose output both must decode. Bytes are modelled as characters.
 */
module Sse {
  import opened Core
  import opened Scan

  // ----- segmented reading -----

  /** Insert a start offset, keeping the list strictly increasing. */
  function Place(o: nat, starts: seq<nat>): seq<nat> {
    if starts == [] || o < starts[0] then [o] + starts
    else if o == starts[0] then starts
    else [starts[0]] + Place(o, starts[1..])
  }

  /** Offsets inside the body, together with 0, sorted and without repetition. */
  function Starts(offsets: seq<nat>, len: nat): seq<nat> {
    if offsets == [] then [0]
    else if offsets[0] < len then Place(offsets[0], Starts(offsets[1..], len))
    else Starts(offsets[1..], len)
  }

  ghost predicate Climbing(starts: seq<nat>, hi: nat) {
    && (forall i, j :: 0 <= i < j < |starts| ==> starts[i] < starts[j])
    && (forall i :: 0 <= i < |starts| ==> starts[i] <= hi)
  }

  lemma {:induction false} PlaceClimbs(o: nat, starts: seq<nat>, hi: nat)
    requires Climbing(starts, hi) && o <= hi
    ensures Climbing(Place(o, starts), hi)
    ensures starts != [] ==> Place(o, starts)[0] == if o < starts[0] then o else starts[0]
    ensures Place(o, starts) != []
  {
    if starts != [] && o > starts[0] {
      PlaceClimbs(o, starts[1..], hi);
      var rest := Place(o, starts[1..]);
      assert rest[0] > starts[0];
      assert forall i :: 0 <= i < |rest| ==> rest[0] <= rest[i];
    }
  }

  lemma {:induction false} StartsClimb(offsets: seq<nat>, len: nat)
    ensures Climbing(Starts(offsets, len), len) && Starts(offsets, len) != [] && Starts(offsets, len)[0] == 0
  {
    if offsets != [] {
      StartsClimb(offsets[1..], len);
      if offsets[0] < len {
        PlaceClimbs(offsets[0], Starts(offsets[1..], len), len);
      }
    }
  }

  datatype Segment = Segment(start: nat, end: nat)

  /** Nonempty segments, end to end, up to the end of the body. */
  ghost predicate Tiles(ranges: seq<Segment>, start: nat, len: nat) {
    if ranges == [] then start == len
    else ranges[0].start == start && start < ranges[0].end <= len && Tiles(ranges[1..], ranges[0].end, len)
  }

  lemma TilesNext(ranges: seq<Segment>, k: nat, len: nat)
    requires k < |ranges| && Tiles(ranges[k..], ranges[k].start, len)
    ensures ranges[k].start < ranges[k].end <= len
    ensures Tiles(ranges[k + 1..], if k + 1 < |ranges| then ranges[k + 1].start else len, len)
    ensures ranges[k].end == if k + 1 < |ranges| then ranges[k + 1].start else len
  {
    var tail := ranges[k + 1..];
    assert ranges[k..][0] == ranges[k] && ranges[k..][1..] == tail;
    assert tail != [] ==> tail[0] == ranges[k + 1];
  }

  class SegmentedReader {
    const body: string
    const ranges: seq<Segment>
    var seg: nat
    var consumedInSeg: nat

    ghost predicate Valid()
      reads this
    {
      && seg <= |ranges|
      && Tiles(ranges[seg..], if seg < |ranges| then ranges[seg].start else |body|, |body|)
      && (seg < |ranges| ==> ranges[seg].start + consumedInSeg < ranges[seg].end)
    }

    /** What is still to be delivered. */
    ghost function Unread(): string
      requires Valid()
      reads this
    {
      if seg == |ranges| then "" else body[ranges[seg].start + consumedInSeg..]
    }

    constructor (body: string, offsets: seq<nat>)
      ensures Valid() && Unread() == body && this.body == body
    {
      var starts := Starts(offsets, |body|);
      StartsClimb(offsets, |body|);
      var built: seq<Segment> := [];
      var i := |starts|;
      while i > 0
        invariant 0 <= i <= |starts|
        invariant Tiles(built, if i < |starts| then starts[i] else |body|, |body|)
      {
        i := i - 1;
        var e := if i + 1 < |starts| then starts[i + 1] else |body|;
        if e > starts[i] {
          built := [Segment(starts[i], e)] + built;
        }
      }
      this.body, this.ranges := body, built;
      this.seg, this.consumedInSeg := 0, 0;
      new;
      assert ranges[0..] == ranges;
      assert body[0..] == body;
    }

    /** One read: at most `max` bytes, never past the end of the current segment; empty only at the end. */
    method Read(max: nat) returns (chunk: string)
      requires Valid() && max > 0
      modifies this
      ensures Valid() && chunk + Unread() == old(Unread()) && |chunk| <= max
      ensures chunk == "" <==> old(Unread()) == ""
      ensures old(seg) < |ranges| ==> |chunk| <= ranges[old(seg)].end - (ranges[old(seg)].start + old(consumedInSeg))
    {
      if seg >= |ranges| {
        return "";
      }
      var e := ranges[seg].end;
      var cur := ranges[seg].start + consumedInSeg;
      var remaining := e - cur;
      var n := if remaining < max then remaining else max;
      TilesNext(ranges, seg, |body|);
      chunk := body[cur..cur + n];
      assert body[cur..] == chunk + body[cur + n..];
      consumedInSeg := consumedInSeg + n;
      if cur + n >= e {
        seg := seg + 1;
        consumedInSeg := 0;
      }
    }
  }

  // ----- lines -----

  /** A line that ends in a newline loses it and one carriage return; a last line without one stays as it is. */
  function LineOf(text: string): string {
    var nl := Find(text, '\n');
    if nl < |text| then StripCr(text[..nl]) else text
  }

  /** The line with its ending. */
  function RawLine(text: string): string {
    var nl := Find(text, '\n');
    if nl < |text| then text[..nl + 1] else text
  }

  function RestOf(text: string): (rest: string)
    ensures text != "" ==> |rest| < |text|
    ensures text == "" ==> rest == ""
  {
    var nl := Find(text, '\n');
    if nl < |text| then text[nl + 1..] else ""
  }

  function Lines(text: string): seq<string>
    decreases |text|
  {
    if text == "" then [] else [LineOf(text)] + Lines(RestOf(text))
  }

  /** A newline already buffered decides the line, whatever is still to come. */
  lemma BufferedLine(buf: string, unread: string, nl: nat)
    requires nl == Find(buf, '\n') && nl < |buf|
    ensures LineOf(buf + unread) == StripCr(buf[..nl]) && RawLine(buf + unread) == buf[..nl + 1]
    ensures RestOf(buf + unread) == buf[nl + 1..] + unread
  {
    FindKeeps(buf, '\n', unread);
    var text := buf + unread;
    assert Find(text, '\n') == nl && nl < |text|;
    assert text[..nl] == buf[..nl] by {
      Slices(buf, unread, nl);
    }
    assert text[..nl + 1] == buf[..nl + 1] && text[nl + 1..] == buf[nl + 1..] + unread by {
      Slices(buf, unread, nl + 1);
    }
  }

  lemma Slices(a: string, b: string, k: nat)
    requires k <= |a|
    ensures (a + b)[..k] == a[..k] && (a + b)[k..] == a[k..] + b
  {
  }

  lemma LastLine(buf: string)
    requires Find(buf, '\n') == |buf|
    ensures LineOf(buf) == buf && RawLine(buf) == buf && RestOf(buf) == ""
  {
  }

  class SseLines {
    const reader: SegmentedReader
    var buf: string
    var eof: bool

    constructor (reader: SegmentedReader)
      requires reader.Valid()
      ensures this.reader == reader && Valid() && Pending() == reader.Unread()
    {
      this.reader := reader;
      this.buf, this.eof := "", false;
      new;
      assert "" + reader.Unread() == reader.Unread();
    }

    ghost predicate Valid()
      reads this, reader
    {
      reader.Valid() && (eof ==> reader.Unread() == "")
    }

    ghost function Pending(): string
      requires Valid()
      reads this, reader
    {
      buf + reader.Unread()
    }

    method Next() returns (line: Option<string>)
      requires Valid()
      modifies this, reader
      ensures Valid() && Pending() == RestOf(old(Pending()))
      ensures line == if old(Pending()) == "" then None else Some(LineOf(old(Pending())))
      ensures Lines(old(Pending())) == if line.None? then [] else [line.value] + Lines(Pending())
    {
      while true
        invariant Valid() && Pending() == old(Pending())
        decreases |reader.Unread()|, !eof
      {
        var nl := Find(buf, '\n');
        if nl < |buf| {
          BufferedLine(buf, reader.Unread(), nl);
          var taken := buf[..nl];
          buf := buf[nl + 1..];
          return Some(StripCr(taken));
        }
        if eof {
          assert Pending() == buf;
          LastLine(buf);
          if buf == "" {
            return None;
          }
          line := Some(buf);
          buf := "";
          return;
        }
        Fill();
      }
    }

    /** One read into the buffer; an empty one is the end. */
    method Fill()
      requires Valid() && !eof
      modifies this, reader
      ensures Valid() && Pending() == old(Pending())
      ensures eof || |reader.Unread()| < |old(reader.Unread())|
      ensures |reader.Unread()| <= |old(reader.Unread())|
    {
      ghost var u := reader.Unread();
      var chunk := reader.Read(1024);
      assert buf + u == (buf + chunk) + reader.Unread();
      if chunk == "" {
        eof := true;
      } else {
        buf := buf + chunk;
      }
    }
  }

  // ----- events -----

  /** The value of a data field: the name, then at most one space, are removed. */
  function StripDataPrefix(line: string): Option<string> {
    if "data:" <= line then
      var rest := line[5..];
      Some(if rest != "" && rest[0] == ' ' then rest[1..] else rest)
    else None
  }

  function Joined(cur: Option<string>, value: string): string {
    match cur
    case None => value
    case Some(acc) => if acc == "" then value else acc + "\n" + value
  }

  const DONE := "[DONE]"

  function Closed(cur: Option<string>): seq<string> {
    if cur.None? || cur.value == DONE then [] else [cur.value]
  }

  /** Data lines of one event are joined; a blank line, or the end, closes it. */
  function EventsFrom(lines: seq<string>, cur: Option<string>): seq<string> {
    if lines == [] then Closed(cur)
    else if lines[0] == "" then Closed(cur) + EventsFrom(lines[1..], None)
    else EventsFrom(lines[1..], Continued(cur, lines[0]))
  }

  /** The event in progress after one more line. */
  function Continued(cur: Option<string>, line: string): Option<string> {
    if line == "" then None
    else
      var value := StripDataPrefix(line);
      if value.Some? then Some(Joined(cur, value.value)) else cur
  }

  lemma LineFeeds(events: seq<string>, cur: Option<string>, line: string, rest: seq<string>)
    ensures events + EventsFrom([line] + rest, cur) ==
            (if line == "" then events + Closed(cur) else events) + EventsFrom(rest, Continued(cur, line))
  {
    assert ([line] + rest)[1..] == rest;
  }

  method DataEvents(lines: SseLines) returns (events: seq<string>)
    requires lines.Valid()
    modifies lines, lines.reader
    ensures events == EventsFrom(Lines(old(lines.Pending())), None)
  {
    events := [];
    var cur: Option<string> := None;
    ghost var todo := Lines(lines.Pending());
    ghost var all := EventsFrom(todo, None);
    var line := lines.Next();
    while line.Some?
      invariant lines.Valid()
      invariant line.Some? ==> todo == [line.value] + Lines(lines.Pending())
      invariant line.None? ==> todo == []
      invariant all == events + EventsFrom(todo, cur)
      decreases |todo|
    {
      ghost var rest := Lines(lines.Pending());
      LineFeeds(events, cur, line.value, rest);
      if line.value == "" {
        events := events + Closed(cur);
      }
      cur := Continued(cur, line.value);
      todo := rest;
      line := lines.Next();
    }
    events := events + Closed(cur);
  }

  // ----- the other splitter -----

  function TrimEnd(line: string): string {
    if line != "" && (line[|line| - 1] == '\r' || line[|line| - 1] == '\n') then TrimEnd(line[..|line| - 1]) else line
  }

  /** The payload of a line, when it is a data line in the one spelling this splitter accepts. */
  function Payload(line: string): Option<string> {
    var trimmed := TrimEnd(line);
    if "data: " <= trimmed then Some(trimmed[6..]) else None
  }

  function Payloads(text: string): seq<string>
    decreases |text|
  {
    if text == "" then []
    else
      match Payload(RawLine(text))
      case None => Payloads(RestOf(text))
      case Some(p) => if p == DONE then [] else [p] + Payloads(RestOf(text))
  }

  class SseIter {
    const reader: SegmentedReader
    var buf: string

    constructor (reader: SegmentedReader)
      requires reader.Valid()
      ensures this.reader == reader && Valid() && Pending() == reader.Unread()
    {
      this.reader := reader;
      this.buf := "";
      new;
      assert "" + reader.Unread() == reader.Unread();
    }

    ghost predicate Valid()
      reads this, reader
    {
      reader.Valid()
    }

    ghost function Pending(): string
      requires Valid()
      reads this, reader
    {
      buf + reader.Unread()
    }

    /** The buffered reader's `read_line`: up to and with the newline, or what is left. */
    method ReadLine() returns (line: string)
      requires Valid()
      modifies this, reader
      ensures Valid() && Pending() == RestOf(old(Pending())) && line == RawLine(old(Pending()))
    {
      while true
        invariant Valid() && Pending() == old(Pending())
        decreases |reader.Unread()|
      {
        var nl := Find(buf, '\n');
        if nl < |buf| {
          BufferedLine(buf, reader.Unread(), nl);
          line := buf[..nl + 1];
          buf := buf[nl + 1..];
          return;
        }
        ghost var u := reader.Unread();
        var chunk := reader.Read(8192);
        assert buf + u == (buf + chunk) + reader.Unread();
        if chunk == "" {
          assert Pending() == buf;
          LastLine(buf);
          line := buf;
          buf := "";
          return;
        }
        buf := buf + chunk;
      }
    }

    /** `cancel[i]` is what the i-th check of the cancel flag sees; later checks see false. */
    method Next(cancel: seq<bool>) returns (item: Option<Result<string, string>>)
      requires Valid()
      modifies this, reader
      ensures Valid() && |Pending()| <= |old(Pending())|
      ensures cancel != [] && cancel[0] ==> item == Some(Err("cancelled")) && Pending() == old(Pending())
      ensures item.Some? && item.value.Err? ==> true in cancel
      ensures item.None? ==> Payloads(old(Pending())) == []
      ensures item.Some? && item.value.Ok? ==>
                Payloads(old(Pending())) == [item.value.value] + Payloads(Pending())
                && |Pending()| < |old(Pending())|
    {
      var checks := 0;
      while true
        invariant Valid() && Payloads(Pending()) == Payloads(old(Pending()))
        invariant |Pending()| <= |old(Pending())|
        invariant checks == 0 ==> Pending() == old(Pending())
        invariant checks > 0 && cancel != [] ==> !cancel[0]
        decreases |Pending()|
      {
        if checks < |cancel| && cancel[checks] {
          return Some(Err("cancelled"));
        }
        checks := checks + 1;
        ghost var text := Pending();
        var line := ReadLine();
        if line == "" {
          return None;
        }
        var payload := Payload(line);
        if payload.Some? {
          if payload.value == DONE {
            return None;
          }
          return Some(Ok(payload.value));
        }
      }
    }
  }

  // ----- whole bodies, however they are segmented -----

  /** The replay path: the lines, hence the events, do not depend on the declared offsets. */
  method ReplayEvents(body: string, offsets: seq<nat>) returns (events: seq<string>)
    ensures events == EventsFrom(Lines(body), None)
  {
    var reader := new SegmentedReader(body, offsets);
    var lines := new SseLines(reader);
    events := DataEvents(lines);
  }

  /** The provider path, uncancelled: take payloads until the iterator ends. */
  method Collect(iter: SseIter) returns (events: seq<string>)
    requires iter.Valid()
    modifies iter, iter.reader
    ensures events == Payloads(old(iter.Pending()))
  {
    events := [];
    ghost var left := Payloads(iter.Pending());
    ghost var all := left;
    var item := iter.Next([]);
    while item.Some?
      invariant iter.Valid() && all == events + left
      invariant item.Some? ==> item.value.Ok? && left == [item.value.value] + Payloads(iter.Pending())
      invariant item.None? ==> left == []
      decreases |left|
    {
      events := events + [item.value.value];
      left := left[1..];
      item := iter.Next([]);
    }
  }

  method ProviderEvents(body: string, offsets: seq<nat>) returns (events: seq<string>)
    ensures events == Payloads(body)
  {
    var reader := new SegmentedReader(body, offsets);
    var iter := new SseIter(reader);
    events := Collect(iter);
  }

  // ----- the encoder -----

  function Frame(payload: string): string {
    "data: " + payload + "\n\n"
  }

  function Encoded(payloads: seq<string>): string {
    if payloads == [] then Frame(DONE) else Frame(payloads[0]) + Encoded(payloads[1..])
  }

  method EncodeChunksSse(payloads: seq<string>) returns (body: string)
    ensures body == Encoded(payloads)
  {
    body := "";
    assert payloads[0..] == payloads;
    for i := 0 to |payloads|
      invariant body + Encoded(payloads[i..]) == Encoded(payloads)
    {
      assert payloads[i..][1..] == payloads[i + 1..];
      assert body + (Frame(payloads[i]) + Encoded(payloads[i + 1..])) == (body + Frame(payloads[i])) + Encoded(payloads[i + 1..]);
      body := body + Frame(payloads[i]);
    }
    body := body + Frame(DONE);
  }

  /** What serialized JSON satisfies: one line, not ending in a carriage return, and not the terminator. */
  predicate Clean(payload: string) {
    && '\n' !in payload
    && (payload != "" ==> payload[|payload| - 1] != '\r')
    && payload != DONE
  }

  lemma FrameSplits(payload: string, rest: string)
    requires '\n' !in payload
    ensures var text := Frame(payload) + rest;
            && Find(text, '\n') == 6 + |payload| && text[..6 + |payload|] == "data: " + payload
            && RestOf(text) == "\n" + rest && RestOf("\n" + rest) == rest
            && Find("\n" + rest, '\n') == 0
  {
    var text := Frame(payload) + rest;
    var line := "data: " + payload;
    assert text == line + ("\n\n" + rest);
    assert forall j :: 0 <= j < |line| ==> line[j] != '\n' by {
      assert forall j :: 6 <= j < |line| ==> line[j] == payload[j - 6] && line[j] in payload;
    }
    FindIs(text, '\n', |line|);
    assert text[|line| + 1..] == "\n" + rest;
    FindIs("\n" + rest, '\n', 0);
    assert ("\n" + rest)[1..] == rest;
  }

  lemma FrameLine(payload: string, rest: string)
    requires '\n' !in payload && (payload != "" ==> payload[|payload| - 1] != '\r')
    ensures LineOf(Frame(payload) + rest) == "data: " + payload
    ensures LineOf("\n" + rest) == ""
  {
    FrameSplits(payload, rest);
    var line := "data: " + payload;
    assert line[|line| - 1] == if payload == "" then ' ' else payload[|payload| - 1];
    assert ("\n" + rest)[..0] == "";
  }

  lemma FrameLines(payload: string, rest: string)
    requires '\n' !in payload && (payload != "" ==> payload[|payload| - 1] != '\r')
    ensures Lines(Frame(payload) + rest) == ["data: " + payload, ""] + Lines(rest)
  {
    FrameSplits(payload, rest);
    FrameLine(payload, rest);
    var line := "data: " + payload;
    assert Lines("\n" + rest) == [""] + Lines(rest);
    assert [line] + ([""] + Lines(rest)) == [line, ""] + Lines(rest);
  }

  lemma FrameEvents(payload: string, rest: seq<string>)
    ensures EventsFrom(["data: " + payload, ""] + rest, None) == Closed(Some(payload)) + EventsFrom(rest, None)
  {
    var line := "data: " + payload;
    var lines := [line, ""] + rest;
    assert line[5..] == " " + payload && (" " + payload)[1..] == payload;
    assert StripDataPrefix(line) == Some(payload);
    assert lines[1..] == [""] + rest && lines[1..][1..] == rest;
  }

  lemma FramePayload(payload: string, rest: string)
    requires '\n' !in payload && (payload != "" ==> payload[|payload| - 1] != '\r')
    ensures Payloads(Frame(payload) + rest) == if payload == DONE then [] else [payload] + Payloads(rest)
  {
    FrameSplits(payload, rest);
    var text, line := Frame(payload) + rest, "data: " + payload;
    assert RawLine(text) == line + "\n";
    assert line[|line| - 1] == if payload == "" then ' ' else payload[|payload| - 1];
    if payload != "" {
      assert payload[|payload| - 1] in payload;
    }
    assert (line + "\n")[..|line|] == line;
    assert TrimEnd(line + "\n") == line && line[6..] == payload;
    assert RawLine("\n" + rest) == "\n" && TrimEnd("\n") == "";
    assert Payloads("\n" + rest) == Payloads(rest);
  }

  /** Both splitters read back exactly the encoded payloads. */
  lemma {:induction false} DecodersAgreeOnEncoded(payloads: seq<string>)
    requires forall i :: 0 <= i < |payloads| ==> Clean(payloads[i])
    ensures EventsFrom(Lines(Encoded(payloads)), None) == payloads
    ensures Payloads(Encoded(payloads)) == payloads
  {
    if payloads == [] {
      assert Frame(DONE) + "" == Frame(DONE);
      FrameLines(DONE, "");
      FrameEvents(DONE, []);
      FramePayload(DONE, "");
    } else {
      var p, rest := payloads[0], Encoded(payloads[1..]);
      DecodersAgreeOnEncoded(payloads[1..]);
      FrameLines(p, rest);
      FrameEvents(p, Lines(rest));
      FramePayload(p, rest);
    }
  }

  /** Elsewhere they need not agree: only one of them accepts a data field without the space. */
  lemma DecodersDifferWithoutTheSpace()
    ensures EventsFrom(Lines("data:x\n\n"), None) == ["x"] && Payloads("data:x\n\n") == []
  {
    SpacelessEvents();
    SpacelessPayloads();
  }

  lemma SpacelessText()
    ensures var text := "data:x\n\n";
            Find(text, '\n') == 6 && text[..6] == "data:x" && RestOf(text) == "\n" && Find("\n", '\n') == 0
  {
    var text := "data:x\n\n";
    FindIs(text, '\n', 6);
    FindIs("\n", '\n', 0);
    assert text[7..] == "\n";
  }

  lemma SpacelessEvents()
    ensures EventsFrom(Lines("data:x\n\n"), None) == ["x"]
  {
    var line := "data:x";
    SpacelessText();
    assert Lines("\n") == [""] + Lines("");
    assert Lines("data:x\n\n") == [line] + Lines("\n");
    assert Lines("data:x\n\n") == [line, ""];
    assert line[5..] == "x" && StripDataPrefix(line) == Some("x");
    assert [line, ""][1..] == [""] && [""][1..] == [];
    assert EventsFrom([""], Some("x")) == ["x"] + EventsFrom([], None);
  }

  lemma SpacelessPayloads()
    ensures Payloads("data:x\n\n") == []
  {
    SpacelessText();
    var raw := "data:x\n";
    assert RawLine("data:x\n\n") == raw;
    assert raw[..6] == "data:x" && TrimEnd(raw) == TrimEnd("data:x") && TrimEnd("data:x") == "data:x";
    assert RawLine("\n") == "\n" && TrimEnd("\n") == "";
    assert Payloads("\n") == Payloads("");
  }
}
