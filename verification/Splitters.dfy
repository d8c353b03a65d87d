/**
 * The two event-stream splitters side by side: on every text with at most one data line per event,
 * exactly when they read the same payloads.
 */
module Splitters {
  import opened Core
  import opened Scan
  import opened Sse

  // ----- the lines of a text, with their endings -----

  function RawLines(text: string): seq<string>
    decreases |text|
  {
    if text == "" then [] else [RawLine(text)] + RawLines(RestOf(text))
  }

  /** What the replay splitter keeps of a line: a newline goes, and with it one carriage return. */
  function Kept(raw: string): string {
    if raw != "" && raw[|raw| - 1] == '\n' then StripCr(raw[..|raw| - 1]) else raw
  }

  /** A newline can only end a line. */
  predicate OneLine(raw: string) {
    raw != "" && forall j :: 0 <= j < |raw| - 1 ==> raw[j] != '\n'
  }

  lemma RawLineIsOne(text: string)
    requires text != ""
    ensures OneLine(RawLine(text)) && Kept(RawLine(text)) == LineOf(text)
  {
    FindMeans(text, '\n');
    var nl := Find(text, '\n');
    if nl < |text| {
      assert RawLine(text)[..nl] == text[..nl];
    }
  }

  lemma {:induction false} LinesAreKept(text: string)
    ensures |Lines(text)| == |RawLines(text)|
    ensures forall i :: 0 <= i < |Lines(text)| ==> OneLine(RawLines(text)[i]) && Lines(text)[i] == Kept(RawLines(text)[i])
    decreases |text|
  {
    if text != "" {
      RawLineIsOne(text);
      LinesAreKept(RestOf(text));
    }
  }

  // ----- what each splitter reads off one line -----

  /** The replay splitter emits the value of this line, if it stands alone in its event. */
  predicate Emits(raw: string) {
    var value := StripDataPrefix(Kept(raw));
    value.Some? && value.value != DONE
  }

  function Emitted(raw: string): seq<string> {
    if Emits(raw) then [StripDataPrefix(Kept(raw)).value] else []
  }

  /** The other splitter stops here. */
  predicate Ends(raw: string) {
    Payload(raw).Some? && Payload(raw).value == DONE
  }

  /** The one spelling both read alike: a space after the colon, no carriage return left at the end. */
  predicate Plain(raw: string) {
    "data: " <= raw && !EndsInCr(Kept(raw))
  }

  predicate EndsInCr(line: string) {
    line != "" && line[|line| - 1] == '\r'
  }

  /** Every line that carries a payload is plain and comes before the terminator. */
  predicate Alike(raws: seq<string>) {
    forall i :: 0 <= i < |raws| && Emits(raws[i]) ==>
      Plain(raws[i]) && forall j :: 0 <= j < i ==> !Ends(raws[j])
  }

  lemma {:induction false} TrimEndOf(line: string)
    ensures TrimEnd(line) <= line
    ensures '\n' !in line ==> (TrimEnd(line) == line <==> !EndsInCr(line))
  {
    if line != "" && (line[|line| - 1] == '\r' || line[|line| - 1] == '\n') {
      TrimEndOf(line[..|line| - 1]);
      assert line[|line| - 1] in line;
    }
  }

  /** The other splitter's trimming goes on where the replay splitter stopped. */
  lemma TrimKept(raw: string)
    requires OneLine(raw)
    ensures '\n' !in Kept(raw) && TrimEnd(raw) == TrimEnd(Kept(raw))
    ensures TrimEnd(raw) <= Kept(raw) <= raw
    ensures TrimEnd(raw) == Kept(raw) <==> !EndsInCr(Kept(raw))
  {
    TrimEndOf(Kept(raw));
  }

  lemma PlainReads(raw: string)
    requires OneLine(raw) && Plain(raw) && Emits(raw)
    ensures Payload(raw).Some? && [Payload(raw).value] == Emitted(raw) && !Ends(raw)
  {
    TrimKept(raw);
    var kept := Kept(raw);
    assert |kept| >= 6 by {
      assert raw[4] == ':' && raw[5] == ' ';
    }
    assert "data: " <= kept && "data:" <= kept;
    assert kept[5..][0] == ' ' && kept[5..][1..] == kept[6..];
  }

  /** A line that is not plain is skipped by the other splitter, or read differently. */
  lemma UnplainReads(raw: string)
    requires OneLine(raw) && !Plain(raw) && Payload(raw).Some?
    ensures Emits(raw) && StripDataPrefix(Kept(raw)).value != Payload(raw).value
  {
    TrimKept(raw);
    var kept, trimmed := Kept(raw), TrimEnd(raw);
    assert "data: " <= trimmed <= kept <= raw;
    assert kept[5..][0] == ' ' && kept[5..][1..] == kept[6..];
    assert |trimmed| < |kept|;
    assert kept[|kept| - 1] == '\r' && kept[6..][|kept| - 7] == '\r';
  }

  /** What the other splitter reads, the replay splitter emits in some form. */
  lemma PayloadEmits(raw: string)
    requires OneLine(raw) && Payload(raw).Some? && !Ends(raw)
    ensures Emits(raw)
  {
    if Plain(raw) {
      TrimKept(raw);
      var kept := Kept(raw);
      assert kept == TrimEnd(raw);
      assert kept[5..][0] == ' ' && kept[5..][1..] == kept[6..];
    } else {
      UnplainReads(raw);
    }
  }

  // ----- whole texts -----

  function AllEmitted(raws: seq<string>): seq<string> {
    if raws == [] then [] else Emitted(raws[0]) + AllEmitted(raws[1..])
  }

  function AllRead(raws: seq<string>): seq<string> {
    if raws == [] then []
    else
      match Payload(raws[0])
      case None => AllRead(raws[1..])
      case Some(p) => if p == DONE then [] else [p] + AllRead(raws[1..])
  }

  lemma {:induction false} PayloadsAreRead(text: string)
    ensures Payloads(text) == AllRead(RawLines(text))
    decreases |text|
  {
    if text != "" {
      PayloadsAreRead(RestOf(text));
      assert RawLines(text)[1..] == RawLines(RestOf(text));
    }
  }

  /** No two data lines share an event; `begun` says whether the current event has its own already. */
  predicate OneEach(lines: seq<string>, begun: bool) {
    if lines == [] then true
    else if lines[0] == "" then OneEach(lines[1..], false)
    else if StripDataPrefix(lines[0]).Some? then !begun && OneEach(lines[1..], true)
    else OneEach(lines[1..], begun)
  }

  lemma {:induction false} EventsAreEmitted(raws: seq<string>, lines: seq<string>, cur: Option<string>)
    requires |lines| == |raws| && forall i :: 0 <= i < |lines| ==> lines[i] == Kept(raws[i])
    requires OneEach(lines, cur.Some?)
    ensures EventsFrom(lines, cur) == Closed(cur) + AllEmitted(raws)
    decreases |lines|
  {
    if lines != [] {
      var value := StripDataPrefix(lines[0]);
      EventsAreEmitted(raws[1..], lines[1..], Continued(cur, lines[0]));
      if lines[0] == "" || value.None? {
        assert Emitted(raws[0]) == [];
        assert [] + AllEmitted(raws[1..]) == AllEmitted(raws[1..]);
      } else {
        assert Closed(Some(value.value)) == Emitted(raws[0]);
      }
    }
  }

  lemma {:induction false} ReadNoMore(raws: seq<string>)
    requires forall i :: 0 <= i < |raws| ==> OneLine(raws[i])
    ensures |AllRead(raws)| <= |AllEmitted(raws)|
  {
    if raws != [] {
      ReadNoMore(raws[1..]);
      if Payload(raws[0]).Some? && !Ends(raws[0]) {
        PayloadEmits(raws[0]);
      }
    }
  }

  lemma {:induction false} EmitNothing(raws: seq<string>)
    ensures AllEmitted(raws) == [] <==> forall i :: 0 <= i < |raws| ==> !Emits(raws[i])
  {
    if raws != [] {
      EmitNothing(raws[1..]);
      if i :| 0 <= i < |raws| && Emits(raws[i]) {
        assert i > 0 ==> Emits(raws[1..][i - 1]);
      } else {
        assert forall i :: 0 <= i < |raws[1..]| ==> !Emits(raws[1..][i]);
      }
    }
  }

  lemma AlikeNext(raws: seq<string>)
    requires raws != []
    ensures Alike(raws) <==>
            && (Emits(raws[0]) ==> Plain(raws[0]))
            && if Ends(raws[0]) then forall i :: 1 <= i < |raws| ==> !Emits(raws[i]) else Alike(raws[1..])
  {
    var rest := raws[1..];
    if Alike(raws) {
      forall i | 0 <= i < |rest| && Emits(rest[i])
        ensures !Ends(raws[0]) && Plain(rest[i]) && forall j :: 0 <= j < i ==> !Ends(rest[j])
      {
        assert Emits(raws[i + 1]);
        assert forall j :: 0 <= j < i ==> rest[j] == raws[j + 1];
      }
    } else {
      var i :| 0 <= i < |raws| && Emits(raws[i]) && !(Plain(raws[i]) && forall j :: 0 <= j < i ==> !Ends(raws[j]));
      if i > 0 {
        assert Emits(rest[i - 1]);
        assert forall j :: 1 <= j < i ==> raws[j] == rest[j - 1];
      }
    }
  }

  /** A plain line adds the same payload on both sides. */
  lemma PlainStep(raws: seq<string>)
    requires raws != [] && OneLine(raws[0]) && Emits(raws[0]) && Plain(raws[0])
    ensures !Ends(raws[0])
    ensures AllEmitted(raws) == AllRead(raws) <==> AllEmitted(raws[1..]) == AllRead(raws[1..])
  {
    PlainReads(raws[0]);
    var p := Emitted(raws[0]);
    assert AllEmitted(raws) == p + AllEmitted(raws[1..]) && AllRead(raws) == p + AllRead(raws[1..]);
    assert (p + AllEmitted(raws[1..]))[1..] == AllEmitted(raws[1..]);
    assert (p + AllRead(raws[1..]))[1..] == AllRead(raws[1..]);
  }

  lemma ChangedStep(raws: seq<string>)
    requires raws != [] && Emits(raws[0]) && Payload(raws[0]).Some? && !Ends(raws[0])
    requires StripDataPrefix(Kept(raws[0])).value != Payload(raws[0]).value
    ensures AllEmitted(raws) != AllRead(raws)
  {
    assert AllEmitted(raws)[0] == StripDataPrefix(Kept(raws[0])).value && AllRead(raws)[0] == Payload(raws[0]).value;
  }

  lemma LostStep(raws: seq<string>)
    requires raws != [] && Emits(raws[0]) && Payload(raws[0]).None?
    requires |AllRead(raws[1..])| <= |AllEmitted(raws[1..])|
    ensures AllEmitted(raws) != AllRead(raws)
  {
    assert |AllEmitted(raws)| == 1 + |AllEmitted(raws[1..])|;
  }

  /** A payload on a line that is not plain is lost, or changed. */
  lemma UnplainStep(raws: seq<string>)
    requires raws != [] && OneLine(raws[0]) && Emits(raws[0]) && !Plain(raws[0]) && !Ends(raws[0])
    requires |AllRead(raws[1..])| <= |AllEmitted(raws[1..])|
    ensures AllEmitted(raws) != AllRead(raws)
  {
    if Payload(raws[0]).Some? {
      UnplainReads(raws[0]);
      ChangedStep(raws);
    } else {
      LostStep(raws);
    }
  }

  /** A line without a payload adds nothing. */
  lemma SilentStep(raws: seq<string>)
    requires raws != [] && OneLine(raws[0]) && !Emits(raws[0]) && !Ends(raws[0])
    ensures AllEmitted(raws) == AllEmitted(raws[1..]) && AllRead(raws) == AllRead(raws[1..])
  {
    if Payload(raws[0]).Some? {
      PayloadEmits(raws[0]);
    }
  }

  lemma EndStep(raws: seq<string>)
    requires raws != [] && OneLine(raws[0]) && Ends(raws[0])
    ensures Emits(raws[0]) ==> !Plain(raws[0])
    ensures AllEmitted(raws) == AllRead(raws) <==> forall i :: 0 <= i < |raws| ==> !Emits(raws[i])
  {
    EmitNothing(raws);
    if Emits(raws[0]) && Plain(raws[0]) {
      PlainReads(raws[0]);
    }
  }

  lemma {:induction false} ReadIsEmittedExactly(raws: seq<string>)
    requires forall i :: 0 <= i < |raws| ==> OneLine(raws[i])
    ensures AllEmitted(raws) == AllRead(raws) <==> Alike(raws)
  {
    if raws != [] {
      AlikeNext(raws);
      if Ends(raws[0]) {
        EndStep(raws);
      } else {
        ReadIsEmittedExactly(raws[1..]);
        if !Emits(raws[0]) {
          SilentStep(raws);
        } else if Plain(raws[0]) {
          PlainStep(raws);
        } else {
          ReadNoMore(raws[1..]);
          UnplainStep(raws);
        }
      }
    }
  }

  /**
   * On a text whose events have at most one data line each, the two splitters read the same payloads
   * exactly if every line that carries one has the space after the colon and no carriage return left
   * over, and none comes after a line with the terminator.
   */
  lemma SplittersAgreeExactly(text: string)
    requires OneEach(Lines(text), false)
    ensures EventsFrom(Lines(text), None) == Payloads(text) <==> Alike(RawLines(text))
  {
    var raws := RawLines(text);
    LinesAreKept(text);
    PayloadsAreRead(text);
    EventsAreEmitted(raws, Lines(text), None);
    assert [] + AllEmitted(raws) == AllEmitted(raws);
    ReadIsEmittedExactly(raws);
  }

  lemma {:induction false} ReadsAreOneLine(raws: seq<string>)
    requires forall i :: 0 <= i < |raws| ==> OneLine(raws[i])
    ensures forall k :: 0 <= k < |AllRead(raws)| ==> '\n' !in AllRead(raws)[k]
  {
    if raws != [] {
      ReadsAreOneLine(raws[1..]);
      TrimKept(raws[0]);
      assert TrimEnd(raws[0]) <= Kept(raws[0]);
      assert forall j :: 0 <= j < |TrimEnd(raws[0])| ==> TrimEnd(raws[0])[j] in Kept(raws[0]);
    }
  }

  /** Whatever the text: an event joined from several lines is never what the other splitter reads. */
  lemma JoinedEventsDiffer(text: string, k: nat)
    requires k < |EventsFrom(Lines(text), None)| && '\n' in EventsFrom(Lines(text), None)[k]
    ensures EventsFrom(Lines(text), None) != Payloads(text)
  {
    LinesAreKept(text);
    PayloadsAreRead(text);
    ReadsAreOneLine(RawLines(text));
  }
}
