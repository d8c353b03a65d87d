/** Repairing an image whose PNG chunk stream does not end in its terminator (chunk layout: section 3.2 of RFC 2083). */
module Png {
  import opened Core

  const PNG_MAGIC: seq<Byte> := [0x89, 0x50, 0x4E, 0x47, 0x0D, 0x0A, 0x1A, 0x0A]
  const IDAT: seq<Byte> := [0x49, 0x44, 0x41, 0x54]
  const IEND: seq<Byte> := [0x49, 0x45, 0x4E, 0x44]

  /** Length 0, the type, no data, and its fixed checksum. */
  const IEND_CHUNK: seq<Byte> := [0, 0, 0, 0, 0x49, 0x45, 0x4E, 0x44, 0xAE, 0x42, 0x60, 0x82]

  const TWO32: nat := 0x1_0000_0000

  // ----- chunk streams -----

  datatype Chunk = Chunk(kind: seq<Byte>, payload: seq<Byte>, crc: seq<Byte>)

  predicate WellSized(c: Chunk) {
    |c.kind| == 4 && |c.crc| == 4 && |c.payload| < TWO32
  }

  const TERMINATOR := Chunk(IEND, [], [0xAE, 0x42, 0x60, 0x82])

  function Be32(n: nat): (r: seq<Byte>)
    requires n < TWO32
    ensures |r| == 4
  {
    [n / 0x100_0000, n / 0x1_0000 % 256, n / 256 % 256, n % 256]
  }

  function FromBe32(b0: Byte, b1: Byte, b2: Byte, b3: Byte): nat {
    b0 * 0x100_0000 + b1 * 0x1_0000 + b2 * 256 + b3
  }

  lemma Be32RoundTrip(n: nat)
    requires n < TWO32
    ensures var b := Be32(n); FromBe32(b[0], b[1], b[2], b[3]) == n
  {
    var x, y := n / 256, n / 0x1_0000;
    assert n == 256 * x + n % 256;
    assert x / 256 == y && x == 256 * y + x % 256;
    assert y / 256 == n / 0x100_0000 && y == 256 * (n / 0x100_0000) + y % 256;
  }

  function Frame(c: Chunk): (r: seq<Byte>)
    requires WellSized(c)
    ensures |r| == 12 + |c.payload|
  {
    Be32(|c.payload|) + c.kind + c.payload + c.crc
  }

  ghost predicate AllWellSized(cs: seq<Chunk>) {
    forall i :: 0 <= i < |cs| ==> WellSized(cs[i])
  }

  function Frames(cs: seq<Chunk>): seq<Byte>
    requires AllWellSized(cs)
  {
    if cs == [] then [] else Frame(cs[0]) + Frames(cs[1..])
  }

  /** The declared length of the chunk at the front. */
  function DeclaredLength(s: seq<Byte>): nat
    requires |s| >= 4
  {
    FromBe32(s[0], s[1], s[2], s[3])
  }

  predicate Complete(s: seq<Byte>) {
    |s| >= 8 && 12 + DeclaredLength(s) <= |s|
  }

  function First(s: seq<Byte>): Chunk
    requires Complete(s)
  {
    var n := DeclaredLength(s);
    Chunk(s[4..8], s[8..8 + n], s[8 + n..12 + n])
  }

  /** The complete chunks a byte string starts with. */
  function Parse(s: seq<Byte>): (cs: seq<Chunk>)
    decreases |s|
  {
    if Complete(s) then [First(s)] + Parse(s[12 + DeclaredLength(s)..]) else []
  }

  predicate Has(cs: seq<Chunk>, kind: seq<Byte>) {
    exists i :: 0 <= i < |cs| && cs[i].kind == kind
  }

  /** Signature, then chunks, the last and only the last of them a terminator. */
  ghost predicate WellFramed(s: seq<Byte>, cs: seq<Chunk>) {
    && AllWellSized(cs) && !Has(cs, IEND)
    && s == PNG_MAGIC + Frames(cs) + Frame(TERMINATOR)
  }

  // ----- the repair -----

  /** No repair for what is not a PNG, already has a terminator, or has no image data. */
  function Repaired(bytes: seq<Byte>): Option<seq<Byte>> {
    if !(PNG_MAGIC <= bytes) then None
    else
      var cs := Parse(bytes[8..]);
      if Has(cs, IEND) || !Has(cs, IDAT) then None
      else Some(bytes[..8 + Extent(bytes[8..])] + IEND_CHUNK)
  }

  /** How far the complete chunks reach. */
  function Extent(s: seq<Byte>): (n: nat)
    ensures n <= |s|
    decreases |s|
  {
    if Complete(s) then
      var k := 12 + DeclaredLength(s);
      k + Extent(s[k..])
    else 0
  }

  /** The walk so far: `done` were whole, none of them a terminator, and the rest starts at `pos`. */
  ghost predicate Walked(bytes: seq<Byte>, pos: nat, done: seq<Chunk>, sawData: bool) {
    && 8 <= pos <= |bytes|
    && Parse(bytes[8..]) == done + Parse(bytes[pos..])
    && 8 + Extent(bytes[8..]) == pos + Extent(bytes[pos..])
    && !Has(done, IEND) && sawData == Has(done, IDAT)
  }

  lemma WalkOn(bytes: seq<Byte>, pos: nat, done: seq<Chunk>, sawData: bool, end: nat)
    requires Walked(bytes, pos, done, sawData) && Complete(bytes[pos..])
    requires end == pos + 12 + DeclaredLength(bytes[pos..])
    ensures var c := First(bytes[pos..]);
            && c.kind == bytes[pos + 4..pos + 8]
            && (c.kind == IEND ==> Has(Parse(bytes[8..]), IEND))
            && (c.kind != IEND ==> Walked(bytes, end, done + [c], sawData || c.kind == IDAT))
  {
    var here := bytes[pos..];
    var c := First(here);
    assert here[end - pos..] == bytes[end..];
    assert done + ([c] + Parse(bytes[end..])) == (done + [c]) + Parse(bytes[end..]);
    HasSnoc(done, c, IDAT);
    HasSnoc(done, c, IEND);
    if c.kind == IEND {
      HasFront(done + [c], Parse(bytes[end..]), IEND);
    }
  }

  method RepairPng(bytes: seq<Byte>) returns (r: Option<seq<Byte>>)
    ensures r == Repaired(bytes)
  {
    if |bytes| < 8 || bytes[..8] != PNG_MAGIC {
      return None;
    }
    var pos, lastCompleteEnd, sawData := 8, 8, false;
    ghost var done: seq<Chunk> := [];
    while pos + 8 <= |bytes|
      invariant pos == lastCompleteEnd && Walked(bytes, pos, done, sawData)
      decreases |bytes| - pos
    {
      var len := FromBe32(bytes[pos], bytes[pos + 1], bytes[pos + 2], bytes[pos + 3]);
      var kind := bytes[pos + 4..pos + 8];
      var end := pos + 12 + len;
      assert DeclaredLength(bytes[pos..]) == len;
      if end > |bytes| {
        break;
      }
      WalkOn(bytes, pos, done, sawData, end);
      if kind == IDAT {
        sawData := true;
      }
      lastCompleteEnd := end;
      if kind == IEND {
        return None;
      }
      done := done + [First(bytes[pos..])];
      pos := end;
    }
    assert !Complete(bytes[pos..]);
    assert done + [] == done;
    if !sawData {
      return None;
    }
    var out := bytes[..lastCompleteEnd];
    out := out + IEND_CHUNK;
    return Some(out);
  }

  lemma HasSnoc(cs: seq<Chunk>, c: Chunk, kind: seq<Byte>)
    ensures Has(cs + [c], kind) <==> Has(cs, kind) || c.kind == kind
  {
    var all := cs + [c];
    assert all[|cs|] == c;
    if Has(cs, kind) {
      var i :| 0 <= i < |cs| && cs[i].kind == kind;
      assert all[i].kind == kind;
    }
    if Has(all, kind) && c.kind != kind {
      var i :| 0 <= i < |all| && all[i].kind == kind;
      assert cs[i].kind == kind;
    }
  }

  lemma HasFront(a: seq<Chunk>, b: seq<Chunk>, kind: seq<Byte>)
    requires Has(a, kind)
    ensures Has(a + b, kind)
  {
    var i :| 0 <= i < |a| && a[i].kind == kind;
    assert (a + b)[i].kind == kind;
  }

  // ----- parsing what was framed -----

  lemma FrameParses(c: Chunk, rest: seq<Byte>)
    requires WellSized(c)
    ensures var s := Frame(c) + rest;
            && Complete(s) && DeclaredLength(s) == |c.payload| && First(s) == c
            && s[12 + |c.payload|..] == rest
  {
    var s, n := Frame(c) + rest, |c.payload|;
    Be32RoundTrip(n);
    assert s[..4] == Be32(n);
    assert s[0] == Be32(n)[0] && s[1] == Be32(n)[1] && s[2] == Be32(n)[2] && s[3] == Be32(n)[3];
    assert s[4..8] == c.kind && s[8..8 + n] == c.payload && s[8 + n..12 + n] == c.crc;
  }

  lemma ParseThrough(c: Chunk, more: seq<Byte>, rest: seq<Byte>)
    requires WellSized(c)
    ensures Parse(Frame(c) + more + rest) == [c] + Parse(more + rest)
    ensures Extent(Frame(c) + more + rest) == |Frame(c)| + Extent(more + rest)
  {
    FrameParses(c, more + rest);
    Regroup(Frame(c), more, rest);
  }

  /** Framed chunks parse back, whatever follows them. */
  lemma {:induction false} FramesParse(cs: seq<Chunk>, rest: seq<Byte>)
    requires AllWellSized(cs)
    ensures Parse(Frames(cs) + rest) == cs + Parse(rest)
  {
    if cs == [] {
      assert Frames(cs) + rest == rest;
    } else {
      FramesParse(cs[1..], rest);
      ParseThrough(cs[0], Frames(cs[1..]), rest);
      Regroup([cs[0]], cs[1..], Parse(rest));
      assert cs == [cs[0]] + cs[1..];
    }
  }

  lemma {:induction false} FramesExtent(cs: seq<Chunk>, rest: seq<Byte>)
    requires AllWellSized(cs)
    ensures Extent(Frames(cs) + rest) == |Frames(cs)| + Extent(rest)
  {
    if cs == [] {
      assert Frames(cs) + rest == rest;
    } else {
      FramesExtent(cs[1..], rest);
      ParseThrough(cs[0], Frames(cs[1..]), rest);
    }
  }

  /** A chunk cut short is not a chunk. */
  lemma CutChunkIsNone(c: Chunk, n: nat)
    requires WellSized(c) && n < |Frame(c)|
    ensures Parse(Frame(c)[..n]) == [] && Extent(Frame(c)[..n]) == 0
  {
    var s := Frame(c)[..n];
    if n >= 8 {
      FrameParses(c, []);
      assert Frame(c) + [] == Frame(c);
      assert DeclaredLength(s) == DeclaredLength(Frame(c));
    }
  }

  /** How many whole chunks fit into n bytes. */
  function WholeIn(cs: seq<Chunk>, n: nat): (k: nat)
    requires AllWellSized(cs)
    ensures k <= |cs|
  {
    if cs == [] || n < |Frame(cs[0])| then 0 else 1 + WholeIn(cs[1..], n - |Frame(cs[0])|)
  }

  lemma FramesTake(cs: seq<Chunk>, k: nat)
    requires AllWellSized(cs) && k < |cs|
    ensures Frames(cs[..k + 1]) == Frame(cs[0]) + Frames(cs[1..][..k])
  {
    assert cs[..k + 1][1..] == cs[1..][..k];
  }

  lemma {:induction false} WholeInMeans(cs: seq<Chunk>, n: nat)
    requires AllWellSized(cs) && n <= |Frames(cs)|
    ensures var k := WholeIn(cs, n);
            |Frames(cs[..k])| <= n && (k < |cs| ==> n - |Frames(cs[..k])| < |Frame(cs[k])|)
  {
    if cs != [] && n >= |Frame(cs[0])| {
      var m := n - |Frame(cs[0])|;
      WholeInMeans(cs[1..], m);
      FramesTake(cs, WholeIn(cs[1..], m));
    }
  }

  lemma {:induction false} FramesSplit(a: seq<Chunk>, b: seq<Chunk>)
    requires AllWellSized(a) && AllWellSized(b)
    ensures AllWellSized(a + b) && Frames(a + b) == Frames(a) + Frames(b)
  {
    if a == [] {
      assert a + b == b && Frames(a) + Frames(b) == Frames(b);
    } else {
      FramesSplit(a[1..], b);
      assert (a + b)[1..] == a[1..] + b;
      Regroup(Frame(a[0]), Frames(a[1..]), Frames(b));
    }
  }

  lemma TakeThrough(a: seq<Byte>, b: seq<Byte>, m: nat)
    requires m <= |b|
    ensures (a + b)[..|a| + m] == a + b[..m]
  {
  }

  /** A prefix of framed chunks is its whole chunks and a cut one. */
  lemma PrefixIs(cs: seq<Chunk>, k: nat, n: nat)
    requires AllWellSized(cs) && k <= |cs| && |Frames(cs[..k])| <= n <= |Frames(cs)|
    ensures Frames(cs[..k]) <= Frames(cs) && n - |Frames(cs[..k])| <= |Frames(cs[k..])|
    ensures Frames(cs)[..n] == Frames(cs[..k]) + Frames(cs[k..])[..n - |Frames(cs[..k])|]
  {
    FramesSplit(cs[..k], cs[k..]);
    assert cs == cs[..k] + cs[k..];
    TakeThrough(Frames(cs[..k]), Frames(cs[k..]), n - |Frames(cs[..k])|);
  }

  /** The cut chunk contributes nothing. */
  lemma CutRest(rest: seq<Chunk>, r: nat)
    requires AllWellSized(rest) && r <= |Frames(rest)| && (rest != [] ==> r < |Frame(rest[0])|)
    ensures Parse(Frames(rest)[..r]) == [] && Extent(Frames(rest)[..r]) == 0
  {
    if rest == [] {
      assert Frames(rest)[..r] == [];
    } else {
      CutChunkIsNone(rest[0], r);
      assert Frames(rest)[..r] == Frame(rest[0])[..r];
    }
  }

  lemma PrefixParses(cs: seq<Chunk>, n: nat)
    requires AllWellSized(cs) && n <= |Frames(cs)|
    ensures Parse(Frames(cs)[..n]) == cs[..WholeIn(cs, n)]
    ensures Extent(Frames(cs)[..n]) == |Frames(cs[..WholeIn(cs, n)])|
  {
    var k := WholeIn(cs, n);
    WholeInMeans(cs, n);
    PrefixIs(cs, k, n);
    var r := n - |Frames(cs[..k])|;
    CutRest(cs[k..], r);
    FramesParse(cs[..k], Frames(cs[k..])[..r]);
    FramesExtent(cs[..k], Frames(cs[k..])[..r]);
    assert cs[..k] + [] == cs[..k];
  }

  // ----- what the repair restores -----

  lemma IendIsTerminator()
    ensures WellSized(TERMINATOR) && Frame(TERMINATOR) == IEND_CHUNK
  {
  }

  lemma FramesSnoc(cs: seq<Chunk>, c: Chunk)
    requires AllWellSized(cs) && WellSized(c)
    ensures AllWellSized(cs + [c]) && Frames(cs + [c]) == Frames(cs) + Frame(c)
  {
    FramesSplit(cs, [c]);
    assert [c][1..] == [] && Frame(c) + [] == Frame(c);
  }

  /** A complete stream: signature, chunks without a terminator, terminator. */
  function Stream(cs: seq<Chunk>): seq<Byte>
    requires AllWellSized(cs)
  {
    PNG_MAGIC + Frames(cs) + IEND_CHUNK
  }

  lemma {:induction false} WholeInSnoc(cs: seq<Chunk>, c: Chunk, m: nat)
    requires AllWellSized(cs) && WellSized(c) && m < |Frames(cs)| + |Frame(c)|
    ensures AllWellSized(cs + [c]) && WholeIn(cs + [c], m) == WholeIn(cs, m)
  {
    if cs != [] && m >= |Frame(cs[0])| {
      WholeInSnoc(cs[1..], c, m - |Frame(cs[0])|);
      assert (cs + [c])[1..] == cs[1..] + [c];
    }
  }

  lemma {:induction false} AllWhole(cs: seq<Chunk>, m: nat)
    requires AllWellSized(cs) && m >= |Frames(cs)|
    ensures WholeIn(cs, m) == |cs|
  {
    if cs != [] {
      AllWhole(cs[1..], m - |Frame(cs[0])|);
    }
  }

  lemma NoneInPrefix(cs: seq<Chunk>, k: nat, kind: seq<Byte>)
    requires k <= |cs| && !Has(cs, kind)
    ensures !Has(cs[..k], kind)
  {
    assert forall i :: 0 <= i < k ==> cs[..k][i] == cs[i];
  }

  lemma CutStream(cs: seq<Chunk>, n: nat)
    requires AllWellSized(cs) && AllWellSized(cs + [TERMINATOR]) && 8 <= n < |Stream(cs)|
    ensures var cut := Stream(cs)[..n];
            && |Frames(cs + [TERMINATOR])| == |Frames(cs)| + 12
            && PNG_MAGIC <= cut && cut[8..] == Frames(cs + [TERMINATOR])[..n - 8]
  {
    IendIsTerminator();
    FramesSnoc(cs, TERMINATOR);
    assert Stream(cs) == PNG_MAGIC + Frames(cs + [TERMINATOR]);
    TakeThrough(PNG_MAGIC, Frames(cs + [TERMINATOR]), n - 8);
  }

  /** What is whole in a cut stream. */
  lemma CutParses(cs: seq<Chunk>, n: nat)
    requires AllWellSized(cs) && 8 <= n < |Stream(cs)|
    ensures var cut, whole := Stream(cs)[..n], cs[..WholeIn(cs, n - 8)];
            && PNG_MAGIC <= cut && Parse(cut[8..]) == whole
            && Extent(cut[8..]) == |Frames(whole)| && cut[8..][..|Frames(whole)|] == Frames(whole)
  {
    var m, all := n - 8, cs + [TERMINATOR];
    IendIsTerminator();
    FramesSnoc(cs, TERMINATOR);
    CutStream(cs, n);
    WholeInSnoc(cs, TERMINATOR, m);
    PrefixParses(all, m);
    WholeInMeans(all, m);
    PrefixIs(all, WholeIn(cs, m), m);
    assert all[..WholeIn(cs, m)] == cs[..WholeIn(cs, m)];
  }

  /** Cut anywhere after the signature, a stream is repaired to its whole chunks and a terminator, if image data is among them. */
  lemma TruncationRepaired(cs: seq<Chunk>, n: nat)
    requires AllWellSized(cs) && !Has(cs, IEND) && 8 <= n < |Stream(cs)|
    ensures var whole := cs[..WholeIn(cs, n - 8)];
            Repaired(Stream(cs)[..n]) == if Has(whole, IDAT) then Some(Stream(whole)) else None
  {
    CutParses(cs, n);
    NoneInPrefix(cs, WholeIn(cs, n - 8), IEND);
    RepairedTo(Stream(cs)[..n], cs[..WholeIn(cs, n - 8)]);
  }

  /** The repair in terms of the whole chunks found. */
  lemma RepairedTo(cut: seq<Byte>, whole: seq<Chunk>)
    requires AllWellSized(whole) && PNG_MAGIC <= cut && Parse(cut[8..]) == whole && !Has(whole, IEND)
    requires Extent(cut[8..]) == |Frames(whole)| && cut[8..][..|Frames(whole)|] == Frames(whole)
    ensures Repaired(cut) == if Has(whole, IDAT) then Some(Stream(whole)) else None
  {
    assert cut == PNG_MAGIC + cut[8..];
    TakeThrough(PNG_MAGIC, cut[8..], |Frames(whole)|);
  }

  /** Losing only bytes of the terminator gives back the original, byte for byte. */
  lemma TerminatorRestored(cs: seq<Chunk>, n: nat)
    requires AllWellSized(cs) && !Has(cs, IEND) && Has(cs, IDAT)
    requires 8 + |Frames(cs)| <= n < |Stream(cs)|
    ensures Repaired(Stream(cs)[..n]) == Some(Stream(cs))
  {
    TruncationRepaired(cs, n);
    AllWhole(cs, n - 8);
    assert cs[..|cs|] == cs;
  }

  lemma StreamTail(cs: seq<Chunk>, debris: seq<Byte>)
    requires AllWellSized(cs)
    ensures AllWellSized(cs + [TERMINATOR])
    ensures var s := Stream(cs) + debris;
            PNG_MAGIC <= s && s[8..] == Frames(cs + [TERMINATOR]) + debris
  {
    IendIsTerminator();
    FramesSnoc(cs, TERMINATOR);
  }

  /** A stream with its terminator is left alone, whatever trails it. */
  lemma CompleteDeclined(cs: seq<Chunk>, debris: seq<Byte>)
    requires AllWellSized(cs)
    ensures Repaired(Stream(cs) + debris) == None
  {
    var all := cs + [TERMINATOR];
    StreamTail(cs, debris);
    FramesParse(all, debris);
    HasSnoc(cs, TERMINATOR, IEND);
    HasFront(all, Parse(debris), IEND);
  }

  lemma Be32Back(b: seq<Byte>)
    requires |b| == 4
    ensures FromBe32(b[0], b[1], b[2], b[3]) < TWO32 && Be32(FromBe32(b[0], b[1], b[2], b[3])) == b
  {
    var n := FromBe32(b[0], b[1], b[2], b[3]);
    Quotients(b[0], b[1], b[2], b[3]);
    assert Be32(n)[0] == b[0] && Be32(n)[1] == b[1] && Be32(n)[2] == b[2] && Be32(n)[3] == b[3];
  }

  lemma Quotients(x0: int, x1: int, x2: int, x3: int)
    requires 0 <= x0 < 256 && 0 <= x1 < 256 && 0 <= x2 < 256 && 0 <= x3 < 256
    ensures var n := x0 * 0x100_0000 + x1 * 0x1_0000 + x2 * 256 + x3;
            && n < TWO32 && n / 0x100_0000 == x0 && n / 0x1_0000 % 256 == x1 && n / 256 % 256 == x2 && n % 256 == x3
  {
    var n := x0 * 0x100_0000 + x1 * 0x1_0000 + x2 * 256 + x3;
    assert n / 256 == x0 * 0x1_0000 + x1 * 256 + x2;
    assert n / 0x1_0000 == x0 * 256 + x1;
  }

  lemma FirstFrames(s: seq<Byte>)
    requires Complete(s)
    ensures WellSized(First(s)) && Frame(First(s)) == s[..12 + DeclaredLength(s)]
  {
    Be32Back(s[..4]);
    var n := DeclaredLength(s);
    assert s[..12 + n] == s[..4] + s[4..8] + s[8..8 + n] + s[8 + n..12 + n];
  }

  /** The complete chunks, framed again, are the bytes they came from. */
  lemma {:induction false} ParsedFrames(s: seq<Byte>)
    ensures AllWellSized(Parse(s)) && Frames(Parse(s)) == s[..Extent(s)]
    decreases |s|
  {
    if Complete(s) {
      var k := 12 + DeclaredLength(s);
      FirstFrames(s);
      ParsedFrames(s[k..]);
      var cs := Parse(s[k..]);
      assert Parse(s)[0] == First(s) && Parse(s)[1..] == cs;
      assert s == s[..k] + s[k..];
      TakeThrough(s[..k], s[k..], Extent(s[k..]));
    }
  }

  lemma RepairedIsStream(bytes: seq<Byte>)
    requires Repaired(bytes).Some?
    ensures var cs := Parse(bytes[8..]);
            AllWellSized(cs) && !Has(cs, IEND) && Repaired(bytes).value == Stream(cs)
  {
    var tail := bytes[8..];
    ParsedFrames(tail);
    assert bytes == PNG_MAGIC + tail;
    TakeThrough(PNG_MAGIC, tail, Extent(tail));
  }

  /** Whatever was repaired is well framed, and a second repair declines it. */
  lemma RepairedIsWellFramed(bytes: seq<Byte>)
    requires Repaired(bytes).Some?
    ensures WellFramed(Repaired(bytes).value, Parse(bytes[8..]))
    ensures Repaired(Repaired(bytes).value) == None
  {
    RepairedIsStream(bytes);
    IendIsTerminator();
    var cs := Parse(bytes[8..]);
    assert Stream(cs) + [] == Stream(cs);
    CompleteDeclined(cs, []);
  }
}
