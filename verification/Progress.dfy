/**
 * The salvage buffer of a running tool: progress notes are appended and only a bounded tail is kept,
 * cut where a character starts.
 */
module Progress {
  import opened Core

  const MAX_PROGRESS_BYTES: nat := 8192

  // ----- UTF-8, section 3 of RFC 3629 -----

  predicate Continuation(b: Byte) {
    0x80 <= b < 0xC0
  }

  /** The length of a well-formed character at the front; 0 if there is none. */
  function CharLength(s: seq<Byte>): (n: nat)
    ensures n <= 4 && n <= |s|
    ensures n > 0 ==> !Continuation(s[0]) && forall i :: 1 <= i < n ==> Continuation(s[i])
  {
    if s == [] then 0
    else if s[0] < 0x80 then 1
    else if |s| >= 2 && 0xC2 <= s[0] < 0xE0 && Continuation(s[1]) then 2
    else if |s| >= 3 && 0xE0 <= s[0] < 0xF0 && Continuation(s[1]) && Continuation(s[2])
            && (s[0] == 0xE0 ==> s[1] >= 0xA0) && (s[0] == 0xED ==> s[1] < 0xA0) then 3
    else if |s| >= 4 && 0xF0 <= s[0] <= 0xF4 && Continuation(s[1]) && Continuation(s[2]) && Continuation(s[3])
            && (s[0] == 0xF0 ==> s[1] >= 0x90) && (s[0] == 0xF4 ==> s[1] < 0x90) then 4
    else 0
  }

  predicate ValidUtf8(s: seq<Byte>)
    decreases |s|
  {
    s == [] || (CharLength(s) > 0 && ValidUtf8(s[CharLength(s)..]))
  }

  /** A position between characters: an end, or a byte that does not continue one. */
  predicate Boundary(s: seq<Byte>, i: nat)
    requires i <= |s|
  {
    i == 0 || i == |s| || !Continuation(s[i])
  }

  // ----- the kept tail -----

  /** The first boundary at or after `from`. */
  function NextBoundary(s: seq<Byte>, from: nat): (c: nat)
    requires from <= |s|
    ensures from <= c <= |s| && Boundary(s, c)
    ensures forall i :: from <= i < c ==> !Boundary(s, i)
    decreases |s| - from
  {
    if Boundary(s, from) then from else NextBoundary(s, from + 1)
  }

  function Cut(s: seq<Byte>): (c: nat)
    ensures c <= |s|
  {
    if |s| <= MAX_PROGRESS_BYTES then 0 else NextBoundary(s, |s| - MAX_PROGRESS_BYTES)
  }

  function Tail(s: seq<Byte>): seq<Byte> {
    s[Cut(s)..]
  }

  /** The tail is the longest suffix within the bound that starts where a character starts. */
  lemma TailIsLongest(s: seq<Byte>, c: nat)
    requires c <= |s|
    ensures |Tail(s)| <= MAX_PROGRESS_BYTES && Boundary(s, Cut(s))
    ensures Boundary(s, c) && |s[c..]| <= MAX_PROGRESS_BYTES ==> |s[c..]| <= |Tail(s)|
  {
  }

  lemma NextBoundaryIs(s: seq<Byte>, from: nat, c: nat)
    requires from <= c <= |s| && Boundary(s, c) && forall i :: from <= i < c ==> !Boundary(s, i)
    ensures NextBoundary(s, from) == c
  {
    var d := NextBoundary(s, from);
    assert Boundary(s, d);
  }

  /** Cutting early changes nothing: only the bytes received matter, not how they were split into notes. */
  lemma TailAbsorbs(a: seq<Byte>, b: seq<Byte>)
    requires b != [] ==> !Continuation(b[0])
    ensures Tail(Tail(a) + b) == Tail(a + b)
  {
    if |a| > MAX_PROGRESS_BYTES {
      var ca, s := Cut(a), a + b;
      var kept := a[ca..] + b;
      assert kept == s[ca..];
      assert Boundary(s, ca) by {
        if ca < |a| {
          assert s[ca] == a[ca];
        } else if b != [] {
          assert s[ca] == b[0];
        }
      }
      var from := |s| - MAX_PROGRESS_BYTES;
      if |kept| <= MAX_PROGRESS_BYTES {
        forall i | from <= i < ca ensures !Boundary(s, i) {
          assert !Boundary(a, i);
          assert s[i] == a[i];
        }
        NextBoundaryIs(s, from, ca);
      } else {
        ShiftedBoundary(s, ca, kept, from);
      }
    }
  }

  lemma SameBoundary(s: seq<Byte>, ca: nat, i: nat)
    requires ca + i <= |s|
    ensures i > 0 ==> (Boundary(s[ca..], i) <==> Boundary(s, ca + i))
  {
  }

  lemma ShiftedBoundary(s: seq<Byte>, ca: nat, kept: seq<Byte>, from: nat)
    requires ca < from <= |s| && kept == s[ca..]
    ensures NextBoundary(s, from) == ca + NextBoundary(kept, from - ca)
  {
    var d := NextBoundary(kept, from - ca);
    SameBoundary(s, ca, d);
    forall i | from <= i < ca + d ensures !Boundary(s, i) {
      SameBoundary(s, ca, i - ca);
      assert !Boundary(kept, i - ca);
    }
    NextBoundaryIs(s, from, ca + d);
  }

  // ----- what is kept is text again -----

  lemma NotInside(s: seq<Byte>, c: nat)
    requires 0 < c < |s| && CharLength(s) > 0 && Boundary(s, c)
    ensures CharLength(s) <= c
  {
  }

  lemma {:induction false} SuffixAtBoundaryValid(s: seq<Byte>, c: nat)
    requires ValidUtf8(s) && c <= |s| && Boundary(s, c)
    ensures ValidUtf8(s[c..])
    decreases |s|
  {
    if c == 0 {
      assert s[0..] == s;
    } else if c == |s| {
      assert s[c..] == [];
    } else {
      var n := CharLength(s);
      NotInside(s, c);
      var rest := s[n..];
      assert rest[c - n] == s[c];
      SuffixAtBoundaryValid(rest, c - n);
      assert rest[c - n..] == s[c..];
    }
  }

  lemma {:induction false} ConcatValid(a: seq<Byte>, b: seq<Byte>)
    requires ValidUtf8(a) && ValidUtf8(b)
    ensures ValidUtf8(a + b)
    decreases |a|
  {
    if a == [] {
      assert a + b == b;
    } else {
      var n := CharLength(a);
      ConcatValid(a[n..], b);
      CharLengthStable(a, b);
    }
  }

  lemma CharLengthStable(a: seq<Byte>, b: seq<Byte>)
    requires CharLength(a) > 0
    ensures CharLength(a + b) == CharLength(a)
    ensures (a + b)[CharLength(a)..] == a[CharLength(a)..] + b
  {
    assert forall i :: 0 <= i < |a| ==> (a + b)[i] == a[i];
  }

  /** The kept text is valid, and at most three bytes short of the bound once anything was dropped. */
  lemma TailValid(s: seq<Byte>)
    requires ValidUtf8(s)
    ensures ValidUtf8(Tail(s))
    ensures |s| > MAX_PROGRESS_BYTES ==> |Tail(s)| >= MAX_PROGRESS_BYTES - 3
  {
    SuffixAtBoundaryValid(s, Cut(s));
    if |s| > MAX_PROGRESS_BYTES {
      BoundaryWithinFour(s, |s| - MAX_PROGRESS_BYTES);
    }
  }

  lemma {:induction false} BoundaryWithinFour(s: seq<Byte>, from: nat)
    requires ValidUtf8(s) && from <= |s|
    ensures NextBoundary(s, from) <= from + 3
    decreases |s|
  {
    if from > 0 && from < |s| {
      var n := CharLength(s);
      if from < n {
        assert Boundary(s, n) by {
          assert n < |s| ==> CharLength(s[n..]) > 0 && s[n..][0] == s[n];
        }
      } else {
        var rest := s[n..];
        BoundaryWithinFour(rest, from - n);
        var d := NextBoundary(rest, from - n);
        if d > 0 {
          SameBoundary(s, n, d);
        } else {
          assert Boundary(s, n) by {
            assert n < |s| ==> CharLength(rest) > 0 && rest[0] == s[n];
          }
        }
      }
    }
  }

  // ----- the store's rows -----

  datatype Row = Row(tool: string, progress: seq<Byte>, truncated: bool)

  /** Cut forward from the bound to the next character. */
  method DropOldest(progress: seq<Byte>) returns (kept: seq<Byte>)
    requires |progress| > MAX_PROGRESS_BYTES
    ensures kept == Tail(progress)
  {
    var start := |progress| - MAX_PROGRESS_BYTES;
    var cut := start;
    while cut < |progress| && !Boundary(progress, cut)
      invariant start <= cut <= |progress|
      invariant forall i :: start <= i < cut ==> !Boundary(progress, i)
    {
      cut := cut + 1;
    }
    NextBoundaryIs(progress, start, cut);
    kept := progress[cut..];
  }

  /** A row against everything noted for its call. */
  ghost predicate Keeps(row: Row, noted: seq<Byte>) {
    && ValidUtf8(noted)
    && row.progress == Tail(noted)
    && (row.truncated <==> |noted| > MAX_PROGRESS_BYTES)
  }

  /** A row after one more note. */
  function Noted(row: Row, note: seq<Byte>): Row {
    var progress := row.progress + note;
    Row(row.tool, Tail(progress), row.truncated || |progress| > MAX_PROGRESS_BYTES)
  }

  lemma NotedKeeps(row: Row, noted: seq<Byte>, note: seq<Byte>)
    requires Keeps(row, noted) && ValidUtf8(note)
    ensures Keeps(Noted(row, note), noted + note)
  {
    NoteKept(noted, note);
  }

  class LiveToolCalls {
    var rows: map<CallId, Row>
    /** Everything noted for a call since its row was opened. */
    ghost var noted: map<CallId, seq<Byte>>

    constructor ()
      ensures Valid() && rows == map[]
    {
      rows, noted := map[], map[];
    }

    ghost predicate Valid()
      reads this
    {
      && rows.Keys == noted.Keys
      && forall c :: c in rows ==> Keeps(rows[c], noted[c])
    }

    /** Opening a row resets a stale one. */
    method Begin(c: CallId, tool: string)
      requires Valid()
      modifies this
      ensures Valid() && rows == old(rows)[c := Row(tool, [], false)] && noted == old(noted)[c := []]
    {
      rows := rows[c := Row(tool, [], false)];
      noted := noted[c := []];
      assert Tail([]) == [];
    }

    /** A note for a call without a row is ignored; any other row is left alone. */
    method Append(c: CallId, note: seq<Byte>)
      requires Valid() && ValidUtf8(note)
      modifies this
      ensures Valid()
      ensures c !in old(rows) ==> rows == old(rows) && noted == old(noted)
      ensures c in old(rows) ==>
                && noted == old(noted)[c := old(noted)[c] + note]
                && rows == old(rows)[c := Noted(old(rows)[c], note)]
    {
      if c !in rows {
        return;
      }
      var progress, truncated := rows[c].progress + note, rows[c].truncated;
      NotedKeeps(rows[c], noted[c], note);
      if |progress| > MAX_PROGRESS_BYTES {
        progress := DropOldest(progress);
        truncated := true;
      } else {
        assert progress == Tail(progress);
      }
      rows := rows[c := Row(rows[c].tool, progress, truncated)];
      noted := noted[c := noted[c] + note];
    }

    method End(c: CallId)
      requires Valid()
      modifies this
      ensures Valid() && rows == old(rows) - {c} && noted == old(noted) - {c}
    {
      rows := rows - {c};
      noted := noted - {c};
    }
  }

  /** One append, in terms of everything noted so far. */
  lemma NoteKept(before: seq<Byte>, note: seq<Byte>)
    requires ValidUtf8(before) && ValidUtf8(note)
    ensures ValidUtf8(before + note)
    ensures Tail(Tail(before) + note) == Tail(before + note)
    ensures |before + note| > MAX_PROGRESS_BYTES <==>
            |before| > MAX_PROGRESS_BYTES || |Tail(before) + note| > MAX_PROGRESS_BYTES
  {
    ConcatValid(before, note);
    TailAbsorbs(before, note);
  }

  /** Notes joined. */
  function Joined(notes: seq<seq<Byte>>): seq<Byte> {
    if notes == [] then [] else Joined(notes[..|notes| - 1]) + notes[|notes| - 1]
  }

  function Accumulated(notes: seq<seq<Byte>>): seq<Byte> {
    if notes == [] then [] else Tail(Accumulated(notes[..|notes| - 1]) + notes[|notes| - 1])
  }

  /** After any notes the stored text is the tail of all of them joined: two splittings of one text store the same. */
  lemma {:induction false} ChunkingIrrelevant(notes: seq<seq<Byte>>)
    requires forall i :: 0 <= i < |notes| ==> ValidUtf8(notes[i])
    ensures Accumulated(notes) == Tail(Joined(notes)) && ValidUtf8(Joined(notes))
  {
    if notes != [] {
      var init, note := notes[..|notes| - 1], notes[|notes| - 1];
      ChunkingIrrelevant(init);
      NoteKept(Joined(init), note);
    }
  }
}
