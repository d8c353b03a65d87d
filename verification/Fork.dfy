/**
 * Forking a session copies the events that make up its transcript and renumbers them; the projected
 * message rows of the fork are those the origin had at the fork point.
 */
module Fork {
  import Core

  /** `Root` stands for seq 0 of a session that is not a fork; `NotCopied` for usage, handoffs and tool toggles. */
  datatype Event =
    | Root
    | SessionForked(origin: string, originSeq: nat)
    | MessageAppended(at: nat, body: string)
    | ModelChanged(at: nat, model: string)
    | Compacted(at: nat, start: nat, end: nat, summary: string)
    | NotCopied(at: nat, what: string)

  function SeqOf(e: Event): nat {
    if e.Root? || e.SessionForked? then 0 else e.at
  }

  predicate Copied(e: Event) {
    e.MessageAppended? || e.ModelChanged? || e.Compacted?
  }

  /** A session's log: gapless, and every compaction names two earlier transcript events. */
  ghost predicate WellFormed(log: seq<Event>) {
    && log != [] && !Copied(log[0])
    && (forall k :: 0 <= k < |log| ==> SeqOf(log[k]) == k)
    && (forall k :: 0 <= k < |log| && log[k].Compacted? ==> RangeOk(log, log[k]))
  }

  ghost predicate RangeOk(log: seq<Event>, e: Event)
    requires e.Compacted?
  {
    e.start <= e.end < e.at && e.end < |log| && Copied(log[e.start]) && Copied(log[e.end])
  }

  // ----- the fork -----

  /** The copied events among the first m, in order. */
  function Rows(log: seq<Event>, m: nat): (r: seq<Event>)
    requires m <= |log|
    ensures |r| <= m && forall i :: 0 <= i < |r| ==> Copied(r[i])
  {
    if m == 0 then []
    else if Copied(log[m - 1]) then Rows(log, m - 1) + [log[m - 1]]
    else Rows(log, m - 1)
  }

  /** The copied event at position k of the log comes out as number NewSeq(log, k). */
  function NewSeq(log: seq<Event>, k: nat): nat
    requires k < |log|
  {
    |Rows(log, k + 1)|
  }

  function SeqMap(rows: seq<Event>): map<nat, nat> {
    if rows == [] then map[] else SeqMap(rows[..|rows| - 1])[SeqOf(rows[|rows| - 1]) := |rows|]
  }

  function Mapped(seqMap: map<nat, nat>, s: nat): nat {
    if s in seqMap then seqMap[s] else s
  }

  /** An endpoint that was not copied keeps its old number. */
  function Remap(e: Event, newSeq: nat, seqMap: map<nat, nat>): Event {
    match e
    case MessageAppended(_, body) => MessageAppended(newSeq, body)
    case ModelChanged(_, model) => ModelChanged(newSeq, model)
    case Compacted(_, start, end, summary) => Compacted(newSeq, Mapped(seqMap, start), Mapped(seqMap, end), summary)
    case _ => e
  }

  function Remapped(rows: seq<Event>, n: nat, seqMap: map<nat, nat>): (r: seq<Event>)
    requires n <= |rows|
    ensures |r| == n
  {
    if n == 0 then [] else Remapped(rows, n - 1, seqMap) + [Remap(rows[n - 1], n, seqMap)]
  }

  /** Selecting beyond the end of the log selects all of it. */
  function Upto(log: seq<Event>, originSeq: nat): (m: nat)
    ensures m <= |log|
  {
    if originSeq + 1 <= |log| then originSeq + 1 else |log|
  }

  function Forked(log: seq<Event>, origin: string, originSeq: nat): seq<Event> {
    var rows := Rows(log, Upto(log, originSeq));
    [SessionForked(origin, originSeq)] + Remapped(rows, |rows|, SeqMap(rows))
  }

  // ----- the projection -----

  /** The message rows of a log, by sequence number. */
  function Project(log: seq<Event>): map<nat, string> {
    if log == [] then map[] else ProjectOne(Project(log[..|log| - 1]), log[|log| - 1])
  }

  function ProjectOne(rows: map<nat, string>, e: Event): map<nat, string> {
    match e
    case MessageAppended(at, body) => rows[at := body]
    case Compacted(at, start, end, summary) =>
      (map k | k in rows && !(start <= k <= end) :: rows[k])[at := summary]
    case _ => rows
  }

  /** The messages below `hi`, in order of their numbers. */
  function Transcript(rows: map<nat, string>, hi: nat): seq<string> {
    if hi == 0 then []
    else if hi - 1 in rows then Transcript(rows, hi - 1) + [rows[hi - 1]]
    else Transcript(rows, hi - 1)
  }

  /** Copy, renumber and project, row by row. */
  method ForkSession(log: seq<Event>, origin: string, originSeq: nat)
    returns (events: seq<Event>, messages: map<nat, string>, head: nat)
    ensures events == Forked(log, origin, originSeq)
    ensures messages == Project(events)
    ensures head == |events| - 1
  {
    events := [SessionForked(origin, originSeq)];
    messages := map[];
    assert events[..0] == [];
    var copyRows := Rows(log, Upto(log, originSeq));
    var seqMap: map<nat, nat> := map[];
    for i := 0 to |copyRows|
      invariant seqMap == SeqMap(copyRows[..i])
    {
      assert copyRows[..i + 1][..i] == copyRows[..i];
      seqMap := seqMap[SeqOf(copyRows[i]) := i + 1];
    }
    assert copyRows[..|copyRows|] == copyRows;
    for i := 0 to |copyRows|
      invariant events == [SessionForked(origin, originSeq)] + Remapped(copyRows, i, seqMap)
      invariant messages == Project(events)
    {
      var copy := Remap(copyRows[i], i + 1, seqMap);
      assert (events + [copy])[..|events|] == events;
      events := events + [copy];
      messages := ProjectOne(messages, copy);
    }
    head := |copyRows|;
  }

  // ----- renumbering -----

  lemma {:induction false} RowsGrow(log: seq<Event>, a: nat, b: nat)
    requires a <= b <= |log|
    ensures Rows(log, a) <= Rows(log, b)
    decreases b
  {
    if a < b {
      RowsGrow(log, a, b - 1);
    }
  }

  /** Copied events keep their order and get distinct numbers. */
  lemma NewSeqMonotone(log: seq<Event>, a: nat, b: nat)
    requires a < b < |log| && Copied(log[b])
    ensures NewSeq(log, a) < NewSeq(log, b)
  {
    RowsGrow(log, a + 1, b);
  }

  lemma RowAt(log: seq<Event>, k: nat, m: nat)
    requires k < m <= |log| && Copied(log[k])
    ensures 1 <= NewSeq(log, k) <= |Rows(log, m)| && Rows(log, m)[NewSeq(log, k) - 1] == log[k]
  {
    RowsGrow(log, k + 1, m);
  }

  /** Every number up to the head is some copied event's. */
  lemma {:induction false} EveryNumberUsed(log: seq<Event>, m: nat, j: nat) returns (k: nat)
    requires m <= |log| && 1 <= j <= |Rows(log, m)|
    ensures k < m && Copied(log[k]) && NewSeq(log, k) == j
  {
    if j <= |Rows(log, m - 1)| {
      k := EveryNumberUsed(log, m - 1, j);
    } else {
      k := m - 1;
    }
  }

  lemma SeqMapSnoc(rows: seq<Event>, e: Event)
    ensures SeqMap(rows + [e]) == SeqMap(rows)[SeqOf(e) := |rows| + 1]
  {
    assert (rows + [e])[..|rows|] == rows;
  }

  ghost predicate MapsTo(log: seq<Event>, m: nat, sm: map<nat, nat>)
    requires m <= |log|
  {
    && (forall s: nat :: s in sm <==> s < m && Copied(log[s]))
    && (forall s: nat :: s in sm ==> sm[s] == NewSeq(log, s))
  }

  lemma MapsToNext(log: seq<Event>, m: nat, sm: map<nat, nat>)
    requires m < |log| && MapsTo(log, m, sm)
    ensures MapsTo(log, m + 1, if Copied(log[m]) then sm[m := NewSeq(log, m)] else sm)
  {
  }

  lemma SeqMapStep(log: seq<Event>, m: nat)
    requires m < |log| && SeqOf(log[m]) == m
    ensures SeqMap(Rows(log, m + 1)) ==
            if Copied(log[m]) then SeqMap(Rows(log, m))[m := NewSeq(log, m)] else SeqMap(Rows(log, m))
  {
    SeqMapSnoc(Rows(log, m), log[m]);
  }

  /** The map built from the rows holds the new number of exactly the copied events. */
  lemma {:induction false} SeqMapIs(log: seq<Event>, m: nat)
    requires m <= |log| && forall k :: 0 <= k < |log| ==> SeqOf(log[k]) == k
    ensures MapsTo(log, m, SeqMap(Rows(log, m)))
  {
    if m > 0 {
      SeqMapIs(log, m - 1);
      MapsToNext(log, m - 1, SeqMap(Rows(log, m - 1)));
      SeqMapStep(log, m - 1);
    }
  }

  /** What a copied event becomes, without the map. */
  function Image(log: seq<Event>, e: Event): Event
    requires SeqOf(e) < |log| && (e.Compacted? ==> e.start < |log| && e.end < |log|)
  {
    match e
    case MessageAppended(at, body) => MessageAppended(NewSeq(log, at), body)
    case ModelChanged(at, model) => ModelChanged(NewSeq(log, at), model)
    case Compacted(at, start, end, summary) => Compacted(NewSeq(log, at), NewSeq(log, start), NewSeq(log, end), summary)
    case _ => e
  }

  /** The copies of the first m events. */
  function Copies(log: seq<Event>, m: nat): seq<Event>
    requires WellFormed(log) && m <= |log|
  {
    if m == 0 then []
    else if Copied(log[m - 1]) then Copies(log, m - 1) + [Image(log, log[m - 1])]
    else Copies(log, m - 1)
  }

  lemma ImageIsRemap(log: seq<Event>, k: nat, m: nat)
    requires WellFormed(log) && k < m <= |log| && Copied(log[k])
    ensures Remap(log[k], NewSeq(log, k), SeqMap(Rows(log, m))) == Image(log, log[k])
  {
    SeqMapIs(log, m);
    if log[k].Compacted? {
      assert RangeOk(log, log[k]);
    }
  }

  lemma RemappedNext(log: seq<Event>, j: nat, m: nat)
    requires WellFormed(log) && j < m <= |log| && Copied(log[j])
    requires |Rows(log, j)| < |Rows(log, m)|
    ensures var rows := Rows(log, m);
            Remapped(rows, |Rows(log, j + 1)|, SeqMap(rows)) ==
            Remapped(rows, |Rows(log, j)|, SeqMap(rows)) + [Image(log, log[j])]
  {
    RowAt(log, j, m);
    ImageIsRemap(log, j, m);
  }

  lemma {:induction false} RemappedIsCopies(log: seq<Event>, j: nat, m: nat)
    requires WellFormed(log) && j <= m <= |log|
    ensures |Rows(log, j)| <= |Rows(log, m)|
    ensures Remapped(Rows(log, m), |Rows(log, j)|, SeqMap(Rows(log, m))) == Copies(log, j)
    decreases j
  {
    RowsGrow(log, j, m);
    if j > 0 {
      RemappedIsCopies(log, j - 1, m);
      if Copied(log[j - 1]) {
        RemappedNext(log, j - 1, m);
      }
    }
  }

  /** The fork is the fork event followed by the images of the copied events, in order. */
  lemma ForkedIsCopies(log: seq<Event>, origin: string, originSeq: nat)
    requires WellFormed(log)
    ensures Forked(log, origin, originSeq) == [SessionForked(origin, originSeq)] + Copies(log, Upto(log, originSeq))
  {
    var m := Upto(log, originSeq);
    RemappedIsCopies(log, m, m);
  }

  lemma {:induction false} CopiesAt(log: seq<Event>, m: nat, k: nat)
    requires WellFormed(log) && k < m <= |log| && Copied(log[k])
    ensures |Copies(log, m)| == |Rows(log, m)|
    ensures 1 <= NewSeq(log, k) <= |Rows(log, m)| && Copies(log, m)[NewSeq(log, k) - 1] == Image(log, log[k])
    decreases m
  {
    CopiesLength(log, m);
    RowAt(log, k, m);
    if k < m - 1 {
      CopiesAt(log, m - 1, k);
    } else {
      CopiesLength(log, m - 1);
    }
  }

  lemma {:induction false} CopiesLength(log: seq<Event>, m: nat)
    requires WellFormed(log) && m <= |log|
    ensures |Copies(log, m)| == |Rows(log, m)|
  {
    if m > 0 {
      CopiesLength(log, m - 1);
    }
  }

  /** A fork's log is well formed again: gapless from the fork event, ranges between copied events. */
  lemma ForkWellFormed(log: seq<Event>, origin: string, originSeq: nat)
    requires WellFormed(log)
    ensures WellFormed(Forked(log, origin, originSeq))
  {
    var f, m := Forked(log, origin, originSeq), Upto(log, originSeq);
    ForkedIsCopies(log, origin, originSeq);
    CopiesLength(log, m);
    forall j | 1 <= j < |f|
      ensures SeqOf(f[j]) == j && Copied(f[j]) && (f[j].Compacted? ==> f[j].start <= f[j].end < j && f[j].start >= 1)
    {
      var k := EveryNumberUsed(log, m, j);
      CopiesAt(log, m, k);
      assert f[j] == Image(log, log[k]);
      if log[k].Compacted? {
        assert RangeOk(log, log[k]);
        NewSeqMonotone(log, log[k].end, k);
        RowAt(log, log[k].start, m);
        if log[k].start < log[k].end {
          NewSeqMonotone(log, log[k].start, log[k].end);
        }
      }
    }
  }

  /** A remapped range covers exactly the images of the copied events it covered. */
  lemma RangeCoversImages(log: seq<Event>, e: Event, x: nat)
    requires e.Compacted? && RangeOk(log, e) && e.at < |log| && x < |log| && Copied(log[x])
    ensures e.start <= x <= e.end <==> NewSeq(log, e.start) <= NewSeq(log, x) <= NewSeq(log, e.end)
  {
    if x < e.start {
      NewSeqMonotone(log, x, e.start);
    } else if e.start < x {
      NewSeqMonotone(log, e.start, x);
    }
    if x < e.end {
      NewSeqMonotone(log, x, e.end);
    } else if e.end < x {
      NewSeqMonotone(log, e.end, x);
    }
  }

  // ----- forking a fork -----

  lemma {:induction false} CopiesGrow(log: seq<Event>, a: nat, b: nat)
    requires WellFormed(log) && a <= b <= |log|
    ensures Copies(log, a) <= Copies(log, b)
    decreases b
  {
    if a < b {
      CopiesGrow(log, a, b - 1);
    }
  }

  /** Nothing but copied events after the first. */
  ghost predicate Dense(f: seq<Event>) {
    f != [] && !Copied(f[0]) && forall j :: 1 <= j < |f| ==> Copied(f[j])
  }

  /** In a log of copied events only, nothing moves. */
  lemma {:induction false} DenseRows(f: seq<Event>, m: nat)
    requires 1 <= m <= |f| && Dense(f)
    ensures |Rows(f, m)| == m - 1
  {
    if m > 1 {
      DenseRows(f, m - 1);
    }
  }

  lemma DenseImage(f: seq<Event>, k: nat)
    requires WellFormed(f) && 1 <= k < |f| && Dense(f)
    ensures Image(f, f[k]) == f[k]
  {
    var e := f[k];
    assert SeqOf(e) == k;
    DenseRows(f, k + 1);
    if e.Compacted? {
      assert RangeOk(f, e);
      DenseRows(f, e.start + 1);
      DenseRows(f, e.end + 1);
    }
  }

  lemma SliceNext(f: seq<Event>, k: nat)
    requires 1 <= k < |f|
    ensures f[1..k + 1] == f[1..k] + [f[k]]
  {
  }

  lemma {:induction false} DenseCopies(f: seq<Event>, m: nat)
    requires WellFormed(f) && 1 <= m <= |f| && Dense(f)
    ensures Copies(f, m) == f[1..m]
  {
    if m > 1 {
      DenseCopies(f, m - 1);
      DenseImage(f, m - 1);
      SliceNext(f, m - 1);
    }
  }

  lemma ForkIsDense(log: seq<Event>, origin: string, n: nat)
    requires WellFormed(log)
    ensures Dense(Forked(log, origin, n))
  {
    var m, f := Upto(log, n), Forked(log, origin, n);
    ForkedIsCopies(log, origin, n);
    CopiesLength(log, m);
    forall j | 1 <= j < |f| ensures Copied(f[j]) {
      var k := EveryNumberUsed(log, m, j);
      CopiesAt(log, m, k);
    }
  }

  /**
   * Forking a fork is forking the origin: at the number of any origin event below the first fork
   * point, both give the same copies. Only the fork event names a different parent.
   */
  lemma ForkOfFork(log: seq<Event>, origin: string, middle: string, n: nat, p: nat)
    requires WellFormed(log) && p <= n < |log|
    ensures Forked(Forked(log, origin, n), middle, NewSeq(log, p))[1..] == Forked(log, origin, p)[1..]
  {
    var f, at := Forked(log, origin, n), NewSeq(log, p);
    ForkedIsCopies(log, origin, n);
    ForkedIsCopies(log, origin, p);
    CopiesGrow(log, p + 1, n + 1);
    CopiesLength(log, p + 1);
    assert f[1..at + 1] == Copies(log, p + 1);
    ForkWellFormed(log, origin, n);
    ForkIsDense(log, origin, n);
    ForkOfDense(f, middle, at);
  }

  lemma ForkOfDense(f: seq<Event>, middle: string, at: nat)
    requires WellFormed(f) && Dense(f) && at < |f|
    ensures Forked(f, middle, at)[1..] == f[1..at + 1]
  {
    ForkedIsCopies(f, middle, at);
    DenseCopies(f, at + 1);
  }

  // ----- the transcript survives -----

  /** The fork's rows are the origin's rows under their new numbers. */
  ghost predicate SameRows(log: seq<Event>, m: nat, mine: map<nat, string>, forked: map<nat, string>)
    requires m <= |log|
  {
    && (forall k :: k in mine ==> k < m && Copied(log[k]))
    && (forall j :: j in forked ==> 1 <= j <= |Rows(log, m)|)
    && (forall k :: 0 <= k < m && Copied(log[k]) ==>
          (k in mine <==> NewSeq(log, k) in forked)
          && (k in mine ==> mine[k] == forked[NewSeq(log, k)]))
  }

  lemma AppendKeepsRows(log: seq<Event>, m: nat, mine: map<nat, string>, forked: map<nat, string>, body: string)
    requires m < |log| && Copied(log[m]) && SameRows(log, m, mine, forked)
    ensures SameRows(log, m + 1, mine[m := body], forked[NewSeq(log, m) := body])
  {
    forall k | 0 <= k < m && Copied(log[k]) ensures NewSeq(log, k) < NewSeq(log, m) {
      NewSeqMonotone(log, k, m);
    }
  }

  lemma OtherKeepsRows(log: seq<Event>, m: nat, mine: map<nat, string>, forked: map<nat, string>)
    requires m < |log| && SameRows(log, m, mine, forked)
    requires Copied(log[m]) ==> m !in mine && NewSeq(log, m) !in forked
    ensures SameRows(log, m + 1, mine, forked)
  {
    RowsGrow(log, m, m + 1);
  }

  function Without(rows: map<nat, string>, start: nat, end: nat): map<nat, string> {
    map k | k in rows && !(start <= k <= end) :: rows[k]
  }

  lemma DeleteKeepsRows(log: seq<Event>, m: nat, mine: map<nat, string>, forked: map<nat, string>, e: Event)
    requires m <= |log| && e.Compacted? && RangeOk(log, e) && e.at < |log| && SameRows(log, m, mine, forked)
    ensures SameRows(log, m, Without(mine, e.start, e.end),
                     Without(forked, NewSeq(log, e.start), NewSeq(log, e.end)))
  {
    forall k | 0 <= k < m && Copied(log[k])
      ensures e.start <= k <= e.end <==> NewSeq(log, e.start) <= NewSeq(log, k) <= NewSeq(log, e.end)
    {
      RangeCoversImages(log, e, k);
    }
  }

  lemma {:induction false} RowsSurvive(log: seq<Event>, first: Event, m: nat)
    requires WellFormed(log) && m <= |log| && !Copied(first)
    ensures SameRows(log, m, Project(log[..m]), Project([first] + Copies(log, m)))
  {
    if m == 0 {
      assert [first] + [] == [first] && [first][..0] == [];
    } else {
      RowsSurvive(log, first, m - 1);
      var e := log[m - 1];
      var mine, forked := Project(log[..m - 1]), Project([first] + Copies(log, m - 1));
      assert log[..m] == log[..m - 1] + [e];
      ProjectSnoc(log[..m - 1], e);
      if Copied(e) {
        CopiesNext(log, first, m - 1);
        NewRows(log, m - 1, mine, forked);
      } else {
        OtherKeepsRows(log, m - 1, mine, forked);
      }
    }
  }

  lemma CopiesNext(log: seq<Event>, first: Event, k: nat)
    requires WellFormed(log) && k < |log| && Copied(log[k])
    ensures Project([first] + Copies(log, k + 1)) == ProjectOne(Project([first] + Copies(log, k)), Image(log, log[k]))
  {
    ProjectSnoc([first] + Copies(log, k), Image(log, log[k]));
    Core.Regroup([first], Copies(log, k), [Image(log, log[k])]);
  }

  lemma NewRows(log: seq<Event>, k: nat, mine: map<nat, string>, forked: map<nat, string>)
    requires WellFormed(log) && k < |log| && Copied(log[k]) && SameRows(log, k, mine, forked)
    ensures SameRows(log, k + 1, ProjectOne(mine, log[k]), ProjectOne(forked, Image(log, log[k])))
  {
    var e := log[k];
    assert SeqOf(e) == k;
    if e.MessageAppended? {
      AppendKeepsRows(log, k, mine, forked, e.body);
    } else if e.Compacted? {
      assert RangeOk(log, e);
      CompactedRows(log, k, mine, forked);
    } else {
      OtherKeepsRows(log, k, mine, forked);
    }
  }

  lemma CompactedRows(log: seq<Event>, k: nat, mine: map<nat, string>, forked: map<nat, string>)
    requires k < |log| && log[k].Compacted? && log[k].at == k && RangeOk(log, log[k]) && SameRows(log, k, mine, forked)
    ensures SameRows(log, k + 1, ProjectOne(mine, log[k]), ProjectOne(forked, Image(log, log[k])))
  {
    var e := log[k];
    DeleteKeepsRows(log, k, mine, forked, e);
    AppendKeepsRows(log, k, Without(mine, e.start, e.end),
                    Without(forked, NewSeq(log, e.start), NewSeq(log, e.end)), e.summary);
  }

  lemma {:induction false} SameTranscript(log: seq<Event>, m: nat, mine: map<nat, string>, forked: map<nat, string>, j: nat)
    requires j <= m <= |log| && SameRows(log, m, mine, forked)
    ensures Transcript(mine, j) == Transcript(forked, |Rows(log, j)| + 1)
    decreases j
  {
    if j == 0 {
      assert Transcript(forked, 1) == Transcript(forked, 0);
    } else {
      SameTranscript(log, m, mine, forked, j - 1);
      if Copied(log[j - 1]) {
        assert NewSeq(log, j - 1) == |Rows(log, j)|;
      }
    }
  }

  /** A fork shows exactly the messages its origin showed at the fork point, in the same order. */
  lemma ForkKeepsTranscript(log: seq<Event>, origin: string, originSeq: nat)
    requires WellFormed(log)
    ensures var f, m := Forked(log, origin, originSeq), Upto(log, originSeq);
            Transcript(Project(f), |f|) == Transcript(Project(log[..m]), m)
  {
    var f, m := Forked(log, origin, originSeq), Upto(log, originSeq);
    ForkedIsCopies(log, origin, originSeq);
    CopiesLength(log, m);
    RowsSurvive(log, f[0], m);
    SameTranscript(log, m, Project(log[..m]), Project(f), m);
  }

  lemma ProjectSnoc(log: seq<Event>, e: Event)
    ensures Project(log + [e]) == ProjectOne(Project(log), e)
  {
    assert (log + [e])[..|log|] == log;
  }

  // ----- endpoints that are not copied -----

  /** Where an endpoint of a copied range lands: an uncopied one keeps its number. */
  function Landing(log: seq<Event>, s: nat): nat
    requires s < |log|
  {
    if Copied(log[s]) then NewSeq(log, s) else s
  }

  lemma LandingIsMapped(log: seq<Event>, m: nat, s: nat)
    requires s < m <= |log| && forall k :: 0 <= k < |log| ==> SeqOf(log[k]) == k
    ensures Mapped(SeqMap(Rows(log, m)), s) == Landing(log, s)
  {
    SeqMapIs(log, m);
  }

  /** Of the copied events before the k-th, the fork's range takes exactly the images of those the origin's took. */
  ghost predicate RangeKept(log: seq<Event>, start: nat, end: nat, k: nat)
    requires start <= end < k <= |log|
  {
    forall x {:trigger NewSeq(log, x)} :: 0 <= x < k && Copied(log[x]) ==>
      (start <= x <= end <==> Landing(log, start) <= NewSeq(log, x) <= Landing(log, end))
  }

  ghost predicate AllCopied(log: seq<Event>, a: nat, b: nat)
    requires b <= |log|
  {
    forall i :: a <= i < b ==> Copied(log[i])
  }

  ghost predicate NoneCopied(log: seq<Event>, a: nat, b: nat)
    requires b <= |log|
  {
    forall i :: a <= i < b ==> !Copied(log[i])
  }

  /** The condition on the log: which of the events around the endpoints are copied. */
  ghost predicate EndpointsFit(log: seq<Event>, start: nat, end: nat, k: nat)
    requires start <= end < k <= |log|
  {
    if NoneCopied(log, start, end + 1) then |Rows(log, k)| < start
    else
      && (Copied(log[start]) || AllCopied(log, 1, start))
      && (Copied(log[end]) || NoneCopied(log, end + 1, k))
  }

  lemma {:induction false} RowsBelow(log: seq<Event>, j: nat)
    requires 1 <= j <= |log| && !Copied(log[0])
    ensures |Rows(log, j)| <= j - 1
    ensures |Rows(log, j)| == j - 1 <==> AllCopied(log, 1, j)
  {
    if j > 1 {
      RowsBelow(log, j - 1);
    }
  }

  /** The numbers of copied events around a position. */
  lemma NewSeqAround(log: seq<Event>, x: nat, j: nat)
    requires x < |log| && j <= |log| && Copied(log[x])
    ensures if x < j then NewSeq(log, x) <= |Rows(log, j)| else NewSeq(log, x) > |Rows(log, j)|
  {
    if x < j {
      RowsGrow(log, x + 1, j);
    } else {
      RowsGrow(log, j, x);
    }
  }

  lemma FitKeeps(log: seq<Event>, start: nat, end: nat, k: nat, x: nat)
    requires log != [] && !Copied(log[0]) && 1 <= start <= end < k <= |log|
    requires EndpointsFit(log, start, end, k) && x < k && Copied(log[x])
    ensures start <= x <= end <==> Landing(log, start) <= NewSeq(log, x) <= Landing(log, end)
  {
    NewSeqAround(log, x, k);
    NewSeqAround(log, x, start);
    NewSeqAround(log, x, end + 1);
    RowsBelow(log, start);
    RowsBelow(log, end + 1);
    if Copied(log[start]) && x != start {
      NewSeqMonotone(log, if x < start then x else start, if x < start then start else x);
    }
    if Copied(log[end]) && x != end {
      NewSeqMonotone(log, if x < end then x else end, if x < end then end else x);
    }
  }

  /** With nothing copied in the range, its own numbers must name nothing in the fork. */
  lemma LostWhenEmpty(log: seq<Event>, start: nat, end: nat, k: nat)
    requires 1 <= start <= end < k <= |log|
    requires NoneCopied(log, start, end + 1) && |Rows(log, k)| >= start
    ensures !RangeKept(log, start, end, k)
  {
    var x := EveryNumberUsed(log, k, start);
    assert !(start <= x <= end);
  }

  lemma LostAtStart(log: seq<Event>, start: nat, end: nat, k: nat, y: nat)
    requires log != [] && !Copied(log[0]) && 1 <= start <= y <= end < k <= |log|
    requires Copied(log[y]) && !Copied(log[start]) && !AllCopied(log, 1, start)
    ensures !RangeKept(log, start, end, k)
  {
    RowsBelow(log, start);
    NewSeqAround(log, y, start);
    NewSeqAround(log, y, k);
    var x := EveryNumberUsed(log, k, |Rows(log, start)| + 1);
    NewSeqAround(log, x, start);
    if y < x {
      NewSeqMonotone(log, y, x);
    }
    assert start <= x <= end;
  }

  lemma LostAtEnd(log: seq<Event>, start: nat, end: nat, k: nat, y: nat, z: nat)
    requires log != [] && !Copied(log[0]) && 1 <= start <= y <= end < z < k <= |log|
    requires Copied(log[y]) && !Copied(log[end]) && Copied(log[z])
    ensures !RangeKept(log, start, end, k)
  {
    RowsBelow(log, end);
    NewSeqAround(log, z, end + 1);
    NewSeqAround(log, z, k);
    var x := EveryNumberUsed(log, k, |Rows(log, end + 1)| + 1);
    NewSeqAround(log, x, end + 1);
    NewSeqMonotone(log, y, x);
    assert NewSeq(log, x) <= Landing(log, end);
    assert x > end;
  }

  /**
   * Exactly when a copied range keeps what it takes: either nothing in it is copied, and its numbers
   * name no copied event; or each endpoint that is not copied keeps its place all the same, the start
   * because nothing before it was dropped, the end because nothing after it was copied.
   */
  lemma RangeKeptExactly(log: seq<Event>, start: nat, end: nat, k: nat)
    requires log != [] && !Copied(log[0]) && 1 <= start <= end < k <= |log|
    ensures RangeKept(log, start, end, k) <==> EndpointsFit(log, start, end, k)
  {
    if EndpointsFit(log, start, end, k) {
      forall x | 0 <= x < k && Copied(log[x])
        ensures start <= x <= end <==> Landing(log, start) <= NewSeq(log, x) <= Landing(log, end)
      {
        FitKeeps(log, start, end, k, x);
      }
    } else if NoneCopied(log, start, end + 1) {
      LostWhenEmpty(log, start, end, k);
    } else {
      var y :| start <= y <= end && Copied(log[y]);
      if !Copied(log[start]) && !AllCopied(log, 1, start) {
        LostAtStart(log, start, end, k, y);
      } else {
        var z :| end < z < k && Copied(log[z]);
        LostAtEnd(log, start, end, k, y, z);
      }
    }
  }

  const MIXED := [Root, MessageAppended(1, "a"), NotCopied(2, "usage"), MessageAppended(3, "b"), Compacted(4, 1, 2, "s")]

  /**
   * An endpoint that was not copied keeps its old number, which in the fork names another event: here
   * a range ending on a usage record takes one message more than it did in the origin.
   */
  lemma UncopiedEndpointTakesAnotherMessage()
    ensures Transcript(Project(MIXED), 5) == ["b", "s"]
    ensures Transcript(Project(Forked(MIXED, "o", 4)), 4) == ["s"]
  {
    MixedTranscripts(map[3 := "b", 4 := "s"], map[3 := "s"]);
    MixedRows();
    MixedFork();
    MixedForkRows();
  }

  lemma MixedTranscripts(mine: map<nat, string>, forked: map<nat, string>)
    requires mine == map[3 := "b", 4 := "s"] && forked == map[3 := "s"]
    ensures Transcript(mine, 5) == ["b", "s"] && Transcript(forked, 4) == ["s"]
  {
    assert Transcript(mine, 1) == [] && Transcript(mine, 2) == [] && Transcript(mine, 3) == [];
    assert Transcript(mine, 4) == ["b"];
    assert Transcript(forked, 1) == [] && Transcript(forked, 2) == [] && Transcript(forked, 3) == [];
  }

  lemma MixedRows()
    ensures Project(MIXED) == map[3 := "b", 4 := "s"]
  {
    var one := [] + [Root];
    var two := one + [MIXED[1]];
    var three := two + [MIXED[2]];
    var four := three + [MIXED[3]];
    assert MIXED == four + [MIXED[4]];
    ProjectSnoc([], Root);
    ProjectSnoc(one, MIXED[1]);
    ProjectSnoc(two, MIXED[2]);
    ProjectSnoc(three, MIXED[3]);
    ProjectSnoc(four, MIXED[4]);
  }

  lemma MixedFork()
    ensures Forked(MIXED, "o", 4) ==
            [SessionForked("o", 4), MIXED[1], MessageAppended(2, "b"), Compacted(3, 1, 2, "s")]
  {
    assert Rows(MIXED, 2) == [MIXED[1]] && Rows(MIXED, 3) == [MIXED[1]];
    assert Rows(MIXED, 4) == [MIXED[1], MIXED[3]];
    var rows := Rows(MIXED, 5);
    assert rows == [MIXED[1], MIXED[3], MIXED[4]];
    SeqMapIs(MIXED, 5);
    var sm := SeqMap(rows);
    assert 1 in sm && sm[1] == 1 && 2 !in sm;
    assert Remapped(rows, 1, sm) == [MIXED[1]];
    assert Remapped(rows, 2, sm) == [MIXED[1], MessageAppended(2, "b")];
  }

  lemma MixedForkRows()
    ensures Project([SessionForked("o", 4), MIXED[1], MessageAppended(2, "b"), Compacted(3, 1, 2, "s")]) ==
            map[3 := "s"]
  {
    var one := [] + [SessionForked("o", 4)];
    var two := one + [MIXED[1]];
    var three := two + [MessageAppended(2, "b")];
    assert [SessionForked("o", 4), MIXED[1], MessageAppended(2, "b"), Compacted(3, 1, 2, "s")]
        == three + [Compacted(3, 1, 2, "s")];
    ProjectSnoc([], SessionForked("o", 4));
    ProjectSnoc(one, MIXED[1]);
    ProjectSnoc(two, MessageAppended(2, "b"));
    ProjectSnoc(three, Compacted(3, 1, 2, "s"));
  }
}
