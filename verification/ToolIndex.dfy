/**
 * Provider plugins stream chunks by call id; the SDK numbers the calls, the host decodes the chunks
 * and the assembler groups them by number again.
 */
module ToolIndex {
  import opened Core
  import opened Keyed
  import opened Assembly

  const WIDTH: nat := 0x1_0000_0000

  /** The "kind" strings of chunk bodies; other names are ignored by the host, a missing one is an error. */
  datatype Kind = TextKind | ThinkingKind | StartKind | DeltaKind | UsageKind | InputTokensKind | OtherKind | NoKind

  /** A chunk body on the wire; a field the sender leaves out reads as 0 or "". */
  datatype Body = Body(kind: Kind, idx: nat, callId: string, name: string, text: string, argsJson: string)

  datatype Op =
    | SendText(text: string)
    | SendThinking(thinking: string)
    | SendStart(id: CallId, name: string, args: string)
    | SendDelta(id: CallId, args: string)
    | SendInputTokens(count: nat)

  /** The sender's state as a value. */
  datatype Sender = Sender(idOf: map<CallId, nat>, next: nat, wire: seq<Body>)

  const FRESH := Sender(map[], 0, [])

  function Assign(s: Sender, id: CallId): Sender {
    if id in s.idOf then s else s.(idOf := s.idOf[id := s.next], next := (s.next + 1) % WIDTH)
  }

  /** The body an operation puts on the wire, given the call's index. */
  function BodyOf(op: Op, idx: nat): Body {
    match op
    case SendText(text) => Body(TextKind, 0, "", "", text, "")
    case SendThinking(thinking) => Body(ThinkingKind, 0, "", "", thinking, "")
    case SendStart(id, name, args) => Body(StartKind, idx, id, name, "", args)
    case SendDelta(id, args) => Body(DeltaKind, idx, id, "", "", args)
    case SendInputTokens(_) => Body(InputTokensKind, 0, "", "", "", "")
  }

  function Apply(s: Sender, op: Op): Sender {
    if op.SendStart? || op.SendDelta? then
      var a := Assign(s, op.id);
      a.(wire := a.wire + [BodyOf(op, a.idOf[op.id])])
    else s.(wire := s.wire + [BodyOf(op, 0)])
  }

  function Play(ops: seq<Op>): Sender {
    if ops == [] then FRESH else Apply(Play(ops[..|ops| - 1]), ops[|ops| - 1])
  }

  class ChunkSender {
    var callIdToIdx: map<CallId, nat>
    var nextToolIdx: nat
    var wire: seq<Body>

    function State(): Sender
      reads this
    {
      Sender(callIdToIdx, nextToolIdx, wire)
    }

    constructor ()
      ensures State() == FRESH
    {
      callIdToIdx, nextToolIdx, wire := map[], 0, [];
    }

    method GetOrAssignIdx(id: CallId) returns (idx: nat)
      modifies this
      ensures State() == Assign(old(State()), id) && id in callIdToIdx && idx == callIdToIdx[id]
    {
      if id in callIdToIdx {
        return callIdToIdx[id];
      }
      idx := nextToolIdx;
      nextToolIdx := (nextToolIdx + 1) % WIDTH;
      callIdToIdx := callIdToIdx[id := idx];
    }

    method TextDelta(text: string)
      modifies this
      ensures State() == Apply(old(State()), SendText(text))
    {
      wire := wire + [Body(TextKind, 0, "", "", text, "")];
    }

    method ThinkingDelta(thinking: string)
      modifies this
      ensures State() == Apply(old(State()), SendThinking(thinking))
    {
      wire := wire + [Body(ThinkingKind, 0, "", "", thinking, "")];
    }

    method ToolUseStart(id: CallId, name: string, args: string)
      modifies this
      ensures State() == Apply(old(State()), SendStart(id, name, args))
    {
      var idx := GetOrAssignIdx(id);
      wire := wire + [Body(StartKind, idx, id, name, "", args)];
    }

    method ToolUseDelta(id: CallId, args: string)
      modifies this
      ensures State() == Apply(old(State()), SendDelta(id, args))
    {
      var idx := GetOrAssignIdx(id);
      wire := wire + [Body(DeltaKind, idx, id, "", "", args)];
    }

    method InputTokens(count: nat)
      modifies this
      ensures State() == Apply(old(State()), SendInputTokens(count))
    {
      wire := wire + [Body(InputTokensKind, 0, "", "", "", "")];
    }
  }

  // ----- the host's side -----

  /** The index is cast to 32 bits; the arguments a start carries are not decoded. */
  function DecodeChunkBody(b: Body): Result<Option<Chunk>, ProvErr> {
    var idx := b.idx % WIDTH;
    match b.kind
    case TextKind => Ok(Some(TextChunk(idx, b.text)))
    case ThinkingKind => Ok(Some(ThinkingChunk(idx, b.text)))
    case StartKind => Ok(Some(ToolStart(idx, b.callId, b.name)))
    case DeltaKind => Ok(Some(ToolArgs(idx, b.argsJson)))
    case UsageKind => Ok(Some(UsageChunk(NO_USAGE)))
    case InputTokensKind => Ok(Some(UsageChunk(NO_USAGE)))
    case OtherKind => Ok(None)
    case NoKind => Err(NO_KIND)
  }

  const NO_USAGE := Usage(NO_TOKENS, ModelRef("", ""))
  const NO_KIND := Failed("chunk body missing 'kind'")

  /** The chunks the bodies decode to, usage left for the end; the first bad body ends it. */
  function Decoded(bodies: seq<Body>): Result<seq<Chunk>, ProvErr> {
    if bodies == [] then Ok([])
    else
      var before := Decoded(bodies[..|bodies| - 1]);
      if before.Err? then before
      else
        match DecodeChunkBody(bodies[|bodies| - 1])
        case Err(e) => Err(e)
        case Ok(None) => before
        case Ok(Some(c)) => if c.UsageChunk? then before else Ok(before.value + [c])
  }

  /** What a finished stream yields, given the plugin's closing body. */
  function Streamed(bodies: seq<Body>, done: Result<(Usage, StopReason), ProvErr>): Result<seq<Chunk>, ProvErr> {
    var d := Decoded(bodies);
    if d.Err? then d
    else
      match done
      case Err(e) => Err(e)
      case Ok((usage, stop)) => Ok(d.value + [UsageChunk(usage)] + [StopChunk(stop)])
  }

  method Stream(bodies: seq<Body>, done: Result<(Usage, StopReason), ProvErr>)
    returns (r: Result<seq<Chunk>, ProvErr>)
    ensures r == Streamed(bodies, done)
  {
    var chunks: seq<Chunk> := [];
    var streamErr: Option<ProvErr> := None;
    for i := 0 to |bodies|
      invariant Decoded(bodies[..i]) == if streamErr.Some? then Err(streamErr.value) else Ok(chunks)
    {
      assert bodies[..i + 1][..i] == bodies[..i];
      if streamErr.None? {
        match DecodeChunkBody(bodies[i]) {
          case Err(e) => streamErr := Some(e);
          case Ok(None) =>
          case Ok(Some(c)) =>
            if !c.UsageChunk? {
              chunks := chunks + [c];
            }
        }
      }
    }
    assert bodies[..|bodies|] == bodies;
    if streamErr.Some? {
      return Err(streamErr.value);
    }
    match done {
      case Err(e) => return Err(e);
      case Ok((usage, stop)) =>
        chunks := chunks + [UsageChunk(usage)];
        chunks := chunks + [StopChunk(stop)];
        return Ok(chunks);
    }
  }

  // ----- what the plugin author meant -----

  type StartOp = op: Op | op.SendStart? witness SendStart("", "", "")

  function StartsIn(ops: seq<Op>): seq<StartOp> {
    if ops == [] then []
    else
      var init, op := StartsIn(ops[..|ops| - 1]), ops[|ops| - 1];
      if op.SendStart? then init + [op] else init
  }

  predicate Started(ops: seq<Op>, id: CallId) {
    ops != [] && (Started(ops[..|ops| - 1], id) || (ops[|ops| - 1].SendStart? && ops[|ops| - 1].id == id))
  }

  /** Every call is started once, before its fragments, with no initial arguments. */
  predicate Disciplined(ops: seq<Op>) {
    ops == [] ||
    (var init, op := ops[..|ops| - 1], ops[|ops| - 1];
     && Disciplined(init)
     && (op.SendStart? ==> !Started(init, op.id) && op.args == "")
     && (op.SendDelta? ==> Started(init, op.id)))
  }

  function DeltasOf(ops: seq<Op>, id: CallId): seq<string> {
    if ops == [] then []
    else
      var init, op := DeltasOf(ops[..|ops| - 1], id), ops[|ops| - 1];
      if op.SendDelta? && op.id == id then init + [op.args] else init
  }

  function TextsOf(ops: seq<Op>): seq<string> {
    if ops == [] then []
    else
      var init, op := TextsOf(ops[..|ops| - 1]), ops[|ops| - 1];
      if op.SendText? then init + [op.text] else init
  }

  function ThinksOf(ops: seq<Op>): seq<string> {
    if ops == [] then []
    else
      var init, op := ThinksOf(ops[..|ops| - 1]), ops[|ops| - 1];
      if op.SendThinking? then init + [op.thinking] else init
  }

  function CallOf(ops: seq<Op>, start: StartOp): Content {
    ToolCall(start.id, start.name, ArgsOrEmpty(Concat(DeltasOf(ops, start.id))))
  }

  /** The calls from the k-th start on, each with its own fragments joined. */
  function CallsFrom(ops: seq<Op>, k: nat): seq<Content>
    requires k <= |StartsIn(ops)|
    decreases |StartsIn(ops)| - k
  {
    if k == |StartsIn(ops)| then [] else [CallOf(ops, StartsIn(ops)[k])] + CallsFrom(ops, k + 1)
  }

  /** The message the plugin author meant to send. */
  function Intended(ops: seq<Op>): seq<Content> {
    var text, thought := Concat(TextsOf(ops)), Concat(ThinksOf(ops));
    (if text == "" then [] else [Text(text)])
    + (if thought == "" then [] else [Thinking(thought)])
    + CallsFrom(ops, 0)
  }

  // ----- indices are stable and distinct -----

  /** The index of a started call is its position among the starts. */
  ghost predicate Numbered(s: Sender, starts: seq<StartOp>) {
    && s.next == |starts| % WIDTH
    && (forall k :: 0 <= k < |starts| ==> starts[k].id in s.idOf && s.idOf[starts[k].id] == k)
    && (forall id :: id in s.idOf ==> s.idOf[id] < |starts| && starts[s.idOf[id]].id == id)
  }

  lemma {:induction false} StartedIsIn(ops: seq<Op>, id: CallId)
    requires Started(ops, id)
    ensures exists k :: 0 <= k < |StartsIn(ops)| && StartsIn(ops)[k].id == id
  {
    var init := ops[..|ops| - 1];
    if Started(init, id) {
      StartedIsIn(init, id);
      var k :| 0 <= k < |StartsIn(init)| && StartsIn(init)[k].id == id;
      assert StartsIn(ops)[k].id == id;
    } else {
      assert StartsIn(ops)[|StartsIn(init)|].id == id;
    }
  }

  lemma {:induction false} InStarted(ops: seq<Op>, k: nat)
    requires k < |StartsIn(ops)|
    ensures Started(ops, StartsIn(ops)[k].id)
  {
    var init := ops[..|ops| - 1];
    if k < |StartsIn(init)| {
      InStarted(init, k);
    }
  }

  /** Distinct calls get distinct indices, and an index never changes: position among the starts. */
  lemma {:induction false} IndicesArePositions(ops: seq<Op>)
    requires Disciplined(ops) && |StartsIn(ops)| <= WIDTH
    ensures Numbered(Play(ops), StartsIn(ops))
  {
    if ops != [] {
      var init, op := ops[..|ops| - 1], ops[|ops| - 1];
      IndicesArePositions(init);
      var s, starts := Play(init), StartsIn(init);
      if op.SendStart? && op.id in s.idOf {
        InStarted(init, s.idOf[op.id]);
        assert false;
      } else if op.SendDelta? {
        StartedIsIn(init, op.id);
      }
    }
  }

  // ----- the streams the assembler sees -----

  lemma DecodedSnoc(bodies: seq<Body>, b: Body, c: Chunk)
    requires Decoded(bodies).Ok? && DecodeChunkBody(b) == Ok(Some(c))
    ensures Decoded(bodies + [b]) == if c.UsageChunk? then Decoded(bodies) else Ok(Decoded(bodies).value + [c])
  {
    assert (bodies + [b])[..|bodies|] == bodies;
  }

  /** The chunk one operation arrives as. */
  function ChunkOf(op: Op, idx: nat): Chunk {
    match op
    case SendText(text) => TextChunk(0, text)
    case SendThinking(thinking) => ThinkingChunk(0, thinking)
    case SendStart(id, name, _) => ToolStart(idx, id, name)
    case SendDelta(_, args) => ToolArgs(idx, args)
    case SendInputTokens(_) => UsageChunk(NO_USAGE)
  }

  lemma OpDecodes(op: Op, idx: nat)
    requires idx < WIDTH
    ensures DecodeChunkBody(BodyOf(op, idx)) == Ok(Some(ChunkOf(op, idx)))
  {
  }

  /** The index an operation is sent with: its call's. */
  function IndexOf(ops: seq<Op>, op: Op): nat {
    var s := Play(ops);
    if (op.SendStart? || op.SendDelta?) && op.id in s.idOf then s.idOf[op.id] else 0
  }

  lemma PlaySnoc(ops: seq<Op>, op: Op)
    requires Disciplined(ops + [op]) && |StartsIn(ops + [op])| <= WIDTH
    ensures Play(ops + [op]).wire == Play(ops).wire + [BodyOf(op, IndexOf(ops + [op], op))]
    ensures IndexOf(ops + [op], op) < WIDTH
    ensures op.SendStart? || op.SendDelta? ==> op.id in Play(ops + [op]).idOf
  {
    assert (ops + [op])[..|ops|] == ops;
    IndicesArePositions(ops + [op]);
  }

  lemma {:induction false} AllDecode(ops: seq<Op>)
    requires Disciplined(ops) && |StartsIn(ops)| <= WIDTH
    ensures Decoded(Play(ops).wire).Ok?
  {
    if ops != [] {
      var init, op := ops[..|ops| - 1], ops[|ops| - 1];
      assert ops == init + [op];
      AllDecode(init);
      PlaySnoc(init, op);
      var idx := IndexOf(ops, op);
      OpDecodes(op, idx);
      DecodedSnoc(Play(init).wire, BodyOf(op, idx), ChunkOf(op, idx));
    }
  }

  function ChunksOf(ops: seq<Op>): seq<Chunk>
    requires Disciplined(ops) && |StartsIn(ops)| <= WIDTH
  {
    AllDecode(ops);
    Decoded(Play(ops).wire).value
  }

  lemma ChunksOfSnoc(ops: seq<Op>, op: Op)
    requires Disciplined(ops) && |StartsIn(ops)| <= WIDTH
    requires Disciplined(ops + [op]) && |StartsIn(ops + [op])| <= WIDTH
    ensures ChunksOf(ops + [op]) ==
            if op.SendInputTokens? then ChunksOf(ops)
            else ChunksOf(ops) + [ChunkOf(op, IndexOf(ops + [op], op))]
  {
    AllDecode(ops);
    PlaySnoc(ops, op);
    var idx := IndexOf(ops + [op], op);
    OpDecodes(op, idx);
    DecodedSnoc(Play(ops).wire, BodyOf(op, idx), ChunkOf(op, idx));
  }

  ghost predicate TextArrives(ops: seq<Op>, cs: seq<Chunk>) {
    && TextStream(cs, 0) == TextsOf(ops) && ThinkStream(cs, 0) == ThinksOf(ops)
    && (forall k :: k > 0 ==> TextStream(cs, k) == [] && ThinkStream(cs, k) == [])
  }

  /** Index k carries exactly the k-th call: its start, then its own fragments. */
  ghost predicate CallArrives(ops: seq<Op>, stream: seq<Chunk>, k: nat) {
    if k < |StartsIn(ops)| then
      var start := StartsIn(ops)[k];
      Starts(stream) == [ToolStart(k, start.id, start.name)] && LiveArgs(stream) == Concat(DeltasOf(ops, start.id))
    else stream == []
  }

  lemma {:induction false} TextsArrive(ops: seq<Op>)
    requires Disciplined(ops) && |StartsIn(ops)| <= WIDTH
    ensures TextArrives(ops, ChunksOf(ops))
  {
    if ops != [] {
      var init, op := ops[..|ops| - 1], ops[|ops| - 1];
      assert ops == init + [op];
      TextsArrive(init);
      ChunksOfSnoc(init, op);
      var before := ChunksOf(init);
      if !op.SendInputTokens? {
        assert ChunksOf(ops)[..|before|] == before;
      }
    }
  }

  lemma {:induction false} NoDeltasBeforeStart(ops: seq<Op>, id: CallId)
    requires Disciplined(ops) && !Started(ops, id)
    ensures DeltasOf(ops, id) == []
  {
    if ops != [] {
      NoDeltasBeforeStart(ops[..|ops| - 1], id);
    }
  }

  lemma StreamSnoc(cs: seq<Chunk>, c: Chunk, k: nat)
    ensures ToolStream(cs + [c], k) ==
            if (c.ToolStart? || c.ToolArgs?) && c.idx == k then ToolStream(cs, k) + [c] else ToolStream(cs, k)
  {
    assert (cs + [c])[..|cs|] == cs;
  }

  lemma StartArrives(init: seq<Op>, op: StartOp, stream: seq<Chunk>, k: nat, idx: nat)
    requires Disciplined(init + [op]) && CallArrives(init, stream, k) && idx == |StartsIn(init)|
    ensures CallArrives(init + [op], if k == idx then stream + [ToolStart(idx, op.id, op.name)] else stream, k)
  {
    var ops := init + [op];
    assert ops[..|init|] == init;
    if k == idx {
      NoDeltasBeforeStart(init, op.id);
      var c := ToolStart(idx, op.id, op.name);
      assert ([] + [c])[..0] == [] && [] + [c] == [c];
    }
  }

  lemma DeltaArrives(init: seq<Op>, op: Op, stream: seq<Chunk>, k: nat, idx: nat)
    requires op.SendDelta? && Disciplined(init + [op]) && CallArrives(init, stream, k)
    requires idx < |StartsIn(init)| && StartsIn(init)[idx].id == op.id
    requires k < |StartsIn(init)| && k != idx ==> StartsIn(init)[k].id != op.id
    ensures CallArrives(init + [op], if k == idx then stream + [ToolArgs(idx, op.args)] else stream, k)
  {
    var ops := init + [op];
    assert ops[..|init|] == init;
    if k == idx {
      var c := ToolArgs(idx, op.args);
      assert (stream + [c])[..|stream|] == stream;
      ConcatSnoc(DeltasOf(init, op.id), op.args);
    }
  }

  lemma StartIndex(init: seq<Op>, op: StartOp)
    requires Disciplined(init + [op]) && |StartsIn(init + [op])| <= WIDTH
    ensures IndexOf(init + [op], op) == |StartsIn(init)|
  {
    var ops := init + [op];
    assert ops[..|init|] == init;
    IndicesArePositions(ops);
    assert StartsIn(ops)[|StartsIn(init)|] == op;
  }

  lemma DeltaIndex(init: seq<Op>, op: Op)
    requires op.SendDelta? && Disciplined(init + [op]) && |StartsIn(init + [op])| <= WIDTH
    ensures var idx := IndexOf(init + [op], op);
            && idx < |StartsIn(init)| && StartsIn(init)[idx].id == op.id
            && (forall k :: 0 <= k < |StartsIn(init)| && k != idx ==> StartsIn(init)[k].id != op.id)
  {
    var ops := init + [op];
    assert ops[..|init|] == init;
    IndicesArePositions(ops);
    StartedIsIn(init, op.id);
  }

  lemma {:induction false} CallsArrive(ops: seq<Op>, k: nat)
    requires Disciplined(ops) && |StartsIn(ops)| <= WIDTH
    ensures CallArrives(ops, ToolStream(ChunksOf(ops), k), k)
  {
    if ops != [] {
      var init, op := ops[..|ops| - 1], ops[|ops| - 1];
      assert ops == init + [op];
      CallsArrive(init, k);
      ChunksOfSnoc(init, op);
      NextArrives(init, op, ChunksOf(init), k, IndexOf(ops, op));
    }
  }

  lemma NextArrives(init: seq<Op>, op: Op, cs: seq<Chunk>, k: nat, idx: nat)
    requires Disciplined(init + [op]) && |StartsIn(init + [op])| <= WIDTH && idx == IndexOf(init + [op], op)
    requires CallArrives(init, ToolStream(cs, k), k)
    ensures CallArrives(init + [op],
                        ToolStream(if op.SendInputTokens? then cs else cs + [ChunkOf(op, idx)], k), k)
  {
    var stream := ToolStream(cs, k);
    StreamSnoc(cs, ChunkOf(op, idx), k);
    if op.SendStart? {
      StartIndex(init, op);
      StartArrives(init, op, stream, k, idx);
    } else if op.SendDelta? {
      DeltaIndex(init, op);
      DeltaArrives(init, op, stream, k, idx);
    } else {
      assert (init + [op])[..|init|] == init;
    }
  }

  // ----- the round trip -----

  lemma OneCall(stream: seq<Chunk>, k: nat, start: StartOp, args: string)
    requires Starts(stream) == [ToolStart(k, start.id, start.name)]
    ensures Calls(ToolsFrom(Starts(stream), k, args)) == [ToolCall(start.id, start.name, ArgsOrEmpty(args))]
  {
    var starts := Starts(stream);
    assert starts[1..] == [];
    assert ToolsFrom(starts, k, args) == [Entry(k, ToolAccum(start.id, start.name, args))];
  }

  lemma {:induction false} ToolBlocksAre(ops: seq<Op>, cs: seq<Chunk>, k: nat)
    requires k <= |StartsIn(ops)|
    requires forall j :: CallArrives(ops, ToolStream(cs, j), j)
    ensures ToolBlocks(ToolOf(cs), k, |StartsIn(ops)|) == CallsFrom(ops, k)
    decreases |StartsIn(ops)| - k
  {
    if k < |StartsIn(ops)| {
      var stream, start := ToolStream(cs, k), StartsIn(ops)[k];
      assert CallArrives(ops, stream, k);
      OneCall(stream, k, start, LiveArgs(stream));
      ToolBlocksAre(ops, cs, k + 1);
    }
  }

  /** Usage and stop are appended last and touch no stream. */
  lemma ClosingStreams(cs: seq<Chunk>, usage: Usage, stop: StopReason, k: nat)
    ensures var all := cs + [UsageChunk(usage)] + [StopChunk(stop)];
            && TextStream(all, k) == TextStream(cs, k) && ThinkStream(all, k) == ThinkStream(cs, k)
            && ToolStream(all, k) == ToolStream(cs, k)
            && LastUsage(all) == Some(usage) && LastStop(all) == stop
  {
    var one := cs + [UsageChunk(usage)];
    var all := one + [StopChunk(stop)];
    assert one[..|cs|] == cs && all[..|one|] == one;
  }

  lemma {:induction false} QuietText(cs: seq<Chunk>, lo: nat, hi: nat)
    requires 0 < lo <= hi
    requires forall k :: k > 0 ==> TextStream(cs, k) == [] && ThinkStream(cs, k) == []
    ensures TextBlocks(TextOf(cs), lo, hi) == [] && ThinkBlocks(ThinkOf(cs), lo, hi) == []
    decreases hi - lo
  {
    if lo < hi {
      QuietText(cs, lo + 1, hi);
    }
  }

  lemma {:induction false} QuietTools(cs: seq<Chunk>, lo: nat, hi: nat)
    requires lo <= hi && forall k :: lo <= k ==> ToolStream(cs, k) == []
    ensures ToolBlocks(ToolOf(cs), lo, hi) == []
    decreases hi - lo
  {
    if lo < hi {
      QuietTools(cs, lo + 1, hi);
    }
  }

  lemma {:induction false} ToolBlocksSplit(stream: nat -> seq<Chunk>, lo: nat, mid: nat, hi: nat)
    requires lo <= mid <= hi
    ensures ToolBlocks(stream, lo, hi) == ToolBlocks(stream, lo, mid) + ToolBlocks(stream, mid, hi)
    decreases mid - lo
  {
    if lo < mid {
      ToolBlocksSplit(stream, lo + 1, mid, hi);
    }
  }

  lemma ToolsSide(ops: seq<Op>, cs: seq<Chunk>, hi: nat)
    requires hi > |StartsIn(ops)|
    requires forall k :: CallArrives(ops, ToolStream(cs, k), k)
    ensures ToolBlocks(ToolOf(cs), 0, hi) == CallsFrom(ops, 0)
  {
    var n := |StartsIn(ops)|;
    ToolBlocksAre(ops, cs, 0);
    forall k | n <= k ensures ToolStream(cs, k) == [] {
      assert CallArrives(ops, ToolStream(cs, k), k);
    }
    QuietTools(cs, n, hi);
    ToolBlocksSplit(ToolOf(cs), 0, n, hi);
  }

  lemma TextSide(ops: seq<Op>, cs: seq<Chunk>, hi: nat)
    requires hi > 0 && TextArrives(ops, cs)
    ensures var text := Concat(TextsOf(ops));
            TextBlocks(TextOf(cs), 0, hi) == if text == "" then [] else [Text(text)]
    ensures var thought := Concat(ThinksOf(ops));
            ThinkBlocks(ThinkOf(cs), 0, hi) == if thought == "" then [] else [Thinking(thought)]
  {
    QuietText(cs, 1, hi);
  }

  lemma ReferenceIsIntended(ops: seq<Op>, cs: seq<Chunk>, hi: nat)
    requires hi > |StartsIn(ops)| && TextArrives(ops, cs)
    requires forall k :: CallArrives(ops, ToolStream(cs, k), k)
    ensures Reference(cs, hi) == Intended(ops)
  {
    TextSide(ops, cs, hi);
    ToolsSide(ops, cs, hi);
  }

  /**
   * From the plugin author's calls to the host's message: whatever the interleaving, the text and
   * thinking deltas join up and the tool calls come in start order, each with its own fragments.
   */
  lemma SdkToMessage(ops: seq<Op>, usage: Usage, stop: StopReason, valid: string -> bool)
    requires Disciplined(ops) && |StartsIn(ops)| <= WIDTH
    ensures var chunks := Streamed(Play(ops).wire, Ok((usage, stop)));
            chunks.Ok? && Finish(Fold(chunks.value), valid) == Deliver(Intended(ops), Some(usage), stop, valid)
  {
    AllDecode(ops);
    TextsArrive(ops);
    var cs := ChunksOf(ops);
    var all := cs + [UsageChunk(usage)] + [StopChunk(stop)];
    forall k: nat
      ensures CallArrives(ops, ToolStream(all, k), k)
      ensures TextStream(all, k) == TextStream(cs, k) && ThinkStream(all, k) == ThinkStream(cs, k)
    {
      CallsArrive(ops, k);
      ClosingStreams(cs, usage, stop, k);
    }
    ClosingStreams(cs, usage, stop, 0);
    var bound, n := IndexBound(all), |StartsIn(ops)|;
    var hi := if bound > n then bound else n + 1;
    FinishIsReference(all, hi, valid);
    ReferenceIsIntended(ops, all, hi);
  }
}
