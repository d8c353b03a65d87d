/**
 * Chunk assembly: a provider stream interleaves text, thinking and tool-call fragments, each
 * tagged with an index. `Assemble` is the streaming accumulator; `Reference` says what the
 * message is, index by index, without any accumulator.
 */
module Assembly {
  import opened Core
  import opened Keyed

  datatype Chunk =
    | TextChunk(idx: nat, delta: string)
    | ThinkingChunk(idx: nat, delta: string)
    | ToolStart(idx: nat, id: CallId, name: string)
    | ToolArgs(idx: nat, delta: string)
    | UsageChunk(usage: Usage)
    | StopChunk(stop: StopReason)

  datatype ToolAccum = ToolAccum(id: CallId, name: string, args: string)

  datatype Acc = Acc(text: seq<Entry<string>>, think: seq<Entry<string>>, tools: seq<Entry<ToolAccum>>,
                     usage: Option<Usage>, stop: StopReason)

  const START := Acc([], [], [], None, Stop)

  datatype Assembled = Assembled(message: Message, usage: Usage, stop: StopReason, usageReported: bool)

  /** The live events that mirror the stream while it is being assembled. */
  datatype Delta = TextDelta(idx: nat, delta: string) | ThinkingDelta(idx: nat, delta: string)
                 | ToolArgsDelta(idx: nat, delta: string)

  // ---- the accumulator ----

  /** Extend the first part of stream `idx`, or open it. */
  function AppendPart(parts: seq<Entry<string>>, idx: nat, delta: string): seq<Entry<string>> {
    if parts == [] then [Entry(idx, delta)]
    else if parts[0].key == idx then [Entry(idx, parts[0].val + delta)] + parts[1..]
    else [parts[0]] + AppendPart(parts[1..], idx, delta)
  }

  /** Extend the arguments of the first tool of stream `idx`; a fragment without a tool is dropped. */
  function AppendArgs(tools: seq<Entry<ToolAccum>>, idx: nat, delta: string): seq<Entry<ToolAccum>> {
    if tools == [] then []
    else if tools[0].key == idx then
      [Entry(idx, tools[0].val.(args := tools[0].val.args + delta))] + tools[1..]
    else [tools[0]] + AppendArgs(tools[1..], idx, delta)
  }

  function Step(acc: Acc, c: Chunk): Acc {
    match c
    case TextChunk(i, d) => acc.(text := AppendPart(acc.text, i, d))
    case ThinkingChunk(i, d) => acc.(think := AppendPart(acc.think, i, d))
    case ToolStart(i, id, name) => acc.(tools := acc.tools + [Entry(i, ToolAccum(id, name, ""))])
    case ToolArgs(i, d) => acc.(tools := AppendArgs(acc.tools, i, d))
    case UsageChunk(u) => acc.(usage := Some(u))
    case StopChunk(s) => acc.(stop := s)
  }

  function Fold(cs: seq<Chunk>): Acc {
    if cs == [] then START else Step(Fold(cs[..|cs| - 1]), cs[|cs| - 1])
  }

  function Texts(parts: seq<Entry<string>>): seq<Content> {
    if parts == [] then []
    else (if parts[0].val == "" then [] else [Text(parts[0].val)]) + Texts(parts[1..])
  }

  function Thoughts(parts: seq<Entry<string>>): seq<Content> {
    if parts == [] then []
    else (if parts[0].val == "" then [] else [Thinking(parts[0].val)]) + Thoughts(parts[1..])
  }

  /** A call whose arguments never streamed carries the empty object. */
  function ArgsOrEmpty(args: string): string {
    if args == "" then "{}" else args
  }

  function Calls(tools: seq<Entry<ToolAccum>>): seq<Content> {
    if tools == [] then []
    else [ToolCall(tools[0].val.id, tools[0].val.name, ArgsOrEmpty(tools[0].val.args))] + Calls(tools[1..])
  }

  function BlocksOf(acc: Acc): seq<Content> {
    Texts(StableSort(acc.text)) + Thoughts(StableSort(acc.think)) + Calls(StableSort(acc.tools))
  }

  /** Every tool call of the message carries parseable arguments. */
  predicate AllValid(content: seq<Content>, valid: string -> bool) {
    forall c :: c in content && c.ToolCall? ==> valid(c.argsJson)
  }

  function Deliver(content: seq<Content>, usage: Option<Usage>, stop: StopReason, valid: string -> bool)
    : Result<Assembled, ProvErr>
  {
    if !AllValid(content, valid) then Err(Truncated)
    else Ok(Assembled(Message(Assistant, content),
                      if usage.Some? then usage.value else Usage(NO_TOKENS, ModelRef("", "")),
                      stop, usage.Some?))
  }

  function Finish(acc: Acc, valid: string -> bool): Result<Assembled, ProvErr> {
    Deliver(BlocksOf(acc), acc.usage, acc.stop, valid)
  }

  /** How many leading items of the stream are chunks. */
  function GoodPrefix(input: seq<Result<Chunk, ProvErr>>): (n: nat)
    ensures n <= |input|
    ensures forall i :: 0 <= i < n ==> input[i].Ok?
    ensures n < |input| ==> input[n].Err?
  {
    if input == [] || input[0].Err? then 0 else 1 + GoodPrefix(input[1..])
  }

  function Chunks(input: seq<Result<Chunk, ProvErr>>): (cs: seq<Chunk>)
    ensures |cs| == GoodPrefix(input)
    ensures forall i :: 0 <= i < |cs| ==> cs[i] == input[i].value
  {
    seq(GoodPrefix(input), i requires 0 <= i < GoodPrefix(input) => input[i].value)
  }

  function AssembleSpec(input: seq<Result<Chunk, ProvErr>>, valid: string -> bool): Result<Assembled, ProvErr> {
    var n := GoodPrefix(input);
    if n < |input| then Err(input[n].error) else Finish(Fold(Chunks(input)), valid)
  }

  function Mirror(c: Chunk): seq<Delta> {
    match c
    case TextChunk(i, d) => [TextDelta(i, d)]
    case ThinkingChunk(i, d) => [ThinkingDelta(i, d)]
    case ToolArgs(i, d) => [ToolArgsDelta(i, d)]
    case _ => []
  }

  function Mirrored(cs: seq<Chunk>): seq<Delta> {
    if cs == [] then [] else Mirrored(cs[..|cs| - 1]) + Mirror(cs[|cs| - 1])
  }

  /** The streaming loop: one pass, mutable accumulators, stop at the first stream error. */
  method Assemble(input: seq<Result<Chunk, ProvErr>>, valid: string -> bool)
    returns (r: Result<Assembled, ProvErr>, emitted: seq<Delta>)
    ensures r == AssembleSpec(input, valid)
    ensures emitted == Mirrored(Chunks(input))
  {
    var textParts, thinkParts: seq<Entry<string>> := [], [];
    var tools: seq<Entry<ToolAccum>> := [];
    var usage: Option<Usage> := None;
    var stop := Stop;
    emitted := [];
    var i := 0;
    while i < |input|
      invariant 0 <= i <= GoodPrefix(input)
      invariant Acc(textParts, thinkParts, tools, usage, stop) == Fold(Chunks(input)[..i])
      invariant emitted == Mirrored(Chunks(input)[..i])
    {
      if input[i].Err? {
        assert Chunks(input)[..i] == Chunks(input);
        return Err(input[i].error), emitted;
      }
      var chunk := input[i].value;
      ghost var upTo := Chunks(input)[..i + 1];
      assert upTo[..|upTo| - 1] == Chunks(input)[..i];
      match chunk {
        case TextChunk(idx, delta) =>
          emitted := emitted + [TextDelta(idx, delta)];
          textParts := AppendPart(textParts, idx, delta);
        case ThinkingChunk(idx, delta) =>
          emitted := emitted + [ThinkingDelta(idx, delta)];
          thinkParts := AppendPart(thinkParts, idx, delta);
        case ToolStart(idx, id, name) =>
          tools := tools + [Entry(idx, ToolAccum(id, name, ""))];
        case ToolArgs(idx, delta) =>
          emitted := emitted + [ToolArgsDelta(idx, delta)];
          tools := AppendArgs(tools, idx, delta);
        case UsageChunk(u) =>
          usage := Some(u);
        case StopChunk(s) =>
          stop := s;
      }
      i := i + 1;
    }
    assert Chunks(input)[..i] == Chunks(input);
    textParts := StableSort(textParts);
    var content := Texts(textParts);
    thinkParts := StableSort(thinkParts);
    content := content + Thoughts(thinkParts);
    tools := StableSort(tools);
    content := content + Calls(tools);
    if !AllValid(content, valid) {
      return Err(Truncated), emitted;
    }
    r := Ok(Assembled(Message(Assistant, content),
                      if usage.Some? then usage.value else Usage(NO_TOKENS, ModelRef("", "")),
                      stop, usage.Some?));
  }

  // ---- what a stream means, index by index ----

  function Concat(ds: seq<string>): string {
    if ds == [] then "" else Concat(ds[..|ds| - 1]) + ds[|ds| - 1]
  }

  function TextStream(cs: seq<Chunk>, k: nat): seq<string> {
    if cs == [] then []
    else
      var c := cs[|cs| - 1];
      if c.TextChunk? && c.idx == k then TextStream(cs[..|cs| - 1], k) + [c.delta]
      else TextStream(cs[..|cs| - 1], k)
  }

  function ThinkStream(cs: seq<Chunk>, k: nat): seq<string> {
    if cs == [] then []
    else
      var c := cs[|cs| - 1];
      if c.ThinkingChunk? && c.idx == k then ThinkStream(cs[..|cs| - 1], k) + [c.delta]
      else ThinkStream(cs[..|cs| - 1], k)
  }

  /** Starts and argument fragments of one tool index, in their common order. */
  function ToolStream(cs: seq<Chunk>, k: nat): seq<Chunk> {
    if cs == [] then []
    else
      var c := cs[|cs| - 1];
      if (c.ToolStart? || c.ToolArgs?) && c.idx == k then ToolStream(cs[..|cs| - 1], k) + [c]
      else ToolStream(cs[..|cs| - 1], k)
  }

  function LastUsage(cs: seq<Chunk>): Option<Usage> {
    if cs == [] then None
    else if cs[|cs| - 1].UsageChunk? then Some(cs[|cs| - 1].usage) else LastUsage(cs[..|cs| - 1])
  }

  function LastStop(cs: seq<Chunk>): StopReason {
    if cs == [] then Stop
    else if cs[|cs| - 1].StopChunk? then cs[|cs| - 1].stop else LastStop(cs[..|cs| - 1])
  }

  type Start = c: Chunk | c.ToolStart? witness ToolStart(0, "", "")

  function Starts(stream: seq<Chunk>): seq<Start> {
    if stream == [] then []
    else
      var init, c := stream[..|stream| - 1], stream[|stream| - 1];
      if c.ToolStart? then Starts(init) + [c] else Starts(init)
  }

  /** The argument fragments that arrive once the index has a tool, verbatim and in order. */
  function LiveArgs(stream: seq<Chunk>): string {
    if stream == [] then ""
    else
      var init, c := stream[..|stream| - 1], stream[|stream| - 1];
      if c.ToolArgs? && Starts(init) != [] then LiveArgs(init) + c.delta else LiveArgs(init)
  }

  /** What a run of starts sharing one index becomes: the first owns the fragments. */
  function ToolsFrom(starts: seq<Start>, k: nat, args: string): seq<Entry<ToolAccum>> {
    if starts == [] then []
    else [Entry(k, ToolAccum(starts[0].id, starts[0].name, args))] + ToolsFrom(starts[1..], k, "")
  }

  function PartOf(ds: seq<string>, k: nat): seq<Entry<string>> {
    if ds == [] then [] else [Entry(k, Concat(ds))]
  }

  function TextBlocks(stream: nat -> seq<string>, lo: nat, hi: nat): seq<Content>
    requires lo <= hi
    decreases hi - lo
  {
    if lo == hi then []
    else
      var t := Concat(stream(lo));
      (if t == "" then [] else [Text(t)]) + TextBlocks(stream, lo + 1, hi)
  }

  function ThinkBlocks(stream: nat -> seq<string>, lo: nat, hi: nat): seq<Content>
    requires lo <= hi
    decreases hi - lo
  {
    if lo == hi then []
    else
      var t := Concat(stream(lo));
      (if t == "" then [] else [Thinking(t)]) + ThinkBlocks(stream, lo + 1, hi)
  }

  function ToolBlocks(stream: nat -> seq<Chunk>, lo: nat, hi: nat): seq<Content>
    requires lo <= hi
    decreases hi - lo
  {
    if lo == hi then []
    else Calls(ToolsFrom(Starts(stream(lo)), lo, LiveArgs(stream(lo)))) + ToolBlocks(stream, lo + 1, hi)
  }

  function TextOf(cs: seq<Chunk>): nat -> seq<string> {
    (k: nat) => TextStream(cs, k)
  }

  function ThinkOf(cs: seq<Chunk>): nat -> seq<string> {
    (k: nat) => ThinkStream(cs, k)
  }

  function ToolOf(cs: seq<Chunk>): nat -> seq<Chunk> {
    (k: nat) => ToolStream(cs, k)
  }

  /** The message content read off the per-index streams, for indices below `hi`. */
  function Reference(cs: seq<Chunk>, hi: nat): seq<Content> {
    TextBlocks(TextOf(cs), 0, hi)
    + ThinkBlocks(ThinkOf(cs), 0, hi)
    + ToolBlocks(ToolOf(cs), 0, hi)
  }

  ghost predicate IndicesBelow(cs: seq<Chunk>, hi: nat) {
    forall c :: c in cs && !c.UsageChunk? && !c.StopChunk? ==> c.idx < hi
  }

  // ---- the accumulator keeps the streams ----

  lemma {:induction false} AppendPartStream(parts: seq<Entry<string>>, idx: nat, delta: string, k: nat)
    ensures ByKey(AppendPart(parts, idx, delta), k)
         == if k == idx then AppendPart(ByKey(parts, k), idx, delta) else ByKey(parts, k)
  {
    if parts != [] && parts[0].key != idx {
      AppendPartStream(parts[1..], idx, delta, k);
      ByKeyCons(parts[0], AppendPart(parts[1..], idx, delta), k);
    } else if parts != [] {
      ByKeyCons(Entry(idx, parts[0].val + delta), parts[1..], k);
    }
  }

  lemma {:induction false} AppendArgsStream(tools: seq<Entry<ToolAccum>>, idx: nat, delta: string, k: nat)
    ensures ByKey(AppendArgs(tools, idx, delta), k)
         == if k == idx then AppendArgs(ByKey(tools, k), idx, delta) else ByKey(tools, k)
  {
    if tools != [] && tools[0].key != idx {
      AppendArgsStream(tools[1..], idx, delta, k);
      ByKeyCons(tools[0], AppendArgs(tools[1..], idx, delta), k);
    } else if tools != [] {
      ByKeyCons(Entry(idx, tools[0].val.(args := tools[0].val.args + delta)), tools[1..], k);
    }
  }

  lemma ConcatSnoc(ds: seq<string>, d: string)
    ensures Concat(ds + [d]) == Concat(ds) + d
    ensures ds == [] ==> Concat(ds + [d]) == d
  {
    assert (ds + [d])[..|ds|] == ds;
    assert "" + d == d;
  }

  lemma {:induction false} TextKept(cs: seq<Chunk>, k: nat)
    ensures ByKey(Fold(cs).text, k) == PartOf(TextStream(cs, k), k)
  {
    if cs != [] {
      var init, c := cs[..|cs| - 1], cs[|cs| - 1];
      TextKept(init, k);
      if c.TextChunk? {
        AppendPartStream(Fold(init).text, c.idx, c.delta, k);
        var ds := TextStream(init, k);
        ConcatSnoc(ds, c.delta);
      }
    }
  }

  lemma {:induction false} ThinkKept(cs: seq<Chunk>, k: nat)
    ensures ByKey(Fold(cs).think, k) == PartOf(ThinkStream(cs, k), k)
  {
    if cs != [] {
      var init, c := cs[..|cs| - 1], cs[|cs| - 1];
      ThinkKept(init, k);
      if c.ThinkingChunk? {
        AppendPartStream(Fold(init).think, c.idx, c.delta, k);
        var ds := ThinkStream(init, k);
        ConcatSnoc(ds, c.delta);
      }
    }
  }

  lemma {:induction false} ToolsFromSnoc(starts: seq<Start>, c: Start, k: nat, args: string)
    requires starts == [] ==> args == ""
    ensures ToolsFrom(starts + [c], k, args) == ToolsFrom(starts, k, args) + [Entry(k, ToolAccum(c.id, c.name, ""))]
  {
    if starts == [] {
      assert starts + [c] == [c];
      assert [c][1..] == [];
    } else {
      assert (starts + [c])[1..] == starts[1..] + [c];
      ToolsFromSnoc(starts[1..], c, k, "");
    }
  }

  lemma ToolsFromArgs(starts: seq<Start>, k: nat, args: string, delta: string)
    ensures AppendArgs(ToolsFrom(starts, k, args), k, delta)
         == ToolsFrom(starts, k, if starts == [] then args else args + delta)
  {
    if starts != [] {
      assert ToolsFrom(starts, k, args)[1..] == ToolsFrom(starts[1..], k, "");
    }
  }

  lemma {:induction false} NoArgsBeforeStart(stream: seq<Chunk>)
    ensures Starts(stream) == [] ==> LiveArgs(stream) == ""
  {
    if stream != [] {
      NoArgsBeforeStart(stream[..|stream| - 1]);
    }
  }

  lemma ToolStartKept(tools: seq<Entry<ToolAccum>>, stream: seq<Chunk>, c: Start, k: nat)
    requires ByKey(tools, k) == ToolsFrom(Starts(stream), k, LiveArgs(stream))
    ensures ByKey(tools + [Entry(k, ToolAccum(c.id, c.name, ""))], k)
         == ToolsFrom(Starts(stream + [c]), k, LiveArgs(stream + [c]))
  {
    var e := Entry(k, ToolAccum(c.id, c.name, ""));
    ByKeyConcat(tools, [e], k);
    assert ByKey([e], k) == [e];
    assert (stream + [c])[..|stream|] == stream;
    NoArgsBeforeStart(stream);
    ToolsFromSnoc(Starts(stream), c, k, LiveArgs(stream));
  }

  lemma ToolArgsKept(tools: seq<Entry<ToolAccum>>, stream: seq<Chunk>, c: Chunk, k: nat)
    requires c.ToolArgs?
    requires ByKey(tools, k) == ToolsFrom(Starts(stream), k, LiveArgs(stream))
    ensures ByKey(AppendArgs(tools, k, c.delta), k)
         == ToolsFrom(Starts(stream + [c]), k, LiveArgs(stream + [c]))
  {
    AppendArgsStream(tools, k, c.delta, k);
    assert (stream + [c])[..|stream|] == stream;
    ToolsFromArgs(Starts(stream), k, LiveArgs(stream), c.delta);
  }

  lemma {:induction false} ToolsKept(cs: seq<Chunk>, k: nat)
    ensures ByKey(Fold(cs).tools, k) == ToolsFrom(Starts(ToolStream(cs, k)), k, LiveArgs(ToolStream(cs, k)))
  {
    if cs != [] {
      var init, c := cs[..|cs| - 1], cs[|cs| - 1];
      var tools, stream := Fold(init).tools, ToolStream(init, k);
      ToolsKept(init, k);
      if c.ToolStart? && c.idx == k {
        ToolStartKept(tools, stream, c, k);
      } else if c.ToolArgs? && c.idx == k {
        ToolArgsKept(tools, stream, c, k);
      } else if c.ToolStart? {
        ByKeyConcat(tools, [Entry(c.idx, ToolAccum(c.id, c.name, ""))], k);
      } else if c.ToolArgs? {
        AppendArgsStream(tools, c.idx, c.delta, k);
      }
    }
  }

  lemma {:induction false} LastKept(cs: seq<Chunk>)
    ensures Fold(cs).usage == LastUsage(cs) && Fold(cs).stop == LastStop(cs)
  {
    if cs != [] {
      LastKept(cs[..|cs| - 1]);
    }
  }

  // ---- from sorted parts to blocks ----

  lemma {:induction false} TextsConcat(a: seq<Entry<string>>, b: seq<Entry<string>>)
    ensures Texts(a + b) == Texts(a) + Texts(b)
  {
    if a == [] {
      assert a + b == b;
    } else {
      assert (a + b)[1..] == a[1..] + b;
      TextsConcat(a[1..], b);
      Regroup(if a[0].val == "" then [] else [Text(a[0].val)], Texts(a[1..]), Texts(b));
    }
  }

  lemma {:induction false} ThoughtsConcat(a: seq<Entry<string>>, b: seq<Entry<string>>)
    ensures Thoughts(a + b) == Thoughts(a) + Thoughts(b)
  {
    if a == [] {
      assert a + b == b;
    } else {
      assert (a + b)[1..] == a[1..] + b;
      ThoughtsConcat(a[1..], b);
      Regroup(if a[0].val == "" then [] else [Thinking(a[0].val)], Thoughts(a[1..]), Thoughts(b));
    }
  }

  lemma {:induction false} CallsConcat(a: seq<Entry<ToolAccum>>, b: seq<Entry<ToolAccum>>)
    ensures Calls(a + b) == Calls(a) + Calls(b)
  {
    if a == [] {
      assert a + b == b;
    } else {
      assert (a + b)[1..] == a[1..] + b;
      CallsConcat(a[1..], b);
    }
  }

  lemma {:induction false} TextsAre(cs: seq<Chunk>, lo: nat, hi: nat)
    requires lo <= hi
    ensures Texts(InKeyOrder(Fold(cs).text, lo, hi)) == TextBlocks(TextOf(cs), lo, hi)
    decreases hi - lo
  {
    if lo < hi {
      TextKept(cs, lo);
      TextsConcat(ByKey(Fold(cs).text, lo), InKeyOrder(Fold(cs).text, lo + 1, hi));
      TextsAre(cs, lo + 1, hi);
    }
  }

  lemma {:induction false} ThoughtsAre(cs: seq<Chunk>, lo: nat, hi: nat)
    requires lo <= hi
    ensures Thoughts(InKeyOrder(Fold(cs).think, lo, hi)) == ThinkBlocks(ThinkOf(cs), lo, hi)
    decreases hi - lo
  {
    if lo < hi {
      ThinkKept(cs, lo);
      ThoughtsConcat(ByKey(Fold(cs).think, lo), InKeyOrder(Fold(cs).think, lo + 1, hi));
      ThoughtsAre(cs, lo + 1, hi);
    }
  }

  lemma {:induction false} CallsAre(cs: seq<Chunk>, lo: nat, hi: nat)
    requires lo <= hi
    ensures Calls(InKeyOrder(Fold(cs).tools, lo, hi)) == ToolBlocks(ToolOf(cs), lo, hi)
    decreases hi - lo
  {
    if lo < hi {
      ToolsKept(cs, lo);
      CallsConcat(ByKey(Fold(cs).tools, lo), InKeyOrder(Fold(cs).tools, lo + 1, hi));
      CallsAre(cs, lo + 1, hi);
    }
  }

  lemma {:induction false} FoldKeys(cs: seq<Chunk>, hi: nat)
    requires IndicesBelow(cs, hi)
    ensures KeysIn(Fold(cs).text, 0, hi) && KeysIn(Fold(cs).think, 0, hi) && KeysIn(Fold(cs).tools, 0, hi)
  {
    if cs != [] {
      var init, c := cs[..|cs| - 1], cs[|cs| - 1];
      assert forall x :: x in init ==> x in cs;
      FoldKeys(init, hi);
      assert c in cs;
      match c {
        case TextChunk(i, d) => AppendPartKeys(Fold(init).text, i, d, hi);
        case ThinkingChunk(i, d) => AppendPartKeys(Fold(init).think, i, d, hi);
        case ToolArgs(i, d) => AppendArgsKeys(Fold(init).tools, i, d, hi);
        case _ =>
      }
    }
  }

  lemma {:induction false} AppendPartKeys(parts: seq<Entry<string>>, idx: nat, delta: string, hi: nat)
    requires idx < hi && KeysIn(parts, 0, hi)
    ensures KeysIn(AppendPart(parts, idx, delta), 0, hi)
  {
    if parts != [] && parts[0].key != idx {
      AppendPartKeys(parts[1..], idx, delta, hi);
    }
  }

  lemma {:induction false} AppendArgsKeys(tools: seq<Entry<ToolAccum>>, idx: nat, delta: string, hi: nat)
    requires KeysIn(tools, 0, hi)
    ensures KeysIn(AppendArgs(tools, idx, delta), 0, hi)
  {
    if tools != [] && tools[0].key != idx {
      AppendArgsKeys(tools[1..], idx, delta, hi);
    }
  }

  // ---- main results ----

  /** The accumulated message is exactly the per-index reading of the stream. */
  lemma AssemblyIsReference(cs: seq<Chunk>, hi: nat)
    requires IndicesBelow(cs, hi)
    ensures BlocksOf(Fold(cs)) == Reference(cs, hi)
    ensures Fold(cs).usage == LastUsage(cs) && Fold(cs).stop == LastStop(cs)
  {
    var acc := Fold(cs);
    FoldKeys(cs, hi);
    SortedStreams(acc.text, hi);
    SortedStreams(acc.think, hi);
    SortedStreams(acc.tools, hi);
    TextsAre(cs, 0, hi);
    ThoughtsAre(cs, 0, hi);
    CallsAre(cs, 0, hi);
    LastKept(cs);
  }

  ghost predicate SameStreams(a: seq<Chunk>, b: seq<Chunk>) {
    && (forall k :: TextStream(a, k) == TextStream(b, k))
    && (forall k :: ThinkStream(a, k) == ThinkStream(b, k))
    && (forall k :: ToolStream(a, k) == ToolStream(b, k))
    && LastUsage(a) == LastUsage(b) && LastStop(a) == LastStop(b)
  }

  function IndexBound(cs: seq<Chunk>): (hi: nat)
    ensures IndicesBelow(cs, hi)
  {
    if cs == [] then 0
    else
      var rest := IndexBound(cs[1..]);
      assert forall c :: c in cs ==> c == cs[0] || c in cs[1..];
      if cs[0].UsageChunk? || cs[0].StopChunk? || cs[0].idx < rest then rest else cs[0].idx + 1
  }

  lemma {:induction false} ReferenceAgrees(a: seq<Chunk>, b: seq<Chunk>, lo: nat, hi: nat)
    requires lo <= hi && SameStreams(a, b)
    ensures TextBlocks(TextOf(a), lo, hi) == TextBlocks(TextOf(b), lo, hi)
    ensures ThinkBlocks(ThinkOf(a), lo, hi) == ThinkBlocks(ThinkOf(b), lo, hi)
    ensures ToolBlocks(ToolOf(a), lo, hi) == ToolBlocks(ToolOf(b), lo, hi)
    decreases hi - lo
  {
    if lo < hi {
      ReferenceAgrees(a, b, lo + 1, hi);
    }
  }

  lemma SameReference(a: seq<Chunk>, b: seq<Chunk>, hi: nat)
    requires SameStreams(a, b)
    ensures Reference(a, hi) == Reference(b, hi)
    ensures LastUsage(a) == LastUsage(b) && LastStop(a) == LastStop(b)
  {
    ReferenceAgrees(a, b, 0, hi);
  }

  lemma FinishIsReference(cs: seq<Chunk>, hi: nat, valid: string -> bool)
    requires IndicesBelow(cs, hi)
    ensures Finish(Fold(cs), valid) == Deliver(Reference(cs, hi), LastUsage(cs), LastStop(cs), valid)
  {
    AssemblyIsReference(cs, hi);
  }

  /** Interleaving is irrelevant: equal streams per index assemble to the same result. */
  lemma InterleavingIrrelevant(a: seq<Chunk>, b: seq<Chunk>, valid: string -> bool)
    requires SameStreams(a, b)
    ensures Finish(Fold(a), valid) == Finish(Fold(b), valid)
  {
    var ha, hb := IndexBound(a), IndexBound(b);
    var hi := if ha < hb then hb else ha;
    FinishIsReference(a, hi, valid);
    FinishIsReference(b, hi, valid);
    SameReference(a, b, hi);
  }

  /** A complete stream is refused exactly when some accumulated call has unparseable arguments. */
  lemma TruncatedExactly(input: seq<Result<Chunk, ProvErr>>, valid: string -> bool, hi: nat)
    requires GoodPrefix(input) == |input|
    requires IndicesBelow(Chunks(input), hi)
    ensures AssembleSpec(input, valid) == Err(Truncated) <==>
            exists c :: c in ToolBlocks(ToolOf(Chunks(input)), 0, hi) && c.ToolCall? && !valid(c.argsJson)
    ensures AssembleSpec(input, valid).Ok? <==> AssembleSpec(input, valid) != Err(Truncated)
  {
    var cs := Chunks(input);
    AssemblyIsReference(cs, hi);
    NoCallsInText(cs, 0, hi);
  }

  lemma {:induction false} NoCallsInText(cs: seq<Chunk>, lo: nat, hi: nat)
    requires lo <= hi
    ensures forall c :: c in TextBlocks(TextOf(cs), lo, hi) ==> c.Text?
    ensures forall c :: c in ThinkBlocks(ThinkOf(cs), lo, hi) ==> c.Thinking?
    decreases hi - lo
  {
    if lo < hi {
      NoCallsInText(cs, lo + 1, hi);
    }
  }

  function EmittedText(ds: seq<Delta>, k: nat): seq<string> {
    if ds == [] then []
    else
      var d := ds[|ds| - 1];
      if d.TextDelta? && d.idx == k then EmittedText(ds[..|ds| - 1], k) + [d.delta]
      else EmittedText(ds[..|ds| - 1], k)
  }

  function LiveTextOf(cs: seq<Chunk>): nat -> seq<string> {
    (k: nat) => EmittedText(Mirrored(cs), k)
  }

  lemma {:induction false} EmittedIsStream(cs: seq<Chunk>, k: nat)
    ensures EmittedText(Mirrored(cs), k) == TextStream(cs, k)
  {
    if cs != [] {
      var init, c := cs[..|cs| - 1], cs[|cs| - 1];
      EmittedIsStream(init, k);
      var m := Mirrored(init);
      if Mirror(c) == [] {
        assert m + Mirror(c) == m;
      } else {
        var d := Mirror(c)[0];
        assert Mirrored(cs) == m + [d];
        assert (m + [d])[..|m|] == m;
      }
    }
  }

  lemma {:induction false} EmittedBlocks(cs: seq<Chunk>, lo: nat, hi: nat)
    requires lo <= hi
    ensures TextBlocks(LiveTextOf(cs), lo, hi) == TextBlocks(TextOf(cs), lo, hi)
    decreases hi - lo
  {
    if lo < hi {
      EmittedIsStream(cs, lo);
      EmittedBlocks(cs, lo + 1, hi);
    }
  }

  /** What a viewer pieced together from the live deltas is the text of the final message. */
  lemma LiveTextIsFinalText(cs: seq<Chunk>, hi: nat)
    requires IndicesBelow(cs, hi)
    ensures TextBlocks(LiveTextOf(cs), 0, hi) <= BlocksOf(Fold(cs))
    ensures forall i :: |TextBlocks(LiveTextOf(cs), 0, hi)| <= i < |BlocksOf(Fold(cs))|
              ==> !BlocksOf(Fold(cs))[i].Text?
  {
    AssemblyIsReference(cs, hi);
    EmittedBlocks(cs, 0, hi);
    NoCallsInText(cs, 0, hi);
    NoTextInCalls(cs, 0, hi);
    var ts := TextBlocks(TextOf(cs), 0, hi);
    var hs := ThinkBlocks(ThinkOf(cs), 0, hi);
    var cs' := ToolBlocks(ToolOf(cs), 0, hi);
    forall i | |ts| <= i < |BlocksOf(Fold(cs))|
      ensures !BlocksOf(Fold(cs))[i].Text?
    {
      if i < |ts| + |hs| {
        assert hs[i - |ts|] in hs;
      } else {
        assert cs'[i - |ts| - |hs|] in cs';
      }
    }
  }

  lemma {:induction false} CallsAreCalls(tools: seq<Entry<ToolAccum>>)
    ensures forall c :: c in Calls(tools) ==> c.ToolCall?
  {
    if tools != [] {
      CallsAreCalls(tools[1..]);
    }
  }

  lemma {:induction false} NoTextInCalls(cs: seq<Chunk>, lo: nat, hi: nat)
    requires lo <= hi
    ensures forall c :: c in ToolBlocks(ToolOf(cs), lo, hi) ==> c.ToolCall?
    decreases hi - lo
  {
    if lo < hi {
      NoTextInCalls(cs, lo + 1, hi);
      CallsAreCalls(ToolsFrom(Starts(ToolStream(cs, lo)), lo, LiveArgs(ToolStream(cs, lo))));
    }
  }
}
