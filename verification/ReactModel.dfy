/**
 * The ReAct loop's vocabulary, its environment, and the grammar of the durable log it writes.
 *
 * Everything the loop consults (store, provider, hooks, tools, approver, compactor, cancel flag)
 * is an `Oracle`: arbitrary functions of a tick that grows at every consultation. Quantifying
 * over oracles quantifies over every behaviour of the environment. What the source calls unguarded
 * (provider, compactor, approver, tools) may also panic; hooks are guarded, and fail with `None`.
 */
module ReactModel {
  import opened Core
  import opened Money
  import Assembly

  // ---- configuration and errors ----

  /** `notice` is the wording of the truncation reminder for a line limit. */
  datatype Config = Config(truncationAttempts: nat, truncationLadder: seq<nat>,
                           maxContextReplans: nat, maxTurns: Option<nat>, notice: nat -> string)

  /**
   * Why a turn, or a part of one, did not go through. `Unwound` is not an error value of the loop:
   * it stands for a panic of the provider, the compactor, the approver or a tool on its way out.
   */
  datatype ReactError =
    | StoreFailed | ProviderFailed | CompactionLoop | CompactionUnavailable | TruncationGaveUp | TurnLimit | Unwound

  /** A cancel token: it fires at some tick and stays fired. */
  datatype Cancel = Cancel(firesAt: Option<nat>) {
    predicate Fired(tick: nat) {
      firesAt.Some? && firesAt.value <= tick
    }
  }

  // ---- durable events ----

  datatype UsageKind = Main | Compaction | Subagent | Title

  datatype Event =
    | MessageAppended(msg: Message)
    | UsageRecorded(kind: UsageKind, model: ModelRef, tokens: Tokens, price: Price, costMicros: Int64, estimated: bool)
    | Compacted(start: nat, end: nat, summary: Message)
    | Handoff(data: HandoffData)

  datatype HandoffData = HandoffData(keep: seq<CallId>, summarize: seq<(CallId, string)>, dropIds: seq<CallId>,
                                     resumeActions: seq<string>)

  datatype CompactSpan = CompactSpan(start: nat, end: nat, messages: seq<Message>)

  datatype CompactionPlan = CompactionPlan(summary: Message, handoff: Option<HandoffData>)

  datatype RequestPlan = RequestPlan(messages: seq<Message>, compact: Option<CompactSpan>)

  // ---- tools and policy ----

  datatype Json = JsonObject(text: string) | JsonOther(text: string)

  datatype ToolCallRef = ToolCallRef(id: CallId, name: string, argsJson: string)

  datatype HookVeto = Allow | Ask(reason: string) | Deny(reason: string) | Replace(args: Json)

  datatype Decision = Approved | Denied(reason: string) | HardDenied(reason: string) | Unanswered

  /** Why a call is answered with an error although its tool did not say so. */
  datatype Reason =
    | ToolDisabled(name: string) | ToolStopped(name: string) | MalformedArgs | ArgsNotObject(text: string)
    | Told(text: string) | ApprovalRequired | UnknownTool(name: string)
    | CancelledBefore | CancelledDuring | ThreadPanicked

  datatype CallPlan = Execute(args: Json) | Refuse(reason: Reason)

  datatype ToolRun = Returned(content: seq<Content>, isError: bool) | Errored(text: string)

  /** What code called without a guard does: answer, or panic, which unwinds through its caller. */
  datatype Reply<+T> = Answer(value: T) | Unwinds

  /** What a worker thread's channel does: nothing for some polls, then a value, or a hang-up when the tool panicked. */
  datatype Wait = Wait(rounds: nat, end: Reply<ToolRun>)

  datatype Invocation = Invocation(index: nat, name: string, args: Json)

  // ---- the environment ----

  datatype Oracle = Oracle(
    plan: nat -> Option<RequestPlan>,
    commits: nat -> bool,
    beforeRequest: (nat, seq<Message>) -> Option<seq<Message>>,
    open: nat -> Reply<Result<seq<Result<Assembly.Chunk, ProvErr>>, ProvErr>>,
    hasCompactor: bool,
    compact: (nat, CompactSpan) -> Reply<Option<CompactionPlan>>,
    shouldStop: nat -> Option<bool>,
    steering: nat -> Option<seq<Message>>,
    followup: nat -> Option<seq<Message>>,
    nextModel: nat -> Option<Option<ModelRef>>,
    freshCancel: nat -> Option<nat>,
    parse: string -> Option<Json>,
    blocked: nat -> set<string>,
    registry: nat -> map<string, bool>,
    before: (nat, string, Json) -> Option<HookVeto>,
    approve: (nat, CallId, string, Json, string) -> Reply<Decision>,
    after: (nat, string, Json, seq<Content>) -> Option<seq<Content>>,
    execute: (nat, string, Json) -> Reply<ToolRun>,
    worker: (nat, string, Json) -> Wait,
    graceOver: nat -> bool)

  // ---- the grammar of a turn ----

  datatype CompactionStep = CompactionStep(span: CompactSpan, plan: CompactionPlan)

  datatype Tail = Final(followups: seq<Message>) | ToolRound(results: Message, steering: seq<Message>)

  datatype Body = NoAnswer | AbortedMidStream(usage: Event) | Answered(assistant: Message, usage: Event, tail: Tail)

  datatype Turn = Turn(compactions: seq<CompactionStep>, body: Body)

  function RenderCompaction(c: CompactionStep): seq<Event> {
    [Compacted(c.span.start, c.span.end, c.plan.summary)]
    + if c.plan.handoff.Some? then [Handoff(c.plan.handoff.value)] else []
  }

  function RenderCompactions(cs: seq<CompactionStep>): seq<Event> {
    if cs == [] then [] else RenderCompactions(cs[..|cs| - 1]) + RenderCompaction(cs[|cs| - 1])
  }

  function Messages(ms: seq<Message>): seq<Event> {
    seq(|ms|, i requires 0 <= i < |ms| => MessageAppended(ms[i]))
  }

  function RenderBody(b: Body): seq<Event> {
    match b
    case NoAnswer => []
    case AbortedMidStream(usage) => [usage]
    case Answered(m, usage, Final(followups)) => [MessageAppended(m), usage] + Messages(followups)
    case Answered(m, usage, ToolRound(results, steering)) =>
      [MessageAppended(m), usage, MessageAppended(results)] + Messages(steering)
  }

  function Render(t: Turn): seq<Event> {
    RenderCompactions(t.compactions) + RenderBody(t.body)
  }

  function RenderAll(ts: seq<Turn>): seq<Event> {
    if ts == [] then [] else RenderAll(ts[..|ts| - 1]) + Render(ts[|ts| - 1])
  }

  lemma RenderAllSnoc(ts: seq<Turn>, t: Turn)
    ensures RenderAll(ts + [t]) == RenderAll(ts) + Render(t)
  {
    assert (ts + [t])[..|ts|] == ts;
  }

  /** The tool calls of the messages a compaction replaces. */
  function KnownIds(ms: seq<Message>): seq<CallId> {
    if ms == [] then [] else CallIds(ms[0].content) + KnownIds(ms[1..])
  }

  predicate HandoffValid(h: HandoffData, known: seq<CallId>) {
    && (forall id :: id in h.keep ==> id in known)
    && (forall id :: id in h.dropIds ==> id in known)
    && (forall s :: s in h.summarize ==> s.0 in known)
  }

  /** A Main usage record, priced from its own tokens. */
  predicate MainUsage(e: Event) {
    e.UsageRecorded? && e.kind == Main && e.costMicros == CostMicros(e.tokens, e.price)
  }

  predicate CompactionOk(c: CompactionStep) {
    c.plan.handoff.Some? ==> HandoffValid(c.plan.handoff.value, KnownIds(c.span.messages))
  }

  predicate BodyOk(b: Body) {
    match b
    case NoAnswer => true
    case AbortedMidStream(usage) => MainUsage(usage)
    case Answered(m, usage, tail) =>
      && m.role == Assistant && MainUsage(usage)
      && match tail
         case Final(_) => CallIds(m.content) == []
         case ToolRound(results, _) =>
           && CallIds(m.content) != []
           && results.role == Tool
           && ResultIds(results.content) == CallIds(m.content)
           && |results.content| == |CallIds(m.content)|
  }

  predicate StepsOk(cs: seq<CompactionStep>) {
    forall i :: 0 <= i < |cs| ==> CompactionOk(cs[i])
  }

  predicate TurnOk(t: Turn) {
    StepsOk(t.compactions) && BodyOk(t.body)
  }

  /** The turns after which the loop goes round again. */
  predicate Continues(t: Turn) {
    t.body.Answered? && (t.body.tail.ToolRound? || t.body.tail.followups != [])
  }

  /** The turns a run may end on: aborted, answered for good, or cancelled after its tool round. */
  predicate GoesIdle(t: Turn) {
    || t.body.AbortedMidStream?
    || (t.body.Answered? && t.body.tail.Final? && t.body.tail.followups == [])
    || (t.body.Answered? && t.body.tail.ToolRound? && t.body.tail.steering == [])
  }

  /**
   * Where a panic can leave a turn: nothing of it was answered, or the answer and its usage are
   * committed and its tool calls are open.
   */
  predicate UnwoundAt(t: Turn, done: nat) {
    || (t.body.NoAnswer? && done == |Render(t)|)
    || (t.body.Answered? && t.body.tail.ToolRound? && done == |RenderCompactions(t.compactions)| + 2)
  }

  /** Errors that stop a turn between two of its appends. */
  predicate Interrupts(e: ReactError) {
    e == StoreFailed || e == Unwound
  }

  // ---- tool results ----

  function Wording(reason: Reason): string {
    match reason
    case ToolDisabled(name) =>
      "blocked: tool '" + name + "' is disabled for this session. Do not retry '" + name +
      "'; use another tool or ask the user to re-enable it."
    case ToolStopped(name) =>
      "blocked: tool '" + name + "' belongs to a plugin that is currently stopped. " +
      "Start the plugin again before retrying '" + name + "'."
    case MalformedArgs => "malformed tool args_json"
    case ArgsNotObject(text) => "tool args must be a JSON object, got: " + text
    case Told(text) => text
    case ApprovalRequired => "approval required"
    case UnknownTool(name) => "unknown tool `" + name + "`"
    case CancelledBefore => "aborted by user"
    case CancelledDuring => "aborted by user (tool did not stop; abandoned)"
    case ThreadPanicked => "tool thread panicked"
  }

  function SynthError(id: CallId, reason: Reason): Content {
    ToolResult(id, [Text(Wording(reason))], true)
  }

  function EnsureNonEmpty(content: seq<Content>): (r: seq<Content>)
    ensures exists c :: c in r && !(c.Text? && c.text == "")
  {
    if forall c :: c in content ==> c.Text? && c.text == "" then
      var r := [Text("(no output)")];
      assert r[0] in r;
      r
    else content
  }

  function OutputOf(run: ToolRun): (seq<Content>, bool) {
    match run
    case Returned(content, isError) => (content, isError)
    case Errored(text) => ([Text(text)], true)
  }

  function CallsOf(content: seq<Content>): seq<ToolCallRef> {
    if content == [] then []
    else
      (if content[0].ToolCall? then [ToolCallRef(content[0].id, content[0].name, content[0].argsJson)] else [])
      + CallsOf(content[1..])
  }

  lemma {:induction false} CallsOfIds(content: seq<Content>)
    ensures |CallsOf(content)| == |CallIds(content)|
    ensures forall i :: 0 <= i < |CallsOf(content)| ==> CallsOf(content)[i].id == CallIds(content)[i]
  {
    if content != [] {
      CallsOfIds(content[1..]);
    }
  }

  /** One result per call, with the call's id, in call order. */
  predicate AnswersInOrder(results: seq<Content>, calls: seq<ToolCallRef>) {
    && |results| == |calls|
    && forall i :: 0 <= i < |calls| ==> results[i].ToolResult? && results[i].id == calls[i].id
  }

  lemma {:induction false} ResultIdsInOrder(results: seq<Content>)
    requires forall i :: 0 <= i < |results| ==> results[i].ToolResult?
    ensures |ResultIds(results)| == |results|
    ensures forall i :: 0 <= i < |results| ==> ResultIds(results)[i] == results[i].id
  {
    if results != [] {
      ResultIdsInOrder(results[1..]);
    }
  }
}
