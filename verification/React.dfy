/** The loop itself: turns, provider attempts, compaction and tool batches, updating the store in place. */
module React {
  import opened Core
  import opened Money
  import opened ReactModel
  import opened ToolBatch
  import Assembly

  datatype Attempt =
    | Completed(answer: Assembly.Assembled)
    | AbortedInStream(partial: Assembly.Assembled)
    | Truncation
    | Overflow

  datatype TurnOutcome = Continue | Idle(stop: StopReason)

  /** What a caller of `Run` sees after a bounded number of turns; `Crashed` is a panic that left through it. */
  datatype RunResult = Finished(outcome: Result<StopReason, ReactError>) | Crashed | StillRunning

  /** The turn lifecycle on the live bus. */
  datatype Lifecycle = TurnStarted(turn: nat) | TurnFinishing(turn: nat, stop: StopReason) | TurnEnded(turn: nat, stop: StopReason)

  /** What a run leaves behind: the log, how many streams and compactor calls it took, and its lifecycle. */
  datatype Account = Account(log: seq<Event>, streams: nat, compactorCalls: nat, lifecycle: seq<Lifecycle>)

  datatype Received = Value(run: ToolRun) | Panicked | Abandoned

  function EstimatedAssembled(model: ModelRef): Assembly.Assembled {
    Assembly.Assembled(Message(Assistant, []), Usage(NO_TOKENS, model), Aborted, false)
  }

  function ReminderMessage(config: Config, lines: nat): Message {
    Message(System, [Text(config.notice(lines))])
  }

  /** An empty ladder is indexed, and panics, at the first truncation that is retried. */
  predicate LadderOk(config: Config) {
    config.truncationLadder != [] || config.truncationAttempts == 0
  }

  /** The truncations that a turn can be retried after. */
  function Retries(config: Config): nat {
    if config.truncationLadder == [] then 0 else config.truncationAttempts
  }

  /** The rung used for the n-th truncation: past the end the last rung repeats. */
  function Rung(config: Config, n: nat): nat
    requires config.truncationLadder != [] && n >= 1
  {
    var ladder := config.truncationLadder;
    if n - 1 < |ladder| then ladder[n - 1] else ladder[|ladder| - 1]
  }

  /** The reminders after `n` truncations. */
  function Reminders(base: seq<Message>, config: Config, n: nat): seq<Message>
  {
    if n == 0 || config.truncationLadder == [] then base else Harsher(Reminders(base, config, n - 1), config, n)
  }

  /** One reminder more, at the n-th truncation. */
  function Harsher(reminders: seq<Message>, config: Config, n: nat): seq<Message>
    requires config.truncationLadder != [] && n >= 1
  {
    reminders + [ReminderMessage(config, Rung(config, n))]
  }

  lemma HarsherReminders(base: seq<Message>, config: Config, n: nat)
    requires n < Retries(config)
    ensures Reminders(base, config, n + 1) == Harsher(Reminders(base, config, n), config, n + 1)
  {
  }

  /** The reminders of the streams of a turn, given how many truncations preceded each. */
  ghost function SentFor(base: seq<Message>, config: Config, levels: seq<nat>): (sent: seq<seq<Message>>)
    ensures |sent| == |levels|
  {
    seq(|levels|, i requires 0 <= i < |levels| => Reminders(base, config, levels[i]))
  }

  /** Truncations only accumulate, one per stream at most, and never past the budget. */
  ghost predicate LevelsOk(levels: seq<nat>, top: nat) {
    && (levels != [] ==> levels[0] == 0)
    && (forall i {:trigger levels[i]} :: 0 <= i < |levels| ==> levels[i] <= top)
    && (forall i {:trigger levels[i]} :: 1 <= i < |levels| ==> levels[i - 1] <= levels[i] <= levels[i - 1] + 1)
  }

  /** `n` is a level the next stream may have. */
  ghost predicate LevelNext(levels: seq<nat>, n: nat, top: nat) {
    && LevelsOk(levels, top) && n <= top
    && if levels == [] then n == 0 else levels[|levels| - 1] <= n <= levels[|levels| - 1] + 1
  }

  /** One more stream, if there was one, carries the reminders of the truncations so far. */
  lemma LevelsAfter(base: seq<Message>, config: Config, levels: seq<nat>, n: nat, sent: bool, levels': seq<nat>,
                    before: seq<seq<Message>>, streams: seq<seq<Message>>)
    requires LevelNext(levels, n, Retries(config))
    requires levels' == if sent then levels + [n] else levels
    requires streams == before + SentFor(base, config, levels) + if sent then [Reminders(base, config, n)] else []
    ensures |levels| <= |levels'| <= |levels| + 1 && LevelNext(levels', n, Retries(config))
    ensures sent && n < Retries(config) ==> LevelNext(levels', n + 1, Retries(config))
    ensures streams == before + SentFor(base, config, levels')
  {
    if sent {
      assert SentFor(base, config, levels') == SentFor(base, config, levels) + [Reminders(base, config, n)];
    }
  }

  /** The planned messages as the hook left them. */
  function HookedMessages(o: Oracle, t: nat, messages: seq<Message>): seq<Message> {
    var got := o.beforeRequest(t, messages);
    if got.Some? then got.value else messages
  }

  /** At the tick before `hooked` the store planned a request and asked for no compaction. */
  predicate PlannedAt(o: Oracle, hooked: nat) {
    hooked > 0 && o.plan(hooked - 1).Some? && o.plan(hooked - 1).value.compact.None?
  }

  /** The request of that plan: its messages as the hook left them, and the reminders last. */
  function RequestAt(o: Oracle, hooked: nat, reminders: seq<Message>): seq<Message>
    requires PlannedAt(o, hooked)
  {
    HookedMessages(o, hooked, o.plan(hooked - 1).value.messages) + reminders
  }

  class RunParams {
    const config: Config
    const price: Price
    const disabledTools: set<string>
    const cancel: Option<Cancel>
    var model: ModelRef
    var reactivation: Option<Message>

    constructor (config: Config, price: Price, disabledTools: set<string>, cancel: Option<Cancel>,
                 model: ModelRef, reactivation: Option<Message>)
      ensures this.config == config && this.price == price && this.disabledTools == disabledTools
      ensures this.cancel == cancel && this.model == model && this.reactivation == reactivation
    {
      this.config, this.price, this.disabledTools, this.cancel := config, price, disabledTools, cancel;
      this.model, this.reactivation := model, reactivation;
    }
  }

  function ValidArgs(o: Oracle): string -> bool {
    (s: string) => o.parse(s).Some?
  }

  class ReactLoop {
    const o: Oracle
    var tick: nat
    /** The durable events the store has committed. */
    var log: seq<Event>
    /** The reminders sent with each provider stream opened so far: its length counts the streams. */
    var streams: seq<seq<Message>>
    /** The messages of the requests that opened them, reminders included. */
    var requests: seq<seq<Message>>
    var compactorCalls: nat
    /** The tool executions started so far. */
    var started: seq<Invocation>
    var lifecycle: seq<Lifecycle>

    constructor (o: Oracle)
      ensures this.o == o && tick == 0 && log == [] && streams == [] && requests == [] && compactorCalls == 0
      ensures started == [] && lifecycle == []
    {
      this.o := o;
      tick, log, streams, requests, compactorCalls, started, lifecycle := 0, [], [], [], 0, [], [];
    }

    // ---- consultations ----

    method IsCancelled(cancel: Cancel) returns (b: bool)
      modifies `tick
      ensures tick == old(tick) + 1
      ensures b <==> cancel.Fired(old(tick))
    {
      b := cancel.Fired(tick);
      tick := tick + 1;
    }

    method Append(event: Event) returns (ok: bool)
      modifies `tick, `log
      ensures tick == old(tick) + 1 && ok == o.commits(old(tick))
      ensures log == old(log) + if ok then [event] else []
    {
      ok := o.commits(tick);
      tick := tick + 1;
      if ok {
        log := log + [event];
      }
    }

    method RecordUsage(params: RunParams, usage: Usage, kind: UsageKind, estimated: bool)
      returns (ok: bool, event: Event)
      modifies `tick, `log
      ensures event == UsageRecorded(kind, params.model, usage.tokens, params.price,
                                     CostMicros(usage.tokens, params.price), estimated)
      ensures tick == old(tick) + 1 && ok == o.commits(old(tick))
      ensures log == old(log) + if ok then [event] else []
    {
      event := UsageRecorded(kind, params.model, usage.tokens, params.price,
                             CostMicros(usage.tokens, params.price), estimated);
      ok := Append(event);
    }

    method CollectSteering() returns (ms: seq<Message>)
      modifies `tick
      ensures tick >= old(tick)
    {
      var got := o.steering(tick);
      tick := tick + 1;
      ms := if got.Some? then got.value else [];
    }

    method CollectFollowup() returns (ms: seq<Message>)
      modifies `tick
      ensures tick >= old(tick)
    {
      var got := o.followup(tick);
      tick := tick + 1;
      ms := if got.Some? then got.value else [];
    }

    method HookShouldStop() returns (stop: bool)
      modifies `tick
      ensures tick >= old(tick)
    {
      var got := o.shouldStop(tick);
      tick := tick + 1;
      stop := got.Some? && got.value;
    }

    method ApplyPrepareNextTurn(params: RunParams)
      modifies `tick, params`model
      ensures tick >= old(tick)
    {
      var patch := o.nextModel(tick);
      tick := tick + 1;
      if patch.Some? && patch.value.Some? {
        params.model := patch.value.value;
      }
    }

    // ---- tool batches ----

    method HookBeforeToolCall(name: string, args: Json) returns (veto: HookVeto)
      modifies `tick
      ensures tick == old(tick) + 1
      ensures var got := o.before(old(tick), name, args); veto == if got.Some? then got.value else Deny(HOOK_FAILED)
    {
      var got := o.before(tick, name, args);
      tick := tick + 1;
      veto := if got.Some? then got.value else Deny(HOOK_FAILED);
    }

    method HookAfterToolCall(name: string, args: Json, content: seq<Content>) returns (patched: seq<Content>)
      modifies `tick
      ensures tick == old(tick) + 1
      ensures var got := o.after(old(tick), name, args, content); patched == if got.Some? then got.value else content
    {
      var got := o.after(tick, name, args, content);
      tick := tick + 1;
      patched := if got.Some? then got.value else content;
    }

    /** The verdict on one call. Only the approver, which is asked without a guard, can take it away. */
    method Authorize(params: RunParams, call: ToolCallRef) returns (plan: Reply<CallPlan>)
      modifies `tick
      ensures Verdict(plan, tick) == Judge(o, params.disabledTools, call, old(tick))
    {
      if call.name in params.disabledTools {
        return Answer(Refuse(ToolDisabled(call.name)));
      }
      var blocked := o.blocked(tick);
      tick := tick + 1;
      if call.name in blocked {
        return Answer(Refuse(ToolStopped(call.name)));
      }
      var parsed := o.parse(call.argsJson);
      if parsed.None? {
        return Answer(Refuse(MalformedArgs));
      }
      var args := parsed.value;
      if !args.JsonObject? {
        return Answer(Refuse(ArgsNotObject(args.text)));
      }
      var veto := HookBeforeToolCall(call.name, args);
      match veto {
        case Allow =>
          plan := Answer(Execute(args));
        case Deny(reason) =>
          plan := Answer(Refuse(Told(reason)));
        case Ask(reason) =>
          var decision := o.approve(tick, call.id, call.name, args, reason);
          tick := tick + 1;
          plan := DecisionPlan(decision, args);
        case Replace(newArgs) =>
          plan := Answer(Execute(newArgs));
      }
    }

    ghost function PlanningAt(params: RunParams, calls: seq<ToolCallRef>, at: nat): Planning {
      Planning(o, params.disabledTools, calls, at)
    }

    method PlanAll(params: RunParams, calls: seq<ToolCallRef>) returns (plans: Reply<seq<CallPlan>>)
      modifies `tick
      ensures tick >= old(tick)
      ensures var p := PlanningAt(params, calls, old(tick));
        && (plans.Answer? <==> Planned(p))
        && (plans.Answer? ==> PlansOf(JobsOf(p), calls, plans.value) && tick == PlanTick(p, |calls|))
    {
      ghost var p := PlanningAt(params, calls, tick);
      var done: seq<CallPlan> := [];
      while |done| < |calls|
        invariant |done| <= |calls| && tick == PlanTick(p, |done|)
        invariant forall i {:trigger PlanOf(p, i)} {:trigger done[i]} :: 0 <= i < |done| ==> PlanOf(p, i) == Answer(done[i])
      {
        var plan := Authorize(params, calls[|done|]);
        assert plan == PlanOf(p, |done|) && tick == PlanTick(p, |done| + 1);
        if plan.Unwinds? {
          return Unwinds;
        }
        done := done + [plan.value];
      }
      plans := Answer(done);
    }

    /** Poll one worker's channel: forever while the batch is live, for the grace period once cancelled. */
    method RecvParallelResult(wait: Wait, cancel: Cancel) returns (r: Received)
      modifies `tick
      ensures tick >= old(tick)
      ensures r.Value? ==> wait.end == Answer(r.run)
      ensures r.Panicked? ==> wait.end.Unwinds?
      ensures r.Abandoned? ==> cancel.Fired(tick)
    {
      var round := 0;
      while round < wait.rounds
        invariant tick >= old(tick)
      {
        var cancelled := IsCancelled(cancel);
        if cancelled {
          var over := o.graceOver(tick);
          tick := tick + 1;
          if over {
            return Abandoned;
          }
        }
        round := round + 1;
      }
      r := if wait.end.Answer? then Value(wait.end.value) else Panicked;
    }

    method SpawnParallel(calls: seq<ToolCallRef>, plans: seq<CallPlan>, registry: map<string, bool>, cancel: Cancel,
                         ghost b: Batch)
      returns (handles: seq<Handle>)
      requires b.o == o && PlansOf(b.jobs, calls, plans) && registry == b.registry && cancel == b.cancel
      requires tick == SpawnTick(b, 0)
      modifies `tick, `started
      ensures tick == SpawnTick(b, |calls|)
      ensures HandlesOk(b, handles, |calls|)
      ensures started == old(started) + Invocations(handles)
    {
      handles := [];
      var i := 0;
      while i < |calls|
        invariant 0 <= i <= |calls| && tick == SpawnTick(b, i)
        invariant HandlesOk(b, handles, i)
        invariant started == old(started) + Invocations(handles)
      {
        var call := calls[i];
        assert b.jobs[i] == Job(calls[i], plans[i]);
        if plans[i].Execute? && call.name in registry && registry[call.name] {
          var args := plans[i].args;
          assert Parallel(b, i);
          var cancelled := IsCancelled(cancel);
          if cancelled {
            SpawnSkips(b, handles, i);
          } else {
            var wait := o.worker(tick, call.name, args);
            var handle := Handle(i, call.name, args, call.id, wait);
            assert HandleOk(b, handle);
            tick := tick + 1;
            started := started + [Invocation(i, call.name, args)];
            SpawnLaunches(b, handles, handle);
            Regroup(old(started), Invocations(handles), [Invocation(i, call.name, args)]);
            handles := handles + [handle];
          }
        } else {
          SpawnSkips(b, handles, i);
        }
        i := i + 1;
      }
    }

    /** One call on the loop's own thread. A panic of its tool is not an answer: it goes on unwinding. */
    method ExecuteOne(registry: map<string, bool>, index: nat, call: ToolCallRef, plan: CallPlan, cancel: Cancel,
                      ghost b: Batch)
      returns (result: Reply<Content>)
      requires b.o == o && registry == b.registry && cancel == b.cancel
      requires index < |b.jobs| && b.jobs[index] == Job(call, plan) && !Launches(b, index)
      requires tick == TurnTick(b, index)
      modifies `tick, `started
      ensures tick >= old(tick)
      ensures result.Answer? <==> Survives(b, index)
      ensures result.Answer? ==> tick == TurnTick(b, index + 1) && ContentOk(b, index, result.value)
      ensures started == old(started) + AloneStart(b, index)
    {
      match plan {
        case Refuse(reason) =>
          AloneStays(b, index);
          result := Answer(SynthError(call.id, reason));
        case Execute(args) =>
          var cancelled := IsCancelled(cancel);
          if cancelled {
            AloneStays(b, index);
            return Answer(SynthError(call.id, CancelledBefore));
          }
          if call.name !in registry {
            AloneStays(b, index);
            return Answer(SynthError(call.id, UnknownTool(call.name)));
          }
          AloneRuns(b, index);
          started := started + [Invocation(index, call.name, args)];
          var run := o.execute(tick, call.name, args);
          tick := tick + 1;
          if run.Unwinds? {
            return Unwinds;
          }
          var out := OutputOf(run.value);
          var patched := HookAfterToolCall(call.name, args, out.0);
          result := Answer(ToolResult(call.id, EnsureNonEmpty(patched), out.1));
      }
    }

    method RunSequential(calls: seq<ToolCallRef>, plans: seq<CallPlan>, registry: map<string, bool>,
                         handles: seq<Handle>, cancel: Cancel, ghost b: Batch)
      returns (results: Reply<seq<Option<Content>>>, ghost ran: seq<Invocation>)
      requires b.o == o && PlansOf(b.jobs, calls, plans) && registry == b.registry && cancel == b.cancel
      requires AreLaunched(b, handles)
      requires tick == TurnTick(b, 0)
      modifies `tick, `started
      ensures tick >= old(tick)
      ensures results.Answer? <==> Answers(b)
      ensures results.Answer? ==> SlotsOk(b, results.value, |calls|) && AllAloneStarted(b, ran, |calls|)
      ensures started == old(started) + ran && AloneStarts(b, ran, |calls|)
    {
      ran := [];
      var slots: seq<Option<Content>> := [];
      var i := 0;
      while i < |calls|
        invariant 0 <= i <= |calls| && old(tick) <= tick == TurnTick(b, i)
        invariant started == old(started) + ran
        invariant PassOk(b, ran, slots, i)
      {
        assert b.jobs[i] == Job(calls[i], plans[i]);
        if Launched(handles, i) {
          PassThread(b, ran, slots, i);
          slots := slots + [None];
        } else {
          var result := ExecuteOne(registry, i, calls[i], plans[i], cancel, b);
          Regroup(old(started), ran, AloneStart(b, i));
          if result.Unwinds? {
            PassLost(b, ran, slots, i);
            return Unwinds, ran + AloneStart(b, i);
          }
          PassAlone(b, ran, slots, i, result.value);
          ran, slots := ran + AloneStart(b, i), slots + [Some(result.value)];
        }
        i := i + 1;
      }
      PassDone(b, ran, slots);
      results := Answer(slots);
    }

    method Collect(handles: seq<Handle>, cancel: Cancel, filled: seq<Option<Content>>, ghost b: Batch)
      returns (results: seq<Option<Content>>)
      requires b.o == o && b.cancel == cancel && HandlesOk(b, handles, |b.jobs|) && SlotsOk(b, filled, |b.jobs|)
      modifies `tick
      ensures tick >= old(tick)
      ensures |results| == |b.jobs|
      ensures forall i {:trigger results[i]} :: 0 <= i < |results| ==> results[i].Some? && ContentOk(b, i, results[i].value)
    {
      results := filled;
      var k := 0;
      while k < |handles|
        invariant 0 <= k <= |handles| && tick >= old(tick) && |results| == |b.jobs|
        invariant forall i :: 0 <= i < |results| ==> (results[i].Some? ==> ContentOk(b, i, results[i].value))
        invariant forall i :: 0 <= i < |results| && results[i].None? ==> Launches(b, i)
        invariant forall j :: 0 <= j < k ==> results[handles[j].index].Some?
      {
        var h := handles[k];
        var received := RecvParallelResult(h.wait, cancel);
        var content;
        match received {
          case Value(run) =>
            var out := OutputOf(run);
            ghost var at := tick;
            var patched := HookAfterToolCall(h.name, h.args, out.0);
            content := ToolResult(h.id, EnsureNonEmpty(patched), out.1);
            assert content == ToolOutput(o, b.jobs[h.index].call, h.args, run, at);
          case Panicked =>
            content := SynthError(h.id, ThreadPanicked);
          case Abandoned =>
            content := SynthError(h.id, CancelledDuring);
        }
        assert ThreadContent(b, h.index, content);
        assert ContentOk(b, h.index, content);
        results := results[h.index := Some(content)];
        k := k + 1;
      }
      forall i | 0 <= i < |results| ensures results[i].Some? {
        if results[i].None? {
          assert Launched(handles, i);
        }
      }
    }

    /**
     * One tool batch. It answers every call, in call order, exactly if neither the approver nor a
     * tool on the loop's own thread panics; a panic on a worker thread is just an error result.
     * A call runs at most once and only if authorized. In a steady environment without cancel the
     * answers are `InBatch`, which `ParallelIsOneByOneExactly` compares with running the calls one by one.
     */
    method RunToolBatch(params: RunParams, calls: seq<ToolCallRef>, cancel: Cancel)
      returns (results: Reply<seq<Content>>)
      modifies `tick, `started
      ensures tick >= old(tick)
      ensures old(started) <= started
      ensures var p := PlanningAt(params, calls, old(tick));
        && (results.Answer? <==> BatchAnswers(p, cancel))
        && RanOk(p, started[|old(started)|..])
        && (results.Answer? ==> AllRan(BatchOf(p, cancel), started[|old(started)|..]))
        && (results.Answer? ==> ContentsOk(BatchOf(p, cancel), results.value))
      ensures results.Answer? ==> AnswersInOrder(results.value, calls)
      ensures Steady(o) && cancel.firesAt.None? ==> results == InBatch(o, params.disabledTools, calls)
    {
      ghost var p := PlanningAt(params, calls, tick);
      var planned := PlanAll(params, calls);
      if planned.Unwinds? {
        SteadyBatch(p, cancel, Unwinds);
        return Unwinds;
      }
      var plans := planned.value;
      var registry := o.registry(tick);
      tick := tick + 1;
      ghost var b := BatchOf(p, cancel);
      var handles := SpawnParallel(calls, plans, registry, cancel, b);
      LaunchedExactly(b, handles);
      var filled;
      ghost var alone;
      filled, alone := RunSequential(calls, plans, registry, handles, cancel, b);
      StartedSince(old(started), Invocations(handles), alone, started);
      BatchStarts(b, handles, alone);
      StartsPermitted(p, cancel, Invocations(handles) + alone);
      if filled.Unwinds? {
        SteadyBatch(p, cancel, Unwinds);
        return Unwinds;
      }
      BatchStartsAll(b, handles, alone);
      var slots := Collect(handles, cancel, filled.value, b);
      results := Answer(seq(|slots|, i requires 0 <= i < |slots| => slots[i].value));
      ContentsAnswer(p, cancel, results.value);
      SteadyBatch(p, cancel, results);
    }

    // ---- provider attempts ----

    /** What assembly guarantees of an answer: an assistant message whose calls all parse. */
    ghost predicate AnswerOk(a: Assembly.Assembled) {
      a.message.role == Assistant && Assembly.AllValid(a.message.content, ValidArgs(o))
    }

    method HookBeforeRequest(messages: seq<Message>) returns (patched: seq<Message>)
      modifies `tick
      ensures tick == old(tick) + 1 && patched == HookedMessages(o, old(tick), messages)
    {
      var got := o.beforeRequest(tick, messages);
      tick := tick + 1;
      patched := if got.Some? then got.value else messages;
    }

    /** Open one stream and classify how it went. Cancellation turns success and hard failure into an abort. */
    method ProviderAttempt(messages: seq<Message>, reminders: seq<Message>, cancel: Cancel, model: ModelRef)
      returns (r: Result<Attempt, ReactError>)
      modifies `tick, `streams, `requests
      ensures tick > old(tick)
      ensures streams == old(streams) + [reminders] && requests == old(requests) + [messages + reminders]
      ensures r == Err(Unwound) <==> o.open(old(tick)).Unwinds?
      ensures r.Err? ==> r.error == ProviderFailed || r.error == Unwound
      ensures r.Ok? && r.value.Completed? ==> AnswerOk(r.value.answer)
      ensures r.Ok? && r.value.AbortedInStream? ==> cancel.Fired(tick)
    {
      streams, requests := streams + [reminders], requests + [messages + reminders];
      var stream := o.open(tick);
      tick := tick + 1;
      if stream.Unwinds? {
        return Err(Unwound);
      }
      var assembled: Result<Assembly.Assembled, ProvErr>;
      match stream.value {
        case Ok(chunks) =>
          var emitted;
          assembled, emitted := Assembly.Assemble(chunks, ValidArgs(o));
        case Err(e) =>
          assembled := Err(e);
      }
      match assembled {
        case Ok(a) =>
          var answer := a.(usage := a.usage.(model := model));
          var cancelled := IsCancelled(cancel);
          r := Ok(if cancelled then AbortedInStream(answer) else Completed(answer));
        case Err(ContextOverflow) => r := Ok(Overflow);
        case Err(Truncated) => r := Ok(Truncation);
        case Err(Failed(_)) =>
          var cancelled := IsCancelled(cancel);
          r := if cancelled then Ok(AbortedInStream(EstimatedAssembled(model))) else Err(ProviderFailed);
      }
    }

    /** The compaction sub-turn: validate the handoff first, then commit Compacted and the handoff. */
    method RunCompaction(span: CompactSpan, cancel: Cancel, model: ModelRef)
      returns (r: Result<Attempt, ReactError>, ghost step: Option<CompactionStep>, ghost done: nat)
      modifies `tick, `log, `compactorCalls
      ensures tick >= old(tick)
      ensures old(compactorCalls) <= compactorCalls <= old(compactorCalls) + 1
      ensures step.Some? ==> CompactionOk(step.value) && step.value.span == span
      ensures done <= |RenderSteps(step)| && log == old(log) + RenderSteps(step)[..done]
      ensures r.Ok? && r.value.Completed? ==> step.Some?
      ensures r != Err(StoreFailed) ==> done == |RenderSteps(step)|
      ensures r.Ok? ==> r.value.Completed? || (r.value.AbortedInStream? && cancel.Fired(tick))
      ensures r != Err(TurnLimit)
      ensures r == Err(Unwound) ==> !Calm(o)
    {
      step, done := None, 0;
      var cancelled := IsCancelled(cancel);
      if cancelled {
        return Ok(AbortedInStream(EstimatedAssembled(model))), step, done;
      }
      if !o.hasCompactor {
        return Err(CompactionUnavailable), step, done;
      }
      var got := o.compact(tick, span);
      tick, compactorCalls := tick + 1, compactorCalls + 1;
      if got.Unwinds? {
        return Err(Unwound), step, done;
      }
      if got.value.None? {
        return Err(ProviderFailed), step, done;
      }
      var plan := got.value.value;
      if plan.handoff.Some? && !HandoffValid(plan.handoff.value, KnownIds(span.messages)) {
        return Err(ProviderFailed), step, done;
      }
      step := Some(CompactionStep(span, plan));
      var ok := Append(Compacted(span.start, span.end, plan.summary));
      if !ok {
        return Err(StoreFailed), step, done;
      }
      done := 1;
      if plan.handoff.Some? {
        ok := Append(Handoff(plan.handoff.value));
        if !ok {
          return Err(StoreFailed), step, done;
        }
        done := 2;
      }
      r := Ok(Completed(Assembly.Assembled(plan.summary, Usage(NO_TOKENS, model), Stop, false)));
    }

    static ghost function Steps(step: Option<CompactionStep>): seq<CompactionStep> {
      if step.Some? then [step.value] else []
    }

    static ghost function RenderSteps(step: Option<CompactionStep>): seq<Event> {
      if step.Some? then RenderCompaction(step.value) else []
    }

    /** One more compaction step, committed up to its first `d` events. */
    static lemma StepCommitted(was: seq<Event>, steps: seq<CompactionStep>, step: Option<CompactionStep>, d: nat, log: seq<Event>)
      requires StepsOk(steps) && (step.Some? ==> CompactionOk(step.value))
      requires d <= |RenderSteps(step)| && log == was + RenderCompactions(steps) + RenderSteps(step)[..d]
      ensures StepsOk(steps + Steps(step))
      ensures var all := RenderCompactions(steps + Steps(step));
        && |all| == |RenderCompactions(steps)| + |RenderSteps(step)|
        && log == was + all[..|RenderCompactions(steps)| + d]
        && (d == |RenderSteps(step)| ==> log == was + all)
    {
      if step.Some? {
        assert (steps + [step.value])[..|steps|] == steps;
      } else {
        assert steps + [] == steps;
      }
      TakeAfter(was, RenderCompactions(steps), RenderSteps(step), d);
    }

    /** A prefix of the second half is a prefix of the whole. */
    static lemma TakeAfter<T>(base: seq<T>, a: seq<T>, b: seq<T>, n: nat)
      requires n <= |b|
      ensures base + a + b[..n] == base + (a + b)[..|a| + n]
      ensures n == |b| ==> base + (a + b)[..|a| + n] == base + (a + b)
    {
      assert n == |b| ==> (a + b)[..|a| + n] == a + b;
    }

    /**
     * One attempt: plan, compact if the store asks, send. `replans'` is the re-plan budget spent
     * afterwards; an overflow always costs a unit of it.
     */
    method OneAttempt(params: RunParams, cancel: Cancel, reminders: seq<Message>, replans: nat)
      returns (r: Result<Attempt, ReactError>, replans': nat, ghost step: Option<CompactionStep>, ghost done: nat,
               ghost sent: Option<nat>)
      requires replans <= params.config.maxContextReplans
      modifies `tick, `log, `streams, `requests, `compactorCalls
      ensures tick >= old(tick)
      ensures replans <= replans' <= replans + 1
      ensures r.Ok? ==> replans' <= params.config.maxContextReplans
      ensures r == Ok(Overflow) ==> replans' == replans + 1
      ensures streams == old(streams) + if sent.Some? then [reminders] else []
      ensures sent.Some? ==> old(tick) < sent.value < tick && PlannedAt(o, sent.value)
      ensures requests == old(requests) + if sent.Some? then [RequestAt(o, sent.value, reminders)] else []
      ensures r.Ok? && !r.value.AbortedInStream? ==> sent.Some?
      ensures old(compactorCalls) <= compactorCalls
      ensures compactorCalls > old(compactorCalls) ==>
                compactorCalls == old(compactorCalls) + 1 && replans' == replans + 1 <= params.config.maxContextReplans
      ensures step.Some? ==> CompactionOk(step.value) && replans' == replans + 1 <= params.config.maxContextReplans
      ensures done <= |RenderSteps(step)| && log == old(log) + RenderSteps(step)[..done]
      ensures r != Err(StoreFailed) ==> done == |RenderSteps(step)|
      ensures r.Ok? && r.value.Completed? ==> AnswerOk(r.value.answer)
      ensures r.Ok? && r.value.AbortedInStream? ==> cancel.Fired(tick)
      ensures r != Err(TurnLimit)
      ensures r == Err(Unwound) ==> !Calm(o)
    {
      replans', step, done, sent := replans, None, 0, None;
      var planned := o.plan(tick);
      tick := tick + 1;
      if planned.None? {
        return Err(StoreFailed), replans', step, done, sent;
      }
      var plan := planned.value;
      var storeOfferedCompaction := plan.compact.Some?;
      if storeOfferedCompaction {
        replans' := replans' + 1;
        if replans' > params.config.maxContextReplans {
          return Err(CompactionLoop), replans', step, done, sent;
        }
        var compacted;
        compacted, step, done := RunCompaction(plan.compact.value, cancel, params.model);
        match compacted {
          case Ok(Completed(_)) =>
          case Ok(AbortedInStream(a)) => return Ok(AbortedInStream(a)), replans', step, done, sent;
          case Ok(_) => return Err(ProviderFailed), replans', step, done, sent;
          case Err(e) => return Err(e), replans', step, done, sent;
        }
        planned := o.plan(tick);
        tick := tick + 1;
        if planned.None? {
          return Err(StoreFailed), replans', step, done, sent;
        }
        plan := planned.value;
        if plan.compact.Some? {
          return Err(CompactionLoop), replans', step, done, sent;
        }
      }
      sent := Some(tick);
      var messages := HookBeforeRequest(plan.messages);
      r := ProviderAttempt(messages, reminders, cancel, params.model);
      if r == Ok(Overflow) && !storeOfferedCompaction {
        replans' := replans' + 1;
        if replans' > params.config.maxContextReplans {
          r := Err(ProviderFailed);
        }
      }
    }

    // ---- turns ----

    static function Budget(config: Config): nat {
      config.truncationAttempts + config.maxContextReplans + 1
    }

    /**
     * One attempt, seen from the whole turn: `steps` are the compactions committed before it, and
     * `levels` the truncations preceding each stream opened before it.
     */
    method AttemptRound(params: RunParams, cancel: Cancel, base: seq<Message>, reminders: seq<Message>,
                        truncations: nat, replans: nat, ghost start: seq<Event>, ghost steps: seq<CompactionStep>,
                        ghost sentBefore: seq<seq<Message>>, ghost levels: seq<nat>)
      returns (r: Result<Attempt, ReactError>, replans': nat, ghost steps': seq<CompactionStep>, ghost done: nat,
               ghost levels': seq<nat>)
      requires replans <= params.config.maxContextReplans
      requires StepsOk(steps) && |steps| <= replans && log == start + RenderCompactions(steps)
      requires LevelNext(levels, truncations, Retries(params.config))
      requires streams == sentBefore + SentFor(base, params.config, levels)
      requires reminders == Reminders(base, params.config, truncations)
      modifies `tick, `log, `streams, `requests, `compactorCalls
      ensures tick >= old(tick)
      ensures r != Err(TurnLimit)
      ensures r == Err(Unwound) ==> !Calm(o)
      ensures replans <= replans' <= replans + 1
      ensures r.Ok? ==> replans' <= params.config.maxContextReplans
      ensures r == Ok(Overflow) ==> replans' == replans + 1
      ensures |levels| <= |levels'| <= |levels| + 1 && LevelNext(levels', truncations, Retries(params.config))
      ensures r == Ok(Truncation) && truncations < Retries(params.config) ==>
                LevelNext(levels', truncations + 1, Retries(params.config))
      ensures streams == sentBefore + SentFor(base, params.config, levels')
      ensures old(compactorCalls) <= compactorCalls <= old(compactorCalls) + replans' - replans
      ensures compactorCalls > old(compactorCalls) ==> replans' <= params.config.maxContextReplans
      ensures StepsOk(steps') && |steps'| <= replans' && |steps'| <= params.config.maxContextReplans
      ensures done <= |RenderCompactions(steps')| && log == start + RenderCompactions(steps')[..done]
      ensures r != Err(StoreFailed) ==> done == |RenderCompactions(steps')| && log == start + RenderCompactions(steps')
      ensures r.Ok? && r.value.Completed? ==> AnswerOk(r.value.answer)
      ensures r.Ok? && r.value.AbortedInStream? ==> cancel.Fired(tick)
    {
      ghost var step, d, sent;
      r, replans', step, d, sent := OneAttempt(params, cancel, reminders, replans);
      StepCommitted(start, steps, step, d, log);
      steps', done := steps + Steps(step), |RenderCompactions(steps)| + d;
      levels' := if sent.Some? then levels + [truncations] else levels;
      LevelsAfter(base, params.config, levels, truncations, sent.Some?, levels', sentBefore, streams);
    }

    /** The attempt loop: every continuing round spends a unit of the truncation or of the re-plan budget. */
    method AttemptLoop(params: RunParams, base: seq<Message>, cancel: Cancel)
      returns (r: Result<Attempt, ReactError>, ghost steps: seq<CompactionStep>, ghost done: nat,
               ghost levels: seq<nat>)
      modifies `tick, `log, `streams, `requests, `compactorCalls
      ensures tick >= old(tick)
      ensures r != Err(TurnLimit)
      ensures r == Err(Unwound) ==> !Calm(o) || !LadderOk(params.config)
      ensures r.Ok? ==> r.value.Completed? || r.value.AbortedInStream?
      ensures StepsOk(steps) && |steps| <= params.config.maxContextReplans
      ensures done <= |RenderCompactions(steps)| && log == old(log) + RenderCompactions(steps)[..done]
      ensures r != Err(StoreFailed) ==> done == |RenderCompactions(steps)| && log == old(log) + RenderCompactions(steps)
      ensures LevelsOk(levels, Retries(params.config)) && |levels| <= Budget(params.config)
      ensures streams == old(streams) + SentFor(base, params.config, levels)
      ensures compactorCalls <= old(compactorCalls) + params.config.maxContextReplans
      ensures r.Ok? && r.value.Completed? ==> AnswerOk(r.value.answer)
      ensures r.Ok? && r.value.AbortedInStream? ==> cancel.Fired(tick)
    {
      var reminders := base;
      var truncations, replans := 0, 0;
      steps, done, levels := [], 0, [];
      var config := params.config;
      while true
        invariant tick >= old(tick)
        invariant 0 <= replans <= config.maxContextReplans
        invariant LevelNext(levels, truncations, Retries(config)) && |levels| <= truncations + replans
        invariant reminders == Reminders(base, config, truncations)
        invariant StepsOk(steps) && |steps| <= replans
        invariant log == old(log) + RenderCompactions(steps)
        invariant streams == old(streams) + SentFor(base, config, levels)
        invariant old(compactorCalls) <= compactorCalls <= old(compactorCalls) + replans
        decreases config.truncationAttempts - truncations + config.maxContextReplans - replans
      {
        var attempt;
        attempt, replans, steps, done, levels :=
          AttemptRound(params, cancel, base, reminders, truncations, replans, old(log), steps, old(streams), levels);
        if attempt.Err? || attempt.value.Completed? || attempt.value.AbortedInStream? {
          return attempt, steps, done, levels;
        }
        if attempt.value.Truncation? {
          if truncations + 1 > config.truncationAttempts {
            return Err(TruncationGaveUp), steps, done, levels;
          }
          if config.truncationLadder == [] {
            return Err(Unwound), steps, done, levels;
          }
          HarsherReminders(base, config, truncations);
          reminders, truncations := Harsher(reminders, config, truncations + 1), truncations + 1;
        }
      }
    }

    /** The rest of a turn without tool calls: stop, or queue the follow-ups. */
    method FinishPlain(stop: StopReason)
      returns (r: Result<TurnOutcome, ReactError>, ghost followups: seq<Message>, ghost done: nat)
      modifies `tick, `log
      ensures tick >= old(tick)
      ensures done <= |followups| && log == old(log) + Messages(followups)[..done]
      ensures r.Ok? ==> done == |followups| && r.value == if followups == [] then Idle(stop) else Continue
      ensures r.Err? ==> r.error == StoreFailed
    {
      followups, done := [], 0;
      var stopNow := HookShouldStop();
      if stopNow {
        return Ok(Idle(stop)), followups, done;
      }
      var queued := CollectFollowup();
      followups := queued;
      if queued == [] {
        return Ok(Idle(stop)), followups, done;
      }
      var ok;
      ok, done := AppendMessages(queued);
      r := if ok then Ok(Continue) else Err(StoreFailed);
    }

    /** The results a batch is heading for when it is lost. */
    static ghost function NominalResults(calls: seq<ToolCallRef>): (m: Message)
      ensures m.role == Tool && AnswersInOrder(m.content, calls)
    {
      Message(Tool, seq(|calls|, i requires 0 <= i < |calls| => SynthError(calls[i].id, CancelledBefore)))
    }

    /** The rest of a turn with tool calls: run them, commit one Tool message, then steer. A lost batch commits nothing. */
    method FinishTools(params: RunParams, calls: seq<ToolCallRef>, cancel: Cancel)
      returns (r: Result<TurnOutcome, ReactError>, ghost results: Message, ghost steering: seq<Message>, ghost done: nat)
      modifies `tick, `log, `started, params`model
      ensures tick >= old(tick) && old(started) <= started
      ensures results.role == Tool && AnswersInOrder(results.content, calls)
      ensures var tail := [MessageAppended(results)] + Messages(steering);
                && done <= |tail| && log == old(log) + tail[..done]
                && (r.Ok? ==> done == |tail|)
      ensures r.Ok? && r.value.Idle? ==> r.value.stop == Aborted && steering == [] && cancel.Fired(tick)
      ensures r.Err? ==> Interrupts(r.error)
      ensures r == Err(Unwound) <==> !BatchAnswers(PlanningAt(params, calls, old(tick)), cancel)
      ensures r == Err(Unwound) ==> done == 0
    {
      results, steering, done := NominalResults(calls), [], 0;
      var batch := RunToolBatch(params, calls, cancel);
      if batch.Unwinds? {
        return Err(Unwound), results, steering, done;
      }
      var content := batch.value;
      results := Message(Tool, content);
      var ok := Append(MessageAppended(Message(Tool, content)));
      if !ok {
        return Err(StoreFailed), results, steering, done;
      }
      done := 1;
      var cancelled := IsCancelled(cancel);
      if cancelled {
        return Ok(Idle(Aborted)), results, steering, done;
      }
      var steer := CollectSteering();
      steering := steer;
      ghost var d;
      ok, d := AppendMessages(steer);
      TakeAfter(old(log), [MessageAppended(results)], Messages(steering), d);
      done := 1 + d;
      if !ok {
        return Err(StoreFailed), results, steering, done;
      }
      ApplyPrepareNextTurn(params);
      r := Ok(Continue);
    }

    static lemma TailCommitted(was: seq<Event>, opening: seq<Event>, tail: seq<Event>, body: Body, d: nat, log: seq<Event>)
      requires RenderBody(body) == opening + tail && d <= |tail| && log == was + opening + tail[..d]
      ensures |opening| + d <= |RenderBody(body)| && log == was + RenderBody(body)[..|opening| + d]
    {
      TakeAfter(was, opening, tail, d);
    }

    static lemma ToolRoundBody(m: Message, usage: Event, results: Message, steering: seq<Message>)
      requires m.role == Assistant && MainUsage(usage) && CallsOf(m.content) != []
      requires results.role == Tool && AnswersInOrder(results.content, CallsOf(m.content))
      ensures var body := Answered(m, usage, ToolRound(results, steering));
        && BodyOk(body)
        && RenderBody(body) == [MessageAppended(m), usage] + ([MessageAppended(results)] + Messages(steering))
    {
      CallsOfIds(m.content);
      ResultIdsInOrder(results.content);
      assert ResultIds(results.content) == CallIds(m.content);
    }

    /** The answer asks for tools, and a panic takes their batch along. */
    ghost predicate LosesTools(params: RunParams, assembled: Assembly.Assembled, cancel: Cancel, at: nat) {
      && CallsOf(assembled.message.content) != []
      && !BatchAnswers(PlanningAt(params, CallsOf(assembled.message.content), at), cancel)
    }

    /** From a completed answer to the end of its turn. */
    method FinishAnswer(params: RunParams, assembled: Assembly.Assembled, cancel: Cancel)
      returns (r: Result<TurnOutcome, ReactError>, ghost body: Body, ghost done: nat)
      requires AnswerOk(assembled)
      modifies `tick, `log, `started, params`model
      ensures tick >= old(tick) && old(started) <= started
      ensures BodyOk(body) && body.Answered? && body.assistant == assembled.message
      ensures done <= |RenderBody(body)| && log == old(log) + RenderBody(body)[..done]
      ensures r.Ok? ==> done == |RenderBody(body)|
      ensures r.Err? ==> Interrupts(r.error)
      ensures r == Err(Unwound) <==>
                o.commits(old(tick)) && o.commits(old(tick) + 1) && LosesTools(params, assembled, cancel, old(tick) + 2)
      ensures r == Err(Unwound) ==> body.tail.ToolRound? && done == 2 && !Calm(o)
      ensures r == Ok(Continue) ==> Continues(Turn([], body))
      ensures r.Ok? && r.value.Idle? ==> GoesIdle(Turn([], body))
      ensures r.Ok? && r.value.Idle? ==>
                if body.tail.ToolRound? then r.value.stop == Aborted && cancel.Fired(tick) else r.value.stop == assembled.stop
    {
      body, done := NominalAnswer(params, assembled), 0;
      var ok := Append(MessageAppended(assembled.message));
      if !ok {
        return Err(StoreFailed), body, done;
      }
      done := 1;
      var usage;
      ok, usage := RecordUsage(params, assembled.usage, Main, !assembled.usageReported);
      if !ok {
        return Err(StoreFailed), body, done;
      }
      var calls := CallsOf(assembled.message.content);
      CallsOfIds(assembled.message.content);
      ghost var opening := [MessageAppended(assembled.message), usage];
      ghost var d;
      assert log == old(log) + opening;
      if calls == [] {
        ghost var followups;
        r, followups, d := FinishPlain(assembled.stop);
        body := Answered(assembled.message, usage, Final(followups));
        TailCommitted(old(log), opening, Messages(followups), body, d, log);
      } else {
        ghost var results, steering;
        CalmAnswers(PlanningAt(params, calls, tick), cancel);
        r, results, steering, d := FinishTools(params, calls, cancel);
        body := Answered(assembled.message, usage, ToolRound(results, steering));
        ghost var tail := [MessageAppended(results)] + Messages(steering);
        ToolRoundBody(assembled.message, usage, results, steering);
        TailCommitted(old(log), opening, tail, body, d, log);
      }
      done := 2 + d;
    }

    /** An aborted stream is paid for but not remembered. */
    method FinishAbort(params: RunParams, partial: Assembly.Assembled)
      returns (r: Result<TurnOutcome, ReactError>, ghost body: Body, ghost done: nat)
      modifies `tick, `log
      ensures tick >= old(tick)
      ensures BodyOk(body) && body.AbortedMidStream?
      ensures done <= |RenderBody(body)| && log == old(log) + RenderBody(body)[..done]
      ensures r == if done == |RenderBody(body)| then Ok(Idle(Aborted)) else Err(StoreFailed)
    {
      var ok, usage := RecordUsage(params, partial.usage, Main, !partial.usageReported);
      body, done := AbortedMidStream(usage), if ok then 1 else 0;
      r := if ok then Ok(Idle(Aborted)) else Err(StoreFailed);
    }

    /** The one-shot notice, and on the first turn the initial steering, ride with the request only. */
    method FirstReminders(params: RunParams, turn: nat) returns (reminders: seq<Message>)
      modifies `tick, params`reactivation
      ensures tick >= old(tick) && params.reactivation.None?
      ensures turn > 1 && old(params.reactivation).None? ==> reminders == []
    {
      reminders := [];
      if params.reactivation.Some? {
        reminders := [params.reactivation.value];
        params.reactivation := None;
      }
      if turn == 1 {
        var steering := CollectSteering();
        reminders := reminders + steering;
      }
    }

    static lemma TurnCommitted(was: seq<Event>, steps: seq<CompactionStep>, body: Body, d: nat, log: seq<Event>)
      requires d <= |RenderBody(body)| && log == was + RenderCompactions(steps) + RenderBody(body)[..d]
      ensures var t := Turn(steps, body);
        && |Render(t)| == |RenderCompactions(steps)| + |RenderBody(body)|
        && log == was + Render(t)[..|RenderCompactions(steps)| + d]
        && (d == |RenderBody(body)| ==> log == was + Render(t))
    {
      TakeAfter(was, RenderCompactions(steps), RenderBody(body), d);
    }

    static lemma NoAnswerCommitted(was: seq<Event>, steps: seq<CompactionStep>, d: nat, log: seq<Event>)
      requires d <= |RenderCompactions(steps)| && log == was + RenderCompactions(steps)[..d]
      ensures var t := Turn(steps, NoAnswer);
        && |Render(t)| == |RenderCompactions(steps)|
        && log == was + Render(t)[..d]
        && (d == |RenderCompactions(steps)| ==> log == was + Render(t))
    {
      assert Render(Turn(steps, NoAnswer)) == RenderCompactions(steps);
    }

    /** One turn. Whatever happens, what it appended is a turn of the grammar, or a prefix of one. */
    method ExecuteTurn(params: RunParams, turn: nat, cancel: Cancel)
      returns (r: Result<TurnOutcome, ReactError>, ghost t: Turn, ghost done: nat, ghost levels: seq<nat>)
      modifies `tick, `log, `streams, `requests, `compactorCalls, `started, params
      ensures tick >= old(tick) && old(started) <= started
      ensures r != Err(TurnLimit)
      ensures r == Err(Unwound) ==> !Calm(o) || !LadderOk(params.config)
      ensures TurnOk(t) && |t.compactions| <= params.config.maxContextReplans
      ensures done <= |Render(t)| && log == old(log) + Render(t)[..done]
      ensures r.Ok? || !Interrupts(r.error) ==> done == |Render(t)| && log == old(log) + Render(t)
      ensures r.Err? && !Interrupts(r.error) ==> t.body.NoAnswer?
      ensures r == Err(Unwound) ==> UnwoundAt(t, done)
      ensures r == Ok(Continue) ==> Continues(t)
      ensures r.Ok? && r.value.Idle? ==> GoesIdle(t)
      ensures r.Ok? && t.body.AbortedMidStream? ==> r.value == Idle(Aborted)
      ensures r.Ok? && r.value.Idle? && (t.body.AbortedMidStream? || t.body.tail.ToolRound?) ==>
                r.value.stop == Aborted && cancel.Fired(tick)
      ensures LevelsOk(levels, Retries(params.config)) && |levels| <= Budget(params.config)
      ensures |streams| == |old(streams)| + |levels|
      ensures turn > 1 && old(params.reactivation).None? ==> streams == old(streams) + SentFor([], params.config, levels)
      ensures compactorCalls <= old(compactorCalls) + params.config.maxContextReplans
      ensures params.reactivation.None?
    {
      var reminders := FirstReminders(params, turn);
      var attempt;
      ghost var steps;
      attempt, steps, done, levels := AttemptLoop(params, reminders, cancel);
      if attempt.Err? {
        t := Turn(steps, NoAnswer);
        NoAnswerCommitted(old(log), steps, done, log);
        return Err(attempt.error), t, done, levels;
      }
      ghost var body, d;
      if attempt.value.AbortedInStream? {
        r, body, d := FinishAbort(params, attempt.value.partial);
      } else {
        r, body, d := FinishAnswer(params, attempt.value.answer, cancel);
      }
      t, done := Turn(steps, body), |RenderCompactions(steps)| + d;
      TurnCommitted(old(log), steps, body, d, log);
    }

    /** The turn an answer is heading for when the store fails before its tail is known. */
    ghost function NominalAnswer(params: RunParams, a: Assembly.Assembled): Body
      reads params
      requires a.message.role == Assistant
      ensures BodyOk(NominalAnswer(params, a)) && NominalAnswer(params, a).Answered?
      ensures NominalAnswer(params, a).assistant == a.message
      ensures NominalAnswer(params, a).usage == UsageRecorded(Main, params.model, a.usage.tokens, params.price,
                CostMicros(a.usage.tokens, params.price), !a.usageReported)
    {
      var usage := UsageRecorded(Main, params.model, a.usage.tokens, params.price,
                                 CostMicros(a.usage.tokens, params.price), !a.usageReported);
      var ids := CallIds(a.message.content);
      var results := seq(|ids|, i requires 0 <= i < |ids| => SynthError(ids[i], CancelledBefore));
      ResultIdsInOrder(results);
      assert ids != [] ==> ResultIds(results) == ids;
      Answered(a.message, usage, if ids == [] then Final([]) else ToolRound(Message(Tool, results), []))
    }

    method AppendMessages(ms: seq<Message>) returns (ok: bool, ghost done: nat)
      modifies `tick, `log
      ensures tick >= old(tick)
      ensures done <= |ms| && log == old(log) + Messages(ms)[..done]
      ensures ok ==> done == |ms|
    {
      var i := 0;
      ok, done := true, 0;
      while i < |ms|
        invariant 0 <= i <= |ms| && tick >= old(tick)
        invariant done == i && log == old(log) + Messages(ms)[..i]
      {
        ok := Append(MessageAppended(ms[i]));
        if !ok {
          return;
        }
        i, done := i + 1, done + 1;
      }
    }

    // ---- the run ----

    method EndTurn(turn: nat, stop: StopReason)
      modifies `lifecycle
      ensures lifecycle == old(lifecycle) + [TurnFinishing(turn, stop), TurnEnded(turn, stop)]
    {
      lifecycle := lifecycle + [TurnFinishing(turn, stop)];
      lifecycle := lifecycle + [TurnEnded(turn, stop)];
    }

    static function Starts(n: nat): seq<Lifecycle> {
      seq(n, i requires 0 <= i < n => TurnStarted(i + 1))
    }

    /** The stop reason a finished run reports on its way out. */
    static function ClosingStop(outcome: Result<StopReason, ReactError>): StopReason {
      if outcome.Ok? then outcome.value else Aborted
    }

    /** Turns of a run still in progress. */
    static ghost predicate RoundsOk(turns: seq<Turn>, config: Config) {
      forall i {:trigger turns[i]} :: 0 <= i < |turns| ==>
        TurnOk(turns[i]) && Continues(turns[i]) && |turns[i].compactions| <= config.maxContextReplans
    }

    static ghost function RenderLast(last: Option<Turn>): seq<Event> {
      if last.Some? then Render(last.value) else []
    }

    ghost function Books(): Account
      reads this
    {
      Account(log, |streams|, compactorCalls, lifecycle)
    }

    /** `rounds` went round since `was`. */
    static ghost predicate After(was: Account, rounds: seq<Turn>, config: Config, now: Account) {
      && RoundsOk(rounds, config)
      && now.log == was.log + RenderAll(rounds)
      && now.streams <= was.streams + |rounds| * Budget(config)
      && now.compactorCalls <= was.compactorCalls + |rounds| * config.maxContextReplans
      && now.lifecycle == was.lifecycle + Starts(|rounds|)
    }

    /** The `n`-th turn happened since `was`, and `done` of its events were committed. */
    static ghost predicate OneTurn(was: Account, t: Turn, done: nat, n: nat, config: Config, now: Account) {
      && TurnOk(t) && |t.compactions| <= config.maxContextReplans
      && done <= |Render(t)| && now.log == was.log + Render(t)[..done]
      && now.streams <= was.streams + Budget(config)
      && now.compactorCalls <= was.compactorCalls + config.maxContextReplans
      && now.lifecycle == was.lifecycle + [TurnStarted(n)]
    }

    static lemma AfterRound(was: Account, rounds: seq<Turn>, mid: Account, t: Turn, now: Account, config: Config)
      requires After(was, rounds, config, mid) && Continues(t)
      requires OneTurn(mid, t, |Render(t)|, |rounds| + 1, config, now)
      ensures After(was, rounds + [t], config, now)
    {
      RenderAllSnoc(rounds, t);
      assert Render(t)[..|Render(t)|] == Render(t);
      Regroup(was.log, RenderAll(rounds), Render(t));
      OneMore(|rounds|, Budget(config));
      OneMore(|rounds|, config.maxContextReplans);
      StartsNext(was.lifecycle, |rounds|);
    }

    /** Every run that ends closes its last turn, exactly once and in this order; a panic leaves it open. */
    static function LifecycleOf(n: nat, r: RunResult): seq<Lifecycle> {
      match r
      case StillRunning => Starts(n)
      case Crashed => Starts(n)
      case Finished(outcome) => Starts(n) + [TurnFinishing(n, ClosingStop(outcome)), TurnEnded(n, ClosingStop(outcome))]
    }

    static lemma StartsNext(was: seq<Lifecycle>, n: nat)
      ensures was + Starts(n) + [TurnStarted(n + 1)] == was + Starts(n + 1)
    {
    }

    /** What `n` turns cost, and what they announced. */
    static ghost predicate Spent(was: Account, n: nat, r: RunResult, config: Config, now: Account) {
      && now.streams <= was.streams + n * Budget(config)
      && now.compactorCalls <= was.compactorCalls + n * config.maxContextReplans
      && now.lifecycle == was.lifecycle + LifecycleOf(n, r)
    }

    /** The whole log of a run: the rounds, then `done` events of the turn it ended in. */
    static ghost predicate LogIs(log: seq<Event>, was: seq<Event>, rounds: seq<Turn>, last: Option<Turn>, done: nat) {
      done <= |RenderLast(last)| && log == was + RenderAll(rounds) + RenderLast(last)[..done]
    }

    /** Nothing more happens, after some rounds. */
    static lemma EndsBetween(was: Account, rounds: seq<Turn>, config: Config, now: Account)
      requires After(was, rounds, config, now)
      ensures Spent(was, |rounds|, StillRunning, config, now)
      ensures LogIs(now.log, was.log, rounds, None, 0)
    {
    }

    /** The run ends in a turn. */
    static lemma EndsIn(was: Account, rounds: seq<Turn>, mid: Account, t: Turn, done: nat, config: Config, now: Account)
      requires After(was, rounds, config, mid) && OneTurn(mid, t, done, |rounds| + 1, config, now)
      ensures Spent(was, |rounds| + 1, Crashed, config, now)
      ensures LogIs(now.log, was.log, rounds, Some(t), done)
    {
      OneMore(|rounds|, Budget(config));
      OneMore(|rounds|, config.maxContextReplans);
      StartsNext(was.lifecycle, |rounds|);
    }

    /** ... and closes it. */
    static lemma Closes(was: Account, n: nat, outcome: Result<StopReason, ReactError>, config: Config, mid: Account, now: Account)
      requires Spent(was, n, Crashed, config, mid) || Spent(was, n, StillRunning, config, mid)
      requires now.streams == mid.streams && now.compactorCalls == mid.compactorCalls
      requires now.lifecycle == mid.lifecycle + [TurnFinishing(n, ClosingStop(outcome)), TurnEnded(n, ClosingStop(outcome))]
      ensures Spent(was, n, Finished(outcome), config, now)
    {
      Regroup(was.lifecycle, Starts(n), [TurnFinishing(n, ClosingStop(outcome)), TurnEnded(n, ClosingStop(outcome))]);
    }

    /** Announce a turn, pick its cancel token (the caller's, or a fresh one) and execute it. */
    method RunTurn(params: RunParams, turn: nat)
      returns (r: Result<TurnOutcome, ReactError>, ghost t: Turn, ghost done: nat)
      modifies `tick, `log, `streams, `requests, `compactorCalls, `started, `lifecycle, params
      ensures r != Err(TurnLimit)
      ensures r == Err(Unwound) ==> !Calm(o) || !LadderOk(params.config)
      ensures OneTurn(old(Books()), t, done, turn, params.config, Books())
      ensures r.Ok? || !Interrupts(r.error) ==> done == |Render(t)|
      ensures r.Err? && !Interrupts(r.error) ==> t.body.NoAnswer?
      ensures r == Err(Unwound) ==> UnwoundAt(t, done)
      ensures r == Ok(Continue) ==> Continues(t)
      ensures r.Ok? && r.value.Idle? ==> GoesIdle(t)
    {
      lifecycle := lifecycle + [TurnStarted(turn)];
      var cancel := if params.cancel.Some? then params.cancel.value else Cancel(o.freshCancel(tick));
      tick := tick + 1;
      ghost var levels;
      r, t, done, levels := ExecuteTurn(params, turn, cancel);
    }

    /**
     * Drive turns until the loop goes idle, fails, or `horizon` turns have been observed. The
     * loop itself has no turn ceiling unless one is configured, so an unbounded run is seen
     * through its finite prefixes. `rounds` are the turns that continued; `last` is the turn the
     * run ended in, if it ended inside one.
     */
    method Run(params: RunParams, horizon: nat)
      returns (r: RunResult, ghost rounds: seq<Turn>, ghost last: Option<Turn>, ghost done: nat)
      modifies this, params
      ensures RoundsOk(rounds, params.config)
      ensures last.Some? ==> TurnOk(last.value) && |last.value.compactions| <= params.config.maxContextReplans
      ensures last.Some? <==> r.Crashed? || (r.Finished? && r.outcome != Err(TurnLimit))
      ensures LogIs(log, old(log), rounds, last, done)
      ensures r != Finished(Err(StoreFailed)) && !r.Crashed? ==> done == |RenderLast(last)|
      ensures r.Finished? && r.outcome.Ok? ==> GoesIdle(last.value)
      ensures r.Finished? && last.Some? && r.outcome.Err? && r.outcome.error != StoreFailed ==> last.value.body.NoAnswer?
      ensures r.Crashed? ==> UnwoundAt(last.value, done)
      ensures r != Finished(Err(Unwound)) && (Calm(o) && LadderOk(params.config) ==> !r.Crashed?)
      ensures var n := |rounds| + if last.Some? then 1 else 0;
        && n <= horizon && (r.StillRunning? ==> n == horizon)
        && (params.config.maxTurns.Some? ==> n <= params.config.maxTurns.value)
        && (r == Finished(Err(TurnLimit)) ==> params.config.maxTurns == Some(n))
        && Spent(old(Books()), n, r, params.config, Books())
    {
      var config := params.config;
      ghost var was := Books();
      var turn := 0;
      rounds, last, done := [], None, 0;
      while true
        invariant turn == |rounds| <= horizon && last == None && done == 0
        invariant config.maxTurns.Some? ==> turn <= config.maxTurns.value
        invariant After(was, rounds, config, Books())
        decreases horizon - turn
      {
        EndsBetween(was, rounds, config, Books());
        ghost var mid := Books();
        if config.maxTurns.Some? && turn >= config.maxTurns.value {
          EndTurn(turn, Aborted);
          Closes(was, turn, Err(TurnLimit), config, mid, Books());
          return Finished(Err(TurnLimit)), rounds, last, done;
        }
        if turn == horizon {
          return StillRunning, rounds, last, done;
        }
        turn := turn + 1;
        var outcome;
        ghost var t, d;
        outcome, t, d := RunTurn(params, turn);
        if outcome != Ok(Continue) {
          EndsIn(was, rounds, mid, t, d, config, Books());
          if outcome == Err(Unwound) {
            return Crashed, rounds, Some(t), d;
          }
          var end := if outcome.Ok? then Ok(outcome.value.stop) else Err(outcome.error);
          ghost var ended := Books();
          EndTurn(turn, ClosingStop(end));
          Closes(was, turn, end, config, ended, Books());
          return Finished(end), rounds, Some(t), d;
        }
        AfterRound(was, rounds, mid, t, Books(), config);
        rounds := rounds + [t];
      }
    }

    static lemma OneMore(n: nat, b: nat)
      ensures (n + 1) * b == n * b + b
    {
    }
  }
}
