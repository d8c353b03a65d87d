/**
 * What a tool batch does, told without the loop that runs it: which ticks it consults, which calls
 * it launches on threads, which it reaches one by one, and when it answers at all.
 *
 * A tool run on a worker thread may panic: its call is answered with an error. The approver, and a
 * tool run on the loop's own thread, are called without a guard: their panic takes the batch along.
 */
module ToolBatch {
  import opened Core
  import opened ReactModel

  const HOOK_FAILED := "before_tool_call hook failed; denied (fail closed)"

  function DecisionPlan(decision: Reply<Decision>, args: Json): Reply<CallPlan> {
    match decision
    case Answer(Approved) => Answer(Execute(args))
    case Answer(Denied(reason)) => Answer(Refuse(Told(reason)))
    case Answer(HardDenied(reason)) => Answer(Refuse(Told(reason)))
    case Answer(Unanswered) => Answer(Refuse(ApprovalRequired))
    case Unwinds => Unwinds
  }

  function PatchedResult(id: CallId, out: (seq<Content>, bool), patched: Option<seq<Content>>): Content {
    ToolResult(id, EnsureNonEmpty(if patched.Some? then patched.value else out.0), out.1)
  }

  // ---- authorization ----

  /** The verdict on a call, and the tick after it. */
  datatype Verdict = Verdict(plan: Reply<CallPlan>, tick: nat)

  /** Authorizing one call from tick `t` on. */
  function Judge(o: Oracle, disabled: set<string>, call: ToolCallRef, t: nat): (v: Verdict)
    ensures t <= v.tick <= t + 3
  {
    if call.name in disabled then Verdict(Answer(Refuse(ToolDisabled(call.name))), t)
    else if call.name in o.blocked(t) then Verdict(Answer(Refuse(ToolStopped(call.name))), t + 1)
    else match o.parse(call.argsJson) {
      case None => Verdict(Answer(Refuse(MalformedArgs)), t + 1)
      case Some(JsonOther(text)) => Verdict(Answer(Refuse(ArgsNotObject(text))), t + 1)
      case Some(JsonObject(text)) =>
        var args := JsonObject(text);
        match o.before(t + 1, call.name, args) {
          case None => Verdict(Answer(Refuse(Told(HOOK_FAILED))), t + 2)
          case Some(Allow) => Verdict(Answer(Execute(args)), t + 2)
          case Some(Deny(reason)) => Verdict(Answer(Refuse(Told(reason))), t + 2)
          case Some(Replace(newArgs)) => Verdict(Answer(Execute(newArgs)), t + 2)
          case Some(Ask(reason)) =>
            Verdict(DecisionPlan(o.approve(t + 2, call.id, call.name, args, reason), args), t + 3)
        }
    }
  }

  /**
   * A call may run with `args` only if, when asked in the ticks from `t` to `end`, its tool was not
   * blocked and the policy hook, or the approver it deferred to, let it.
   */
  ghost predicate Permitted(o: Oracle, disabled: set<string>, call: ToolCallRef, args: Json, t: nat, end: nat) {
    && call.name !in disabled
    && (exists at :: t <= at < end && call.name !in o.blocked(at))
    && o.parse(call.argsJson).Some? && o.parse(call.argsJson).value.JsonObject?
    && var given := o.parse(call.argsJson).value;
       exists at :: t <= at < end && VetoPermits(o, call, given, args, o.before(at, call.name, given), t, end)
  }

  ghost predicate VetoPermits(o: Oracle, call: ToolCallRef, given: Json, args: Json, veto: Option<HookVeto>,
                              t: nat, end: nat)
  {
    veto.Some? &&
    match veto.value
    case Allow => args == given
    case Replace(newArgs) => args == newArgs
    case Ask(reason) =>
      args == given && exists at :: t <= at < end && o.approve(at, call.id, call.name, given, reason) == Answer(Approved)
    case Deny(_) => false
  }

  lemma JudgePermits(o: Oracle, disabled: set<string>, call: ToolCallRef, t: nat)
    ensures var v := Judge(o, disabled, call, t);
      v.plan.Answer? && v.plan.value.Execute? ==> Permitted(o, disabled, call, v.plan.value.args, t, v.tick)
  {
    var v := Judge(o, disabled, call, t);
    if v.plan.Answer? && v.plan.value.Execute? {
      var given := o.parse(call.argsJson).value;
      assert call.name !in o.blocked(t);
      assert VetoPermits(o, call, given, v.plan.value.args, o.before(t + 1, call.name, given), t, v.tick);
    }
  }

  lemma PermittedWiden(o: Oracle, disabled: set<string>, call: ToolCallRef, args: Json, t: nat, end: nat, t': nat, end': nat)
    requires Permitted(o, disabled, call, args, t, end) && t' <= t && end <= end'
    ensures Permitted(o, disabled, call, args, t', end')
  {
    var given := o.parse(call.argsJson).value;
    var asked :| t <= asked < end && call.name !in o.blocked(asked);
    var at :| t <= at < end && VetoPermits(o, call, given, args, o.before(at, call.name, given), t, end);
    assert VetoPermits(o, call, given, args, o.before(at, call.name, given), t', end');
  }

  // ---- planning ----

  /** Authorizing the calls of a batch, one after the other, from tick `start` on. */
  datatype Planning = Planning(o: Oracle, disabled: set<string>, calls: seq<ToolCallRef>, start: nat)

  /** The tick at which the i-th call is authorized. */
  function PlanTick(p: Planning, i: nat): (t: nat)
    requires i <= |p.calls|
    ensures t >= p.start
  {
    if i == 0 then p.start else Judge(p.o, p.disabled, p.calls[i - 1], PlanTick(p, i - 1)).tick
  }

  function PlanOf(p: Planning, i: nat): Reply<CallPlan>
    requires i < |p.calls|
  {
    Judge(p.o, p.disabled, p.calls[i], PlanTick(p, i)).plan
  }

  /** The approver answered whenever it was asked. */
  predicate Planned(p: Planning) {
    forall i {:trigger PlanOf(p, i)} :: 0 <= i < |p.calls| ==> PlanOf(p, i).Answer?
  }

  function JobsOf(p: Planning): seq<Job>
    requires Planned(p)
  {
    seq(|p.calls|, i requires 0 <= i < |p.calls| => Job(p.calls[i], PlanOf(p, i).value))
  }

  lemma {:induction false} TicksClimb(p: Planning, i: nat, j: nat)
    requires i <= j <= |p.calls|
    ensures PlanTick(p, i) <= PlanTick(p, j)
    decreases j
  {
    if i < j {
      TicksClimb(p, i, j - 1);
    }
  }

  /** What may run was let run while the batch was planned. */
  lemma PlanPermitted(p: Planning, i: nat)
    requires i < |p.calls|
    ensures var plan := PlanOf(p, i);
      plan.Answer? && plan.value.Execute? ==>
        Permitted(p.o, p.disabled, p.calls[i], plan.value.args, p.start, PlanTick(p, |p.calls|))
  {
    TicksClimb(p, 0, i);
    TicksClimb(p, i + 1, |p.calls|);
    var t, v := PlanTick(p, i), Judge(p.o, p.disabled, p.calls[i], PlanTick(p, i));
    if v.plan.Answer? && v.plan.value.Execute? {
      JudgePermits(p.o, p.disabled, p.calls[i], t);
      PermittedWiden(p.o, p.disabled, p.calls[i], v.plan.value.args, t, v.tick, p.start, PlanTick(p, |p.calls|));
    }
  }

  // ---- the course of a planned batch ----

  datatype Job = Job(call: ToolCallRef, plan: CallPlan)

  /** Running a planned batch from tick `start` on, against one snapshot of the tools and their parallel-safety. */
  datatype Batch = Batch(o: Oracle, jobs: seq<Job>, registry: map<string, bool>, cancel: Cancel, start: nat)

  predicate Executes(b: Batch, i: nat)
    requires i < |b.jobs|
  {
    b.jobs[i].plan.Execute?
  }

  predicate Parallel(b: Batch, i: nat)
    requires i < |b.jobs|
  {
    Executes(b, i) && b.jobs[i].call.name in b.registry && b.registry[b.jobs[i].call.name]
  }

  /** The tick at which the dispatch comes to the i-th call. */
  function SpawnTick(b: Batch, i: nat): (t: nat)
    requires i <= |b.jobs|
    ensures t >= b.start
  {
    if i == 0 then b.start
    else
      var t := SpawnTick(b, i - 1);
      if !Parallel(b, i - 1) then t else if b.cancel.Fired(t) then t + 1 else t + 2
  }

  predicate Launches(b: Batch, i: nat)
    requires i < |b.jobs|
  {
    Parallel(b, i) && !b.cancel.Fired(SpawnTick(b, i))
  }

  /** The tick at which the sequential pass comes to the i-th call. */
  function TurnTick(b: Batch, i: nat): (t: nat)
    requires i <= |b.jobs|
    ensures t >= SpawnTick(b, |b.jobs|)
  {
    if i == 0 then SpawnTick(b, |b.jobs|)
    else
      var t := TurnTick(b, i - 1);
      if Launches(b, i - 1) || !Executes(b, i - 1) then t
      else if Reached(b, i - 1, t) then t + 3 else t + 1
  }

  predicate Reached(b: Batch, i: nat, t: nat)
    requires i < |b.jobs|
  {
    Executes(b, i) && !Launches(b, i) && !b.cancel.Fired(t) && b.jobs[i].call.name in b.registry
  }

  /** The sequential pass really runs the tool of the i-th call. */
  predicate RunsAlone(b: Batch, i: nat)
    requires i < |b.jobs|
  {
    Reached(b, i, TurnTick(b, i))
  }

  function AloneRun(b: Batch, i: nat): Reply<ToolRun>
    requires i < |b.jobs| && Executes(b, i)
  {
    b.o.execute(TurnTick(b, i) + 1, b.jobs[i].call.name, b.jobs[i].plan.args)
  }

  /** The i-th call does not take the batch down: if its tool runs on the loop's own thread, it answers. */
  predicate Survives(b: Batch, i: nat)
    requires i < |b.jobs|
  {
    RunsAlone(b, i) ==> AloneRun(b, i).Answer?
  }

  predicate Answers(b: Batch) {
    forall i {:trigger Survives(b, i)} :: 0 <= i < |b.jobs| ==> Survives(b, i)
  }

  /** The batch that was planned so. */
  function BatchOf(p: Planning, cancel: Cancel): Batch
    requires Planned(p)
  {
    var t := PlanTick(p, |p.calls|);
    Batch(p.o, JobsOf(p), p.o.registry(t), cancel, t + 1)
  }

  /** The whole batch answers: the approver whenever asked, and every tool run on the loop's own thread. */
  predicate BatchAnswers(p: Planning, cancel: Cancel) {
    Planned(p) && Answers(BatchOf(p, cancel))
  }

  /**
   * One unguarded panic is enough: whatever the other calls do and however healthy the store is, a
   * registered tool that is not parallel-safe and panics on an uncancelled call loses the batch.
   */
  lemma PanicLosesBatch(p: Planning, cancel: Cancel, i: nat)
    requires Planned(p) && i < |p.calls| && PlanOf(p, i).value.Execute? && cancel.firesAt.None?
    requires var registry := p.o.registry(PlanTick(p, |p.calls|));
      p.calls[i].name in registry && !registry[p.calls[i].name]
    requires forall t :: p.o.execute(t, p.calls[i].name, PlanOf(p, i).value.args).Unwinds?
    ensures !BatchAnswers(p, cancel)
  {
    var b := BatchOf(p, cancel);
    assert b.jobs[i] == Job(p.calls[i], PlanOf(p, i).value);
    assert RunsAlone(b, i) && !Survives(b, i);
  }

  /** Nothing that is called without a guard ever panics. */
  ghost predicate Calm(o: Oracle) {
    && (forall t :: o.open(t).Answer?)
    && (forall t, span :: o.compact(t, span).Answer?)
    && (forall t, id, name, args, reason :: o.approve(t, id, name, args, reason).Answer?)
    && (forall t, name, args :: o.execute(t, name, args).Answer?)
  }

  lemma CalmAnswers(p: Planning, cancel: Cancel)
    ensures Calm(p.o) ==> BatchAnswers(p, cancel)
  {
  }

  /** A store that commits everything, a policy that allows everything, and one tool, which panics. */
  function Panicky(): Planning {
    var o := Oracle(_ => None, _ => true, (_, ms) => Some(ms), _ => Unwinds, false, (_, _) => Unwinds, _ => None,
                    _ => None, _ => None, _ => None, _ => None, s => Some(JsonObject(s)), _ => {},
                    _ => map["shell" := false], (_, _, _) => Some(Allow), (_, _, _, _, _) => Answer(Approved),
                    (_, _, _, _) => None, (_, _, _) => Unwinds, (_, _, _) => Wait(0, Unwinds), _ => false);
    Planning(o, {}, [ToolCallRef("call", "shell", "{}")], 0)
  }

  lemma PanickyIsLost()
    ensures forall t :: Panicky().o.commits(t)
    ensures !BatchAnswers(Panicky(), Cancel(None))
  {
    PanicLosesBatch(Panicky(), Cancel(None), 0);
  }

  // ---- what the loop has done of a batch ----

  predicate PlansOf(jobs: seq<Job>, calls: seq<ToolCallRef>, plans: seq<CallPlan>) {
    && |jobs| == |calls| == |plans|
    && forall i {:trigger jobs[i]} :: 0 <= i < |jobs| ==> jobs[i] == Job(calls[i], plans[i])
  }

  /** A launched call, with its worker's channel. */
  datatype Handle = Handle(index: nat, name: string, args: Json, id: CallId, wait: Wait)

  predicate Launched(handles: seq<Handle>, i: nat) {
    exists k :: 0 <= k < |handles| && handles[k].index == i
  }

  ghost predicate HandleOk(b: Batch, h: Handle) {
    && h.index < |b.jobs| && Launches(b, h.index)
    && h.name == b.jobs[h.index].call.name && h.id == b.jobs[h.index].call.id && h.args == b.jobs[h.index].plan.args
    && h.wait == b.o.worker(SpawnTick(b, h.index) + 1, h.name, h.args)
  }

  /** Exactly the calls below `n` that the batch launches, in call order. */
  ghost predicate HandlesOk(b: Batch, handles: seq<Handle>, n: nat)
    requires n <= |b.jobs|
  {
    && (forall k {:trigger handles[k]} :: 0 <= k < |handles| ==> handles[k].index < n && HandleOk(b, handles[k]))
    && (forall j, k {:trigger handles[j], handles[k]} :: 0 <= j < k < |handles| ==> handles[j].index < handles[k].index)
    && (forall i {:trigger Launched(handles, i)} :: 0 <= i < n && Launches(b, i) ==> Launched(handles, i))
  }

  lemma HandlesSnoc(b: Batch, handles: seq<Handle>, handle: Handle)
    requires handle.index < |b.jobs| && HandlesOk(b, handles, handle.index) && HandleOk(b, handle)
    ensures HandlesOk(b, handles + [handle], handle.index + 1)
    ensures Invocations(handles + [handle]) == Invocations(handles) + [Invocation(handle.index, handle.name, handle.args)]
  {
    LaunchedSnoc(handles, handle);
  }

  lemma LaunchedSnoc(handles: seq<Handle>, handle: Handle)
    ensures forall i :: Launched(handles + [handle], i) <==> Launched(handles, i) || i == handle.index
  {
    var all := handles + [handle];
    forall i ensures Launched(all, i) <==> Launched(handles, i) || i == handle.index {
      if Launched(handles, i) {
        var k :| 0 <= k < |handles| && handles[k].index == i;
        assert all[k].index == i;
      }
      assert all[|handles|] == handle;
    }
  }

  lemma SpawnSkips(b: Batch, handles: seq<Handle>, i: nat)
    requires i < |b.jobs| && HandlesOk(b, handles, i) && !Launches(b, i)
    ensures HandlesOk(b, handles, i + 1)
    ensures SpawnTick(b, i + 1) == SpawnTick(b, i) + if Parallel(b, i) then 1 else 0
  {
  }

  lemma SpawnLaunches(b: Batch, handles: seq<Handle>, handle: Handle)
    requires handle.index < |b.jobs| && HandlesOk(b, handles, handle.index) && HandleOk(b, handle)
    ensures HandlesOk(b, handles + [handle], handle.index + 1)
    ensures Invocations(handles + [handle]) == Invocations(handles) + [Invocation(handle.index, handle.name, handle.args)]
    ensures SpawnTick(b, handle.index + 1) == SpawnTick(b, handle.index) + 2
  {
    HandlesSnoc(b, handles, handle);
  }

  /** A call has a handle exactly if the batch launches it. */
  ghost predicate AreLaunched(b: Batch, handles: seq<Handle>) {
    forall i {:trigger Launched(handles, i)} :: 0 <= i < |b.jobs| ==> (Launched(handles, i) <==> Launches(b, i))
  }

  lemma LaunchedExactly(b: Batch, handles: seq<Handle>)
    requires HandlesOk(b, handles, |b.jobs|)
    ensures AreLaunched(b, handles)
  {
    forall i | 0 <= i < |b.jobs| && Launched(handles, i) ensures Launches(b, i) {
      var k :| 0 <= k < |handles| && handles[k].index == i;
      assert HandleOk(b, handles[k]);
    }
  }

  // ---- the executions a batch starts ----

  function Invocations(handles: seq<Handle>): seq<Invocation> {
    seq(|handles|, k requires 0 <= k < |handles| => Invocation(handles[k].index, handles[k].name, handles[k].args))
  }

  /** The call runs with the arguments its plan was authorized for. */
  ghost predicate IsCall(b: Batch, inv: Invocation) {
    && inv.index < |b.jobs| && Executes(b, inv.index)
    && inv.name == b.jobs[inv.index].call.name && inv.args == b.jobs[inv.index].plan.args
  }

  predicate WasStarted(ran: seq<Invocation>, i: nat) {
    exists k :: 0 <= k < |ran| && ran[k].index == i
  }

  /** Each execution belongs to its own call. */
  ghost predicate StartsOk(b: Batch, ran: seq<Invocation>) {
    && (forall k {:trigger ran[k]} :: 0 <= k < |ran| ==> IsCall(b, ran[k]))
    && (forall j, k {:trigger ran[j], ran[k]} :: 0 <= j < k < |ran| ==> ran[j].index != ran[k].index)
  }

  /** Sequential executions of calls below `n`, in call order. */
  ghost predicate AloneStarts(b: Batch, ran: seq<Invocation>, n: nat)
    requires n <= |b.jobs|
  {
    && (forall k {:trigger ran[k]} :: 0 <= k < |ran| ==> ran[k].index < n && IsCall(b, ran[k]) && RunsAlone(b, ran[k].index))
    && (forall j, k {:trigger ran[j], ran[k]} :: 0 <= j < k < |ran| ==> ran[j].index < ran[k].index)
  }

  ghost predicate AllAloneStarted(b: Batch, ran: seq<Invocation>, n: nat)
    requires n <= |b.jobs|
  {
    forall i {:trigger WasStarted(ran, i)} :: 0 <= i < n && RunsAlone(b, i) ==> WasStarted(ran, i)
  }

  lemma StartsSnoc(b: Batch, ran: seq<Invocation>, inv: Invocation)
    requires inv.index < |b.jobs| && AloneStarts(b, ran, inv.index) && AllAloneStarted(b, ran, inv.index)
    requires IsCall(b, inv) && RunsAlone(b, inv.index)
    ensures AloneStarts(b, ran + [inv], inv.index + 1) && AllAloneStarted(b, ran + [inv], inv.index + 1)
  {
    WasStartedSnoc(ran, inv);
  }

  lemma WasStartedSnoc(ran: seq<Invocation>, inv: Invocation)
    ensures forall i :: WasStarted(ran + [inv], i) <==> WasStarted(ran, i) || i == inv.index
  {
    var all := ran + [inv];
    forall i ensures WasStarted(all, i) <==> WasStarted(ran, i) || i == inv.index {
      if WasStarted(ran, i) {
        var k :| 0 <= k < |ran| && ran[k].index == i;
        assert all[k].index == i;
      }
      assert all[|ran|] == inv;
    }
  }

  lemma StartsSkip(b: Batch, ran: seq<Invocation>, i: nat)
    requires i < |b.jobs| && AloneStarts(b, ran, i) && AllAloneStarted(b, ran, i) && !RunsAlone(b, i)
    ensures AloneStarts(b, ran, i + 1) && AllAloneStarted(b, ran, i + 1)
  {
  }

  lemma StartsWiden(b: Batch, ran: seq<Invocation>, n: nat)
    requires n <= |b.jobs| && AloneStarts(b, ran, n)
    ensures AloneStarts(b, ran, |b.jobs|)
  {
  }

  lemma WasStartedEither(a: seq<Invocation>, c: seq<Invocation>, i: nat)
    ensures WasStarted(a + c, i) <==> WasStarted(a, i) || WasStarted(c, i)
  {
    var all := a + c;
    if WasStarted(a, i) {
      var k :| 0 <= k < |a| && a[k].index == i;
      assert all[k].index == i;
    }
    if WasStarted(c, i) {
      var k :| 0 <= k < |c| && c[k].index == i;
      assert all[|a| + k].index == i;
    }
  }

  lemma LaunchedStarted(handles: seq<Handle>, i: nat)
    ensures Launched(handles, i) <==> WasStarted(Invocations(handles), i)
  {
    var ran := Invocations(handles);
    if Launched(handles, i) {
      var k :| 0 <= k < |handles| && handles[k].index == i;
      assert ran[k].index == i;
    }
  }

  lemma AloneStarted(b: Batch, alone: seq<Invocation>, i: nat)
    requires i < |b.jobs| && AloneStarts(b, alone, |b.jobs|) && WasStarted(alone, i)
    ensures RunsAlone(b, i)
  {
  }

  lemma StartsConcat(b: Batch, a: seq<Invocation>, c: seq<Invocation>)
    requires StartsOk(b, a) && StartsOk(b, c)
    requires forall i :: WasStarted(a, i) ==> !WasStarted(c, i)
    ensures StartsOk(b, a + c)
  {
    var all := a + c;
    forall j, k | 0 <= j < k < |all| ensures all[j].index != all[k].index {
      if j < |a| <= k {
        assert a[j] == all[j] && c[k - |a|] == all[k];
        assert WasStarted(a, a[j].index);
        assert c[k - |a|].index == a[j].index ==> WasStarted(c, a[j].index);
      }
    }
  }

  lemma HandlesStart(b: Batch, handles: seq<Handle>)
    requires HandlesOk(b, handles, |b.jobs|)
    ensures StartsOk(b, Invocations(handles))
  {
    var ran := Invocations(handles);
    forall k | 0 <= k < |ran| ensures IsCall(b, ran[k]) {
      assert HandleOk(b, handles[k]);
    }
    forall j, k | 0 <= j < k < |ran| ensures ran[j].index != ran[k].index {
      assert handles[j].index < handles[k].index;
    }
  }

  /** What was started since: the threads, then the pass. */
  lemma StartedSince(was: seq<Invocation>, threads: seq<Invocation>, alone: seq<Invocation>, started: seq<Invocation>)
    requires started == was + threads + alone
    ensures was <= started && started[|was|..] == threads + alone
  {
  }

  /** Threads and the sequential pass start different calls. */
  lemma BatchStarts(b: Batch, handles: seq<Handle>, alone: seq<Invocation>)
    requires HandlesOk(b, handles, |b.jobs|) && AloneStarts(b, alone, |b.jobs|)
    ensures StartsOk(b, Invocations(handles) + alone)
  {
    HandlesStart(b, handles);
    forall i | WasStarted(Invocations(handles), i) ensures !WasStarted(alone, i) {
      var k :| 0 <= k < |handles| && Invocations(handles)[k].index == i;
      assert HandleOk(b, handles[k]);
      if WasStarted(alone, i) {
        AloneStarted(b, alone, i);
      }
    }
    StartsConcat(b, Invocations(handles), alone);
  }

  /** Together they start every call that the batch launches or reaches, and no other. */
  lemma BatchStartsAll(b: Batch, handles: seq<Handle>, alone: seq<Invocation>)
    requires HandlesOk(b, handles, |b.jobs|) && AloneStarts(b, alone, |b.jobs|) && AllAloneStarted(b, alone, |b.jobs|)
    ensures AllRan(b, Invocations(handles) + alone)
  {
    forall i | 0 <= i < |b.jobs|
      ensures WasStarted(Invocations(handles) + alone, i) <==> Launches(b, i) || RunsAlone(b, i)
    {
      WasStartedEither(Invocations(handles), alone, i);
      LaunchedStarted(handles, i);
      LaunchedExactly(b, handles);
      if WasStarted(alone, i) {
        AloneStarted(b, alone, i);
      }
    }
  }

  // ---- the answers of a batch ----

  /** The answer of a call on the loop's own thread. */
  function AloneContent(b: Batch, i: nat): Content
    requires i < |b.jobs| && Survives(b, i) && !Launches(b, i)
  {
    var call := b.jobs[i].call;
    match b.jobs[i].plan
    case Refuse(reason) => SynthError(call.id, reason)
    case Execute(args) =>
      if b.cancel.Fired(TurnTick(b, i)) then SynthError(call.id, CancelledBefore)
      else if call.name !in b.registry then SynthError(call.id, UnknownTool(call.name))
      else
        var out := OutputOf(AloneRun(b, i).value);
        PatchedResult(call.id, out, b.o.after(TurnTick(b, i) + 2, call.name, args, out.0))
  }

  /** A possible answer of a launched call: its worker's value, its worker's panic, or, once cancelled, nothing of it. */
  ghost predicate ThreadContent(b: Batch, i: nat, content: Content)
    requires i < |b.jobs| && Launches(b, i)
  {
    var call, args := b.jobs[i].call, b.jobs[i].plan.args;
    var end := b.o.worker(SpawnTick(b, i) + 1, call.name, args).end;
    || (end.Unwinds? && content == SynthError(call.id, ThreadPanicked))
    || (b.cancel.firesAt.Some? && content == SynthError(call.id, CancelledDuring))
    || (end.Answer? && exists at :: content == ToolOutput(b.o, call, args, end.value, at))
  }

  function ToolOutput(o: Oracle, call: ToolCallRef, args: Json, run: ToolRun, at: nat): Content {
    var out := OutputOf(run);
    PatchedResult(call.id, out, o.after(at, call.name, args, out.0))
  }

  ghost predicate ContentOk(b: Batch, i: nat, content: Content)
    requires i < |b.jobs|
  {
    Survives(b, i) && if Launches(b, i) then ThreadContent(b, i, content) else content == AloneContent(b, i)
  }

  /** After the sequential pass over the first `n` calls exactly the launched ones are unanswered. */
  ghost predicate SlotsOk(b: Batch, slots: seq<Option<Content>>, n: nat)
    requires n <= |b.jobs|
  {
    && |slots| == n
    && forall i {:trigger slots[i]} :: 0 <= i < n ==>
         if slots[i].None? then Launches(b, i) else !Launches(b, i) && ContentOk(b, i, slots[i].value)
  }

  lemma ContentAnswers(b: Batch, i: nat, content: Content)
    requires i < |b.jobs| && ContentOk(b, i, content)
    ensures content.ToolResult? && content.id == b.jobs[i].call.id
  {
  }

  // ---- the sequential pass, call by call ----

  /** What the pass starts for the i-th call. */
  function AloneStart(b: Batch, i: nat): seq<Invocation>
    requires i < |b.jobs|
  {
    if RunsAlone(b, i) then [Invocation(i, b.jobs[i].call.name, b.jobs[i].plan.args)] else []
  }

  /** The pass has come to the n-th call. */
  ghost predicate PassOk(b: Batch, ran: seq<Invocation>, slots: seq<Option<Content>>, n: nat)
    requires n <= |b.jobs|
  {
    && AloneStarts(b, ran, n) && AllAloneStarted(b, ran, n) && SlotsOk(b, slots, n)
    && forall i {:trigger Survives(b, i)} :: 0 <= i < n ==> Survives(b, i)
  }

  /** A call that does not run is answered at once. */
  lemma AloneStays(b: Batch, i: nat)
    requires i < |b.jobs| && !Launches(b, i) && !RunsAlone(b, i)
    ensures Survives(b, i) && AloneStart(b, i) == []
    ensures TurnTick(b, i + 1) == TurnTick(b, i) + if Executes(b, i) then 1 else 0
    ensures ContentOk(b, i, AloneContent(b, i))
  {
  }

  /** A call that runs is answered with its output as the hook left it, unless its tool panics. */
  lemma AloneRuns(b: Batch, i: nat)
    requires i < |b.jobs| && RunsAlone(b, i)
    ensures AloneStart(b, i) == [Invocation(i, b.jobs[i].call.name, b.jobs[i].plan.args)]
    ensures TurnTick(b, i + 1) == TurnTick(b, i) + 3
    ensures Survives(b, i) <==> AloneRun(b, i).Answer?
    ensures Survives(b, i) ==> ContentOk(b, i, ToolOutput(b.o, b.jobs[i].call, b.jobs[i].plan.args, AloneRun(b, i).value, TurnTick(b, i) + 2))
  {
  }

  lemma StartsNext(b: Batch, ran: seq<Invocation>, i: nat)
    requires i < |b.jobs| && AloneStarts(b, ran, i) && AllAloneStarted(b, ran, i)
    ensures AloneStarts(b, ran + AloneStart(b, i), i + 1) && AllAloneStarted(b, ran + AloneStart(b, i), i + 1)
  {
    if RunsAlone(b, i) {
      StartsSnoc(b, ran, Invocation(i, b.jobs[i].call.name, b.jobs[i].plan.args));
    } else {
      StartsSkip(b, ran, i);
      assert ran + [] == ran;
    }
  }

  lemma PassThread(b: Batch, ran: seq<Invocation>, slots: seq<Option<Content>>, i: nat)
    requires i < |b.jobs| && PassOk(b, ran, slots, i) && Launches(b, i)
    ensures PassOk(b, ran, slots + [None], i + 1) && TurnTick(b, i + 1) == TurnTick(b, i)
  {
    StartsSkip(b, ran, i);
    assert Survives(b, i);
  }

  lemma PassAlone(b: Batch, ran: seq<Invocation>, slots: seq<Option<Content>>, i: nat, content: Content)
    requires i < |b.jobs| && PassOk(b, ran, slots, i) && !Launches(b, i) && ContentOk(b, i, content)
    ensures PassOk(b, ran + AloneStart(b, i), slots + [Some(content)], i + 1)
  {
    StartsNext(b, ran, i);
  }

  lemma PassLost(b: Batch, ran: seq<Invocation>, slots: seq<Option<Content>>, i: nat)
    requires i < |b.jobs| && PassOk(b, ran, slots, i) && !Survives(b, i)
    ensures AloneStarts(b, ran + AloneStart(b, i), |b.jobs|) && !Answers(b)
  {
    StartsNext(b, ran, i);
    StartsWiden(b, ran + AloneStart(b, i), i + 1);
  }

  lemma PassDone(b: Batch, ran: seq<Invocation>, slots: seq<Option<Content>>)
    requires PassOk(b, ran, slots, |b.jobs|)
    ensures Answers(b) && SlotsOk(b, slots, |b.jobs|)
    ensures AloneStarts(b, ran, |b.jobs|) && AllAloneStarted(b, ran, |b.jobs|)
  {
  }

  // ---- the whole batch ----

  /** Each execution is of its own call, with the arguments let through while the batch was planned. */
  ghost predicate RanOk(p: Planning, ran: seq<Invocation>) {
    && (forall k {:trigger ran[k]} :: 0 <= k < |ran| ==>
          && ran[k].index < |p.calls| && ran[k].name == p.calls[ran[k].index].name
          && Permitted(p.o, p.disabled, p.calls[ran[k].index], ran[k].args, p.start, PlanTick(p, |p.calls|)))
    && (forall j, k {:trigger ran[j], ran[k]} :: 0 <= j < k < |ran| ==> ran[j].index != ran[k].index)
  }

  lemma StartsPermitted(p: Planning, cancel: Cancel, ran: seq<Invocation>)
    requires Planned(p) && StartsOk(BatchOf(p, cancel), ran)
    ensures RanOk(p, ran)
  {
    forall k | 0 <= k < |ran|
      ensures ran[k].index < |p.calls| && ran[k].name == p.calls[ran[k].index].name
      ensures Permitted(p.o, p.disabled, p.calls[ran[k].index], ran[k].args, p.start, PlanTick(p, |p.calls|))
    {
      assert IsCall(BatchOf(p, cancel), ran[k]);
      assert JobsOf(p)[ran[k].index] == Job(p.calls[ran[k].index], PlanOf(p, ran[k].index).value);
      PlanPermitted(p, ran[k].index);
    }
  }

  /** Exactly the calls launched or reached were started. */
  ghost predicate AllRan(b: Batch, ran: seq<Invocation>) {
    forall i {:trigger WasStarted(ran, i)} :: 0 <= i < |b.jobs| ==>
      (WasStarted(ran, i) <==> Launches(b, i) || RunsAlone(b, i))
  }

  ghost predicate ContentsOk(b: Batch, results: seq<Content>) {
    && |results| == |b.jobs|
    && forall i {:trigger results[i]} :: 0 <= i < |results| ==> ContentOk(b, i, results[i])
  }

  lemma ContentsAnswer(p: Planning, cancel: Cancel, results: seq<Content>)
    requires Planned(p) && ContentsOk(BatchOf(p, cancel), results)
    ensures AnswersInOrder(results, p.calls)
  {
    var b := BatchOf(p, cancel);
    forall i | 0 <= i < |results| ensures results[i].ToolResult? && results[i].id == p.calls[i].id {
      ContentAnswers(b, i, results[i]);
      assert b.jobs[i].call == p.calls[i];
    }
  }

  // ---- the one-by-one reference ----

  /** A policy, a registry and tools whose answers do not depend on when they are asked. */
  ghost predicate Steady(o: Oracle) {
    && (forall t :: o.blocked(t) == o.blocked(0))
    && (forall t :: o.registry(t) == o.registry(0))
    && (forall t, n, a :: o.before(t, n, a) == o.before(0, n, a))
    && (forall t, i, n, a, r :: o.approve(t, i, n, a, r) == o.approve(0, i, n, a, r))
    && (forall t, n, a, c :: o.after(t, n, a, c) == o.after(0, n, a, c))
    && (forall t, n, a :: o.execute(t, n, a) == o.execute(0, n, a))
    && (forall t, n, a :: o.worker(t, n, a).end == o.execute(0, n, a))
  }

  /** Running one call on its own: whether its tool is parallel-safe plays no part. */
  function RunAlone(o: Oracle, disabled: set<string>, call: ToolCallRef): Reply<Content> {
    match Judge(o, disabled, call, 0).plan
    case Unwinds => Unwinds
    case Answer(Refuse(reason)) => Answer(SynthError(call.id, reason))
    case Answer(Execute(args)) =>
      if call.name !in o.registry(0) then Answer(SynthError(call.id, UnknownTool(call.name)))
      else match o.execute(0, call.name, args) {
        case Unwinds => Unwinds
        case Answer(run) =>
          var out := OutputOf(run);
          Answer(PatchedResult(call.id, out, o.after(0, call.name, args, out.0)))
      }
  }

  /** The call is authorized and its tool goes to a worker thread. */
  predicate OnThread(o: Oracle, disabled: set<string>, call: ToolCallRef) {
    && Judge(o, disabled, call, 0).plan.Answer? && Judge(o, disabled, call, 0).plan.value.Execute?
    && call.name in o.registry(0) && o.registry(0)[call.name]
  }

  /** The same call inside a batch: only there is a panic turned into an error result. */
  function RunInBatch(o: Oracle, disabled: set<string>, call: ToolCallRef): Reply<Content> {
    var alone := RunAlone(o, disabled, call);
    if alone.Unwinds? && OnThread(o, disabled, call) then Answer(SynthError(call.id, ThreadPanicked)) else alone
  }

  /** All the answers, in order, or the panic of one. */
  function All<T>(replies: seq<Reply<T>>): Reply<seq<T>> {
    if forall i :: 0 <= i < |replies| ==> replies[i].Answer?
    then Answer(seq(|replies|, i requires 0 <= i < |replies| => replies[i].value))
    else Unwinds
  }

  lemma AllValues(replies: seq<Reply<Content>>, values: seq<Content>)
    requires |replies| == |values| && forall i :: 0 <= i < |values| ==> replies[i] == Answer(values[i])
    ensures All(replies) == Answer(values)
  {
    assert All(replies).Answer? && All(replies).value == values;
  }

  /** The batch as a plain sequential run of its calls. */
  function OneByOne(o: Oracle, disabled: set<string>, calls: seq<ToolCallRef>): Reply<seq<Content>> {
    All(AloneReplies(o, disabled, calls))
  }

  /** The batch as it answers in a steady environment without cancel. */
  function InBatch(o: Oracle, disabled: set<string>, calls: seq<ToolCallRef>): Reply<seq<Content>> {
    All(BatchReplies(o, disabled, calls))
  }

  function AloneReplies(o: Oracle, disabled: set<string>, calls: seq<ToolCallRef>): seq<Reply<Content>> {
    seq(|calls|, i requires 0 <= i < |calls| => RunAlone(o, disabled, calls[i]))
  }

  function BatchReplies(o: Oracle, disabled: set<string>, calls: seq<ToolCallRef>): seq<Reply<Content>> {
    seq(|calls|, i requires 0 <= i < |calls| => RunInBatch(o, disabled, calls[i]))
  }

  /**
   * Parallel execution against one by one: the two agree exactly when no tool panics on a thread, or
   * when some panic off the threads loses both. They never disagree when one by one gets through.
   */
  lemma ParallelIsOneByOneExactly(o: Oracle, disabled: set<string>, calls: seq<ToolCallRef>)
    ensures InBatch(o, disabled, calls) == OneByOne(o, disabled, calls)
       <==> || (forall i :: 0 <= i < |calls| && OnThread(o, disabled, calls[i]) ==> RunAlone(o, disabled, calls[i]).Answer?)
            || (exists i :: 0 <= i < |calls| && !OnThread(o, disabled, calls[i]) && RunAlone(o, disabled, calls[i]).Unwinds?)
    ensures OneByOne(o, disabled, calls).Answer? ==> InBatch(o, disabled, calls) == OneByOne(o, disabled, calls)
  {
    var alone, inBatch := AloneReplies(o, disabled, calls), BatchReplies(o, disabled, calls);
    if forall i :: 0 <= i < |calls| ==> alone[i].Answer? {
      assert alone == inBatch;
      assert forall i :: 0 <= i < |calls| ==> RunAlone(o, disabled, calls[i]) == alone[i];
    } else {
      var p :| 0 <= p < |calls| && alone[p].Unwinds?;
      assert RunAlone(o, disabled, calls[p]).Unwinds?;
      if i :| 0 <= i < |calls| && !OnThread(o, disabled, calls[i]) && RunAlone(o, disabled, calls[i]).Unwinds? {
        assert inBatch[i].Unwinds?;
      }
    }
  }

  lemma SteadyJudge(o: Oracle, disabled: set<string>, call: ToolCallRef, t: nat)
    requires Steady(o)
    ensures Judge(o, disabled, call, t).plan == Judge(o, disabled, call, 0).plan
  {
  }

  /** In a steady environment without cancel, each call of a batch goes its own way. */
  lemma SteadyCall(p: Planning, cancel: Cancel, i: nat)
    requires Steady(p.o) && cancel.firesAt.None? && Planned(p) && i < |p.calls|
    ensures var b, call := BatchOf(p, cancel), p.calls[i];
      && b.jobs[i].call == call && Answer(b.jobs[i].plan) == Judge(p.o, p.disabled, call, 0).plan
      && (Launches(b, i) <==> OnThread(p.o, p.disabled, call))
      && (RunsAlone(b, i) <==> Executes(b, i) && call.name in p.o.registry(0) && !Launches(b, i))
      && (RunsAlone(b, i) ==> AloneRun(b, i) == p.o.execute(0, call.name, b.jobs[i].plan.args))
      && (RunInBatch(p.o, p.disabled, call).Answer? <==> Survives(b, i))
  {
    SteadyJudge(p.o, p.disabled, p.calls[i], PlanTick(p, i));
    assert JobsOf(p)[i] == Job(p.calls[i], PlanOf(p, i).value);
  }

  lemma SteadyContent(p: Planning, cancel: Cancel, i: nat, content: Content)
    requires Steady(p.o) && cancel.firesAt.None? && Planned(p) && i < |p.calls| && ContentOk(BatchOf(p, cancel), i, content)
    ensures RunInBatch(p.o, p.disabled, p.calls[i]) == Answer(content)
  {
    SteadyCall(p, cancel, i);
  }

  lemma SteadyAnswers(p: Planning, cancel: Cancel)
    requires Steady(p.o) && cancel.firesAt.None?
    ensures BatchAnswers(p, cancel) <==> InBatch(p.o, p.disabled, p.calls).Answer?
  {
    var replies := BatchReplies(p.o, p.disabled, p.calls);
    if !Planned(p) {
      var i :| 0 <= i < |p.calls| && PlanOf(p, i).Unwinds?;
      SteadyJudge(p.o, p.disabled, p.calls[i], PlanTick(p, i));
      assert replies[i].Unwinds?;
    } else if i :| 0 <= i < |replies| && replies[i].Unwinds? {
      SteadyCall(p, cancel, i);
      assert !Survives(BatchOf(p, cancel), i);
    } else {
      forall i | 0 <= i < |p.calls| ensures Survives(BatchOf(p, cancel), i) {
        SteadyCall(p, cancel, i);
        assert replies[i].Answer?;
      }
    }
  }

  /** Whatever a batch that answers when it should answers, in a steady environment without cancel it is `InBatch`. */
  lemma SteadyBatch(p: Planning, cancel: Cancel, results: Reply<seq<Content>>)
    requires results.Answer? <==> BatchAnswers(p, cancel)
    requires results.Answer? ==> ContentsOk(BatchOf(p, cancel), results.value)
    ensures Steady(p.o) && cancel.firesAt.None? ==> results == InBatch(p.o, p.disabled, p.calls)
  {
    if Steady(p.o) && cancel.firesAt.None? {
      SteadyAnswers(p, cancel);
      if results.Answer? {
        var replies := BatchReplies(p.o, p.disabled, p.calls);
        forall i | 0 <= i < |results.value| ensures replies[i] == Answer(results.value[i]) {
          SteadyContent(p, cancel, i, results.value[i]);
        }
        AllValues(replies, results.value);
      }
    }
  }
}
