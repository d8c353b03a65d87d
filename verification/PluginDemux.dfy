/** What the plugin connection guarantees: no reply is lost, none is misrouted, whatever the interleaving. */
module PluginDemux {
  import opened PluginModel

  // ----- the invariant -----

  function WithoutPoison(msgs: seq<ReaderMsg>): seq<ReaderMsg> {
    if msgs == [] then []
    else
      var rest := WithoutPoison(msgs[..|msgs| - 1]);
      var m := msgs[|msgs| - 1];
      if m.Poison? then rest else rest + [m]
  }

  lemma WithoutPoisonSnoc(msgs: seq<ReaderMsg>, m: ReaderMsg)
    ensures WithoutPoison(msgs + [m]) == if m.Poison? then WithoutPoison(msgs) else WithoutPoison(msgs) + [m]
  {
    assert (msgs + [m])[..|msgs|] == msgs;
  }

  lemma WithoutPoisonHead(msgs: seq<ReaderMsg>)
    requires msgs != []
    ensures WithoutPoison(msgs) ==
            if msgs[0].Poison? then WithoutPoison(msgs[1..]) else [msgs[0]] + WithoutPoison(msgs[1..])
  {
    if |msgs| > 1 {
      var init, m := msgs[..|msgs| - 1], msgs[|msgs| - 1];
      WithoutPoisonHead(init);
      assert init[1..] == msgs[1..][..|msgs| - 2];
    } else {
      assert msgs == [] + [msgs[0]];
      WithoutPoisonSnoc([], msgs[0]);
    }
  }

  /** What an outcome consumed beyond the pieces. */
  function Closing(o: Outcome): seq<ReaderMsg> {
    match o
    case Success(body) => [Final(body)]
    case Failure(_) => []
  }

  /**
   * One call against what was read since its registration: until it is answered, pieces handed over
   * plus channel are exactly the plugin's messages for it; afterwards what it consumed is a prefix.
   */
  ghost predicate Faithful(c: Call, arrived: seq<ReaderMsg>) {
    match c.stage
    case Allocated => !c.registered && !c.sent && c.handed == [] && c.channel == []
    case Registered => c.registered && !c.sent && c.handed == [] && arrived == WithoutPoison(c.channel)
    case WriteFailed => c.handed == []
    case Waiting => c.registered && c.sent && arrived == Pieces(c.handed) + WithoutPoison(c.channel)
    case Answered(o) => Pieces(c.handed) + Closing(o) <= arrived
    case Returned(o) => !c.registered && Pieces(c.handed) + Closing(o) <= arrived
  }

  /** Nothing was said about an id that the plugin has not been sent, unless it guessed. */
  ghost predicate Quiet(s: State, id: nat) {
    id !in s.early && !(id in s.calls && s.calls[id].sent) ==> For(id, s.read) == [] && For(id, s.wire) == []
  }

  /** One call against everything read; `guessed` when the plugin used its id too early. */
  ghost predicate CallGood(c: Call, id: nat, read: seq<PluginMsg>, guessed: bool) {
    && c.since <= |read|
    && Faithful(c, For(id, read[c.since..]))
    && |c.channel| <= CAPACITY
    && (!guessed ==> For(id, read[..c.since]) == [])
  }

  ghost predicate CallOk(s: State, id: nat)
    requires id in s.calls
  {
    id < s.nextId && CallGood(s.calls[id], id, s.read, id in s.early)
  }

  ghost predicate Inv(s: State) {
    && (forall id :: id in s.calls ==> CallOk(s, id))
    && (forall id :: Quiet(s, id))
  }

  lemma InitInv()
    ensures Inv(INIT)
  {
  }

  // ----- every step keeps it -----

  /** Reading one more line, seen from one call. */
  lemma ReadMore(id: nat, read: seq<PluginMsg>, since: nat, m: PluginMsg)
    requires since <= |read|
    ensures For(id, (read + [m])[since..]) ==
            if Addressed(m, id) then For(id, read[since..]) + [Routed(m)] else For(id, read[since..])
    ensures (read + [m])[..since] == read[..since]
  {
    assert (read + [m])[since..] == read[since..] + [m];
    ForSnoc(id, read[since..], m);
  }

  lemma PutKeepsFaithful(c: Call, arrived: seq<ReaderMsg>, m: ReaderMsg)
    requires Faithful(c, arrived) && c.registered && !m.Poison?
    ensures Faithful(c.(channel := c.channel + [m]), arrived + [m])
  {
    WithoutPoisonSnoc(c.channel, m);
    if c.stage.Waiting? {
      assert Pieces(c.handed) + WithoutPoison(c.channel) + [m] == Pieces(c.handed) + (WithoutPoison(c.channel) + [m]);
    }
  }

  lemma PoisonKeepsFaithful(c: Call, arrived: seq<ReaderMsg>, m: ReaderMsg)
    requires Faithful(c, arrived) && c.registered && m.Poison?
    ensures Faithful(c.(channel := c.channel + [m]), arrived)
  {
    WithoutPoisonSnoc(c.channel, m);
  }

  /** A message for a call without a channel is dropped; nothing it already consumed changes. */
  lemma DropKeepsFaithful(c: Call, arrived: seq<ReaderMsg>, m: ReaderMsg)
    requires Faithful(c, arrived) && !c.registered
    ensures Faithful(c, arrived + [m])
  {
  }

  lemma PieceMoves(handed: seq<string>, body: string, rest: seq<ReaderMsg>)
    ensures Pieces(handed) + ([Piece(body)] + rest) == Pieces(handed + [body]) + rest
  {
    PiecesSnoc(handed, body);
  }

  lemma ReceiveKeepsFaithful(c: Call, arrived: seq<ReaderMsg>)
    requires Faithful(c, arrived) && c.stage == Waiting && c.channel != []
    ensures Faithful(Received(c), arrived)
  {
    WithoutPoisonHead(c.channel);
    var m, rest := c.channel[0], WithoutPoison(c.channel[1..]);
    if m.Piece? {
      PieceMoves(c.handed, m.body, rest);
    } else if m.Final? {
      assert Pieces(c.handed) + ([Final(m.body)] + rest) == Pieces(c.handed) + [Final(m.body)] + rest;
    } else {
      assert Pieces(c.handed) + [] == Pieces(c.handed);
    }
  }

  lemma ReadKeepsCall(c: Call, id: nat, read: seq<PluginMsg>, guessed: bool, m: PluginMsg)
    requires CallGood(c, id, read, guessed)
    requires Addressed(m, id) && c.registered ==> |c.channel| < CAPACITY
    ensures Addressed(m, id) && c.registered ==>
              CallGood(c.(channel := c.channel + [Routed(m)]), id, read + [m], guessed)
    ensures !(Addressed(m, id) && c.registered) ==> CallGood(c, id, read + [m], guessed)
  {
    ReadMore(id, read, c.since, m);
    if Addressed(m, id) {
      if c.registered {
        PutKeepsFaithful(c, For(id, read[c.since..]), Routed(m));
      } else {
        DropKeepsFaithful(c, For(id, read[c.since..]), Routed(m));
      }
    }
  }

  lemma RegisterKeepsCall(c: Call, id: nat, read: seq<PluginMsg>, guessed: bool)
    requires CallGood(c, id, read, guessed) && c.stage == Allocated
    requires !guessed ==> For(id, read) == []
    ensures CallGood(c.(stage := Registered, registered := true, since := |read|), id, read, guessed)
  {
    assert read[|read|..] == [] && read[..|read|] == read;
  }

  lemma WriteKeepsCall(c: Call, id: nat, read: seq<PluginMsg>, guessed: bool, ok: bool, reached: bool)
    requires CallGood(c, id, read, guessed) && c.stage == Registered
    ensures CallGood(c.(stage := if ok then Waiting else WriteFailed, sent := ok || reached), id, read, guessed)
  {
    assert Pieces([]) + WithoutPoison(c.channel) == WithoutPoison(c.channel);
  }

  lemma CloseKeepsCall(c: Call, id: nat, read: seq<PluginMsg>, guessed: bool, o: Outcome)
    requires CallGood(c, id, read, guessed)
    requires c.stage == Answered(o) || (c.stage == WriteFailed && o.Failure?)
    ensures CallGood(c.(stage := Returned(o), registered := false), id, read, guessed)
  {
    if c.stage == WriteFailed {
      assert Pieces(c.handed) + Closing(o) == [];
    }
  }

  lemma GiveUpKeepsCall(c: Call, id: nat, read: seq<PluginMsg>, guessed: bool, reason: string)
    requires CallGood(c, id, read, guessed) && c.stage == Waiting
    ensures CallGood(c.(stage := Answered(Failure(reason))), id, read, guessed)
  {
    assert Pieces(c.handed) + Closing(Failure(reason)) == Pieces(c.handed);
  }

  lemma ReadOneKeepsCall(s: State, id: nat)
    requires Enabled(s, ReadOne) && id in s.calls && CallOk(s, id)
    ensures id in Next(s, ReadOne).calls && CallOk(Next(s, ReadOne), id)
  {
    var m := s.wire[0];
    ReadKeepsCall(s.calls[id], id, s.read, id in s.early, m);
    if Addressed(m, id) {
      assert Next(s, ReadOne).calls == Put(s.calls, id, Routed(m));
    }
  }

  lemma PoisonOneKeepsCall(s: State, k: nat, id: nat)
    requires Enabled(s, PoisonOne(k)) && id in s.calls && CallOk(s, id)
    ensures id in Next(s, PoisonOne(k)).calls && CallOk(Next(s, PoisonOne(k)), id)
  {
    var c := s.calls[id];
    if k == id && c.registered {
      PoisonKeepsFaithful(c, For(id, s.read[c.since..]), Poison(s.reader.reason));
    }
  }

  /** A step of the call's own thread. */
  lemma OwnStepKeepsCall(s: State, step: Step, id: nat)
    requires Enabled(s, step) && OwnStep(step, id) && id in s.calls && CallOk(s, id) && Quiet(s, id)
    ensures id in Next(s, step).calls && CallOk(Next(s, step), id)
  {
    var c, guessed := s.calls[id], id in s.early;
    match step {
      case Register(_) => RegisterKeepsCall(c, id, s.read, guessed);
      case Write(_, ok, reached) => WriteKeepsCall(c, id, s.read, guessed, ok, reached);
      case AbortWrite(_, reason) => CloseKeepsCall(c, id, s.read, guessed, Failure(reason));
      case Receive(_) => ReceiveKeepsFaithful(c, For(id, s.read[c.since..]));
      case GiveUp(_, reason) => GiveUpKeepsCall(c, id, s.read, guessed, reason);
      case Unregister(_) => CloseKeepsCall(c, id, s.read, guessed, c.stage.outcome);
    }
  }

  /** A caller's step leaves every other call alone. */
  lemma OtherStepKeepsCall(s: State, step: Step, id: nat)
    requires Enabled(s, step) && !OwnStep(step, id) && !step.ReadOne? && !step.PoisonOne?
    requires id in s.calls && CallOk(s, id) && s.nextId !in s.calls
    ensures id in Next(s, step).calls && CallOk(Next(s, step), id)
  {
    var n := Next(s, step);
    assert n.read == s.read && s.early <= n.early && s.nextId <= n.nextId;
    assert n.calls[id] == s.calls[id];
  }

  lemma StepKeepsCall(s: State, step: Step, id: nat)
    requires Enabled(s, step) && id in s.calls && CallOk(s, id) && Quiet(s, id) && s.nextId !in s.calls
    ensures id in Next(s, step).calls && CallOk(Next(s, step), id)
  {
    if step.ReadOne? {
      ReadOneKeepsCall(s, id);
    } else if step.PoisonOne? {
      PoisonOneKeepsCall(s, step.id, id);
    } else if OwnStep(step, id) {
      OwnStepKeepsCall(s, step, id);
    } else {
      OtherStepKeepsCall(s, step, id);
    }
  }

  lemma AllocateStartsCall(s: State)
    requires Inv(s) && Enabled(s, Allocate)
    ensures CallOk(Next(s, Allocate), s.nextId)
  {
    assert s.read[..0] == [];
  }

  lemma EmitKeepsQuiet(s: State, m: PluginMsg, id: nat)
    requires Quiet(s, id)
    ensures Quiet(Next(s, Emit(m)), id)
  {
    ForSnoc(id, s.wire, m);
  }

  lemma ForCons(id: nat, m: PluginMsg, rest: seq<PluginMsg>)
    ensures For(id, [m] + rest) == (if Addressed(m, id) then [Routed(m)] else []) + For(id, rest)
  {
    ForConcat(id, [m], rest);
    ForSnoc(id, [], m);
    assert [] + [m] == [m];
  }

  lemma ReadKeepsQuiet(s: State, id: nat)
    requires Quiet(s, id) && Enabled(s, ReadOne)
    ensures Quiet(Next(s, ReadOne), id)
  {
    var m, rest := s.wire[0], s.wire[1..];
    ForSnoc(id, s.read, m);
    assert s.wire == [m] + rest;
    ForCons(id, m, rest);
  }

  lemma StepKeepsQuiet(s: State, step: Step, id: nat)
    requires Quiet(s, id) && Enabled(s, step)
    requires id in s.calls ==> CallOk(s, id)
    requires step.Allocate? ==> s.nextId !in s.calls
    ensures Quiet(Next(s, step), id)
  {
    if step.Emit? {
      EmitKeepsQuiet(s, step.msg, id);
    } else if step.ReadOne? {
      ReadKeepsQuiet(s, id);
    } else {
      assert Next(s, step).read == s.read && Next(s, step).wire == s.wire && Next(s, step).early == s.early;
    }
  }

  lemma StepKeepsInv(s: State, step: Step)
    requires Inv(s) && Enabled(s, step)
    ensures Inv(Next(s, step))
  {
    assert s.nextId in s.calls ==> CallOk(s, s.nextId);
    forall id | id in Next(s, step).calls ensures CallOk(Next(s, step), id) {
      if id in s.calls {
        assert CallOk(s, id) && Quiet(s, id);
        StepKeepsCall(s, step, id);
      } else {
        assert step == Allocate && id == s.nextId;
        AllocateStartsCall(s);
      }
    }
    forall id: nat ensures Quiet(Next(s, step), id) {
      assert Quiet(s, id);
      StepKeepsQuiet(s, step, id);
    }
  }

  lemma {:induction false} RunKeepsInv(s: State, steps: seq<Step>)
    requires Inv(s)
    ensures Inv(Run(s, steps))
  {
    if steps != [] {
      var before, step := Run(s, steps[..|steps| - 1]), steps[|steps| - 1];
      RunKeepsInv(s, steps[..|steps| - 1]);
      if Enabled(before, step) {
        StepKeepsInv(before, step);
      }
    }
  }

  // ----- what callers get -----

  /** Everything the plugin has sent so far. */
  function Emitted(s: State): seq<PluginMsg> {
    s.read + s.wire
  }

  predicate Concluded(c: Call, o: Outcome) {
    c.stage == Answered(o) || c.stage == Returned(o)
  }

  lemma ReadSplits(s: State, id: nat)
    requires Inv(s) && id in s.calls && id !in s.early
    ensures For(id, s.read) == For(id, s.read[s.calls[id].since..])
  {
    assert CallOk(s, id);
    var n := s.calls[id].since;
    assert s.read == s.read[..n] + s.read[n..];
    ForConcat(id, s.read[..n], s.read[n..]);
  }

  lemma SuccessMeans(s: State, id: nat, body: string)
    requires Inv(s) && id in s.calls && id !in s.early && Concluded(s.calls[id], Success(body))
    ensures s.calls[id].handed == PiecesBeforeFinal(For(id, Emitted(s)))
    ensures FirstFinalIs(For(id, Emitted(s)), body)
  {
    assert CallOk(s, id);
    ReadSplits(s, id);
    ForConcat(id, s.read, s.wire);
    PrefixTells(s.calls[id].handed, body, For(id, Emitted(s)));
  }

  /**
   * In every run, a call that returns a body handed its caller exactly the chunks the plugin sent for
   * that id before the first answer, in order, and returned that first answer.
   */
  lemma CallsGetTheirOwnAnswer(steps: seq<Step>, id: nat, body: string)
    requires var s := Run(INIT, steps);
             id in s.calls && id !in s.early && Concluded(s.calls[id], Success(body))
    ensures var s := Run(INIT, steps);
            s.calls[id].handed == PiecesBeforeFinal(For(id, Emitted(s))) && FirstFinalIs(For(id, Emitted(s)), body)
  {
    InitInv();
    RunKeepsInv(INIT, steps);
    SuccessMeans(Run(INIT, steps), id, body);
  }

  lemma HandedAreOwn(c: Call, id: nat, read: seq<PluginMsg>, guessed: bool, i: nat)
    requires CallGood(c, id, read, guessed) && i < |c.handed|
    ensures Piece(c.handed[i]) in For(id, read)
  {
    var before, arrived := For(id, read[..c.since]), For(id, read[c.since..]);
    ForConcat(id, read[..c.since], read[c.since..]);
    assert read == read[..c.since] + read[c.since..];
    assert arrived[i] == Piece(c.handed[i]);
    assert (before + arrived)[|before| + i] == arrived[i];
  }

  /** Whatever the outcome and whatever the plugin guessed, a caller only ever sees its own id's messages. */
  lemma NoCrossTalk(steps: seq<Step>, id: nat, i: nat)
    requires id in Run(INIT, steps).calls && i < |Run(INIT, steps).calls[id].handed|
    ensures var s := Run(INIT, steps);
            Piece(s.calls[id].handed[i]) in For(id, s.read)
  {
    InitInv();
    RunKeepsInv(INIT, steps);
    var s := Run(INIT, steps);
    assert CallOk(s, id);
    HandedAreOwn(s.calls[id], id, s.read, id in s.early, i);
  }

  lemma ReadFinalIsQueued(c: Call, id: nat, read: seq<PluginMsg>, body: string)
    requires CallGood(c, id, read, false) && c.stage == Waiting && Final(body) in For(id, read)
    ensures Final(body) in c.channel
  {
    assert read == read[..c.since] + read[c.since..];
    ForConcat(id, read[..c.since], read[c.since..]);
    var all := Pieces(c.handed) + WithoutPoison(c.channel);
    assert For(id, read) == all;
    var i :| 0 <= i < |all| && all[i] == Final(body);
    assert i >= |c.handed|;
    assert all[i] == WithoutPoison(c.channel)[i - |c.handed|];
    WithoutPoisonIn(c.channel, Final(body));
  }

  /** A reply that was read while its caller still waits is in the caller's channel. */
  lemma NoLostReply(steps: seq<Step>, id: nat, body: string)
    requires var s := Run(INIT, steps);
             id in s.calls && id !in s.early && s.calls[id].stage == Waiting && Final(body) in For(id, s.read)
    ensures Final(body) in Run(INIT, steps).calls[id].channel
  {
    InitInv();
    RunKeepsInv(INIT, steps);
    var s := Run(INIT, steps);
    assert CallOk(s, id);
    ReadFinalIsQueued(s.calls[id], id, s.read, body);
  }

  lemma WithoutPoisonIn(msgs: seq<ReaderMsg>, m: ReaderMsg)
    requires m in WithoutPoison(msgs)
    ensures m in msgs
  {
  }

  lemma RunSnoc(s: State, steps: seq<Step>, step: Step)
    ensures Run(s, steps + [step]) == if Enabled(Run(s, steps), step) then Next(Run(s, steps), step) else Run(s, steps)
  {
    assert (steps + [step])[..|steps|] == steps;
  }

  /** The reader drops a reply whose call has no channel. */
  lemma UnregisteredReplyIsDropped(s: State, id: nat)
    requires Enabled(s, ReadOne) && Addressed(s.wire[0], id) && !(id in s.calls && s.calls[id].registered)
    ensures Next(s, ReadOne).calls == s.calls
    ensures Routed(s.wire[0]) in For(id, Next(s, ReadOne).read)
  {
    ForSnoc(id, s.read, s.wire[0]);
    assert (For(id, s.read) + [Routed(s.wire[0])])[|For(id, s.read)|] == Routed(s.wire[0]);
  }

  const GUESS := [Allocate, Emit(Result(1, "r"))]

  lemma AfterGuess()
    ensures Run(INIT, GUESS) ==
            INIT.(nextId := 2, calls := map[1 := Call(Allocated, false, false, 0, [], [])],
                  wire := [Result(1, "r")], early := {1})
  {
    assert GUESS == [] + [Allocate] + [Emit(Result(1, "r"))];
    RunSnoc(INIT, [], Allocate);
    RunSnoc(INIT, [] + [Allocate], Emit(Result(1, "r")));
    assert [] + [Result(1, "r")] == [Result(1, "r")];
  }

  /**
   * Why the channel is registered before the id is sent: an answer read before the registration is
   * dropped, and the caller then waits on an empty channel.
   */
  lemma AnswerBeforeRegistrationIsLost()
    ensures var s := Run(INIT, GUESS + [ReadOne] + [Register(1)] + [Write(1, true, true)]);
            && 1 in s.calls && s.calls[1].stage == Waiting && s.calls[1].channel == []
            && Final("r") in For(1, s.read)
  {
    AfterGuess();
    AfterDrop();
    var d := Run(INIT, GUESS + [ReadOne]);
    RunSnoc(INIT, GUESS + [ReadOne], Register(1));
    var e := Run(INIT, GUESS + [ReadOne] + [Register(1)]);
    assert e.calls[1].stage == Registered && e.calls[1].channel == [] && e.read == d.read;
    RunSnoc(INIT, GUESS + [ReadOne] + [Register(1)], Write(1, true, true));
  }

  lemma AfterDrop()
    ensures var d := Run(INIT, GUESS + [ReadOne]);
            && d.calls == map[1 := Call(Allocated, false, false, 0, [], [])]
            && Final("r") in For(1, d.read)
  {
    AfterGuess();
    RunSnoc(INIT, GUESS, ReadOne);
    UnregisteredReplyIsDropped(Run(INIT, GUESS), 1);
  }
}
