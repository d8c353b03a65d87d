/**
 * The plugin connection as a state machine: many callers share one writer and one reader thread, which
 * routes the plugin's messages by call id into per-call bounded channels.
 */
module PluginModel {

  /** A line from the plugin; `Other` stands for everything that carries no reply to a call. */
  datatype PluginMsg =
    | Chunk(id: nat, body: string)
    | Result(id: nat, body: string)
    | Done(id: nat, body: string)
    | Other
    | Malformed(text: string)

  /** What the reader puts into a call's channel. */
  datatype ReaderMsg =
    | Piece(body: string)
    | Final(body: string)
    | Poison(reason: string)

  datatype Outcome = Success(body: string) | Failure(reason: string)

  datatype Stage =
    | Allocated
    | Registered
    | WriteFailed
    | Waiting
    | Answered(outcome: Outcome)
    | Returned(outcome: Outcome)

  /** `since` is how much the reader had read when the channel was registered; `handed` went to the caller. */
  datatype Call = Call(stage: Stage, registered: bool, sent: bool, since: nat, handed: seq<string>, channel: seq<ReaderMsg>)

  datatype Reader = Reading | Poisoning(todo: set<nat>, reason: string) | Stopped

  /** `early` are the ids the plugin used before the host had sent them. */
  datatype State = State(
    healthy: bool, nextId: nat, calls: map<nat, Call>,
    reader: Reader, wire: seq<PluginMsg>, read: seq<PluginMsg>, early: set<nat>)

  const CAPACITY: nat := 32

  const INIT := State(true, 1, map[], Reading, [], [], {})

  /** `Allocate` comes after a health check, which a malformed line may have overtaken meanwhile. */
  datatype Step =
    | Allocate
    | Register(id: nat)
    | Write(id: nat, ok: bool, reached: bool)
    | AbortWrite(id: nat, reason: string)
    | Emit(msg: PluginMsg)
    | ReadOne
    | PoisonOne(id: nat)
    | StopReader
    | Receive(id: nat)
    | GiveUp(id: nat, reason: string)
    | Unregister(id: nat)

  /** The call whose own thread takes the step, if it is a caller's step. */
  predicate OwnStep(step: Step, id: nat) {
    match step
    case Register(k) => k == id
    case Write(k, _, _) => k == id
    case AbortWrite(k, _) => k == id
    case Receive(k) => k == id
    case GiveUp(k, _) => k == id
    case Unregister(k) => k == id
    case _ => false
  }

  predicate Addressed(m: PluginMsg, id: nat) {
    (m.Chunk? || m.Result? || m.Done?) && m.id == id
  }

  function Routed(m: PluginMsg): ReaderMsg
    requires m.Chunk? || m.Result? || m.Done?
  {
    if m.Chunk? then Piece(m.body) else Final(m.body)
  }

  /** A blocking send: it completes once the channel has room. */
  predicate HasRoom(s: State, id: nat) {
    id in s.calls && s.calls[id].registered ==> |s.calls[id].channel| < CAPACITY
  }

  function Put(calls: map<nat, Call>, id: nat, m: ReaderMsg): map<nat, Call> {
    if id in calls && calls[id].registered then
      calls[id := calls[id].(channel := calls[id].channel + [m])]
    else calls
  }

  predicate Enabled(s: State, step: Step) {
    match step
    case Allocate => true
    case Register(id) => id in s.calls && s.calls[id].stage == Allocated
    case Write(id, _, _) => id in s.calls && s.calls[id].stage == Registered
    case AbortWrite(id, _) => id in s.calls && s.calls[id].stage == WriteFailed
    case Emit(_) => true
    case ReadOne =>
      s.reader.Reading? && s.wire != []
      && (s.wire[0].Chunk? || s.wire[0].Result? || s.wire[0].Done? ==> HasRoom(s, s.wire[0].id))
    case PoisonOne(id) => s.reader.Poisoning? && id in s.reader.todo && HasRoom(s, id)
    case StopReader => s.reader.Reading? || (s.reader.Poisoning? && s.reader.todo == {})
    case Receive(id) => id in s.calls && s.calls[id].stage == Waiting && s.calls[id].channel != []
    case GiveUp(id, _) => id in s.calls && s.calls[id].stage == Waiting
    case Unregister(id) => id in s.calls && s.calls[id].stage.Answered?
  }

  function Next(s: State, step: Step): State
    requires Enabled(s, step)
  {
    match step
    case Allocate =>
      s.(nextId := s.nextId + 1, calls := s.calls[s.nextId := Call(Allocated, false, false, 0, [], [])])
    case Register(id) =>
      s.(calls := s.calls[id := s.calls[id].(stage := Registered, registered := true, since := |s.read|)])
    case Write(id, ok, reached) =>
      s.(calls := s.calls[id := s.calls[id].(stage := if ok then Waiting else WriteFailed, sent := ok || reached)])
    case AbortWrite(id, reason) =>
      s.(calls := s.calls[id := s.calls[id].(stage := Returned(Failure(reason)), registered := false)])
    case Emit(m) =>
      s.(wire := s.wire + [m],
         early := if (m.Chunk? || m.Result? || m.Done?) && !(m.id in s.calls && s.calls[m.id].sent)
                  then s.early + {m.id} else s.early)
    case ReadOne => Dispatch(s.(wire := s.wire[1..], read := s.read + [s.wire[0]]), s.wire[0])
    case PoisonOne(id) =>
      s.(calls := Put(s.calls, id, Poison(s.reader.reason)),
         reader := s.reader.(todo := s.reader.todo - {id}))
    case StopReader => s.(reader := Stopped)
    case Receive(id) => s.(calls := s.calls[id := Received(s.calls[id])])
    case GiveUp(id, reason) => s.(calls := s.calls[id := s.calls[id].(stage := Answered(Failure(reason)))])
    case Unregister(id) =>
      s.(calls := s.calls[id := s.calls[id].(stage := Returned(s.calls[id].stage.outcome), registered := false)])
  }

  /** The reader thread handling one line: unknown ids are dropped, a malformed line poisons every pending call. */
  function Dispatch(s: State, m: PluginMsg): State {
    match m
    case Other => s
    case Malformed(text) =>
      s.(healthy := false, reader := Poisoning((set id | id in s.calls && s.calls[id].registered), text))
    case _ => s.(calls := Put(s.calls, m.id, Routed(m)))
  }

  /** A waiting caller taking one message off its channel. */
  function Received(c: Call): Call
    requires c.channel != []
  {
    var rest := c.(channel := c.channel[1..]);
    match c.channel[0]
    case Piece(body) => rest.(handed := c.handed + [body])
    case Final(body) => rest.(stage := Answered(Success(body)))
    case Poison(reason) => rest.(stage := Answered(Failure(reason)))
  }

  /** Any interleaving; a step that cannot be taken yet is passed over. */
  function Run(s: State, steps: seq<Step>): State {
    if steps == [] then s
    else
      var before := Run(s, steps[..|steps| - 1]);
      var step := steps[|steps| - 1];
      if Enabled(before, step) then Next(before, step) else before
  }

  // ----- the plugin's side of one call -----

  /** What the plugin sent for one call, in order. */
  function For(id: nat, msgs: seq<PluginMsg>): seq<ReaderMsg> {
    if msgs == [] then []
    else
      var before, m := For(id, msgs[..|msgs| - 1]), msgs[|msgs| - 1];
      if Addressed(m, id) then before + [Routed(m)] else before
  }

  lemma ForSnoc(id: nat, msgs: seq<PluginMsg>, m: PluginMsg)
    ensures For(id, msgs + [m]) == if Addressed(m, id) then For(id, msgs) + [Routed(m)] else For(id, msgs)
  {
    assert (msgs + [m])[..|msgs|] == msgs;
  }

  lemma ForConcat(id: nat, a: seq<PluginMsg>, b: seq<PluginMsg>)
    ensures For(id, a + b) == For(id, a) + For(id, b)
  {
    if b == [] {
      assert a + b == a;
    } else {
      var init, m := b[..|b| - 1], b[|b| - 1];
      ForConcat(id, a, init);
      assert a + b == (a + init) + [m] && b == init + [m];
      ForSnoc(id, a + init, m);
      ForSnoc(id, init, m);
    }
  }

  /** The chunks before the first answer, and that answer. */
  function PiecesBeforeFinal(msgs: seq<ReaderMsg>): seq<string> {
    if msgs != [] && msgs[0].Piece? then [msgs[0].body] + PiecesBeforeFinal(msgs[1..]) else []
  }

  predicate FirstFinalIs(msgs: seq<ReaderMsg>, body: string) {
    msgs != [] && (msgs[0] == Final(body) || (msgs[0].Piece? && FirstFinalIs(msgs[1..], body)))
  }

  function Pieces(bodies: seq<string>): (r: seq<ReaderMsg>)
    ensures |r| == |bodies| && forall i :: 0 <= i < |r| ==> r[i] == Piece(bodies[i])
  {
    if bodies == [] then [] else Pieces(bodies[..|bodies| - 1]) + [Piece(bodies[|bodies| - 1])]
  }

  lemma PiecesSnoc(bodies: seq<string>, b: string)
    ensures Pieces(bodies + [b]) == Pieces(bodies) + [Piece(b)]
  {
    assert (bodies + [b])[..|bodies|] == bodies;
  }

  /** A stream that opens with these pieces and this final says exactly that. */
  lemma {:induction false} PrefixTells(bodies: seq<string>, body: string, msgs: seq<ReaderMsg>)
    requires Pieces(bodies) + [Final(body)] <= msgs
    ensures PiecesBeforeFinal(msgs) == bodies && FirstFinalIs(msgs, body)
  {
    var opening := Pieces(bodies) + [Final(body)];
    assert msgs[0] == opening[0];
    if bodies != [] {
      assert forall i :: 0 <= i < |opening| ==> msgs[i] == opening[i];
      var shorter := Pieces(bodies[1..]) + [Final(body)];
      forall i | 0 <= i < |shorter| ensures shorter[i] == msgs[1..][i] {
        assert shorter[i] == opening[i + 1];
      }
      PrefixTells(bodies[1..], body, msgs[1..]);
    }
  }
}
