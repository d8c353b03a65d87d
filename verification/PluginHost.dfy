/** A caller's side of a plugin call: begin, wait for chunks and the answer, unregister. */
module PluginHost {
  import opened Core
  import opened PluginModel
  import opened PluginDemux

  /** What other threads can do to a call: fill its channel, nothing else. */
  ghost predicate Undisturbed(a: State, b: State, id: nat) {
    id in a.calls ==>
      && id in b.calls
      && b.calls[id].(channel := []) == a.calls[id].(channel := [])
      && a.calls[id].channel <= b.calls[id].channel
      && (a.calls[id].sent && id !in a.early ==> id !in b.early)
  }

  lemma OthersUndisturb(s: State, step: Step, id: nat)
    requires Inv(s) && Enabled(s, step) && !OwnStep(step, id)
    ensures Undisturbed(s, Next(s, step), id)
  {
    if id in s.calls {
      assert CallOk(s, id);
      if step.ReadOne? {
        ReadUndisturbs(s, id);
      }
    }
  }

  lemma ReadUndisturbs(s: State, id: nat)
    requires Enabled(s, ReadOne) && id in s.calls
    ensures Undisturbed(s, Next(s, ReadOne), id)
  {
  }

  /** What happens around one poll of the channel. */
  datatype Poll = Poll(cancelled: bool, expired: bool, others: seq<Step>)

  /** What other threads do around `begin_call`, and whether its write goes through. */
  datatype Opening = Opening(beforeId: seq<Step>, beforeRegister: seq<Step>, beforeWrite: seq<Step>,
                             ok: bool, reached: bool, beforeAbort: seq<Step>)

  class Host {
    var s: State

    constructor ()
      ensures s == INIT && Valid()
    {
      s := INIT;
      InitInv();
    }

    ghost predicate Valid()
      reads this
    {
      Inv(s)
    }

    method Take(step: Step)
      requires Valid() && Enabled(s, step)
      modifies this
      ensures Valid() && s == Next(old(s), step)
    {
      StepKeepsInv(s, step);
      s := Next(s, step);
    }

    /** Any steps of the plugin, the reader and the other callers. */
    method Others(id: nat, steps: seq<Step>)
      requires Valid()
      modifies this
      ensures Valid() && Undisturbed(old(s), s, id)
    {
      for i := 0 to |steps|
        invariant Valid() && Undisturbed(old(s), s, id)
      {
        if !OwnStep(steps[i], id) && Enabled(s, steps[i]) {
          OthersUndisturb(s, steps[i], id);
          Take(steps[i]);
        }
      }
    }

    /** Register first, then send; an unhealthy connection is refused without touching it. */
    method BeginCall(opening: Opening) returns (call: Option<nat>)
      requires Valid()
      modifies this
      ensures Valid()
      ensures !old(s.healthy) ==> call.None? && s == old(s)
      ensures call.Some? ==> opening.ok && call.value in s.calls && s.calls[call.value].stage == Waiting
                             && s.calls[call.value].handed == []
      ensures call.None? && old(s.healthy) ==> !opening.ok
    {
      if !s.healthy {
        return None;
      }
      Others(0, opening.beforeId);
      var id := s.nextId;
      Take(Allocate);
      Others(id, opening.beforeRegister);
      Take(Register(id));
      Others(id, opening.beforeWrite);
      assert CallOk(s, id);
      Take(Write(id, opening.ok, opening.reached));
      if !opening.ok {
        Others(id, opening.beforeAbort);
        Take(AbortWrite(id, "write error"));
        return None;
      }
      assert CallOk(s, id);
      return Some(id);
    }

    /** One message off the call's channel, if the other threads put one there in time. */
    method RecvTimeout(id: nat, others: seq<Step>) returns (m: Option<ReaderMsg>)
      requires Valid() && id in s.calls && s.calls[id].stage == Waiting
      modifies this
      ensures Valid() && id in s.calls
      ensures var c := s.calls[id]; var handed := old(s.calls[id].handed);
              match m
              case None => c.stage == Waiting && c.handed == handed
              case Some(Piece(body)) => c.stage == Waiting && c.handed == handed + [body]
              case Some(Final(body)) => c.stage == Answered(Success(body)) && c.handed == handed
              case Some(Poison(reason)) => c.stage == Answered(Failure(reason)) && c.handed == handed
    {
      Others(id, others);
      if s.calls[id].channel == [] {
        return None;
      }
      m := Some(s.calls[id].channel[0]);
      Take(Receive(id));
    }

    method Abandon(id: nat, reason: string) returns (result: Outcome)
      requires Valid() && id in s.calls && s.calls[id].stage == Waiting
      modifies this
      ensures Valid() && id in s.calls && s.calls[id].handed == old(s.calls[id].handed)
      ensures result == Failure(reason) && s.calls[id].stage == Answered(result)
    {
      Take(GiveUp(id, reason));
      result := Failure(reason);
    }

    /** Waits until an answer, a poisoned connection, the deadline or a cancel, whichever the polls bring first. */
    method WaitOnChannelCancellable(id: nat, polls: seq<Poll>) returns (result: Outcome, chunks: seq<string>)
      requires Valid() && id in s.calls && s.calls[id].stage == Waiting && s.calls[id].handed == []
      modifies this
      ensures Valid() && id in s.calls && s.calls[id].stage == Answered(result) && chunks == s.calls[id].handed
      ensures polls != [] && polls[0].cancelled ==> result == Failure("cancelled") && chunks == []
    {
      chunks := [];
      for i := 0 to |polls|
        invariant Valid() && id in s.calls && s.calls[id].stage == Waiting && s.calls[id].handed == chunks
        invariant if i == 0 then chunks == [] else !polls[0].cancelled
      {
        if polls[i].cancelled {
          result := Abandon(id, "cancelled");
          return;
        }
        if polls[i].expired {
          result := Abandon(id, "timed out");
          return;
        }
        var m := RecvTimeout(id, polls[i].others);
        match m {
          case None =>
          case Some(Final(body)) => return Success(body), chunks;
          case Some(Piece(body)) => chunks := chunks + [body];
          case Some(Poison(reason)) => return Failure(reason), chunks;
        }
      }
      result := Abandon(id, "timed out");
    }

    /** The same without a cancel flag: the first poll that finds nothing is the deadline. */
    method WaitOnChannel(id: nat, polls: seq<Poll>) returns (result: Outcome, chunks: seq<string>)
      requires Valid() && id in s.calls && s.calls[id].stage == Waiting && s.calls[id].handed == []
      modifies this
      ensures Valid() && id in s.calls && s.calls[id].stage == Answered(result) && chunks == s.calls[id].handed
    {
      chunks := [];
      for i := 0 to |polls|
        invariant Valid() && id in s.calls && s.calls[id].stage == Waiting && s.calls[id].handed == chunks
      {
        if polls[i].expired {
          break;
        }
        var m := RecvTimeout(id, polls[i].others);
        match m {
          case None => break;
          case Some(Final(body)) => return Success(body), chunks;
          case Some(Piece(body)) => chunks := chunks + [body];
          case Some(Poison(reason)) => return Failure(reason), chunks;
        }
      }
      result := Abandon(id, "timed out");
    }

    /**
     * A whole streaming call among arbitrary other activity. On success the caller was handed exactly
     * the chunks the plugin sent for this id before its first answer, and gets that answer.
     */
    method CallStreaming(opening: Opening, polls: seq<Poll>, beforeUnregister: seq<Step>, cancellable: bool)
      returns (result: Outcome, chunks: seq<string>, ghost id: nat)
      requires Valid()
      modifies this
      ensures Valid()
      ensures !old(s.healthy) ==> result.Failure? && s == old(s)
      ensures result.Success? ==>
                && id in s.calls && s.calls[id].stage == Returned(result)
                && (id !in s.early ==> chunks == PiecesBeforeFinal(For(id, Emitted(s)))
                                       && FirstFinalIs(For(id, Emitted(s)), result.body))
    {
      id := 0;
      var call := BeginCall(opening);
      if call.None? {
        return Failure("not sent"), [], 0;
      }
      id := call.value;
      if cancellable {
        result, chunks := WaitOnChannelCancellable(call.value, polls);
      } else {
        result, chunks := WaitOnChannel(call.value, polls);
      }
      Others(call.value, beforeUnregister);
      Take(Unregister(call.value));
      if result.Success? && id !in s.early {
        SuccessMeans(s, id, result.body);
      }
    }
  }
}
