/**
 * The add-on's server switch: the module-level `_running` flag, the Start
 * and Stop operators of the panel, `register`/`unregister`, and the accept
 * loop of `_server_loop` that runs while the flag is set.
 *
 * Threads are not modelled as such. A started server thread is counted in
 * `serverThreads`; what its accept loop does is `ServerLoop`, run over the
 * sequence of things `accept` returns, in which `StopPressed` marks the
 * point where the Stop operator ran on Blender's UI thread.
 */
module Lifecycle {
  import opened Common

  /** The value an operator's `execute` returns. */
  datatype OpResult = Cancelled | Finished

  /** `_running`, the number of server threads started, and whether the add-on's classes are registered with Blender. */
  datatype State = State(running: bool, serverThreads: nat, registered: bool)

  const Initial := State(false, 0, false)

  datatype Op = Start | Stop | Register | Unregister

  /** The state after `op`, and the operator's result (None for `register`/`unregister`, which return nothing). */
  function Apply(s: State, op: Op): (State, Option<OpResult>)
  {
    match op
    case Start =>
      if s.running then (s, Some(Cancelled))
      else (s.(running := true, serverThreads := s.serverThreads + 1), Some(Finished))
    case Stop =>
      if !s.running then (s, Some(Cancelled))
      else (s.(running := false), Some(Finished))
    case Register =>
      (State(true, s.serverThreads + 1, true), None)
    case Unregister =>
      (s.(running := false, registered := false), None)
  }

  /**
   * Start is cancelled exactly when the server already runs, Stop exactly
   * when it does not, and a cancelled operator changes nothing. A finished
   * one flips the flag; only a finished Start and `register` start a
   * server thread.
   */
  lemma OperatorOutcome(s: State, op: Op)
    ensures var (t, r) := Apply(s, op);
            (r == Some(Cancelled) <==> (op == Start && s.running) || (op == Stop && !s.running)) &&
            (r == Some(Cancelled) ==> t == s) &&
            (r == Some(Finished) ==> t.running != s.running && t.registered == s.registered) &&
            (r.None? <==> op == Register || op == Unregister)
    ensures Apply(s, op).0.serverThreads ==
              s.serverThreads + (if op == Register || (op == Start && !s.running) then 1 else 0)
  {
  }

  /** Whether or not it was cancelled, after Start or `register` the server runs, and after Stop or `unregister` it does not. */
  lemma RunningAfter(s: State, op: Op)
    ensures Apply(s, op).0.running <==> op == Start || op == Register
  {
  }

  /** Pressing Start twice starts one server: the second press is cancelled. Likewise for Stop. */
  lemma {:induction false} RepeatIsCancelled(s: State, op: Op)
    requires op == Start || op == Stop
    ensures var once := Apply(s, op).0;
            Apply(once, op) == (once, Some(Cancelled))
  {
  }

  /** After `register` the server runs, so Start is cancelled; after `unregister` it does not, so Stop is cancelled. */
  lemma RegisterStarts(s: State)
    ensures var r := Apply(s, Register).0;
            r.running && r.registered && Apply(r, Start) == (r, Some(Cancelled))
    ensures var u := Apply(s, Unregister).0;
            !u.running && !u.registered && Apply(u, Stop) == (u, Some(Cancelled))
  {
  }

  /** The state after a sequence of operations from `s`. */
  function Run(s: State, ops: seq<Op>): State
    decreases |ops|
  {
    if |ops| == 0 then s else Run(Apply(s, ops[0]).0, ops[1..])
  }

  /** The number of server threads started is the number of successful Starts plus the number of `register` calls. */
  function Starts(s: State, ops: seq<Op>): nat
    decreases |ops|
  {
    if |ops| == 0 then 0
    else
      (if ops[0] == Register || (ops[0] == Start && !s.running) then 1 else 0)
      + Starts(Apply(s, ops[0]).0, ops[1..])
  }

  lemma {:induction false} ThreadsCounted(s: State, ops: seq<Op>)
    ensures Run(s, ops).serverThreads == s.serverThreads + Starts(s, ops)
    decreases |ops|
  {
    if |ops| > 0 {
      ThreadsCounted(Apply(s, ops[0]).0, ops[1..]);
    }
  }

  // ---------------------------------------------------------------------
  // The accept loop.
  // ---------------------------------------------------------------------

  /** What one turn of the accept loop sees: a timeout, a client, or the Stop operator having run since the last check. */
  datatype Poll = TimedOut | Client(id: nat) | StopPressed

  /** The clients accepted before the first `StopPressed`, as the loop meets them. */
  function ClientsBeforeStop(polls: seq<Poll>): (ids: seq<nat>)
    ensures |ids| <= |polls|
  {
    if |polls| == 0 || polls[0].StopPressed? then []
    else if polls[0].Client? then [polls[0].id] + ClientsBeforeStop(polls[1..])
    else ClientsBeforeStop(polls[1..])
  }

  /** The position of the first `StopPressed`, or the number of polls when there is none. */
  function StopIndex(polls: seq<Poll>): (j: nat)
    ensures j <= |polls|
    ensures j < |polls| ==> polls[j].StopPressed?
    ensures forall i :: 0 <= i < j ==> !polls[i].StopPressed?
  {
    if |polls| == 0 then 0
    else if polls[0].StopPressed? then 0
    else 1 + StopIndex(polls[1..])
  }

  /** The ids of all `Client` polls, in order. */
  function ClientIds(polls: seq<Poll>): (ids: seq<nat>)
    ensures |ids| <= |polls|
    ensures forall n :: 0 <= n < |ids| ==> Client(ids[n]) in polls
    ensures forall i :: 0 <= i < |polls| && polls[i].Client? ==> polls[i].id in ids
  {
    if |polls| == 0 then []
    else
      var rest := ClientIds(polls[1..]);
      assert forall i :: 1 <= i < |polls| ==> polls[i] == polls[1..][i - 1];
      if polls[0].Client? then [polls[0].id] + rest else rest
  }

  /**
   * The accept loop hands out exactly the clients polled while the flag is
   * still set: the `Client` polls before the first `StopPressed`, in order.
   */
  lemma {:induction false} ClientsBeforeStopSpec(polls: seq<Poll>)
    ensures ClientsBeforeStop(polls) == ClientIds(polls[..StopIndex(polls)])
  {
    if |polls| == 0 || polls[0].StopPressed? {
    } else {
      ClientsBeforeStopSpec(polls[1..]);
      assert polls[..StopIndex(polls)][1..] == polls[1..][..StopIndex(polls[1..])];
    }
  }

  class Addon {
    var running: bool
    var serverThreads: nat
    var registered: bool

    function Current(): State
      reads this
    {
      State(running, serverThreads, registered)
    }

    constructor ()
      ensures Current() == Initial
    {
      running, serverThreads, registered := false, 0, false;
    }

    /** `MCP_OT_StartServer.execute`. */
    method StartServer() returns (r: OpResult)
      modifies this
      ensures (Current(), Some(r)) == Apply(old(Current()), Start)
    {
      if running {
        return Cancelled;
      }
      running := true;
      serverThreads := serverThreads + 1;
      return Finished;
    }

    /** `MCP_OT_StopServer.execute`. */
    method StopServer() returns (r: OpResult)
      modifies this
      ensures (Current(), Some(r)) == Apply(old(Current()), Stop)
    {
      if !running {
        return Cancelled;
      }
      running := false;
      return Finished;
    }

    /** `register`: the classes are registered and the server is started unconditionally. */
    method RegisterAddon()
      modifies this
      ensures (Current(), None) == Apply(old(Current()), Register)
    {
      registered := true;
      running := true;
      serverThreads := serverThreads + 1;
    }

    /** `unregister`: the flag is cleared and the classes are unregistered. */
    method UnregisterAddon()
      modifies this
      ensures (Current(), None) == Apply(old(Current()), Unregister)
    {
      running := false;
      registered := false;
    }

    /**
     * `_server_loop` of one server thread. When `bind` fails the OSError
     * ends the thread before the loop, and `_running` is left as it was.
     * Otherwise the loop checks the flag before each `accept`; a client is
     * handed to a new handler thread (its id is appended to `handed`), a
     * timeout just loops again, and `StopPressed` is the Stop operator
     * clearing the flag. The polls are the finitely many turns observed.
     */
    method ServerLoop(bind: bool, polls: seq<Poll>) returns (handed: seq<nat>)
      modifies this
      ensures !bind || !old(running) ==> handed == [] && Current() == old(Current())
      ensures bind && old(running) ==> handed == ClientsBeforeStop(polls) == ClientIds(polls[..StopIndex(polls)])
      ensures bind && old(running) ==> Current() == old(Current()).(running := StopPressed !in polls)
    {
      handed := [];
      if !bind {
        return;
      }
      var i := 0;
      while running && i < |polls|
        invariant 0 <= i <= |polls|
        invariant serverThreads == old(serverThreads) && registered == old(registered)
        invariant !old(running) ==> i == 0 && !running && handed == []
        invariant old(running) ==> (running <==> StopPressed !in polls[..i])
        invariant old(running) && running ==> handed + ClientsBeforeStop(polls[i..]) == ClientsBeforeStop(polls)
        invariant old(running) && !running ==> handed == ClientsBeforeStop(polls)
        decreases |polls| - i
      {
        match polls[i] {
          case TimedOut =>
          case Client(id) =>
            handed := handed + [id];
          case StopPressed =>
            var _ := StopServer();
        }
        assert polls[..i + 1] == polls[..i] + [polls[i]];
        i := i + 1;
      }
      ClientsBeforeStopSpec(polls);
    }
  }
}
