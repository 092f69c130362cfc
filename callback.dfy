/**
 * Which request a main-thread callback of `_handle_client` answers.
 *
 * Each decoded line rebinds `data`, `result_holder` and `done_event` in the
 * handler thread's frame, and `execute_in_main` is a closure over those
 * names: it reads `data` when the main thread starts it and reads
 * `result_holder` and `done_event` when `_handle_command` returns. A callback
 * that runs after its own 60-second wait has ended therefore sees the
 * bindings of a later line. The code as written is `LateBound`; binding the
 * three names when the callback is defined is `EarlyBound`, which is what
 * `Registry.SlotAfterWait` models for every request.
 */
module Callback {
  import opened Common
  import opened Json
  import opened Registry

  /**
   * When the callback registered for request `line` runs: `startsAt` is the
   * last line the handler thread had decoded when the callback read `data`,
   * `endsAt` the last one when it wrote the holder and set the event. The
   * handler thread only moves forward.
   */
  datatype Timing = Timing(line: nat, startsAt: nat, endsAt: nat)

  predicate Possible(t: Timing, n: nat)
  {
    t.line <= t.startsAt <= t.endsAt < n
  }

  /** What a callback does: the request whose holder it fills, and the value it puts there. */
  datatype Write = Write(holder: nat, value: Option<Json>)

  /** As written: the closure reads the names when it runs. */
  function LateBound(requests: seq<Json>, t: Timing, run: (string, Json) -> HandlerOutcome): Write
    requires Possible(t, |requests|)
  {
    Write(t.endsAt, HandleCommand(requests[t.startsAt], run))
  }

  /** Bound at definition, `def execute_in_main(data=data, holder=result_holder, ev=done_event)`. */
  function EarlyBound(requests: seq<Json>, t: Timing, run: (string, Json) -> HandlerOutcome): Write
    requires Possible(t, |requests|)
  {
    Write(t.line, HandleCommand(requests[t.line], run))
  }

  /** A callback that finishes while its own line is still the current one behaves the same either way. */
  lemma InTimeAgrees(requests: seq<Json>, t: Timing, run: (string, Json) -> HandlerOutcome)
    requires Possible(t, |requests|) && t.endsAt == t.line
    ensures LateBound(requests, t, run) == EarlyBound(requests, t, run)
  {
    assert t.startsAt == t.line;
  }

  /**
   * Bound at definition, a callback fills its own request's holder with its
   * own request's envelope, whenever it runs; that is the slot
   * `SlotAfterWait` gives a request whose callback ran in time.
   */
  lemma EarlyBoundOwnRequest(requests: seq<Json>, t: Timing, u: Timing, host: Host)
    requires Possible(t, |requests|) && Possible(u, |requests|) && t.line == u.line
    ensures EarlyBound(requests, t, HandlersAt(host, t.line)) == EarlyBound(requests, u, HandlersAt(host, u.line))
    ensures host.inTime(t.line) ==>
              EarlyBound(requests, t, HandlersAt(host, t.line)) ==
                Write(t.line, SlotAfterWait(requests[t.line], t.line, host))
  {
  }

  /** `{"command": name}`. */
  function Named(name: string): Json
  {
    JObj([("command", JStr(name))])
  }

  /** Handlers that return their own name, so that each request's envelope shows which request ran. */
  function Echo(): (string, Json) -> HandlerOutcome
  {
    (name, params) => Returned(JStr(name))
  }

  lemma EchoEnvelope(name: string)
    requires name in HandlerNames
    ensures HandleCommand(Named(name), Echo()).Some?
    ensures Lookup(HandleCommand(Named(name), Echo()).value.fields, "result") == Some(JStr(name))
  {
    RegisteredCommand([("command", JStr(name))], Echo(), name);
  }

  /**
   * As written, a callback for `ping` that starts in time but finishes after
   * the thread gave up and decoded `list_objects` fills the holder of
   * `list_objects` with the `ping` envelope: line 1 is answered with line 0's
   * result, and line 0 got "Timeout 60s.".
   */
  lemma CrossedReply()
    ensures var requests := [Named("ping"), Named("list_objects")];
            var w := LateBound(requests, Timing(0, 0, 1), Echo());
            w.holder == 1 && w.value != HandleCommand(requests[1], Echo()) &&
            w.value == HandleCommand(requests[0], Echo())
  {
    assert HandlerNames[0] == "ping" && HandlerNames[1] == "list_objects";
    EchoEnvelope("ping");
    EchoEnvelope("list_objects");
  }

  /**
   * As written, a callback for `ping` that starts only after `list_objects`
   * was decoded runs `list_objects` instead: that request runs twice and
   * `ping` never runs.
   */
  lemma RerunRequest()
    ensures var requests := [Named("ping"), Named("list_objects")];
            var w := LateBound(requests, Timing(0, 1, 1), Echo());
            w.value == HandleCommand(requests[1], Echo()) && w.value != HandleCommand(requests[0], Echo())
  {
    assert HandlerNames[0] == "ping" && HandlerNames[1] == "list_objects";
    EchoEnvelope("ping");
    EchoEnvelope("list_objects");
  }
}
