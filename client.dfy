/**
 * The MCP server's side of the bridge: `_send_command`, which sends one
 * request frame to the add-on, reads until the first `\n` (or until the
 * add-on closes), and turns the first line of the reply into the value the
 * tool returns or the exception it raises.
 *
 * The socket is given by what it would do: whether `connect` is refused,
 * and the chunks `recv` returns. Running out of chunks before a `\n` or an
 * empty chunk stands for the 60-second socket timeout. `json.loads` is the
 * same abstract parser the add-on uses.
 */
module Client {
  import opened Common
  import opened Json
  import Utf8
  import opened Registry
  import Connection

  const UnknownError := "Errore sconosciuto da Blender"

  const RefusedMessage :=
    "Impossibile connettersi a Blender. Assicurati che Blender sia aperto e l'addon MCP sia attivo (porta 9876)."

  /** The exceptions that leave `_send_command`. */
  datatype ClientError =
    | RuntimeError(error: Json)        // the response said `ok` false, or the connection was refused
    | SocketTimeout                    // `recv` waited 60 seconds for nothing
    | UnicodeDecodeError               // the reply line is not UTF-8
    | JsonDecodeError(message: string) // the reply line is not JSON
    | AttributeError                   // the reply is JSON but not an object, so it has no `.get`

  /** What a call of `_send_command` ends in. */
  datatype SendResult = Answered(result: Json) | Raises(error: ClientError)

  /** The request object; `params` None is the default argument, which becomes `{}`. */
  function Request(command: string, params: Option<Json>): Json
  {
    JObj([("command", JStr(command)), ("params", if params.Some? then params.value else JObj([]))])
  }

  /** `(json.dumps(request) + "\n").encode("utf-8")`. */
  function RequestFrame(command: string, params: Option<Json>): (f: seq<byte>)
    ensures |f| > 0 && f[|f| - 1] == NL && NL !in f[..|f| - 1]
  {
    Connection.FrameBytes(Request(command, params))
  }

  /**
   * The add-on reads back exactly the command name and parameters the
   * client put in the request; missing parameters arrive as `{}`.
   */
  lemma RequestReadBack(command: string, params: Option<Json>)
    ensures var r := Request(command, params);
            CommandOf(r.fields) == JStr(command) &&
            ParamsOf(r.fields) == (if params.None? then JObj([]) else params.value)
  {
    var r := Request(command, params);
    assert Lookup(r.fields, "params") == Lookup(r.fields[1..], "params");
  }

  /** Encoded JSON never counts as a blank line. */
  lemma EncodedNotBlank(j: Json)
    ensures !Connection.Blank(EncodeBytes(j))
  {
    EncodePrintable(j);
    var e := EncodeBytes(j);
    assert e[0] as int == Encode(j)[0] as int;
  }

  /**
   * A request frame sent to the add-on is answered first, by the slot the
   * main thread filled for it or the timeout envelope, provided the add-on's
   * parser reads the request text back; the rest of the stream is then
   * served as the next request.
   */
  lemma RequestServed(command: string, params: Option<Json>, rest: seq<byte>, k: nat, env: Connection.Env)
    requires var req := Request(command, params); env.loads(Encode(req)) == Ok(req)
    ensures var req := Request(command, params);
            var handle := Connection.AddonHandler(env);
            Connection.Serve(RequestFrame(command, params) + rest, k, handle) ==
              Connection.Prepend([Await(SlotAfterWait(req, k, env.host))], Connection.Serve(rest, k + 1, handle))
  {
    var req := Request(command, params);
    var line := EncodeBytes(req);
    EncodePrintable(req);
    Utf8.AsciiRoundTrip(Encode(req));
    EncodedNotBlank(req);
    assert RequestFrame(command, params) + rest == line + [NL] + rest;
    Connection.RequestAnswered(line, rest, k, env, Encode(req), req);
  }

  // ---------------------------------------------------------------------
  // Reading the reply.
  // ---------------------------------------------------------------------

  /** `buffer.split(b"\n")[0]`: the bytes before the first `\n`, or all of them. */
  function FirstLine(s: seq<byte>): (line: seq<byte>)
    ensures NL !in line && line <= s
    ensures |line| < |s| ==> s[|line|] == NL
  {
    match IndexOf(s, NL)
    case None => s
    case Some(j) => s[..j]
  }

  /** Some call of `recv` returned an empty chunk: the add-on closed the connection. */
  predicate Closed(chunks: seq<seq<byte>>)
  {
    exists i :: 0 <= i < |chunks| && chunks[i] == []
  }

  /**
   * The read loop of `_send_command`. It stops as soon as the buffer holds a
   * `\n` or `recv` returns an empty chunk; None is the socket timeout, which
   * happens exactly when the add-on neither sent a `\n` nor closed. The
   * first line of what was read is the first line of everything the add-on
   * sent: bytes arriving after the `\n` do not matter.
   */
  method ReadReply(chunks: seq<seq<byte>>) returns (r: Option<seq<byte>>)
    ensures r.None? <==> NL !in Connection.Received(chunks) && !Closed(chunks)
    ensures r.Some? ==> r.value <= Connection.Received(chunks)
    ensures r.Some? ==> FirstLine(r.value) == FirstLine(Connection.Received(chunks))
  {
    var buffer: seq<byte> := [];
    var i := 0;
    while NL !in buffer
      invariant 0 <= i <= |chunks|
      invariant buffer + Connection.ReceivedFrom(chunks, i) == Connection.Received(chunks)
      invariant forall m :: 0 <= m < i ==> chunks[m] != []
      decreases |chunks| - i
    {
      if i == |chunks| {
        ReadTimesOut(chunks, buffer);
        return None;
      }
      var chunk := chunks[i];
      if |chunk| == 0 {
        break;
      }
      ReadStep(chunks, i, buffer);
      buffer := buffer + chunk;
      i := i + 1;
    }
    ReadStops(chunks, i, buffer);
    return Some(buffer);
  }

  /** One more chunk moves from what is still to come into the buffer. */
  lemma ReadStep(chunks: seq<seq<byte>>, i: nat, buffer: seq<byte>)
    requires i < |chunks| && chunks[i] != []
    requires buffer + Connection.ReceivedFrom(chunks, i) == Connection.Received(chunks)
    ensures (buffer + chunks[i]) + Connection.ReceivedFrom(chunks, i + 1) == Connection.Received(chunks)
  {
    assert Connection.ReceivedFrom(chunks, i) == chunks[i] + Connection.ReceivedFrom(chunks, i + 1);
  }

  /** Every chunk read, none empty and no `\n` among them: the add-on neither answered nor closed. */
  lemma ReadTimesOut(chunks: seq<seq<byte>>, buffer: seq<byte>)
    requires buffer + Connection.ReceivedFrom(chunks, |chunks|) == Connection.Received(chunks)
    requires forall m :: 0 <= m < |chunks| ==> chunks[m] != []
    requires NL !in buffer
    ensures NL !in Connection.Received(chunks) && !Closed(chunks)
  {
    assert buffer + [] == buffer;
  }

  /** The loop stopped at a `\n` or at the close: the buffer's first line is the stream's. */
  lemma ReadStops(chunks: seq<seq<byte>>, i: nat, buffer: seq<byte>)
    requires i <= |chunks|
    requires buffer + Connection.ReceivedFrom(chunks, i) == Connection.Received(chunks)
    requires NL in buffer || (i < |chunks| && chunks[i] == [])
    ensures NL in Connection.Received(chunks) || Closed(chunks)
    ensures buffer <= Connection.Received(chunks)
    ensures FirstLine(buffer) == FirstLine(Connection.Received(chunks))
  {
    var rest := Connection.ReceivedFrom(chunks, i);
    if NL in buffer {
      IndexOfAppend(buffer, rest, NL);
      assert (buffer + rest)[..|buffer|] == buffer;
    } else {
      assert rest == [];
      assert buffer + rest == buffer;
    }
  }

  /**
   * The decoding of the reply line: decode as UTF-8, parse, and read the
   * envelope. `ok` false or missing raises with the "error" value (or the
   * stock message); otherwise the "result" value (or `{}`) is returned.
   */
  function Interpret(line: seq<byte>, loads: string -> Result<Json, string>): SendResult
  {
    match Utf8.Decode(line)
    case None => Raises(UnicodeDecodeError)
    case Some(text) =>
      match loads(text)
      case Err(message) => Raises(JsonDecodeError(message))
      case Ok(response) =>
        if !response.JObj? then Raises(AttributeError)
        else if !Truthy(GetOr(response.fields, "ok", JBool(false))) then
          Raises(RuntimeError(GetOr(response.fields, "error", JStr(UnknownError))))
        else Answered(GetOr(response.fields, "result", JObj([])))
  }

  /** What the call ends in, given everything the add-on sent and whether it closed. */
  function Exchange(chunks: seq<seq<byte>>, loads: string -> Result<Json, string>): SendResult
  {
    if NL !in Connection.Received(chunks) && !Closed(chunks) then Raises(SocketTimeout)
    else Interpret(FirstLine(Connection.Received(chunks)), loads)
  }

  /**
   * `_send_command`. A refused connection sends nothing and raises the
   * fixed message; otherwise the request frame is sent and the call ends as
   * `Exchange` says.
   */
  method SendCommand(command: string, params: Option<Json>, refused: bool, chunks: seq<seq<byte>>,
                     loads: string -> Result<Json, string>)
    returns (sent: seq<byte>, r: SendResult)
    ensures refused ==> sent == [] && r == Raises(RuntimeError(JStr(RefusedMessage)))
    ensures !refused ==> sent == RequestFrame(command, params) && r == Exchange(chunks, loads)
  {
    if refused {
      return [], Raises(RuntimeError(JStr(RefusedMessage)));
    }
    sent := RequestFrame(command, params);
    var reply := ReadReply(chunks);
    match reply {
      case None =>
        r := Raises(SocketTimeout);
      case Some(buffer) =>
        r := Interpret(FirstLine(buffer), loads);
    }
  }

  // ---------------------------------------------------------------------
  // The reply as the add-on frames it.
  // ---------------------------------------------------------------------

  /** The client's first line is the add-on's first response, whatever follows it. */
  lemma FirstResponseLine(response: Json, rest: seq<byte>)
    ensures FirstLine(Connection.FrameBytes(response) + rest) == EncodeBytes(response)
  {
    var e := EncodeBytes(response);
    Connection.FirstNewline(e, rest);
    assert Connection.FrameBytes(response) + rest == e + [NL] + rest;
  }

  /**
   * An envelope the client parses back is read by its `ok` flag: true gives
   * the "result" value (`{}` when absent), false raises with the "error"
   * value (the stock message when absent).
   */
  lemma EnvelopeRead(e: Json, loads: string -> Result<Json, string>)
    requires IsEnvelope(e)
    requires loads(Encode(e)) == Ok(e)
    ensures OkFlag(e) ==> Interpret(EncodeBytes(e), loads) == Answered(GetOr(e.fields, "result", JObj([])))
    ensures !OkFlag(e) ==> Interpret(EncodeBytes(e), loads) == Raises(RuntimeError(GetOr(e.fields, "error", JStr(UnknownError))))
  {
    EncodePrintable(e);
    Utf8.AsciiRoundTrip(Encode(e));
  }

  /** A handler's returned value reaches the tool unchanged. */
  lemma SuccessReturned(result: Json, loads: string -> Result<Json, string>)
    requires var e := SuccessEnvelope(result); loads(Encode(e)) == Ok(e)
    ensures Interpret(EncodeBytes(SuccessEnvelope(result)), loads) == Answered(result)
  {
    var e := SuccessEnvelope(result);
    EnvelopeRead(e, loads);
    assert Lookup(e.fields, "result") == Lookup(e.fields[1..], "result");
  }

  /** A handler's exception reaches the tool as a RuntimeError with its message; the traceback stays behind. */
  lemma RaisedSurfaces(message: string, traceback: string, loads: string -> Result<Json, string>)
    requires var e := RaisedEnvelope(message, traceback); loads(Encode(e)) == Ok(e)
    ensures Interpret(EncodeBytes(RaisedEnvelope(message, traceback)), loads) == Raises(RuntimeError(JStr(message)))
  {
    var e := RaisedEnvelope(message, traceback);
    EnvelopeRead(e, loads);
    assert Lookup(e.fields, "error") == Lookup(e.fields[1..], "error");
  }

  /** A reply object without "ok" is a failure, and without "error" it carries the stock message. */
  lemma MissingOkFails(line: seq<byte>, loads: string -> Result<Json, string>, text: string, fields: seq<(string, Json)>)
    requires Utf8.Decode(line) == Some(text) && loads(text) == Ok(JObj(fields))
    requires forall i :: 0 <= i < |fields| ==> fields[i].0 != "ok" && fields[i].0 != "error"
    ensures Interpret(line, loads) == Raises(RuntimeError(JStr(UnknownError)))
  {
  }

  /** The client reads the first frame the add-on sends, whatever follows it. */
  lemma ReadsFirstFrame(response: Json, more: seq<byte>, loads: string -> Result<Json, string>)
    ensures Exchange([Connection.FrameBytes(response) + more], loads) == Interpret(EncodeBytes(response), loads)
  {
    var chunks := [Connection.FrameBytes(response) + more];
    assert Connection.ReceivedFrom(chunks, 1) == [];
    assert Connection.Received(chunks) == Connection.FrameBytes(response) + more;
    FirstResponseLine(response, more);
  }

  /**
   * One round trip: the client sends `command` with `params`, and the
   * add-on's answer to that frame is read back. When the command is
   * registered and the main thread ran it in time, the tool gets the
   * handler's value, or raises with the handler's message.
   */
  lemma RoundTrip(command: string, params: Option<Json>, k: nat, host: Host, loads: string -> Result<Json, string>)
    requires command in HandlerNames && host.inTime(k)
    requires var d := Dispatch(Request(command, params), k, host); loads(Encode(d)) == Ok(d)
    ensures var p := if params.None? then JObj([]) else params.value;
            var d := Dispatch(Request(command, params), k, host);
            match host.run(k, command, p)
            case Returned(v) => Interpret(EncodeBytes(d), loads) == Answered(v)
            case Raised(m, t) => Interpret(EncodeBytes(d), loads) == Raises(RuntimeError(JStr(m)))
  {
    var d := Dispatch(Request(command, params), k, host);
    RequestReadBack(command, params);
    var p := if params.None? then JObj([]) else params.value;
    match host.run(k, command, p)
    case Returned(v) =>
      assert d == SuccessEnvelope(v);
      SuccessReturned(v, loads);
    case Raised(m, t) =>
      assert d == RaisedEnvelope(m, t);
      RaisedSurfaces(m, t, loads);
  }

  /** When the main thread did not run the request in time, the tool raises "Timeout 60s.", whatever the command. */
  lemma LateRoundTrip(command: string, params: Option<Json>, k: nat, host: Host, loads: string -> Result<Json, string>)
    requires !host.inTime(k)
    requires var d := Dispatch(Request(command, params), k, host); loads(Encode(d)) == Ok(d)
    ensures Interpret(EncodeBytes(Dispatch(Request(command, params), k, host)), loads) ==
              Raises(RuntimeError(JStr("Timeout 60s.")))
  {
    var d := Dispatch(Request(command, params), k, host);
    EnvelopeRead(d, loads);
    assert Lookup(d.fields, "error") == Lookup(d.fields[1..], "error");
  }

  /** A request frame alone is answered with exactly one response, then the add-on sees the close. */
  lemma ServedAlone(command: string, params: Option<Json>, k: nat, env: Connection.Env)
    requires var req := Request(command, params); env.loads(Encode(req)) == Ok(req)
    ensures Connection.Serve(RequestFrame(command, params), k, Connection.AddonHandler(env)) ==
              Connection.Transcript([Await(SlotAfterWait(Request(command, params), k, env.host))], Connection.PeerClosed([]))
  {
    var handle := Connection.AddonHandler(env);
    RequestServed(command, params, [], k, env);
    assert RequestFrame(command, params) + [] == RequestFrame(command, params);
    Connection.ServeNoNewline([], k + 1, handle);
    var r := Await(SlotAfterWait(Request(command, params), k, env.host));
    assert [r] + [] == [r];
  }

  /** However `recv` splits the single frame sent, the client reads that frame. */
  lemma ReadAlone(d: Json, chunks: seq<seq<byte>>, loads: string -> Result<Json, string>)
    requires Connection.Received(chunks) == Connection.Frames([d])
    ensures Exchange(chunks, loads) == Interpret(EncodeBytes(d), loads)
  {
    var f := Connection.FrameBytes(d);
    assert [d][1..] == [];
    assert Connection.Frames([d]) == Connection.FramesOf([d]) == f + Connection.Frames([]);
    assert Connection.Received(chunks) == f + [];
    FirstResponseLine(d, []);
    assert f[|f| - 1] == NL;
  }

  /**
   * The whole call: the frame `_send_command` sends is served by the
   * add-on, which answers it with exactly one frame and then sees the close;
   * however `recv` splits that frame, the client reads it back. For a
   * registered command run in time the tool gets the handler's value, or
   * raises with the handler's message.
   */
  lemma CommandRoundTrip(command: string, params: Option<Json>, k: nat, host: Host,
                         loads: string -> Result<Json, string>, chunks: seq<seq<byte>>)
    requires command in HandlerNames && host.inTime(k)
    requires var req := Request(command, params); loads(Encode(req)) == Ok(req)
    requires var d := Dispatch(Request(command, params), k, host); loads(Encode(d)) == Ok(d)
    requires var t := Connection.Serve(RequestFrame(command, params), k, Connection.AddonHandler(Connection.Env(loads, host)));
             Connection.Received(chunks) == Connection.Frames(t.responses)
    ensures var t := Connection.Serve(RequestFrame(command, params), k, Connection.AddonHandler(Connection.Env(loads, host)));
            t.responses == [Dispatch(Request(command, params), k, host)] && t.end == Connection.PeerClosed([])
    ensures var p := if params.None? then JObj([]) else params.value;
            match host.run(k, command, p)
            case Returned(v) => Exchange(chunks, loads) == Answered(v)
            case Raised(m, _) => Exchange(chunks, loads) == Raises(RuntimeError(JStr(m)))
  {
    var d := Dispatch(Request(command, params), k, host);
    ServedAlone(command, params, k, Connection.Env(loads, host));
    ReadAlone(d, chunks, loads);
    RoundTrip(command, params, k, host, loads);
  }
}
