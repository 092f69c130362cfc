/**
 * `_handle_client`: one client connection of the add-on's TCP server.
 *
 * Received chunks are appended to a buffer; every complete line (up to the
 * first `\n`) is cut off the front and handled before the next is taken. A
 * line that is empty or ASCII white space only is skipped. Any other line is
 * decoded as UTF-8 and parsed as JSON; it is answered by exactly one response
 * frame, the JSON text of the response followed by one `\n`. A line that is
 * not UTF-8 raises an exception the loop does not catch, so the connection
 * ends there without a response. Bytes after the last `\n` when the peer
 * closes are never answered.
 *
 * `Serve` states what the connection does as a function of all bytes it
 * receives; `HandleClient` is the loop, proved to agree with it however the
 * bytes were split into chunks.
 */
module Connection {
  import opened Common
  import opened Json
  import Utf8
  import opened Registry

  /** The collaborators of a connection: `json.loads` (a decoded text to a value or an error message) and Blender's main thread. */
  datatype Env = Env(loads: string -> Result<Json, string>, host: Host)

  /** How the connection ended. */
  datatype End =
    | PeerClosed(unanswered: seq<byte>)  // recv returned no data; these bytes had no `\n` after them
    | Dropped                            // a line was not UTF-8: the exception closed the connection

  /** What a connection sends, and how it ends. */
  datatype Transcript = Transcript(responses: seq<Json>, end: End)

  function Prepend(rs: seq<Json>, t: Transcript): Transcript
  {
    Transcript(rs + t.responses, t.end)
  }

  /** `bytes.strip()` removes space, tab, line feed, carriage return, vertical tab and form feed. */
  predicate IsAsciiSpace(b: byte)
  {
    b == 0x20 || 0x09 <= b <= 0x0D
  }

  /** `not line.strip()`: the line is empty or white space only. */
  predicate Blank(line: seq<byte>)
  {
    |line| == 0 || (IsAsciiSpace(line[0]) && Blank(line[1..]))
  }

  /** The result of handling one non-blank line: a response, or the connection is dropped. */
  datatype LineOutcome = Reply(response: Json) | Drop

  /** The body of the inner `try`: decode, parse, hand the request to the main thread. */
  function HandleLine(line: seq<byte>, k: nat, env: Env): (r: LineOutcome)
    ensures r.Drop? <==> Utf8.Decode(line).None?
    ensures r.Reply? ==> IsEnvelope(r.response)
  {
    match Utf8.Decode(line)
    case None => Drop
    case Some(text) =>
      match env.loads(text)
      case Err(e) => Reply(ParseErrorEnvelope(e))
      case Ok(data) => Reply(Dispatch(data, k, env.host))
  }

  /** What the connection does with one complete, non-blank line, given as the line and its index on the connection. */
  type LineHandler = (seq<byte>, nat) -> LineOutcome

  /** The add-on's own line handling. */
  function AddonHandler(env: Env): LineHandler
  {
    (line, k: nat) => HandleLine(line, k, env)
  }

  /**
   * Everything a connection does with the byte stream `s`, whose first
   * complete line is the k-th line of the connection, when each non-blank
   * line is handled by `handle` (for the add-on, `AddonHandler(env)`).
   */
  function Serve(s: seq<byte>, k: nat, handle: LineHandler): Transcript
    decreases |s|, 2, |s|
  {
    ServeFrom(s, 0, k, handle)
  }

  /** `Serve` once the first i bytes of `s` are known to hold no `\n`: look for the end of the first line from position i on. */
  function ServeFrom(s: seq<byte>, i: nat, k: nat, handle: LineHandler): Transcript
    requires i <= |s|
    decreases |s|, 1, |s| - i
  {
    if i == |s| then Transcript([], PeerClosed(s))
    else if s[i] == NL then ServeLine(s, i, k, handle)
    else ServeFrom(s, i + 1, k, handle)
  }

  /** `Serve` follows the first `\n` of the stream, wherever `IndexOf` finds it. */
  lemma ServeFirstLine(s: seq<byte>, k: nat, handle: LineHandler)
    ensures Serve(s, k, handle) ==
              match IndexOf(s, NL)
              case None => Transcript([], PeerClosed(s))
              case Some(j) => ServeLine(s, j, k, handle)
  {
    ServeFromIndex(s, 0, k, handle);
  }

  lemma {:induction false} ServeFromIndex(s: seq<byte>, i: nat, k: nat, handle: LineHandler)
    requires i <= |s| && NL !in s[..i]
    ensures ServeFrom(s, i, k, handle) ==
              match IndexFrom(s, NL, i)
              case None => Transcript([], PeerClosed(s))
              case Some(j) => ServeLine(s, j, k, handle)
    decreases |s| - i
  {
    if i < |s| && s[i] != NL {
      assert s[..i + 1] == s[..i] + [s[i]];
      ServeFromIndex(s, i + 1, k, handle);
    }
  }

  /** What the connection does when the first complete line of `s` ends at the `\n` at position j. */
  function ServeLine(s: seq<byte>, j: nat, k: nat, handle: LineHandler): Transcript
    requires j < |s|
    decreases |s|, 0, 0
  {
    var line := s[..j];
    if Blank(line) then Serve(s[j + 1..], k + 1, handle)
    else
      match handle(line, k)
      case Drop => Transcript([], Dropped)
      case Reply(r) => Prepend([r], Serve(s[j + 1..], k + 1, handle))
  }

  /** One response on the wire: `json.dumps(response).encode("utf-8") + b"\n"`. */
  function FrameBytes(r: Json): (f: seq<byte>)
    ensures |f| > 0 && f[|f| - 1] == NL && NL !in f[..|f| - 1]
  {
    var e := EncodeBytes(r);
    assert (e + [NL])[..|e|] == e;
    e + [NL]
  }

  /** All responses on the wire, in order. */
  function Frames(rs: seq<Json>): seq<byte>
    decreases |rs|, 1
  {
    if |rs| == 0 then [] else FramesOf(rs)
  }

  /** The frames of a non-empty list of responses: the first one's, then the others'. */
  function FramesOf(rs: seq<Json>): seq<byte>
    requires |rs| > 0
    decreases |rs|, 0
  {
    FrameBytes(rs[0]) + Frames(rs[1..])
  }

  /** The bytes `recv` delivers before it first returns an empty chunk (the peer closed). */
  function Received(chunks: seq<seq<byte>>): seq<byte>
  {
    ReceivedFrom(chunks, 0)
  }

  /** The bytes delivered from the i-th call of `recv` on. */
  function ReceivedFrom(chunks: seq<seq<byte>>, i: nat): seq<byte>
    decreases |chunks| - i
  {
    if i >= |chunks| || |chunks[i]| == 0 then [] else chunks[i] + ReceivedFrom(chunks, i + 1)
  }



  /** The first complete line of a buffer is the same line whatever bytes follow the buffer. */
  lemma FirstLineOf(buffer: seq<byte>, rest: seq<byte>)
    requires NL in buffer
    ensures var j := IndexOf(buffer, NL).value;
            IndexOf(buffer + rest, NL) == Some(j) &&
            (buffer + rest)[..j] == buffer[..j] &&
            (buffer + rest)[j + 1..] == buffer[j + 1..] + rest
  {
    IndexOfAppend(buffer, rest, NL);
  }

  lemma ServeBlankLine(buffer: seq<byte>, rest: seq<byte>, k: nat, handle: LineHandler)
    requires NL in buffer && Blank(buffer[..IndexOf(buffer, NL).value])
    ensures Serve(buffer + rest, k, handle) == Serve(buffer[IndexOf(buffer, NL).value + 1..] + rest, k + 1, handle)
  {
    FirstLineOf(buffer, rest);
    ServeFirstLine(buffer + rest, k, handle);
  }

  lemma ServeDroppedLine(buffer: seq<byte>, rest: seq<byte>, k: nat, handle: LineHandler)
    requires NL in buffer
    requires var line := buffer[..IndexOf(buffer, NL).value];
             !Blank(line) && handle(line, k).Drop?
    ensures Serve(buffer + rest, k, handle) == Transcript([], Dropped)
  {
    FirstLineOf(buffer, rest);
    ServeFirstLine(buffer + rest, k, handle);
  }

  lemma ServeAnsweredLine(buffer: seq<byte>, rest: seq<byte>, k: nat, handle: LineHandler)
    requires NL in buffer
    requires var line := buffer[..IndexOf(buffer, NL).value];
             !Blank(line) && handle(line, k).Reply?
    ensures var j := IndexOf(buffer, NL).value;
            Serve(buffer + rest, k, handle) ==
              Prepend([handle(buffer[..j], k).response], Serve(buffer[j + 1..] + rest, k + 1, handle))
  {
    FirstLineOf(buffer, rest);
    ServeFirstLine(buffer + rest, k, handle);
  }

  lemma PrependNil(t: Transcript)
    ensures Prepend([], t) == t
  {
    assert [] + t.responses == t.responses;
  }

  lemma PrependAssoc(answered: seq<Json>, more: seq<Json>, whole: Transcript, tail: Transcript)
    requires whole == Prepend(answered, Prepend(more, tail))
    ensures whole == Prepend(answered + more, tail)
  {
    assert answered + (more + tail.responses) == (answered + more) + tail.responses;
  }

  lemma PrependDone(answered: seq<Json>, whole: Transcript, end: End)
    requires whole == Prepend(answered, Transcript([], end))
    ensures whole.responses == answered && whole.end == end
  {
    assert answered + [] == answered;
  }

  lemma {:induction false} FramesConcat(a: seq<Json>, b: seq<Json>)
    ensures Frames(a + b) == Frames(a) + Frames(b)
    decreases |a|
  {
    if |a| == 0 {
      assert a + b == b;
    } else {
      var ab := a + b;
      assert ab[0] == a[0] && ab[1..] == a[1..] + b;
      FramesConcat(a[1..], b);
      var x, y, z := FrameBytes(a[0]), Frames(a[1..]), Frames(b);
      calc {
        Frames(ab);
        FramesOf(ab);
        x + Frames(a[1..] + b);
        x + (y + z);
        (x + y) + z;
        Frames(a) + z;
      }
    }
  }

  lemma FramesAppend(rs: seq<Json>, r: Json)
    ensures Frames(rs + [r]) == Frames(rs) + FrameBytes(r)
  {
    FramesConcat(rs, [r]);
    assert Frames([r]) == FramesOf([r]);
    assert [r][1..] == [];
  }


  // ---------------------------------------------------------------------
  // Lines of a stream, and `Serve` line by line.
  // ---------------------------------------------------------------------

  /** The first `\n` after a line without one is the one that ends it. */
  lemma FirstNewline(line: seq<byte>, rest: seq<byte>)
    requires NL !in line
    ensures var s := line + [NL] + rest;
            IndexOf(s, NL) == Some(|line|) && s[..|line|] == line && s[|line| + 1..] == rest
  {
    var s := line + [NL] + rest;
    assert (line + [NL])[|line|] == NL;
    IndexOfAppend(line + [NL], rest, NL);
    assert (line + [NL])[..|line|] == line;
    assert s[..|line|] == line;
    assert s[|line| + 1..] == rest;
  }

  /** A line followed by `\n` is handled first: skipped when blank, otherwise answered or the end of the connection. */
  lemma ServeLineFirst(line: seq<byte>, rest: seq<byte>, k: nat, handle: LineHandler)
    requires NL !in line
    ensures Serve(line + [NL] + rest, k, handle) ==
              if Blank(line) then Serve(rest, k + 1, handle)
              else match handle(line, k)
                   case Drop => Transcript([], Dropped)
                   case Reply(r) => Prepend([r], Serve(rest, k + 1, handle))
  {
    FirstNewline(line, rest);
    ServeFirstLine(line + [NL] + rest, k, handle);
  }

  /** Bytes with no `\n` in them are never answered: the peer closes with them unanswered. */
  lemma ServeNoNewline(s: seq<byte>, k: nat, handle: LineHandler)
    requires NL !in s
    ensures Serve(s, k, handle) == Transcript([], PeerClosed(s))
  {
    ServeFirstLine(s, k, handle);
  }

  /** A line that is empty or white space only is skipped: no response, and the next line is handled as if it had not been there. */
  lemma BlankLineSkipped(line: seq<byte>, rest: seq<byte>, k: nat, env: Env)
    requires NL !in line && Blank(line)
    ensures Serve(line + [NL] + rest, k, AddonHandler(env)) == Serve(rest, k + 1, AddonHandler(env))
  {
    ServeLineFirst(line, rest, k, AddonHandler(env));
  }

  /** A line that is not UTF-8 ends the connection without a response to it or to anything after it. */
  lemma NonUtf8LineDrops(line: seq<byte>, rest: seq<byte>, k: nat, env: Env)
    requires NL !in line && !Blank(line) && Utf8.Decode(line).None?
    ensures Serve(line + [NL] + rest, k, AddonHandler(env)) == Transcript([], Dropped)
  {
    ServeLineFirst(line, rest, k, AddonHandler(env));
  }

  /** A line that is not valid JSON is answered with the parse-error envelope, and the connection goes on serving. */
  lemma ParseErrorAnswered(line: seq<byte>, rest: seq<byte>, k: nat, env: Env, text: string, message: string)
    requires NL !in line && !Blank(line)
    requires Utf8.Decode(line) == Some(text) && env.loads(text) == Err(message)
    ensures Serve(line + [NL] + rest, k, AddonHandler(env)) ==
              Prepend([ParseErrorEnvelope(message)], Serve(rest, k + 1, AddonHandler(env)))
  {
    ServeLineFirst(line, rest, k, AddonHandler(env));
  }

  /** A request line is answered by what the main thread left in the slot, or the timeout envelope; then serving goes on. */
  lemma RequestAnswered(line: seq<byte>, rest: seq<byte>, k: nat, env: Env, text: string, data: Json)
    requires NL !in line && !Blank(line)
    requires Utf8.Decode(line) == Some(text) && env.loads(text) == Ok(data)
    ensures Serve(line + [NL] + rest, k, AddonHandler(env)) ==
              Prepend([Await(SlotAfterWait(data, k, env.host))], Serve(rest, k + 1, AddonHandler(env)))
  {
    ServeLineFirst(line, rest, k, AddonHandler(env));
  }

  /** The complete lines of `s` in order: the pieces of `s.split(b"\n")` but the last. */
  function Lines(s: seq<byte>): (lines: seq<seq<byte>>)
    ensures forall i :: 0 <= i < |lines| ==> NL !in lines[i]
    decreases |s|
  {
    match IndexOf(s, NL)
    case None => []
    case Some(j) => [s[..j]] + Lines(s[j + 1..])
  }

  /** The bytes after the last `\n` of `s` (all of `s` when it has none). */
  function Trailing(s: seq<byte>): (t: seq<byte>)
    ensures NL !in t
    decreases |s|
  {
    match IndexOf(s, NL)
    case None => s
    case Some(j) => Trailing(s[j + 1..])
  }

  /**
   * Reference definition: the lines handled one after the other, the i-th
   * with index k + i; a blank line is skipped, a dropped one ends the
   * connection, any other is answered. `trailing` is left unanswered.
   */
  function HandleLines(lines: seq<seq<byte>>, k: nat, handle: LineHandler, trailing: seq<byte>): Transcript
    decreases |lines|
  {
    if |lines| == 0 then Transcript([], PeerClosed(trailing))
    else if Blank(lines[0]) then HandleLines(lines[1..], k + 1, handle, trailing)
    else match handle(lines[0], k)
         case Drop => Transcript([], Dropped)
         case Reply(r) => Prepend([r], HandleLines(lines[1..], k + 1, handle, trailing))
  }

  /** `Serve` is the stream cut into its complete lines, each handled in turn, with the trailing bytes unanswered. */
  lemma {:induction false} ServeByLines(s: seq<byte>, k: nat, handle: LineHandler)
    ensures Serve(s, k, handle) == HandleLines(Lines(s), k, handle, Trailing(s))
    decreases |s|
  {
    ServeFirstLine(s, k, handle);
    match IndexOf(s, NL)
    case None =>
    case Some(j) =>
      ServeByLines(s[j + 1..], k + 1, handle);
      var lines := Lines(s);
      assert lines[0] == s[..j] && lines[1..] == Lines(s[j + 1..]);
  }

  /** The number of lines that are not blank. */
  function NonBlankCount(lines: seq<seq<byte>>): nat
  {
    if |lines| == 0 then 0
    else (if Blank(lines[0]) then 0 else 1) + NonBlankCount(lines[1..])
  }

  /**
   * When no line is dropped, there is exactly one response per non-blank
   * line, the response counted by the non-blank lines before line n
   * answers line n, and the connection ends with the trailing bytes
   * unanswered.
   */
  lemma {:induction false} OneResponsePerLine(lines: seq<seq<byte>>, k: nat, handle: LineHandler, trailing: seq<byte>)
    requires forall i :: 0 <= i < |lines| && !Blank(lines[i]) ==> handle(lines[i], k + i).Reply?
    ensures var t := HandleLines(lines, k, handle, trailing);
            |t.responses| == NonBlankCount(lines) && t.end == PeerClosed(trailing)
    ensures var t := HandleLines(lines, k, handle, trailing);
            forall n :: 0 <= n < |lines| && !Blank(lines[n]) ==>
              NonBlankCount(lines[..n]) < |t.responses| &&
              t.responses[NonBlankCount(lines[..n])] == handle(lines[n], k + n).response
    decreases |lines|
  {
    if |lines| > 0 {
      var tail := lines[1..];
      forall i | 0 <= i < |tail| && !Blank(tail[i])
        ensures handle(tail[i], k + 1 + i).Reply?
      {
        assert tail[i] == lines[i + 1];
      }
      OneResponsePerLine(tail, k + 1, handle, trailing);
      var t, rest := HandleLines(lines, k, handle, trailing), HandleLines(tail, k + 1, handle, trailing);
      var first: seq<Json> := if Blank(lines[0]) then [] else [handle(lines[0], k).response];
      assert t.responses == first + rest.responses;
      forall n | 0 <= n < |lines| && !Blank(lines[n])
        ensures NonBlankCount(lines[..n]) < |t.responses|
        ensures t.responses[NonBlankCount(lines[..n])] == handle(lines[n], k + n).response
      {
        if n > 0 {
          assert lines[..n][1..] == tail[..n - 1];
          assert tail[n - 1] == lines[n];
          assert NonBlankCount(lines[..n]) == |first| + NonBlankCount(tail[..n - 1]);
        }
      }
    }
  }

  /** The encoded responses, one per response. */
  function EncodedLines(rs: seq<Json>): (lines: seq<seq<byte>>)
    ensures |lines| == |rs|
  {
    if |rs| == 0 then [] else [EncodeBytes(rs[0])] + EncodedLines(rs[1..])
  }

  /**
   * Every frame ends in exactly one `\n`: cutting the bytes sent into lines
   * gives back the encoded responses one per line, with nothing trailing.
   */
  lemma {:induction false} FramesSplit(rs: seq<Json>)
    ensures Lines(Frames(rs)) == EncodedLines(rs)
    ensures Trailing(Frames(rs)) == []
    decreases |rs|
  {
    if |rs| > 0 {
      var e, more := EncodeBytes(rs[0]), Frames(rs[1..]);
      FramesSplit(rs[1..]);
      assert Frames(rs) == e + [NL] + more by {
        assert Frames(rs) == FramesOf(rs);
      }
      LinesCons(e, more);
    }
  }

  lemma LinesCons(line: seq<byte>, rest: seq<byte>)
    requires NL !in line
    ensures Lines(line + [NL] + rest) == [line] + Lines(rest)
    ensures Trailing(line + [NL] + rest) == Trailing(rest)
  {
    FirstNewline(line, rest);
  }

  /**
   * The inner loop of `_handle_client`: take complete lines off the front of
   * the buffer and answer them, until no `\n` is left or a line is not
   * UTF-8. `rest` stands for the bytes still to arrive; what the loop does
   * agrees with `Serve` on the whole stream.
   */
  method DrainLines(buffer: seq<byte>, k: nat, handle: LineHandler, ghost rest: seq<byte>)
    returns (remaining: seq<byte>, next: nat, replies: seq<Json>, sent: seq<byte>, dropped: bool)
    ensures sent == Frames(replies)
    ensures dropped ==> Serve(buffer + rest, k, handle) == Prepend(replies, Transcript([], Dropped))
    ensures !dropped ==> NL !in remaining
    ensures !dropped ==> Serve(buffer + rest, k, handle) == Prepend(replies, Serve(remaining + rest, next, handle))
  {
    remaining, next, replies, sent, dropped := buffer, k, [], [], false;
    PrependNil(Serve(buffer + rest, k, handle));
    while NL in remaining
      invariant sent == Frames(replies)
      invariant Serve(buffer + rest, k, handle) == Prepend(replies, Serve(remaining + rest, next, handle))
      decreases |remaining|
    {
      var j := IndexOf(remaining, NL).value;
      var line := remaining[..j];
      if Blank(line) {
        ServeBlankLine(remaining, rest, next, handle);
        remaining, next := remaining[j + 1..], next + 1;
        continue;
      }
      var outcome := handle(line, next);
      if outcome.Drop? {
        ServeDroppedLine(remaining, rest, next, handle);
        assert replies + [] == replies;
        dropped := true;
        return;
      }
      ServeAnsweredLine(remaining, rest, next, handle);
      PrependAssoc(replies, [outcome.response], Serve(buffer + rest, k, handle), Serve(remaining[j + 1..] + rest, next + 1, handle));
      FramesAppend(replies, outcome.response);
      sent := sent + FrameBytes(outcome.response);
      replies := replies + [outcome.response];
      remaining, next := remaining[j + 1..], next + 1;
    }
  }

  /**
   * One turn of the outer loop: the chunk joins the buffer and the complete
   * lines are answered. `pending` stands for the bytes not yet in the buffer
   * (this chunk and `rest`, those still to arrive), `whole`
   * for the transcript of the whole connection and `answered` for the
   * responses sent before this turn.
   */
  method ReceiveChunk(buffer: seq<byte>, chunk: seq<byte>, k: nat, handle: LineHandler,
                      ghost pending: seq<byte>, ghost rest: seq<byte>,
                      ghost whole: Transcript, ghost answered: seq<Json>, sent: seq<byte>)
    returns (buffer': seq<byte>, k': nat, ghost answered': seq<Json>, sent': seq<byte>, dropped: bool)
    requires pending == chunk + rest
    requires whole == Prepend(answered, Serve(buffer + pending, k, handle))
    requires sent == Frames(answered)
    ensures sent' == Frames(answered')
    ensures dropped ==> whole.responses == answered' && whole.end == Dropped
    ensures !dropped ==> NL !in buffer' && whole == Prepend(answered', Serve(buffer' + rest, k', handle))
  {
    assert buffer + pending == (buffer + chunk) + rest;
    var replies, frames;
    buffer', k', replies, frames, dropped := DrainLines(buffer + chunk, k, handle, rest);
    FramesConcat(answered, replies);
    sent' := sent + frames;
    answered' := answered + replies;
    if dropped {
      PrependAssoc(answered, replies, whole, Transcript([], Dropped));
      PrependDone(answered', whole, Dropped);
    } else {
      PrependAssoc(answered, replies, whole, Serve(buffer' + rest, k', handle));
    }
  }

  /** When the peer has closed, the bytes left in the buffer, which hold no `\n`, stay unanswered. */
  lemma StreamEnd(whole: Transcript, answered: seq<Json>, buffer: seq<byte>, chunks: seq<seq<byte>>, i: nat,
                  k: nat, handle: LineHandler)
    requires i == |chunks| || (i < |chunks| && |chunks[i]| == 0)
    requires NL !in buffer
    requires whole == Prepend(answered, Serve(buffer + ReceivedFrom(chunks, i), k, handle))
    ensures whole.responses == answered && whole.end == PeerClosed(buffer)
  {
    assert buffer + ReceivedFrom(chunks, i) == buffer;
    ServeFirstLine(buffer, k, handle);
    PrependDone(answered, whole, PeerClosed(buffer));
  }

  /**
   * The loop of `_handle_client` over the chunks `recv` returns; an empty
   * chunk means the peer closed. What is sent, and how the connection ends,
   * depend only on the bytes received, not on how they were split.
   */
  method HandleClient(chunks: seq<seq<byte>>, handle: LineHandler) returns (sent: seq<byte>, end: End)
    ensures var t := Serve(Received(chunks), 0, handle);
            sent == Frames(t.responses) && end == t.end
  {
    ghost var whole := Serve(Received(chunks), 0, handle);
    var buffer: seq<byte> := [];
    var i := 0;
    var k := 0;
    ghost var answered: seq<Json> := [];
    sent := [];
    assert [] + Received(chunks) == Received(chunks);
    PrependNil(whole);
    while i < |chunks| && |chunks[i]| > 0
      invariant 0 <= i <= |chunks|
      invariant NL !in buffer
      invariant sent == Frames(answered)
      invariant whole == Prepend(answered, Serve(buffer + ReceivedFrom(chunks, i), k, handle))
    {
      var dropped;
      buffer, k, answered, sent, dropped :=
        ReceiveChunk(buffer, chunks[i], k, handle, ReceivedFrom(chunks, i), ReceivedFrom(chunks, i + 1), whole, answered, sent);
      if dropped {
        end := Dropped;
        return;
      }
      i := i + 1;
    }
    StreamEnd(whole, answered, buffer, chunks, i, k, handle);
    end := PeerClosed(buffer);
  }
}
