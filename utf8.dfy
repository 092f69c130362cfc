/**
 * Strict UTF-8 decoding, as `bytes.decode("utf-8")` performs it: overlong
 * forms, encoded surrogates and code points above U+10FFFF are rejected,
 * and so is a truncated sequence at the end of the input.
 */
module Utf8 {
  import opened Common
  import opened Json

  predicate Continuation(b: byte)
  {
    0x80 <= b <= 0xBF
  }

  /** Number of bytes the well-formed sequence starting with `b` occupies, or 0 for a byte no sequence starts with. */
  function SequenceLength(b: byte): (n: nat)
    ensures n <= 4
  {
    if b < 0x80 then 1
    else if 0xC2 <= b <= 0xDF then 2
    else if 0xE0 <= b <= 0xEF then 3
    else if 0xF0 <= b <= 0xF4 then 4
    else 0
  }

  /** Admissible range of the second byte, which excludes overlong forms, surrogates and values beyond U+10FFFF. */
  predicate SecondByteOk(b0: byte, b1: byte)
  {
    if b0 == 0xE0 then 0xA0 <= b1 <= 0xBF
    else if b0 == 0xED then 0x80 <= b1 <= 0x9F
    else if b0 == 0xF0 then 0x90 <= b1 <= 0xBF
    else if b0 == 0xF4 then 0x80 <= b1 <= 0x8F
    else Continuation(b1)
  }

  /** The first character of `b` and the number of bytes it used, or None when `b` does not start with a well-formed sequence. */
  function DecodeOne(b: seq<byte>): (r: Option<(char, nat)>)
    requires |b| > 0
    ensures r.Some? ==> 1 <= r.value.1 <= |b| && r.value.1 == SequenceLength(b[0])
    ensures r.Some? && b[0] < 0x80 ==> r.value == (b[0] as int as char, 1)
  {
    var n := SequenceLength(b[0]);
    if n == 0 || |b| < n then None
    else if n == 1 then Some((b[0] as int as char, 1))
    else if !SecondByteOk(b[0], b[1]) then None
    else if n == 2 then
      Some((((b[0] as int - 0xC0) * 0x40 + (b[1] as int - 0x80)) as char, 2))
    else if !Continuation(b[2]) then None
    else if n == 3 then
      var cp := (b[0] as int - 0xE0) * 0x1000 + (b[1] as int - 0x80) * 0x40 + (b[2] as int - 0x80);
      Some((cp as char, 3))
    else if !Continuation(b[3]) then None
    else
      var cp := (b[0] as int - 0xF0) * 0x4_0000 + (b[1] as int - 0x80) * 0x1000
                + (b[2] as int - 0x80) * 0x40 + (b[3] as int - 0x80);
      Some((cp as char, 4))
  }

  /** `b.decode("utf-8")`: the text, or None where Python raises `UnicodeDecodeError`. */
  function Decode(b: seq<byte>): (r: Option<string>)
    decreases |b|
  {
    if |b| == 0 then Some("")
    else
      match DecodeOne(b)
      case None => None
      case Some((c, n)) =>
        match Decode(b[n..])
        case None => None
        case Some(rest) => Some([c] + rest)
  }

  /** A byte sequence made only of bytes below 0x80 decodes to the characters with those codes. */
  lemma {:induction false} DecodeAscii(b: seq<byte>)
    requires forall i :: 0 <= i < |b| ==> b[i] < 0x80
    ensures Decode(b).Some?
    ensures |Decode(b).value| == |b|
    ensures forall i :: 0 <= i < |b| ==> Decode(b).value[i] as int == b[i] as int
  {
    if |b| > 0 {
      DecodeAscii(b[1..]);
    }
  }

  /** The bytes of `json.dumps` output decode back to the same text. */
  lemma AsciiRoundTrip(s: string)
    requires Printable(s)
    ensures Decode(AsciiBytes(s)) == Some(s)
  {
    var b := AsciiBytes(s);
    DecodeAscii(b);
    var d := Decode(b).value;
    assert |d| == |s|;
    forall i | 0 <= i < |s| ensures d[i] == s[i] {
      assert d[i] as int == s[i] as int;
    }
    assert d == s;
  }
}
