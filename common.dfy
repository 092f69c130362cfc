/** Small shared vocabulary: optional values, results, bytes and byte-sequence search. */
module Common {

  datatype Option<+T> = None | Some(value: T)

  datatype Result<+T, +E> = Ok(value: T) | Err(error: E)

  /** One octet on the wire. */
  newtype byte = b: int | 0 <= b < 256

  /** The frame delimiter `\n`. */
  const NL: byte := 10

  /** Position of the first occurrence of `x` in `s`, if any (`s.find(x)`, None for -1). */
  function IndexOf(s: seq<byte>, x: byte): (r: Option<nat>)
    ensures r.None? <==> x !in s
    ensures r.Some? ==> r.value < |s| && s[r.value] == x && x !in s[..r.value]
  {
    IndexFrom(s, x, 0)
  }

  /** Position of the first occurrence of `x` in `s` at or after `i`. */
  function IndexFrom(s: seq<byte>, x: byte, i: nat): (r: Option<nat>)
    requires i <= |s|
    requires x !in s[..i]
    ensures r.None? <==> x !in s
    ensures r.Some? ==> i <= r.value < |s| && s[r.value] == x && x !in s[..r.value]
    decreases |s| - i
  {
    if i == |s| then
      assert s[..i] == s;
      None
    else if s[i] == x then Some(i)
    else
      assert s[..i + 1] == s[..i] + [s[i]];
      IndexFrom(s, x, i + 1)
  }

  /** The first occurrence of `x` is not moved by appending bytes after it. */
  lemma IndexOfAppend(s: seq<byte>, t: seq<byte>, x: byte)
    requires x in s
    ensures IndexOf(s + t, x) == IndexOf(s, x)
  {
    var j := IndexOf(s, x).value;
    assert (s + t)[j] == x;
    assert (s + t)[..j] == s[..j];
  }
}
