/**
 * JSON values as both sides of the bridge exchange them, and the text that
 * `json.dumps` produces for them with its default settings: separators ", "
 * and ": ", no indentation, and `ensure_ascii`, so every character outside
 * the printable ASCII range is written as a `\uXXXX` escape.
 *
 * Objects keep their keys in insertion order, as Python dictionaries do.
 * Numbers are integers (floating-point values are not part of this model).
 */
module Json {
  import opened Common

  datatype Json =
    | JNull
    | JBool(b: bool)
    | JNum(n: int)
    | JStr(s: string)
    | JArr(items: seq<Json>)
    | JObj(fields: seq<(string, Json)>)

  /** The value bound to `key` in an object's fields (`dict.get`). */
  function Lookup(fields: seq<(string, Json)>, key: string): (r: Option<Json>)
    ensures r.None? <==> forall i :: 0 <= i < |fields| ==> fields[i].0 != key
    ensures r.Some? ==> (key, r.value) in fields
  {
    if |fields| == 0 then None
    else if fields[0].0 == key then Some(fields[0].1)
    else Lookup(fields[1..], key)
  }

  /** `d.get(key, default)` on a dictionary's fields. */
  function GetOr(fields: seq<(string, Json)>, key: string, default: Json): Json
  {
    match Lookup(fields, key)
    case Some(v) => v
    case None => default
  }

  /** A list of strings as a JSON array. */
  function StrList(names: seq<string>): (r: seq<Json>)
    ensures |r| == |names|
    ensures forall i :: 0 <= i < |names| ==> r[i] == JStr(names[i])
  {
    seq(|names|, i requires 0 <= i < |names| => JStr(names[i]))
  }

  /** Python truthiness of a decoded value (`if value:` / `not value`). */
  predicate Truthy(j: Json)
  {
    match j
    case JNull => false
    case JBool(b) => b
    case JNum(n) => n != 0
    case JStr(s) => s != ""
    case JArr(items) => items != []
    case JObj(fields) => fields != []
  }

  /** A value Python can use as a dictionary key (lists and dictionaries are unhashable). */
  predicate Hashable(j: Json)
  {
    !j.JArr? && !j.JObj?
  }

  /** `str(v)` for a hashable value, as used in an f-string. */
  function PyStr(j: Json): string
    requires Hashable(j)
  {
    match j
    case JNull => "None"
    case JBool(b) => if b then "True" else "False"
    case JNum(n) => IntText(n)
    case JStr(s) => s
  }

  // ---------------------------------------------------------------------
  // The encoder.
  // ---------------------------------------------------------------------

  /** Every character lies between the space and the tilde. */
  predicate Printable(s: string)
  {
    forall i :: 0 <= i < |s| ==> ' ' <= s[i] <= '~'
  }

  function Digit(d: nat): (c: char)
    requires d < 10
    ensures '0' <= c <= '9'
  {
    ['0', '1', '2', '3', '4', '5', '6', '7', '8', '9'][d]
  }

  function NatText(n: nat): (r: string)
    ensures |r| > 0 && Printable(r)
    ensures forall i :: 0 <= i < |r| ==> '0' <= r[i] <= '9'
  {
    if n < 10 then [Digit(n)] else NatText(n / 10) + [Digit(n % 10)]
  }

  /** The decimal text Python gives an integer. */
  function IntText(n: int): (r: string)
    ensures |r| > 0 && Printable(r)
    ensures (n < 0) <==> r[0] == '-'
  {
    if n < 0 then "-" + NatText(-n) else NatText(n)
  }

  function HexDigit(d: nat): (c: char)
    requires d < 16
    ensures ' ' <= c <= '~'
  {
    ['0', '1', '2', '3', '4', '5', '6', '7', '8', '9', 'a', 'b', 'c', 'd', 'e', 'f'][d]
  }

  /** Four lower-case hexadecimal digits, as `'{0:04x}'.format(n)` gives them. */
  function Hex4(n: nat): (r: string)
    requires n < 0x1_0000
    ensures |r| == 4 && Printable(r)
  {
    [HexDigit(n / 0x1000), HexDigit(n / 0x100 % 16), HexDigit(n / 0x10 % 16), HexDigit(n % 16)]
  }

  /** The escape `json.dumps` writes for one character of a string. */
  function EscapeChar(c: char): (r: string)
    ensures |r| > 0 && Printable(r)
    ensures c == '\n' ==> r == "\\n"
    ensures ' ' <= c <= '~' && c != '"' && c != '\\' ==> r == [c]
  {
    var n := c as int;
    if c == '"' then "\\\""
    else if c == '\\' then "\\\\"
    else if c == '\n' then "\\n"
    else if c == '\r' then "\\r"
    else if c == '\t' then "\\t"
    else if n == 0x08 then "\\b"
    else if n == 0x0C then "\\f"
    else if ' ' <= c <= '~' then [c]
    else if n < 0x1_0000 then "\\u" + Hex4(n)
    else
      // A character beyond the Basic Multilingual Plane becomes a surrogate pair.
      var m := n - 0x1_0000;
      "\\u" + Hex4(0xD800 + m / 0x400) + "\\u" + Hex4(0xDC00 + m % 0x400)
  }

  function EscapeString(s: string): (r: string)
    ensures Printable(r)
    ensures |r| >= |s|
  {
    if |s| == 0 then "" else EscapeChar(s[0]) + EscapeString(s[1..])
  }

  /** A JSON string literal. */
  function Quote(s: string): (r: string)
    ensures |r| >= 2 && r[0] == '"' && Printable(r)
  {
    "\"" + EscapeString(s) + "\""
  }

  /** `json.dumps(j)`. */
  function Encode(j: Json): string
    decreases j, 1, 0
  {
    match j
    case JNull => "null"
    case JBool(b) => if b then "true" else "false"
    case JNum(n) => IntText(n)
    case JStr(s) => Quote(s)
    case JArr(items) => "[" + EncodeItems(items) + "]"
    case JObj(fields) => "{" + EncodeFields(fields, 0) + "}"
  }

  /** The elements of a list, separated by ", ". */
  function EncodeItems(items: seq<Json>): string
    decreases items, 0, 0
  {
    if |items| == 0 then ""
    else if |items| == 1 then Encode(items[0])
    else Encode(items[0]) + ", " + EncodeItems(items[1..])
  }

  /** The members of an object from the i-th on, each `"key": value`, separated by ", ". */
  function EncodeFields(fields: seq<(string, Json)>, i: nat): string
    decreases JObj(fields), 0, |fields| - i
  {
    if i >= |fields| then ""
    else
      var member := Quote(fields[i].0) + ": " + Encode(fields[i].1);
      if i == |fields| - 1 then member else member + ", " + EncodeFields(fields, i + 1)
  }

  lemma ConcatPrintable(a: string, b: string)
    requires Printable(a) && Printable(b)
    ensures Printable(a + b)
  {
    forall i | 0 <= i < |a + b| ensures ' ' <= (a + b)[i] <= '~' {
      if i >= |a| { assert (a + b)[i] == b[i - |a|]; }
    }
  }

  /**
   * The text `json.dumps` produces is printable ASCII, so it never holds a
   * raw line feed, and it never starts with white space.
   */
  lemma {:induction false} EncodePrintable(j: Json)
    ensures |Encode(j)| > 0 && Printable(Encode(j)) && Encode(j)[0] != ' '
    decreases j, 1, 0
  {
    match j
    case JArr(items) =>
      ItemsPrintable(items);
      ConcatPrintable("[", EncodeItems(items));
      ConcatPrintable("[" + EncodeItems(items), "]");
    case JObj(fields) =>
      FieldsPrintable(fields, 0);
      ConcatPrintable("{", EncodeFields(fields, 0));
      ConcatPrintable("{" + EncodeFields(fields, 0), "}");
    case JBool(b) =>
    case JNull =>
    case JNum(n) =>
    case JStr(s) =>
  }

  lemma {:induction false} ItemsPrintable(items: seq<Json>)
    ensures Printable(EncodeItems(items))
    decreases items, 0, 0
  {
    if |items| > 0 {
      EncodePrintable(items[0]);
      if |items| > 1 {
        ItemsPrintable(items[1..]);
        ConcatPrintable(Encode(items[0]), ", ");
        ConcatPrintable(Encode(items[0]) + ", ", EncodeItems(items[1..]));
      }
    }
  }

  lemma {:induction false} FieldsPrintable(fields: seq<(string, Json)>, i: nat)
    ensures Printable(EncodeFields(fields, i))
    decreases JObj(fields), 0, |fields| - i
  {
    if i < |fields| {
      EncodePrintable(fields[i].1);
      var member := Quote(fields[i].0) + ": " + Encode(fields[i].1);
      ConcatPrintable(Quote(fields[i].0), ": ");
      ConcatPrintable(Quote(fields[i].0) + ": ", Encode(fields[i].1));
      if i < |fields| - 1 {
        FieldsPrintable(fields, i + 1);
        ConcatPrintable(member, ", ");
        ConcatPrintable(member + ", ", EncodeFields(fields, i + 1));
      }
    }
  }

  /** The UTF-8 bytes of a printable ASCII text: one byte per character. */
  function AsciiBytes(s: string): (r: seq<byte>)
    requires Printable(s)
    ensures |r| == |s|
    ensures forall i :: 0 <= i < |s| ==> r[i] as int == s[i] as int
    ensures NL !in r
  {
    if |s| == 0 then []
    else
      var rest := AsciiBytes(s[1..]);
      assert forall i :: 1 <= i < |s| ==> s[1..][i - 1] == s[i];
      [s[0] as int as byte] + rest
  }

  /** `json.dumps(j).encode("utf-8")`. */
  function EncodeBytes(j: Json): (r: seq<byte>)
    ensures |r| > 0 && NL !in r
  {
    EncodePrintable(j);
    AsciiBytes(Encode(j))
  }
}
