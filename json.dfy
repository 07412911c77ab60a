/**
 * The shape of a serde_json `Value`, as far as the query repository looks
 * at it: `commit` only asks whether the value is a JSON string and, if so,
 * stores the UTF-8 bytes of that string. No JSON text is parsed or printed
 * here.
 */
module Json {
  import opened Wrappers

  /** A byte, as stored by the key-value engine. */
  newtype byte = b: int | 0 <= b < 256

  /** serde_json's `Value`; numbers are restricted to integers. */
  datatype JsonValue =
    | Null
    | Bool(b: bool)
    | Number(n: int)
    | String(s: string)
    | Array(items: seq<JsonValue>)
    | Object(members: seq<(string, JsonValue)>)

  /** `Value::as_str`: the contents of a JSON string, and nothing for any other value. */
  function AsStr(j: JsonValue): (r: Option<string>)
    ensures r.Some? <==> j.String?
    ensures r.Some? ==> r.value == j.s
  {
    match j
    case String(s) => Some(s)
    case _ => None
  }

  /** The length of a UTF-8 sequence, read from its first byte. */
  function Width(lead: byte): nat
  {
    if lead < 0x80 then 1 else if lead < 0xE0 then 2 else if lead < 0xF0 then 3 else 4
  }

  /** The scalar value that a one- to four-byte UTF-8 sequence stands for. */
  function CodePoint(b: seq<byte>): int
    requires 1 <= |b| <= 4
  {
    if |b| == 1 then b[0] as int
    else if |b| == 2 then (b[0] as int - 0xC0) * 0x40 + (b[1] as int - 0x80)
    else if |b| == 3 then ((b[0] as int - 0xE0) * 0x40 + (b[1] as int - 0x80)) * 0x40 + (b[2] as int - 0x80)
    else (((b[0] as int - 0xF0) * 0x40 + (b[1] as int - 0x80)) * 0x40 + (b[2] as int - 0x80)) * 0x40 + (b[3] as int - 0x80)
  }

  /** The UTF-8 encoding of one Unicode scalar value: its first byte gives its length, and it decodes back to the value. */
  function CharUtf8(c: char): (r: seq<byte>)
    ensures 1 <= |r| <= 4
    ensures |r| == Width(r[0])
    ensures CodePoint(r) == c as int
  {
    var n := c as int;
    // n in base 64, least significant digit first
    var d0, n1 := n % 0x40, n / 0x40;
    var d1, n2 := n1 % 0x40, n1 / 0x40;
    var d2, n3 := n2 % 0x40, n2 / 0x40;
    if n < 0x80 then
      [n as byte]
    else if n < 0x800 then
      [(0xC0 + n1) as byte, (0x80 + d0) as byte]
    else if n < 0x1_0000 then
      [(0xE0 + n2) as byte, (0x80 + d1) as byte, (0x80 + d0) as byte]
    else
      [(0xF0 + n3) as byte, (0x80 + d2) as byte, (0x80 + d1) as byte, (0x80 + d0) as byte]
  }

  /** The bytes of a Rust `&str`, which is always UTF-8. */
  function Utf8(s: string): (r: seq<byte>)
    ensures |r| >= |s|
    ensures (forall i :: 0 <= i < |s| ==> s[i] as int < 0x80) ==> |r| == |s|
  {
    if s == [] then [] else CharUtf8(s[0]) + Utf8(s[1..])
  }

  /** A string's bytes are its parts' bytes one after the other. */
  lemma {:induction false} Utf8Append(a: string, b: string)
    ensures Utf8(a + b) == Utf8(a) + Utf8(b)
  {
    if a == [] {
      assert a + b == b;
    } else {
      assert (a + b)[0] == a[0];
      assert (a + b)[1..] == a[1..] + b;
      Utf8Append(a[1..], b);
    }
  }

  /** Distinct strings have distinct bytes, so distinct views that serialize to distinct strings give distinct records. */
  lemma {:induction false} Utf8Injective(s1: string, s2: string)
    requires Utf8(s1) == Utf8(s2)
    ensures s1 == s2
  {
    if s1 != [] && s2 != [] {
      var a, b := CharUtf8(s1[0]), CharUtf8(s2[0]);
      var r := Utf8(s1);
      assert a[0] == r[0] == b[0];
      assert a == r[..|a|] == b;
      assert s1[0] == s2[0];
      assert Utf8(s1[1..]) == r[|a|..] == Utf8(s2[1..]);
      Utf8Injective(s1[1..], s2[1..]);
      assert s1 == [s1[0]] + s1[1..];
      assert s2 == [s2[0]] + s2[1..];
    }
  }
}
