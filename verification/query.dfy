/**
  The query strings the API functions append to endpoint paths: the
  `application/x-www-form-urlencoded` serialisation `URLSearchParams` produces
  (UTF-8 bytes, unreserved bytes kept, space as `+`, every other byte as `%XX`).
 */
module Query {
  import opened Text

  /** Ordered name/value pairs, as appended to a `URLSearchParams`. */
  type Params = seq<(string, string)>

  /** The UTF-8 encoding of one Unicode scalar value. */
  function Utf8(c: char): (bytes: seq<nat>)
    ensures 1 <= |bytes| <= 4
    ensures forall i :: 0 <= i < |bytes| ==> bytes[i] < 256
    ensures (c as int) < 0x80 ==> bytes == [c as int]
  {
    var cp := c as int;
    if cp < 0x80 then [cp]
    else if cp < 0x800 then [0xC0 + cp / 64, 0x80 + cp % 64]
    else if cp < 0x10000 then [0xE0 + cp / 4096, 0x80 + (cp / 64) % 64, 0x80 + cp % 64]
    else [0xF0 + cp / 262144, 0x80 + (cp / 4096) % 64, 0x80 + (cp / 64) % 64, 0x80 + cp % 64]
  }

  /** Bytes the serialiser copies unchanged: `*`, `-`, `.`, `_`, digits and ASCII letters. */
  predicate Unreserved(b: nat) {
    b == 0x2A || b == 0x2D || b == 0x2E || b == 0x5F
    || (0x30 <= b <= 0x39) || (0x41 <= b <= 0x5A) || (0x61 <= b <= 0x7A)
  }

  /** Characters that can appear in a serialised query string. */
  predicate QueryChar(c: char) {
    Unreserved(c as int) || c == '+' || c == '%' || c == '=' || c == '&'
  }

  function HexDigit(d: nat): (c: char)
    requires d < 16
    ensures Unreserved(c as int)
  {
    if d < 10 then (d + 0x30) as char else (d - 10 + 0x41) as char
  }

  /** One byte of the serialisation. */
  function EncodeByte(b: nat): (r: string)
    requires b < 256
    ensures forall i :: 0 <= i < |r| ==> QueryChar(r[i])
    ensures Unreserved(b) ==> r == [b as char]
  {
    if Unreserved(b) then [b as char]
    else if b == 0x20 then "+"
    else ['%', HexDigit(b / 16), HexDigit(b % 16)]
  }

  function EncodeBytes(bs: seq<nat>): (r: string)
    requires forall i :: 0 <= i < |bs| ==> bs[i] < 256
    ensures forall i :: 0 <= i < |r| ==> QueryChar(r[i])
  {
    if bs == [] then []
    else
      var head := EncodeByte(bs[0]);
      var tail := EncodeBytes(bs[1..]);
      assert forall i :: |head| <= i < |head| + |tail| ==> (head + tail)[i] == tail[i - |head|];
      head + tail
  }

  /** The serialisation of one name or value. */
  function Encode(s: string): (r: string)
    ensures |s| <= |r|
    ensures forall i :: 0 <= i < |r| ==> QueryChar(r[i])
  {
    if s == [] then []
    else
      var head := EncodeBytes(Utf8(s[0]));
      var tail := Encode(s[1..]);
      assert forall i :: |head| <= i < |head| + |tail| ==> (head + tail)[i] == tail[i - |head|];
      head + tail
  }

  /** A string made only of unreserved ASCII characters is serialised as itself. */
  lemma {:induction false} EncodeUnreservedIsIdentity(s: string)
    requires forall i :: 0 <= i < |s| ==> Unreserved(s[i] as int)
    ensures Encode(s) == s
  {
    if s != [] {
      EncodeUnreservedIsIdentity(s[1..]);
      assert Utf8(s[0]) == [s[0] as int];
      assert EncodeBytes([s[0] as int]) == [s[0]];
    }
  }

  function Pair(p: (string, string)): (r: string)
    ensures forall i :: 0 <= i < |r| ==> QueryChar(r[i])
  {
    Encode(p.0) + "=" + Encode(p.1)
  }

  /** `params.toString()`: the pairs in order, `name=value`, joined by `&`. */
  function Serialize(ps: Params): (r: string)
    ensures forall i :: 0 <= i < |r| ==> QueryChar(r[i])
    ensures ps == [] ==> r == ""
  {
    if ps == [] then ""
    else if |ps| == 1 then Pair(ps[0])
    else
      var head := Pair(ps[0]) + "&";
      var tail := Serialize(ps[1..]);
      assert forall i :: |head| <= i < |head| + |tail| ==> (head + tail)[i] == tail[i - |head|];
      head + tail
  }
}
