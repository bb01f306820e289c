/** The encodings the configuration version is built from: lower-case
    hexadecimal (`hex.EncodeToString`), the JSON value a Go struct marshals
    to, and the two primitives the model does not look inside, the MD5 digest
    of RFC 1321 and the JSON text writer of RFC 8259 (`json.Marshal`). */
module Codec {
  import opened Common

  type byte = x: int | 0 <= x < 256

  /** A 16-byte (128-bit) MD5 digest. */
  type Md5Sum = s: seq<byte> | |s| == 16 witness seq(16, i => 0)

  /** The JSON value a Go value marshals to: strings, slices, and structs
      (fields in declaration order, under their `json` tag names). */
  datatype Json = JString(s: string) | JArray(items: seq<Json>) | JObject(fields: seq<(string, Json)>)

  /** The value of the first field named `key` of an object's fields. */
  function Lookup(fields: seq<(string, Json)>, key: string): Option<Json> {
    if |fields| == 0 then None
    else if fields[0].0 == key then Some(fields[0].1)
    else Lookup(fields[1..], key)
  }

  /** A field is found by its name when no earlier field has that name. */
  lemma {:induction false} LookupAt(fields: seq<(string, Json)>, k: nat)
    requires k < |fields|
    requires forall i :: 0 <= i < k ==> fields[i].0 != fields[k].0
    ensures Lookup(fields, fields[k].0) == Some(fields[k].1)
  {
    if k > 0 {
      LookupAt(fields[1..], k - 1);
    }
  }

  /** The field names of an object, in order. */
  function FieldNames(fields: seq<(string, Json)>): seq<string> {
    seq(|fields|, i requires 0 <= i < |fields| => fields[i].0)
  }

  /** The primitives the model leaves abstract: `json.Marshal` of a value,
      which may fail with an error text, and the MD5 digest of a string's bytes
      (the `[]byte(s)` conversion is part of `md5`). */
  datatype Codecs = Codecs(marshal: Json -> Result<string>, md5: string -> Md5Sum)

  predicate IsLowerHex(c: char) { '0' <= c <= '9' || 'a' <= c <= 'f' }

  /** The lower-case digit of a nibble, from "0123456789abcdef". */
  function HexDigit(v: nat): (c: char)
    requires v < 16
    ensures IsLowerHex(c)
  {
    if v < 10 then (v + '0' as int) as char else (v - 10 + 'a' as int) as char
  }

  /** The value of a lower-case hexadecimal digit. */
  function HexValue(c: char): (v: nat)
    requires IsLowerHex(c)
    ensures v < 16 && HexDigit(v) == c
  {
    if '0' <= c <= '9' then c as int - '0' as int else c as int - 'a' as int + 10
  }

  /** `hex.EncodeToString`: two lower-case digits per byte, high nibble first. */
  function HexEncode(bytes: seq<byte>): (s: string)
    ensures |s| == 2 * |bytes|
    ensures forall i :: 0 <= i < |s| ==> IsLowerHex(s[i])
  {
    if |bytes| == 0 then ""
    else [HexDigit(bytes[0] / 16), HexDigit(bytes[0] % 16)] + HexEncode(bytes[1..])
  }

  /** The inverse of HexEncode on well-formed input. */
  function HexDecode(s: string): (bytes: seq<byte>)
    requires |s| % 2 == 0
    requires forall i :: 0 <= i < |s| ==> IsLowerHex(s[i])
    ensures |bytes| * 2 == |s|
  {
    if |s| == 0 then []
    else [HexValue(s[0]) * 16 + HexValue(s[1])] + HexDecode(s[2..])
  }

  lemma {:induction false} HexRoundTrip(bytes: seq<byte>)
    ensures HexDecode(HexEncode(bytes)) == bytes
  {
    if |bytes| > 0 {
      var s := HexEncode(bytes);
      assert s[2..] == HexEncode(bytes[1..]);
      HexRoundTrip(bytes[1..]);
      var b := bytes[0];
      assert HexValue(s[0]) == b / 16 && HexValue(s[1]) == b % 16;
    }
  }

  /** Distinct digests have distinct hexadecimal renderings. */
  lemma HexEncodeInjective(a: seq<byte>, b: seq<byte>)
    ensures HexEncode(a) == HexEncode(b) <==> a == b
  {
    if HexEncode(a) == HexEncode(b) {
      HexRoundTrip(a);
      HexRoundTrip(b);
    }
  }

  /** `hex.EncodeToString(md5(s))`: the content version of a hashed string. */
  function Md5Hex(codecs: Codecs, s: string): (version: string)
    ensures |version| == 32
    ensures forall i :: 0 <= i < |version| ==> IsLowerHex(version[i])
  {
    HexEncode(codecs.md5(s))
  }

  /** Two versions are equal exactly when the digests of the hashed strings are. */
  lemma Md5HexEqualIffSameDigest(codecs: Codecs, s: string, t: string)
    ensures Md5Hex(codecs, s) == Md5Hex(codecs, t) <==> codecs.md5(s) == codecs.md5(t)
  {
    HexEncodeInjective(codecs.md5(s), codecs.md5(t));
  }
}
