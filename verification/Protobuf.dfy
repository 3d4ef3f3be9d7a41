/**
 * The Protocol Buffers encoding: base 128 varints, tags, and length-delimited values
 * (Protocol Buffers encoding specification, sections "Base 128 Varints" and "Message Structure"),
 * with the limits the Go decoder enforces.
 */
module Protobuf {
  import opened Basics

  type Byte = b: int | 0 <= b < 256

  type Bytes = seq<Byte>

  // One past the largest unsigned 64-bit value.
  const WORD: nat := 0x1_0000_0000_0000_0000
  // One past the largest int; no slice is longer.
  const INT: nat := 0x8000_0000_0000_0000
  const MAX_FIELD: nat := 0x7fff_ffff

  const VARINT_TYPE: nat := 0
  const BYTES_TYPE: nat := 2

  // Seven bits a byte, low bits first, the high bit set on all but the last.
  function Varint(v: nat): (b: Bytes)
    ensures |b| >= 1
  {
    if v < 128 then [v] else [v % 128 + 128] + Varint(v / 128)
  }

  // One past the largest value k bytes into a varint: the tenth byte holds a single bit.
  function Room(k: nat): (r: nat)
    requires k <= 9
    ensures r >= 2 && (k < 9 ==> r >= 128)
    decreases 9 - k
  {
    if k == 9 then 2 else 128 * Room(k + 1)
  }

  // (value, bytes read) with k bytes already read; None on truncation or overflow.
  function ReadVarint(b: Bytes, k: nat := 0): (r: Option<(nat, nat)>)
    requires k <= 9
    ensures r.Some? ==> 1 <= r.value.1 <= |b| && r.value.0 < Room(k)
    decreases 9 - k
  {
    if b == [] then None
    else if k == 9 then (if b[0] < 2 then Some((b[0], 1)) else None)
    else if b[0] < 128 then Some((b[0], 1))
    else
      var rest := ReadVarint(b[1..], k + 1);
      if rest.None? then None else Some((b[0] - 128 + 128 * rest.value.0, rest.value.1 + 1))
  }

  lemma {:induction false} ReadBack(v: nat, k: nat, tail: Bytes)
    requires k <= 9 && v < Room(k)
    ensures ReadVarint(Varint(v) + tail, k) == Some((v, |Varint(v)|))
    decreases 9 - k
  {
    if v >= 128 {
      ReadBack(v / 128, k + 1, tail);
      assert (Varint(v) + tail)[1..] == Varint(v / 128) + tail;
    }
  }

  lemma RoomIsWord()
    ensures Room(0) == WORD
  {
    assert Room(9) == 2;
    assert Room(6) == 128 * 128 * 128 * 2;
    assert Room(3) == 128 * 128 * 128 * Room(6);
    assert Room(0) == 128 * 128 * 128 * Room(3);
  }

  // Reading a varint that is followed by anything gives the value and stops where it ends.
  lemma VarintRoundTrip(v: nat, tail: Bytes)
    requires v < WORD
    ensures ReadVarint(Varint(v) + tail) == Some((v, |Varint(v)|))
  {
    RoomIsWord();
    ReadBack(v, 0, tail);
  }

  // What follows a value never changes how it is read.
  lemma {:induction false} ReadVarintAppend(b: Bytes, k: nat, tail: Bytes)
    requires k <= 9 && ReadVarint(b, k).Some?
    ensures ReadVarint(b + tail, k) == ReadVarint(b, k)
    decreases 9 - k
  {
    if k < 9 && b[0] >= 128 {
      assert (b + tail)[1..] == b[1..] + tail;
      ReadVarintAppend(b[1..], k + 1, tail);
    }
  }

  // ---------- Tags and values ----------

  function Tag(num: nat, typ: nat): Bytes
    requires typ < 8
  {
    Varint(num * 8 + typ)
  }

  // (field number, wire type, bytes read); field numbers run from 1 to 2^31 - 1.
  function ReadTag(b: Bytes): (r: Option<(nat, nat, nat)>)
    ensures r.Some? ==> 1 <= r.value.2 <= |b|
  {
    var v := ReadVarint(b);
    if v.None? || !(1 <= v.value.0 / 8 <= MAX_FIELD) then None
    else Some((v.value.0 / 8, v.value.0 % 8, v.value.1))
  }

  function Delimited(v: Bytes): Bytes
  {
    Varint(|v|) + v
  }

  // (value, bytes read) of a length-delimited value.
  function ReadBytes(b: Bytes): (r: Option<(Bytes, nat)>)
    ensures r.Some? ==> 1 <= r.value.1 <= |b|
  {
    var l := ReadVarint(b);
    if l.None? || l.value.0 > |b| - l.value.1 then None
    else Some((b[l.value.1..l.value.1 + l.value.0], l.value.1 + l.value.0))
  }

  lemma TagRoundTrip(num: nat, typ: nat, tail: Bytes)
    requires 1 <= num <= MAX_FIELD && typ < 8
    ensures ReadTag(Tag(num, typ) + tail) == Some((num, typ, |Tag(num, typ)|))
  {
    VarintRoundTrip(num * 8 + typ, tail);
    assert (num * 8 + typ) / 8 == num && (num * 8 + typ) % 8 == typ;
  }

  lemma BytesRoundTrip(v: Bytes, tail: Bytes)
    requires |v| < WORD
    ensures ReadBytes(Delimited(v) + tail) == Some((v, |Delimited(v)|))
  {
    var b := Delimited(v) + tail;
    VarintRoundTrip(|v|, v + tail);
    assert b == Varint(|v|) + (v + tail);
    assert b[|Varint(|v|)|..|Varint(|v|)| + |v|] == v;
  }

  lemma ReadTagAppend(b: Bytes, tail: Bytes)
    requires ReadTag(b).Some?
    ensures ReadTag(b + tail) == ReadTag(b)
  {
    ReadVarintAppend(b, 0, tail);
  }

  lemma ReadBytesAppend(b: Bytes, tail: Bytes)
    requires ReadBytes(b).Some?
    ensures ReadBytes(b + tail) == ReadBytes(b)
  {
    ReadVarintAppend(b, 0, tail);
    var l := ReadVarint(b).value;
    assert (b + tail)[l.1..l.1 + l.0] == b[l.1..l.1 + l.0];
  }
}
