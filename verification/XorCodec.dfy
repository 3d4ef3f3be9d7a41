/** The position-dependent XOR over action payloads (internal/protocol/xor.go). */
module XorCodec {
  import opened Basics
  import opened Protobuf

  // The lowest bit of the exclusive or.
  function Bit(a: nat, b: nat): nat
  {
    if a % 2 == b % 2 then 0 else 1
  }

  // Bitwise exclusive or of two non-negative integers of any width.
  function Xor(a: nat, b: nat): nat
    decreases a + b
  {
    if a == 0 && b == 0 then 0 else Bit(a, b) + 2 * Xor(a / 2, b / 2)
  }

  lemma XorBits(a: nat, b: nat)
    ensures Xor(a, b) / 2 == Xor(a / 2, b / 2) && Xor(a, b) % 2 == Bit(a, b)
  {
  }

  lemma {:induction false} XorTwice(a: nat, b: nat)
    ensures Xor(Xor(a, b), b) == a
    decreases a + b
  {
    if a > 0 || b > 0 {
      XorTwice(a / 2, b / 2);
      XorBits(a, b);
      XorBits(Xor(a, b), b);
      assert Bit(Xor(a, b), b) == a % 2;
    }
  }

  // Bit k of a number.
  function BitAt(x: nat, k: nat): nat
    decreases k
  {
    if k == 0 then x % 2 else BitAt(x / 2, k - 1)
  }

  // Exclusive or, bit by bit: set exactly where one of the two is.
  lemma {:induction false} XorAt(a: nat, b: nat, k: nat)
    ensures BitAt(Xor(a, b), k) == (BitAt(a, k) + BitAt(b, k)) % 2
    decreases k
  {
    XorBits(a, b);
    if k > 0 {
      XorAt(a / 2, b / 2, k - 1);
    }
  }

  lemma {:induction false} XorBound(a: nat, b: nat, n: nat)
    requires a < Pow2(n) && b < Pow2(n)
    ensures Xor(a, b) < Pow2(n)
    decreases n
  {
    if n > 0 {
      XorBound(a / 2, b / 2, n - 1);
    }
  }

  lemma XorByte(a: Byte, b: Byte)
    ensures 0 <= Xor(a, b) < 256
  {
    assert Pow2(8) == 256 by {
      assert Pow2(4) == 16;
      assert Pow2(8) == 16 * Pow2(4);
    }
    XorBound(a, b, 8);
  }

  const KEYS: seq<nat> := [0x84, 0x5e, 0x4e, 0x42, 0x39, 0xa2, 0x1f, 0x60, 0x1c]

  // The key byte at position i of a payload of the given length.
  function KeyAt(length: nat, i: nat): Byte
  {
    (Xor(23, length) + 5 * i + KEYS[i % 9]) % 256
  }

  lemma AddedByte(x: int, d: int)
    ensures (x % 256 + d) % 256 == (x + d) % 256
  {
    assert x == x % 256 + 256 * (x / 256);
  }

  // Nine positions on, the key is 45 further.
  lemma KeyRepeats(length: nat, i: nat)
    ensures KeyAt(length, i + 9) == (KeyAt(length, i) + 45) % 256
  {
    assert (i + 9) % 9 == i % 9;
    AddedByte(Xor(23, length) + 5 * i + KEYS[i % 9], 45);
  }

  // Between lengths the key moves as much as 23 xor the length does, at every position.
  lemma KeyMoves(length: nat, other: nat, i: nat)
    ensures KeyAt(length, i) == (KeyAt(other, i) + (Xor(23, length) - Xor(23, other))) % 256
  {
    AddedByte(Xor(23, other) + 5 * i + KEYS[i % 9], Xor(23, length) - Xor(23, other));
  }

  function Mixed(length: nat, i: nat, b: Byte): Byte
  {
    XorByte(b, KeyAt(length, i));
    Xor(b, KeyAt(length, i))
  }

  function Codec(data: Bytes): (r: Bytes)
    ensures |r| == |data|
  {
    seq(|data|, i requires 0 <= i < |data| => Mixed(|data|, i, data[i]))
  }

  // A payload byte changes in the bits that are set in the key.
  lemma CodecByBits(data: Bytes, i: nat, k: nat)
    requires i < |data|
    ensures BitAt(Codec(data)[i], k) == (BitAt(data[i], k) + BitAt(KeyAt(|data|, i), k)) % 2
  {
    XorAt(data[i], KeyAt(|data|, i), k);
  }

  // The codec undoes itself: the key depends on length and position only.
  lemma CodecTwice(data: Bytes)
    ensures Codec(Codec(data)) == data
  {
    forall i | 0 <= i < |data|
      ensures Codec(Codec(data))[i] == data[i]
    {
      XorTwice(data[i], KeyAt(|data|, i));
    }
  }

  method XORCodec(data: Bytes) returns (out: Bytes)
    ensures out == Codec(data)
  {
    var base := Xor(23, |data|);
    out := [];
    for i := 0 to |data|
      invariant out == Codec(data)[..i]
    {
      var k: Byte := (base + 5 * i + KEYS[i % 9]) % 256;
      XorByte(data[i], k);
      out := out + [Xor(data[i], k)];
    }
  }

  method XORCodecInPlace(data: array<Byte>)
    modifies data
    ensures data[..] == Codec(old(data[..]))
  {
    ghost var before := data[..];
    var base := Xor(23, data.Length);
    for i := 0 to data.Length
      invariant forall k | 0 <= k < i :: data[k] == Codec(before)[k]
      invariant forall k | i <= k < data.Length :: data[k] == before[k]
    {
      var k: Byte := (base + 5 * i + KEYS[i % 9]) % 256;
      XorByte(data[i], k);
      data[i] := Xor(data[i], k);
    }
  }
}
