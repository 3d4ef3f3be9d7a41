/**
  Fixed values that the program is expected to give: those of the repository's own unit tests, and
  those of the standards it follows.
 */
module KnownAnswers {
  import opened Basics
  import opened Tiles
  import opened Score
  import opened Dora
  import opened Protobuf
  import opened XorCodec

  // ---------- Payments ----------

  lemma BaseValues()
    ensures BasePoints(1, 30) == 240 && BasePoints(2, 30) == 480 && BasePoints(3, 30) == 960
    ensures BasePoints(4, 30) == 1920 && BasePoints(4, 40) == BasePoints(4, 50) == 2000
  {
    SmallPowers();
  }

  lemma Payments()
    ensures RonPayment(1, 30, false) == 1000 && RonPayment(1, 30, true) == 1500 && RonPayment(3, 40, false) == 5200
    ensures RonPayment(5, 30, false) == 8000 && RonPayment(5, 30, true) == 12000
    ensures TsumoPayment(1, 30, false) == (500, 300) && TsumoPayment(1, 30, true) == (0, 500)
    ensures TsumoPayment(5, 30, false) == (4000, 2000) && TsumoPayment(5, 30, true) == (0, 4000)
  {
    SmallPowers();
  }

  lemma LimitPayments()
    ensures LimitPayment(5) == (8000, 12000) && LimitPayment(6) == (12000, 18000) && LimitPayment(8) == (16000, 24000)
    ensures LimitPayment(11) == (24000, 36000) && LimitPayment(13) == (32000, 48000)
  {
  }

  // ---------- Tiles ----------

  lemma NextTiles()
    ensures Next("1z") == "2z" && Next("4z") == "5z" && Next("7z") == "1z"
    ensures Next("1m") == "2m" && Next("9m") == "1m" && Next("5p") == "6p" && Next("9s") == "1s"
  {
  }

  lemma RedFives()
    ensures Rank("0m") == 5 && Normal("0m") == "5m" && IsRed("0p") && !IsRed("5p")
  {
  }

  function SuitPlace(suit: char): nat
  {
    if suit == 'm' then 0 else if suit == 'p' then 1 else if suit == 's' then 2 else 3
  }

  // Slots run through the suits, and within a suit through the ranks.
  lemma SlotOf(t: Tile)
    requires Canonical(t)
    ensures Index(t) == 9 * SuitPlace(Suit(t)) + Rank(t) - 1
  {
  }

  // Tiles are sorted by suit, then by rank, a red five before the plain one.
  lemma SortedBy(a: Tile, b: Tile)
    requires Canonical(a) && Canonical(b)
    ensures Less(a, b) <==>
      || SuitPlace(Suit(a)) < SuitPlace(Suit(b))
      || (Suit(a) == Suit(b) && (Rank(a) < Rank(b) || (Rank(a) == Rank(b) && IsRed(a) && !IsRed(b))))
  {
    SlotOf(a);
    SlotOf(b);
  }

  // 2m 0m 5p 7s 9s 1z is in order.
  lemma InOrder()
    ensures Less("2m", "0m") && Less("0m", "5p") && Less("5p", "7s") && Less("7s", "9s") && Less("9s", "1z")
    ensures Less("0m", "5m") && !Less("5m", "0m")
  {
  }

  // ---------- The mixed bytes ----------

  // Low digits and high digits apart.
  lemma {:induction false} XorJoins(k: nat, a: nat, b: nat, c: nat, d: nat)
    requires b < Pow2(k) && d < Pow2(k)
    ensures Xor(Pow2(k) * a + b, Pow2(k) * c + d) == Pow2(k) * Xor(a, c) + Xor(b, d)
    decreases k
  {
    if k > 0 {
      var p := Pow2(k - 1);
      XorJoins(k - 1, a, b / 2, c, d / 2);
      XorDoubles(p, a, b, c, d);
      assert Pow2(k) == 2 * p;
    }
  }

  lemma XorDoubles(p: nat, a: nat, b: nat, c: nat, d: nat)
    requires Xor(p * a + b / 2, p * c + d / 2) == p * Xor(a, c) + Xor(b / 2, d / 2)
    ensures Xor(2 * p * a + b, 2 * p * c + d) == 2 * p * Xor(a, c) + Xor(b, d)
  {
    Halved(p, a, b);
    Halved(p, c, d);
    XorBits(2 * p * a + b, 2 * p * c + d);
    XorBits(b, d);
    Doubled(p, Xor(a, c));
  }

  lemma Halved(p: nat, a: nat, b: nat)
    ensures 0 <= 2 * p * a + b && (2 * p * a + b) / 2 == p * a + b / 2 && (2 * p * a + b) % 2 == b % 2
  {
    Doubled(p, a);
  }

  lemma Doubled(p: nat, x: nat)
    ensures 2 * p * x == 2 * (p * x) >= 0
  {
  }

  lemma XorDigits(a: nat, b: nat, c: nat, d: nat)
    requires b < 16 && d < 16
    ensures Xor(16 * a + b, 16 * c + d) == 16 * Xor(a, c) + Xor(b, d)
  {
    assert Pow2(4) == 16;
    XorJoins(4, a, b, c, d);
  }

  lemma ShortKeys()
    ensures KeyAt(3, 0) == 0x98 && KeyAt(3, 1) == 0x77 && KeyAt(3, 2) == 0x6c
  {
    assert Xor(23, 3) == 20;
  }

  lemma ShortBytes()
    ensures Xor(0x0a, 0x98) == 0x92 && Xor(0x03, 0x77) == 0x74
  {
    XorDigits(0x0, 0xa, 0x9, 0x8);
    XorDigits(0x0, 0x3, 0x7, 0x7);
  }

  lemma ShortByte()
    ensures Xor(0x61, 0x6c) == 0x0d
  {

    XorDigits(0x0, 0xa, 0x9, 0x8);
    XorDigits(0x0, 0x3, 0x7, 0x7);
    XorDigits(0x6, 0x1, 0x6, 0xc);
  }

  lemma MixedShort(data: Bytes)
    requires data == [0x0a, 0x03, 0x61]
    ensures Codec(data) == [0x92, 0x74, 0x0d]
  {
    ShortKeys();
    ShortBytes();
    ShortByte();
  }

  // All nine key bytes.
  lemma NineKeys(n: nat)
    requires n == 9
    ensures KeyAt(n, 0) == 0xa2 && KeyAt(n, 1) == 0x81 && KeyAt(n, 2) == 0x76 && KeyAt(n, 3) == 0x6f && KeyAt(n, 4) == 0x6b
    ensures KeyAt(n, 5) == 0xd9 && KeyAt(n, 6) == 0x5b && KeyAt(n, 7) == 0xa1 && KeyAt(n, 8) == 0x62
  {
    assert Xor(23, 9) == 30;
  }

  lemma FirstBytes()
    ensures Xor(0x0a, 0xa2) == 0xa8 && Xor(0x01, 0x81) == 0x80 && Xor(0x31, 0x76) == 0x47
  {
    XorDigits(0x0, 0xa, 0xa, 0x2);
    XorDigits(0x0, 0x1, 0x8, 0x1);
    XorDigits(0x3, 0x1, 0x7, 0x6);
  }

  lemma MiddleBytes()
    ensures Xor(0x12, 0x6f) == 0x7d && Xor(0x01, 0x6b) == 0x6a && Xor(0x37, 0xd9) == 0xee
  {
    XorDigits(0x1, 0x2, 0x6, 0xf);
    XorDigits(0x0, 0x1, 0x6, 0xb);
    XorDigits(0x3, 0x7, 0xd, 0x9);
  }

  lemma LastBytes()
    ensures Xor(0x18, 0x5b) == 0x43 && Xor(0x01, 0xa1) == 0xa0
  {
    XorDigits(0x1, 0x8, 0x5, 0xb);
    XorDigits(0x0, 0x1, 0xa, 0x1);
  }

  lemma LastByte()
    ensures Xor(0x01, 0x62) == 0x63
  {
    XorDigits(0x0, 0x1, 0x6, 0x2);
  }

  lemma MixedNine(data: Bytes)
    requires data == [0x0a, 0x01, 0x31, 0x12, 0x01, 0x37, 0x18, 0x01, 0x01]
    ensures Codec(data) == [0xa8, 0x80, 0x47, 0x7d, 0x6a, 0xee, 0x43, 0xa0, 0x63]
  {
    NineKeys(|data|);
    FirstBytes();
    MiddleBytes();
    LastBytes();
    LastByte();
  }
}
