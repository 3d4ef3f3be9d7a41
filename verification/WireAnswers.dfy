/** The bytes themselves: what is on the wire, and which records the decoders take (internal/protocol). */
module WireAnswers {
  import opened Basics
  import opened Protobuf
  import opened Wrapper
  import opened Frames
  import opened SimClient
  import opened KnownAnswers
  import Base64

  // ---------- Varints ----------

  // Seven bits of a number, the k-th group from the lowest.
  function Sevens(v: nat, k: nat): nat
    decreases k
  {
    if k == 0 then v % 128 else Sevens(v / 128, k - 1)
  }

  // A varint holds the groups from the lowest on, marked except for the last one, which is only
  // zero for the number zero.
  lemma {:induction false} VarintBytes(v: nat)
    ensures forall k | 0 <= k < |Varint(v)| :: Varint(v)[k] == Sevens(v, k) + if k + 1 < |Varint(v)| then 128 else 0
    ensures v > 0 ==> Varint(v)[|Varint(v)| - 1] > 0
    decreases v
  {
    if v >= 128 {
      VarintBytes(v / 128);
    }
  }

  // Whatever is read as a varint is that: marked bytes and one that is not, in seven-bit groups.
  lemma {:induction false} ReadsSevens(b: Bytes, k: nat)
    requires k <= 9 && ReadVarint(b, k).Some?
    ensures var (v, n) := ReadVarint(b, k).value;
      forall j | 0 <= j < n :: (b[j] >= 128 <==> j + 1 < n) && Sevens(v, j) == b[j] % 128
    decreases 9 - k
  {
    if k < 9 && b[0] >= 128 {
      ReadsSevens(b[1..], k + 1);
      var (w, m) := ReadVarint(b[1..], k + 1).value;
      forall j | 0 <= j < m + 1
        ensures (b[j] >= 128 <==> j + 1 < m + 1) && Sevens(b[0] - 128 + 128 * w, j) == b[j] % 128
      {
        if j > 0 {
          assert b[1..][j - 1] == b[j] && (b[0] - 128 + 128 * w) / 128 == w;
        }
      }
    }
  }

  // A varint can be read exactly when it ends within ten bytes and the tenth adds one bit at most.
  lemma {:induction false} ReadableExactly(b: Bytes, k: nat)
    requires k <= 9
    ensures ReadVarint(b, k).Some? <==> exists n :: 0 <= n < |b| && Ends(b, k, n)
    decreases 9 - k
  {
    if b != [] && k < 9 && b[0] >= 128 {
      var rest, next := b[1..], k + 1;
      ReadableExactly(rest, next);
      if n :| 0 <= n < |rest| && Ends(rest, next, n) {
        assert Ends(b, k, n + 1);
      }
      if n :| 0 <= n < |b| && Ends(b, k, n) {
        assert Ends(rest, next, n - 1);
      }
    } else if b != [] {
      assert ReadVarint(b, k).Some? <==> Ends(b, k, 0);
    }
  }

  // With k bytes before, byte n is the last of a varint.
  predicate Ends(b: Bytes, k: nat, n: nat)
    requires n < |b|
  {
    && k + n <= 9 && b[n] < 128 && (k + n == 9 ==> b[n] < 2)
    && forall j | 0 <= j < n :: b[j] >= 128
  }

  lemma VarintAnswers()
    ensures Varint(150) == [0x96, 0x01] && Varint(300) == [0xac, 0x02]
  {
  }

  // What the library reads as a varint the client reads as the same number.
  lemma {:induction false} SameNumber(b: Bytes, k: nat)
    requires k <= 9 && ReadVarint(b, k).Some?
    ensures var (v, n) := ReadVarint(b, k).value; v * Pow2(7 * k) < WORD && ReadWord(b, 7 * k) == Some((v * Pow2(7 * k), n))
    decreases 9 - k
  {
    var (v, n) := ReadVarint(b, k).value;
    RoomFits(k);
    Smaller(v, Room(k), Pow2(7 * k));
    PositivePow2(7 * k);
    if k < 9 && b[0] >= 128 {
      SameNumber(b[1..], k + 1);
      NextSeven(b, 7 * k, v, n, ReadVarint(b[1..], k + 1).value.0);
    } else {
      ShiftedFits(v, 7 * k);
    }
  }

  lemma NextSeven(b: Bytes, s: nat, v: nat, n: nat, w: nat)
    requires b != [] && b[0] >= 128 && n > 0 && v == b[0] - 128 + 128 * w && v * Pow2(s) < WORD
    requires ReadWord(b[1..], s + 7) == Some((w * Pow2(s + 7), n - 1))
    ensures ReadWord(b, s) == Some((v * Pow2(s), n))
  {
    var low := b[0] - 128;
    assert v / 128 == w && v % 128 == low;
    SplitShift(v, s);
    ShiftedFits(low, s);
    ReadMore(b, s, low, w * Pow2(s + 7), n - 1);
    WordExact(v * Pow2(s));
  }

  lemma {:induction false} RoomFits(k: nat)
    requires k <= 9
    ensures Room(k) * Pow2(7 * k) == WORD
    decreases k
  {
    if k == 0 {
      RoomIsWord();
    } else {
      RoomFits(k - 1);
      Pow2Add(7, 7 * (k - 1));
      Pow2Seven();
      Regrouped(Room(k), Pow2(7 * (k - 1)));
    }
  }

  lemma Regrouped(a: nat, p: nat)
    ensures 128 * a * p == a * (128 * p)
  {
  }

  // ---------- Records ----------

  // Other fields of text or bytes are passed over,
  lemma SkipsOthers(num: nat, v: Bytes, b: Bytes)
    requires 3 <= num <= 2147483647 && |v| < WORD
    ensures Parse(Field(num, v) + b) == Parse(b)
  {
    FieldRoundTrip(num, v);
    LastOneWins(Field(num, v), b);
  }

  // and so is every number, whatever its field;
  lemma SkipsNumbers(num: nat, v: nat, b: Bytes)
    requires 1 <= num <= 2147483647 && v < WORD
    ensures Parse(Tag(num, VARINT_TYPE) + Varint(v) + b) == Parse(b)
  {
    var a := Tag(num, VARINT_TYPE) + Varint(v);
    TagRoundTrip(num, VARINT_TYPE, Varint(v));
    VarintRoundTrip(v, []);
    assert a[|Tag(num, VARINT_TYPE)|..] == Varint(v) && Varint(v) + [] == Varint(v);
    assert ReadField(a) == Some((NOTHING, |a|));
    assert a[|a|..] == [];
    LastOneWins(a, b);
  }

  // but a record with any other wire type is malformed,
  lemma RefusesTypes(num: nat, typ: nat, b: Bytes)
    requires 1 <= num <= MAX_FIELD && typ < 8 && typ != BYTES_TYPE && typ != VARINT_TYPE
    ensures Parse(Tag(num, typ) + b).None?
  {
    TagRoundTrip(num, typ, b);
  }

  // as is one with a field number out of range,
  lemma RefusesNumbers(num: nat, typ: nat, b: Bytes)
    requires (num == 0 || num > 2147483647) && typ < 8 && num * 8 + typ < WORD
    ensures Parse(Tag(num, typ) + b).None?
  {
    VarintRoundTrip(num * 8 + typ, b);
    assert (num * 8 + typ) / 8 == num;
  }

  // and one whose text is cut short.
  lemma RefusesCutText(num: nat, length: nat, v: Bytes)
    requires 1 <= num <= MAX_FIELD && |v| < length < WORD
    ensures Parse(Tag(num, BYTES_TYPE) + (Varint(length) + v)).None?
  {
    var rest := Varint(length) + v;
    TagRoundTrip(num, BYTES_TYPE, rest);
    VarintRoundTrip(length, v);
    assert (Tag(num, BYTES_TYPE) + rest)[|Tag(num, BYTES_TYPE)|..] == rest;
    assert ReadBytes(rest).None?;
  }

  // A short field of a low number: one tag byte, one length byte, the text.
  lemma ShortField(num: nat, v: Bytes)
    requires 1 <= num < 16 && |v| < 128
    ensures Field(num, v) == [8 * num + 2, |v|] + v
  {
    assert Tag(num, BYTES_TYPE) == [8 * num + 2] && Varint(|v|) == [|v|];
    Joined([8 * num + 2], [|v|], v);
  }

  // ---------- Frames ----------

  function Ascii(text: string): Bytes
    requires forall k | 0 <= k < |text| :: text[k] as int < 128
  {
    seq(|text|, k requires 0 <= k < |text| => text[k] as int)
  }

  lemma Namespace()
    ensures NAMESPACE == Ascii(".lq.ActionPrototype")
  {
  }

  // The two errors of the decoder.
  lemma ErrorsExactly(f: Bytes)
    ensures Decode(f) == Bad(ShortFrame) <==> |f| < 2 || (|f| == 2 && f[0] in {2, 3})
    ensures Decode(f) == Bad(BadWrapper) <==> |f| >= 2 && (f[0] in {2, 3} ==> |f| > 2) && Parse(f[if f[0] in {2, 3} then 3 else 1..]).None?
  {
  }

  // The first byte tells a notify, a request and a response apart.
  lemma FirstByte(id: nat, name: Bytes, payload: Bytes)
    ensures Notify(name, payload)[0] == 1 && Request(id, name, payload)[0] == 2 && Response(id, payload)[0] == 3
  {
  }

  // A heartbeat with message id one.
  lemma Heartbeat(name: Bytes, data: Bytes)
    requires name == Ascii(".lq.Route.heartbeat") && data == [0x08, 0x00]
    ensures Request(1, name, data) == [2, 1, 0, 0x0a, 0x13] + name + [0x12, 2, 0x08, 0x00]
    ensures Decode(Request(1, name, data)) == Good(Frame(2, 1, name, [0x08, 0x00]))
  {
    ShortField(1, name);
    ShortField(2, data);
    RequestRoundTrip(1, name, data);
  }

  lemma HeaderBytes()
    ensures Header(3, 0x1234) == [3, 0x34, 0x12]
  {
  }

  // Action "A" at step three, payload 0a 03 61: the mixed bytes 92 74 0d are "knQN" in base 64.
  lemma ActionA(name: Bytes, payload: Bytes, text: Bytes)
    requires name == Ascii("A") && payload == [0x0a, 0x03, 0x61] && text == Ascii("knQN")
    ensures ActionPrototype(name, payload, 3) == [0x08, 3] + ([0x12, 1] + name) + ([0x1a, 4] + text)
  {
    MixedShort(payload);
    MixedText(text);
    ShortField(2, name);
    ShortField(3, text);
    StepBytes();
  }

  lemma StepBytes()
    ensures Tag(1, VARINT_TYPE) + Varint(3) == [0x08, 3]
  {
  }

  lemma MixedText(text: Bytes)
    requires text == Ascii("knQN")
    ensures Base64.Encode([0x92, 0x74, 0x0d]) == text
  {
    OneGroup(0x92, 0x74, 0x0d);
  }

  // ---------- Base 64 ----------

  // Capitals, small letters, digits, plus and slash.
  lemma Alphabet(v: nat)
    requires v < 64
    ensures v < 26 ==> Base64.Digit(v) == 'A' as int + v
    ensures 26 <= v < 52 ==> Base64.Digit(v) == 'a' as int + (v - 26)
    ensures 52 <= v < 62 ==> Base64.Digit(v) == '0' as int + (v - 52)
    ensures v == 62 ==> Base64.Digit(v) == '+' as int
    ensures v == 63 ==> Base64.Digit(v) == '/' as int
  {
  }

  lemma OneGroup(a: Byte, b: Byte, c: Byte)
    ensures Base64.Encode([a, b, c]) == Base64.Four(a, b, c)
  {
    assert [a, b, c][3..] == [];
    assert Base64.Encode([]) == [];
  }

  // A group spells out a number of 24 bits in digits of six.
  lemma GroupDigits(a: Byte, b: Byte, c: Byte, w: nat, x: nat, y: nat, z: nat)
    requires w < 64 && x < 64 && y < 64 && z < 64 && 65536 * a + 256 * b + c == 262144 * w + 4096 * x + 64 * y + z
    ensures Base64.Four(a, b, c) == [Base64.Digit(w), Base64.Digit(x), Base64.Digit(y), Base64.Digit(z)]
  {
    Base64.Regroup(a, b, c);
    SameDigits(a / 4, a % 4 * 16 + b / 16, b % 16 * 4 + c / 64, c % 64, w, x, y, z);
  }

  lemma SameDigits(p: nat, q: nat, r: nat, s: nat, w: nat, x: nat, y: nat, z: nat)
    requires q < 64 && r < 64 && s < 64 && x < 64 && y < 64 && z < 64
    requires 262144 * p + 4096 * q + 64 * r + s == 262144 * w + 4096 * x + 64 * y + z
    ensures (p, q, r, s) == (w, x, y, z)
  {
  }

  // Groups of three bytes are encoded one by one.
  lemma {:induction false} EncodesInGroups(b: Bytes, tail: Bytes)
    requires |b| % 3 == 0
    ensures Base64.Encode(b + tail) == Base64.Encode(b) + Base64.Encode(tail)
    decreases |b|
  {
    if b == [] {
      assert b + tail == tail;
    } else {
      EncodesInGroups(b[3..], tail);
      assert (b + tail)[3..] == b[3..] + tail;
      Joined(Base64.Four(b[0], b[1], b[2]), Base64.Encode(b[3..]), Base64.Encode(tail));
    }
  }

  // One or two bytes left over: as with zeros behind them, and the digits of those replaced.
  lemma PadsRest(a: Byte, b: Byte)
    ensures Base64.Encode([a]) == Base64.Four(a, 0, 0)[..2] + [61, 61]
    ensures Base64.Encode([a, b]) == Base64.Four(a, b, 0)[..3] + [61]
  {
  }

  // Test vectors of section 10 of RFC 4648.
  lemma Vectors()
    ensures Base64.Encode([102]) == [90, 103, 61, 61]
    ensures Base64.Encode([102, 111]) == [90, 109, 56, 61]
    ensures Base64.Encode([102, 111, 111]) == [90, 109, 57, 118]
  {
    OneGroup(102, 111, 111);
  }

  // ---------- The client ----------

  // Where a text starts and ends, and when the slice goes out of range: a length whose end does
  // not fit an int panics, one that only passes the end of the record is refused.
  lemma SpanExactly(b: Bytes, j: nat, l: nat, n: nat)
    requires j <= |b| < INT && ReadWord(b[j..]) == Some((l, n))
    ensures ReadSpan(b, j) == if j + n + l >= INT then BadSlice else if j + n + l > |b| then NoSpan else Span(j + n, j + n + l)
  {
    SignedIs(l);
    SignedIs(j + n + Signed(l));
  }

  lemma SignedIs(v: int)
    requires 0 <= v + INT && v < WORD
    ensures Signed(v) == if v < INT then v else v - WORD
  {
  }

  // Fields other than one to three are read as a number and forgotten, whatever their wire type.
  lemma ClientSkips(b: Bytes, i: nat, tag: nat, v: nat, post: Bytes, p: Parsed)
    requires i < |b| < INT && tag < WORD && v < WORD && tag / 8 !in {1, 2, 3}
    requires b[i..] == Varint(tag) + (Varint(v) + post)
    ensures |post| < |b| && ParseFrom(b, i, p) == ParseFrom(b, |b| - |post|, p)
  {
    var n := WordAt(b, i, tag, Varint(v) + post);
    var m := WordAt(b, i + n, v, post);
    var k := i + n + m;
    assert |b[k..]| == |post| && k <= |b|;
    assert FieldAt(b, i, p) == To(k, p);
    Reads(b, i, k, p, p);
  }
}
