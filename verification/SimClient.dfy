/** The client's own decoder of action notifies (cmd/simclient/main.go). */
module SimClient {
  import opened Basics
  import opened Protobuf
  import opened Wrapper
  import opened XorCodec
  import opened Frames
  import Base64

  // ---------- Varints, without the library's limits ----------

  // The low seven bits of a byte shifted into an unsigned 64-bit word.
  function Shifted(low: nat, s: nat): nat
  {
    if s >= 64 then 0 else low * Pow2(s) % WORD
  }

  // (value, bytes read) with the next byte shifted by s; reads on as long as the high bit is set.
  function ReadWord(b: Bytes, s: nat := 0): (r: Option<(nat, nat)>)
    ensures r.Some? ==> r.value.0 < WORD && 1 <= r.value.1 <= |b|
  {
    if b == [] then None
    else if b[0] < 128 then Some((Shifted(b[0] % 128, s), 1))
    else
      var rest := ReadWord(b[1..], s + 7);
      if rest.None? then None
      else Some(((Shifted(b[0] % 128, s) + rest.value.0) % WORD, rest.value.1 + 1))
  }

  // A 64-bit word read as a signed int.
  function Signed(v: int): int
  {
    var w := v % WORD;
    if w >= INT then w - WORD else w
  }

  // What is still to be read, added to a value and a count.
  function OnTop(v: nat, n: nat, rest: Option<(nat, nat)>): Option<(nat, nat)>
  {
    if rest.None? then None else Some(((v + rest.value.0) % WORD, n + rest.value.1))
  }

  lemma OnTopStep(v: nat, n: nat, b: Bytes, s: nat, next: nat)
    requires b != [] && next == v + Shifted(b[0] % 128, s) < WORD
    ensures OnTop(v, n, ReadWord(b, s)) == if b[0] < 128 then Some((next, n + 1)) else OnTop(next, n + 1, ReadWord(b[1..], s + 7))
  {
    WordExact(next);
    if b[0] >= 128 && ReadWord(b[1..], s + 7).Some? {
      WordSum(v, Shifted(b[0] % 128, s), ReadWord(b[1..], s + 7).value.0);
    }
  }

  // Bitwise or of two non-negative integers of any width.
  function Or(a: nat, b: nat): nat
    decreases a + b
  {
    if a == 0 && b == 0 then 0 else (if a % 2 == 1 || b % 2 == 1 then 1 else 0) + 2 * Or(a / 2, b / 2)
  }

  lemma {:induction false} OrNothing(a: nat, b: nat)
    requires a == 0 || b == 0
    ensures Or(a, b) == a + b
    decreases a + b
  {
    if a + b > 0 {
      OrNothing(a / 2, b / 2);
    }
  }

  // Below bit n and from bit n on nothing is shared: or is a sum.
  lemma {:induction false} OrDisjoint(a: nat, m: nat, n: nat)
    requires a < Pow2(n)
    ensures Or(a, m * Pow2(n)) == a + m * Pow2(n)
  {
    if n == 0 {
      OrNothing(a, m);
    } else {
      var half := m * Pow2(n - 1);
      assert m * Pow2(n) == 2 * half;
      OrDisjoint(a / 2, m, n - 1);
      OrHalves(a, half);
    }
  }

  lemma OrHalves(a: nat, half: nat)
    requires Or(a / 2, half) == a / 2 + half
    ensures Or(a, 2 * half) == a + 2 * half
  {
    assert 2 * half / 2 == half && 2 * half % 2 == 0;
    assert a == 2 * (a / 2) + a % 2;
  }

  lemma ScaledMod(low: nat, p: nat, q: nat)
    requires p > 0 && q > 0
    ensures low * p % (q * p) == low % q * p && low % q * p + p <= q * p
  {
    var k, r := low / q, low % q;
    Distributes(low, k, q, r, p);
    Smaller(r, q, p);
    Remainder(k, q * p, r * p);
  }

  lemma Distributes(low: nat, k: nat, q: nat, r: nat, p: nat)
    requires low == k * q + r
    ensures low * p == k * (q * p) + r * p
  {
    assert low * p == (k * q) * p + r * p;
    assert (k * q) * p == k * (q * p);
  }

  lemma Smaller(r: nat, q: nat, p: nat)
    requires r < q
    ensures r * p + p <= q * p
  {
    assert (r + 1) * p <= q * p;
  }

  lemma Remainder(k: nat, n: nat, r: nat)
    requires r < n
    ensures (k * n + r) % n == r
  {
    var x := k * n + r;
    var q := x / n;
    assert x == q * n + x % n;
    if q < k { Smaller(q, k, n); }
    if q > k { Smaller(k, q, n); }
  }

  lemma PositivePow2(n: nat)
    ensures Pow2(n) > 0
  {
  }

  lemma ScaledByte(low: nat, p: nat, q: nat)
    requires p > 0 && q > 0 && q * p == WORD
    ensures low * p % WORD == low % q * p && low % q * p + p <= WORD
  {
    ScaledMod(low, p, q);
  }

  lemma ModBelow(low: nat, q: nat)
    requires q > 0
    ensures low % q <= low
  {
  }

  // A shifted byte is a multiple of its place value that leaves room below the word's end.
  lemma ShiftedIs(low: nat, s: nat, q: nat) returns (m: nat)
    requires low < 128 && s < 64 && q == Pow2(64 - s)
    ensures m < 128 && Shifted(low, s) == m * Pow2(s) && m * Pow2(s) + Pow2(s) <= WORD
  {
    PositivePow2(64 - s);
    PositivePow2(s);
    m := low % q;
    ModBelow(low, q);
    WordSplits(s);
    ScaledByte(low, Pow2(s), q);
  }

  lemma WordSplits(s: nat)
    requires s < 64
    ensures Pow2(64 - s) * Pow2(s) == WORD
  {
    Pow2Word();
    Pow2Add(64 - s, s);
  }

  // No two bytes of a varint share a bit, so or-ing the shifted bits adds them.
  lemma OrAdds(v: nat, low: nat, s: nat)
    requires v < WORD && low < 128 && (s < 64 ==> v < Pow2(s))
    ensures Or(v, Shifted(low, s)) == v + Shifted(low, s) < WORD
    ensures s + 7 < 64 ==> v + Shifted(low, s) < Pow2(s + 7)
  {
    if s >= 64 {
      OrNothing(v, 0);
    } else {
      var m := ShiftedIs(low, s, Pow2(64 - s));
      OrDisjoint(v, m, s);
      SevenMoreBits(v, m, s);
    }
  }

  lemma SevenMoreBits(v: nat, m: nat, s: nat)
    requires v < Pow2(s) && m < 128
    ensures v + m * Pow2(s) < Pow2(s + 7)
  {
    Pow2Add(s, 7);
    Smaller(m, 128, Pow2(s));
    Pow2Seven();
  }

  lemma Pow2Seven()
    ensures Pow2(7) == 128
  {
    assert Pow2(3) == 8;
    assert Pow2(7) == 16 * Pow2(3);
  }

  method OrShifted(v: nat, c: Byte, s: nat) returns (out: nat)
    requires v < WORD && (s < 64 ==> v < Pow2(s))
    ensures out == v + Shifted(c % 128, s) < WORD && (s + 7 < 64 ==> out < Pow2(s + 7))
  {
    OrAdds(v, c % 128, s);
    out := Or(v, Shifted(c % 128, s));
  }

  // rdTag and rdVar are one loop; n is zero when the bytes run out.
  method ReadWordLoop(b: Bytes) returns (v: nat, n: nat)
    ensures if ReadWord(b).None? then n == 0 else (v, n) == ReadWord(b).value
  {
    v, n := 0, 0;
    var s := 0;
    for i := 0 to |b|
      invariant s == 7 * i && v < WORD && (s < 64 ==> v < Pow2(s))
      invariant ReadWord(b) == OnTop(v, i, ReadWord(b[i..], s))
    {
      var next := OrShifted(v, b[i], s);
      OnTopStep(v, i, b[i..], s, next);
      assert b[i..][1..] == b[i + 1..];
      v := next;
      if b[i] < 128 { return v, i + 1; }
      s := s + 7;
    }
    return 0, 0;
  }

  lemma WordSum(a: nat, b: nat, c: nat)
    ensures (a + (b + c) % WORD) % WORD == ((a + b) % WORD + c) % WORD
  {
  }

  // ---------- The record ----------

  datatype Parsed = Parsed(name: Bytes, b64: Bytes, step: nat)

  // Bad: the parser gives up; Panic: a slice expression is out of range.
  datatype Outcome = Got(value: Parsed) | BadRecord | Panic

  const UINT32: nat := 0x1_0000_0000

  // A length-delimited value at position i: its end, with int arithmetic that can wrap.
  datatype Span = Span(lo: nat, hi: nat) | NoSpan | BadSlice

  function ReadSpan(b: Bytes, i: nat): (r: Span)
    requires i <= |b| < INT
    ensures r.Span? ==> i < r.lo <= r.hi <= |b|
  {
    var l := ReadWord(b[i..]);
    if l.None? then NoSpan
    else
      var lo := i + l.value.1;
      var hi := Signed(lo + Signed(l.value.0));
      if hi > |b| then NoSpan else if hi < lo then BadSlice else Span(lo, hi)
  }

  // One field read: on to position i with p, or the outcome of a record that cannot be read on.
  datatype Advance = To(i: nat, p: Parsed) | Fails(outcome: Outcome)

  function FieldAt(b: Bytes, i: nat, p: Parsed): (r: Advance)
    requires i < |b| < INT
    ensures r.To? ==> i < r.i <= |b|
  {
    var tag := ReadWord(b[i..]);
    if tag.None? then Fails(BadRecord)
    else
      var j := i + tag.value.1;
      var field := tag.value.0 / 8;
      if field == 2 || field == 3 then
        match ReadSpan(b, j)
        case NoSpan => Fails(BadRecord)
        case BadSlice => Fails(Panic)
        case Span(lo, hi) => To(hi, if field == 2 then p.(name := b[lo..hi]) else p.(b64 := b[lo..hi]))
      else
        var v := ReadWord(b[j..]);
        if v.None? then Fails(BadRecord)
        else To(j + v.value.1, if field == 1 then p.(step := Signed(v.value.0) % UINT32) else p)
  }

  // Parsing from position i with the fields seen so far.
  function ParseFrom(b: Bytes, i: nat, p: Parsed): Outcome
    requires i <= |b| < INT
    decreases |b| - i
  {
    if i == |b| then Got(p)
    else
      match FieldAt(b, i, p)
      case Fails(outcome) => outcome
      case To(j, q) => ParseFrom(b, j, q)
  }

  const EMPTY := Parsed([], [], 0)

  method TakeOne(b: Bytes, i: nat, p: Parsed) returns (r: Advance)
    requires i < |b| < INT
    ensures r == FieldAt(b, i, p)
  {
    var tag, n := ReadWordLoop(b[i..]);
    if n <= 0 { return Fails(BadRecord); }
    var j := i + n;
    var field := tag / 8;
    var word, m := ReadWordLoop(b[j..]);
    if m <= 0 { return Fails(BadRecord); }
    if field == 2 || field == 3 {
      var hi := Signed(j + m + Signed(word));
      if hi > |b| { return Fails(BadRecord); }
      if hi < j + m { return Fails(Panic); }
      if field == 2 { return To(hi, p.(name := b[j + m..hi])); }
      return To(hi, p.(b64 := b[j + m..hi]));
    }
    if field == 1 { return To(j + m, p.(step := Signed(word) % UINT32)); }
    return To(j + m, p);
  }

  method ParseActionProto(b: Bytes) returns (r: Outcome)
    requires |b| < INT
    ensures r == ParseFrom(b, 0, EMPTY)
  {
    var p, i := EMPTY, 0;
    while i < |b|
      invariant i <= |b|
      invariant ParseFrom(b, i, p) == ParseFrom(b, 0, EMPTY)
    {
      var next := TakeOne(b, i, p);
      if next.Fails? { return next.outcome; }
      i, p := next.i, next.p;
    }
    return Got(p);
  }

  // ---------- Reading what the server wrote ----------

  lemma ShiftedFits(low: nat, s: nat)
    requires low * Pow2(s) < WORD
    ensures Shifted(low, s) == low * Pow2(s)
  {
    LargeShift(low, s);
  }

  lemma TimesAtLeast(n: nat, p: nat)
    requires n > 0
    ensures n * p >= p
  {
    assert n * p == p + (n - 1) * p && (n - 1) * p >= 0;
  }

  lemma LargeShift(low: nat, s: nat)
    ensures s >= 64 && low > 0 ==> low * Pow2(s) >= WORD
  {
    if s >= 64 && low > 0 {
      Pow2Large(s);
      TimesAtLeast(low, Pow2(s));
    }
  }

  lemma {:induction false} Pow2Large(s: nat)
    requires s >= 64
    ensures Pow2(s) >= WORD
  {
    if s == 64 {
      Pow2Word();
    } else {
      Pow2Large(s - 1);
    }
  }

  lemma Pow2Word()
    ensures Pow2(64) == WORD
  {
    Pow2Add(8, 8);
    Pow2Add(16, 16);
    Pow2Add(32, 32);
    assert Pow2(8) == 256;
  }

  lemma LastByte(v: nat, s: nat, tail: Bytes)
    requires v < 128 && v * Pow2(s) < WORD
    ensures ReadWord(Varint(v) + tail, s) == Some((v * Pow2(s), |Varint(v)|))
  {
    ShiftedFits(v, s);
  }

  lemma ReadMore(b: Bytes, s: nat, low: nat, w: nat, n: nat)
    requires b != [] && low < 128 && b[0] == low + 128 && ReadWord(b[1..], s + 7) == Some((w, n))
    ensures ReadWord(b, s) == Some(((Shifted(low, s) + w) % WORD, n + 1))
  {
    assert b[0] % 128 == low;
  }

  lemma MoreBytes(v: nat, s: nat, tail: Bytes)
    requires v >= 128 && v * Pow2(s) < WORD
    requires ReadWord(Varint(v / 128) + tail, s + 7) == Some((v / 128 * Pow2(s + 7), |Varint(v / 128)|))
    ensures ReadWord(Varint(v) + tail, s) == Some((v * Pow2(s), |Varint(v)|))
  {
    var b, low, rest := Varint(v) + tail, v % 128, v / 128 * Pow2(s + 7);
    assert b[1..] == Varint(v / 128) + tail && b[0] == low + 128;
    ReadMore(b, s, low, rest, |Varint(v / 128)|);
    SplitShift(v, s);
    ShiftedFits(low, s);
    WordExact(Shifted(low, s) + rest);
  }

  lemma WordExact(v: nat)
    requires v < WORD
    ensures v % WORD == v
  {
  }

  // The client reads the library's varints.
  lemma {:induction false} WordOfVarint(v: nat, s: nat, tail: Bytes)
    requires v * Pow2(s) < WORD
    ensures ReadWord(Varint(v) + tail, s) == Some((v * Pow2(s), |Varint(v)|))
    decreases v
  {
    if v < 128 {
      LastByte(v, s, tail);
    } else {
      SplitShift(v, s);
      WordOfVarint(v / 128, s + 7, tail);
      MoreBytes(v, s, tail);
    }
  }

  lemma SplitShift(v: nat, s: nat)
    ensures v / 128 * Pow2(s + 7) + v % 128 * Pow2(s) == v * Pow2(s)
    ensures v / 128 * Pow2(s + 7) <= v * Pow2(s) && v % 128 * Pow2(s) <= v * Pow2(s)
  {
    Pow2Add(7, s);
    assert Pow2(7) == 128;
    var q, r, p := v / 128, v % 128, Pow2(s);
    assert q * (128 * p) + r * p == (q * 128 + r) * p;
    assert q * (128 * p) >= 0 && r * p >= 0;
  }

  lemma WordRoundTrip(v: nat, tail: Bytes)
    requires v < WORD
    ensures ReadWord(Varint(v) + tail) == Some((v, |Varint(v)|))
  {
    WordOfVarint(v, 0, tail);
  }

  // From position i the record reads mid and then post.
  lemma Past(b: Bytes, i: nat, mid: Bytes, post: Bytes)
    requires i <= |b| && b[i..] == mid + post
    ensures i + |mid| <= |b| && b[i + |mid|..] == post && b[i..i + |mid|] == mid
  {
    assert b[i + |mid|..] == b[i..][|mid|..];
    assert b[i..i + |mid|] == b[i..][..|mid|];
  }

  // A varint at position i.
  lemma WordAt(b: Bytes, i: nat, v: nat, post: Bytes) returns (n: nat)
    requires i <= |b| && v < WORD && b[i..] == Varint(v) + post
    ensures i + n <= |b| && ReadWord(b[i..]) == Some((v, n)) && b[i + n..] == post
  {
    n := |Varint(v)|;
    WordRoundTrip(v, post);
    Past(b, i, Varint(v), post);
  }

  lemma SignedSmall(v: nat)
    requires v < INT
    ensures Signed(v) == v
    ensures v < UINT32 ==> Signed(v) % UINT32 == v
  {
  }

  lemma SpanIs(b: Bytes, j: nat, l: nat, n: nat)
    requires j <= |b| < INT && ReadWord(b[j..]) == Some((l, n)) && j + n + l <= |b|
    ensures ReadSpan(b, j) == Span(j + n, j + n + l)
  {
    SignedSmall(l);
    SignedSmall(j + n + l);
  }

  // A varint field at position i; its tag is field 1, varint.
  lemma StepField(b: Bytes, i: nat, tag: nat, step: nat, post: Bytes, p: Parsed) returns (k: nat)
    requires i <= |b| < INT && tag == 8 && step < UINT32 && b[i..] == Varint(tag) + (Varint(step) + post)
    ensures k <= |b| && b[k..] == post && ParseFrom(b, i, p) == ParseFrom(b, k, p.(step := step))
  {
    var n := WordAt(b, i, tag, Varint(step) + post);
    var m := WordAt(b, i + n, step, post);
    SignedSmall(step);
    k := i + n + m;
    assert FieldAt(b, i, p) == To(k, p.(step := step));
  }

  lemma SpanField(b: Bytes, i: nat, tag: nat, n: nat, lo: nat, hi: nat, p: Parsed)
    requires i < |b| < INT && ReadWord(b[i..]) == Some((tag, n)) && tag / 8 in {2, 3}
    requires i + n <= |b| && ReadSpan(b, i + n) == Span(lo, hi)
    ensures FieldAt(b, i, p) == To(hi, if tag / 8 == 2 then p.(name := b[lo..hi]) else p.(b64 := b[lo..hi]))
  {
  }

  lemma ValueAt(b: Bytes, j: nat, v: Bytes, post: Bytes) returns (lo: nat)
    requires j <= |b| < INT && b[j..] == Varint(|v|) + (v + post)
    ensures lo + |v| <= |b| && ReadSpan(b, j) == Span(lo, lo + |v|) && b[lo..lo + |v|] == v && b[lo + |v|..] == post
  {
    var m := WordAt(b, j, |v|, v + post);
    lo := j + m;
    Past(b, lo, v, post);
    SpanIs(b, j, |v|, m);
  }

  // One field read is one step of the parser.
  lemma Reads(b: Bytes, i: nat, k: nat, p: Parsed, q: Parsed)
    requires i < |b| < INT && FieldAt(b, i, p) == To(k, q) && i < k <= |b|
    ensures ParseFrom(b, i, p) == ParseFrom(b, k, q)
  {
  }

  // A length-delimited field at position i.
  lemma BytesField(b: Bytes, i: nat, num: nat, v: Bytes, post: Bytes, p: Parsed) returns (k: nat)
    requires i <= |b| < INT && num in {2, 3} && b[i..] == Tag(num, BYTES_TYPE) + (Varint(|v|) + (v + post))
    ensures k <= |b| && b[k..] == post
    ensures ParseFrom(b, i, p) == ParseFrom(b, k, if num == 2 then p.(name := v) else p.(b64 := v))
  {
    var tag, after := num * 8 + BYTES_TYPE, Varint(|v|) + (v + post);
    var n := WordAt(b, i, tag, after);
    var lo := ValueAt(b, i + n, v, post);
    k := lo + |v|;
    assert tag / 8 == num;
    SpanField(b, i, tag, n, lo, k, p);
    Reads(b, i, k, p, if num == 2 then p.(name := v) else p.(b64 := v));
  }

  lemma FieldShape(num: nat, v: Bytes, post: Bytes)
    ensures Field(num, v) + post == Tag(num, BYTES_TYPE) + (Varint(|v|) + (v + post))
  {
    Joined(Tag(num, BYTES_TYPE), Delimited(v), post);
    Joined(Varint(|v|), v, post);
  }

  // The client's parser recovers name, encoded data and step from every record the server writes.
  lemma ParsesActionPrototype(name: Bytes, payload: Bytes, step: nat)
    requires step < UINT32 && |ActionPrototype(name, payload, step)| < INT
    ensures ParseFrom(ActionPrototype(name, payload, step), 0, EMPTY) ==
      Got(Parsed(name, Base64.Encode(Codec(payload)), step))
  {
    var b := ActionPrototype(name, payload, step);
    var b64 := Base64.Encode(Codec(payload));
    var tail := Field(2, name) + Field(3, b64);
    assert b[0..] == b == Varint(8) + (Varint(step) + tail) by {
      Joined(Tag(1, VARINT_TYPE) + Varint(step), Field(2, name), Field(3, b64));
      Joined(Tag(1, VARINT_TYPE), Varint(step), tail);
    }
    var k := StepField(b, 0, 8, step, tail, EMPTY);
    FieldShape(2, name, Field(3, b64));
    k := BytesField(b, k, 2, name, Field(3, b64), EMPTY.(step := step));
    FieldShape(3, b64, []);
    assert Field(3, b64) + [] == Field(3, b64);
    k := BytesField(b, k, 3, b64, [], EMPTY.(step := step, name := name));
  }

  // End to end: frame, wrapper, record, base 64 and mixing, undone by two independent decoders.
  lemma ActionRoundTrip(name: Bytes, payload: Bytes, step: nat)
    requires step < UINT32 && |ActionNotify(name, payload, step)| < INT
    ensures var frame := Frames.Decode(ActionNotify(name, payload, step));
      && frame.Good? && frame.frame.kind == MSG_NOTIFY && frame.frame.name == NAMESPACE && |frame.frame.data| < INT
      && var parsed := ParseFrom(frame.frame.data, 0, EMPTY);
         && parsed.Got? && parsed.value.name == name && parsed.value.step == step
         && var raw := Base64.Decode(parsed.value.b64);
            raw.Some? && Codec(raw.value) == payload
  {
    var proto := ActionPrototype(name, payload, step);
    FramePartLonger(NAMESPACE, proto);
    NotifyRoundTrip(NAMESPACE, proto);
    ParsesActionPrototype(name, payload, step);
    Base64.DecodeEncode(Codec(payload));
    CodecTwice(payload);
  }

  lemma FramePartLonger(name: Bytes, data: Bytes)
    ensures |FramePart(name, data)| >= |data|
  {
  }
}
