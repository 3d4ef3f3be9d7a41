/** Base 64 with padding (section 4 of RFC 4648). */
module Base64 {
  import opened Basics
  import opened Protobuf

  const PAD: Byte := 61

  // The alphabet: A-Z, a-z, 0-9, '+', '/'.
  function Digit(v: nat): Byte
    requires v < 64
  {
    if v < 26 then 65 + v
    else if v < 52 then 71 + v
    else if v < 62 then v - 4
    else if v == 62 then 43
    else 47
  }

  function DigitValue(c: Byte): (r: Option<nat>)
    ensures r.Some? ==> r.value < 64
  {
    if 65 <= c <= 90 then Some(c - 65)
    else if 97 <= c <= 122 then Some(c - 71)
    else if 48 <= c <= 57 then Some(c + 4)
    else if c == 43 then Some(62)
    else if c == 47 then Some(63)
    else None
  }

  // Four digits for three bytes; one or two bytes left over are padded.
  function Encode(b: Bytes): (s: Bytes)
    ensures |s| % 4 == 0
  {
    if |b| == 0 then []
    else if |b| == 1 then [Digit(b[0] / 4), Digit(b[0] % 4 * 16), PAD, PAD]
    else if |b| == 2 then [Digit(b[0] / 4), Digit(b[0] % 4 * 16 + b[1] / 16), Digit(b[1] % 16 * 4), PAD]
    else Four(b[0], b[1], b[2]) + Encode(b[3..])
  }

  function Four(a: Byte, b: Byte, c: Byte): Bytes
  {
    [Digit(a / 4), Digit(a % 4 * 16 + b / 16), Digit(b % 16 * 4 + c / 64), Digit(c % 64)]
  }

  // The bytes of one group of four characters; padding is only allowed in the last group.
  function Group(c: Bytes, last: bool): Option<Bytes>
    requires |c| == 4
  {
    var w, x, y, z := DigitValue(c[0]), DigitValue(c[1]), DigitValue(c[2]), DigitValue(c[3]);
    if w.None? || x.None? then None
    else
      var first := w.value * 4 + x.value / 16;
      if last && c[2] == PAD && c[3] == PAD then Some([first])
      else if y.None? then None
      else
        var second := x.value % 16 * 16 + y.value / 4;
        if last && c[3] == PAD then Some([first, second])
        else if z.None? then None
        else Some([first, second, y.value % 4 * 64 + z.value])
  }

  function Decode(s: Bytes): Option<Bytes>
  {
    if s == [] then Some([])
    else if |s| < 4 then None
    else
      var group := Group(s[..4], |s| == 4);
      if group.None? then None
      else
        var rest := Decode(s[4..]);
        if rest.None? then None else Some(group.value + rest.value)
  }

  lemma DigitRoundTrip(v: nat)
    requires v < 64
    ensures DigitValue(Digit(v)) == Some(v) && Digit(v) != PAD
  {
  }

  // Six-bit digits of neighbouring bytes come apart again.
  lemma Regroup(a: Byte, b: Byte, c: Byte)
    ensures var x, y := a % 4 * 16 + b / 16, b % 16 * 4 + c / 64;
      && x < 64 && y < 64
      && a / 4 * 4 + x / 16 == a && x % 16 * 16 + y / 4 == b && y % 4 * 64 + c % 64 == c
  {
    var x, y := a % 4 * 16 + b / 16, b % 16 * 4 + c / 64;
    assert x / 16 == a % 4 && x % 16 == b / 16;
    assert y / 4 == b % 16 && y % 4 == c / 64;
  }

  lemma FullGroup(a: Byte, b: Byte, c: Byte, last: bool)
    ensures Group(Four(a, b, c), last) == Some([a, b, c])
  {
    Regroup(a, b, c);
    DigitRoundTrip(a / 4);
    DigitRoundTrip(a % 4 * 16 + b / 16);
    DigitRoundTrip(b % 16 * 4 + c / 64);
    DigitRoundTrip(c % 64);
  }

  lemma PaddedGroups(a: Byte, b: Byte)
    ensures Group([Digit(a / 4), Digit(a % 4 * 16 + b / 16), Digit(b % 16 * 4), PAD], true) == Some([a, b])
    ensures Group([Digit(a / 4), Digit(a % 4 * 16), PAD, PAD], true) == Some([a])
  {
    Regroup(a, b, 0);
    Regroup(a, 0, 0);
    DigitRoundTrip(a / 4);
    DigitRoundTrip(a % 4 * 16 + b / 16);
    DigitRoundTrip(a % 4 * 16);
    DigitRoundTrip(b % 16 * 4);
  }

  lemma DecodeHead(head: Bytes, tail: Bytes, g: Bytes)
    requires |head| == 4 && Group(head, tail == []) == Some(g)
    ensures Decode(head + tail) == if Decode(tail).None? then None else Some(g + Decode(tail).value)
  {
    var s := head + tail;
    assert s[..4] == head && s[4..] == tail;
  }

  lemma DecodeLast(s: Bytes, b: Bytes)
    requires |s| == 4 && Group(s, true) == Some(b)
    ensures Decode(s) == Some(b)
  {
    DecodeHead(s, [], b);
    assert s + [] == s && b + [] == b;
  }

  lemma DecodeOne(a: Byte)
    ensures Decode(Encode([a])) == Some([a])
  {
    PaddedGroups(a, 0);
    DecodeLast(Encode([a]), [a]);
  }

  lemma DecodeTwo(a: Byte, b: Byte)
    ensures Decode(Encode([a, b])) == Some([a, b])
  {
    PaddedGroups(a, b);
    DecodeLast(Encode([a, b]), [a, b]);
  }

  // Decoding what was encoded gives the bytes back, whatever their number.
  lemma {:induction false} DecodeEncode(b: Bytes)
    ensures Decode(Encode(b)) == Some(b)
    decreases |b|
  {
    if |b| == 1 {
      DecodeOne(b[0]);
      assert b == [b[0]];
    } else if |b| == 2 {
      DecodeTwo(b[0], b[1]);
      assert b == [b[0], b[1]];
    } else if |b| > 2 {
      var tail, g := Encode(b[3..]), [b[0], b[1], b[2]];
      DecodeEncode(b[3..]);
      FullGroup(b[0], b[1], b[2], tail == []);
      DecodeHead(Four(b[0], b[1], b[2]), tail, g);
      assert b == g + b[3..];
    }
  }
}
