/** The wrapper record {name = 1, data = 2} (internal/protocol/wrapper.go). */
module Wrapper {
  import opened Basics
  import opened Protobuf

  // ---------- Encoding ----------

  function Field(num: nat, v: Bytes): Bytes
  {
    Tag(num, BYTES_TYPE) + Delimited(v)
  }

  // Empty fields are left out.
  function FramePart(name: Bytes, data: Bytes): Bytes
  {
    (if name == [] then [] else Field(1, name)) + (if data == [] then [] else Field(2, data))
  }

  lemma Joined(a: Bytes, b: Bytes, c: Bytes)
    ensures a + b + c == a + (b + c)
  {
  }

  method AppendFramePart(dst: Bytes, name: Bytes, data: Bytes) returns (out: Bytes)
    ensures out == dst + FramePart(name, data)
  {
    out := dst;
    if |name| > 0 {
      out := AppendField(out, 1, name);
    }
    if |data| > 0 {
      out := AppendField(out, 2, data);
    }
    Joined(dst, if name == [] then [] else Field(1, name), if data == [] then [] else Field(2, data));
  }

  method AppendField(dst: Bytes, num: nat, v: Bytes) returns (out: Bytes)
    ensures out == dst + Field(num, v)
  {
    out := dst + Tag(num, BYTES_TYPE);
    out := out + Delimited(v);
    Joined(dst, Tag(num, BYTES_TYPE), Delimited(v));
  }

  // ---------- Decoding ----------

  // Which of the two fields a record sets, and to what.
  datatype Fields = Fields(name: Option<Bytes>, data: Option<Bytes>)

  const NOTHING := Fields(None, None)

  function Override(a: Fields, b: Fields): Fields
  {
    Fields(if b.name.Some? then b.name else a.name, if b.data.Some? then b.data else a.data)
  }

  // Other field numbers are skipped.
  function Setting(num: nat, v: Bytes): Fields
  {
    Fields(if num == 1 then Some(v) else None, if num == 2 then Some(v) else None)
  }

  // The value after a tag: what it sets, and how many bytes it takes.
  function ReadPayload(num: nat, typ: nat, rest: Bytes): (r: Option<(Fields, nat)>)
    ensures r.Some? ==> r.value.1 <= |rest|
  {
    if typ == BYTES_TYPE then
      var v := ReadBytes(rest);
      if v.None? then None else Some((Setting(num, v.value.0), v.value.1))
    else if typ == VARINT_TYPE then
      var v := ReadVarint(rest);
      if v.None? then None else Some((NOTHING, v.value.1))
    else None
  }

  function AfterTag(tag: (nat, nat, nat), rest: Bytes): (r: Option<(Fields, nat)>)
    ensures r.Some? ==> tag.2 <= r.value.1 <= tag.2 + |rest|
  {
    var payload := ReadPayload(tag.0, tag.1, rest);
    if payload.None? then None else Some((payload.value.0, tag.2 + payload.value.1))
  }

  // One field off the front: what it sets, and how many bytes it takes.
  function ReadField(buf: Bytes): (r: Option<(Fields, nat)>)
    ensures r.Some? ==> 1 <= r.value.1 <= |buf|
  {
    var tag := ReadTag(buf);
    if tag.None? then None else AfterTag(tag.value, buf[tag.value.2..])
  }

  // The whole record; None when it is malformed.
  function Parse(buf: Bytes): Option<Fields>
  {
    if buf == [] then Some(NOTHING)
    else
      var field := ReadField(buf);
      if field.None? then None
      else
        var rest := Parse(buf[field.value.1..]);
        if rest.None? then None else Some(Override(field.value.0, rest.value))
  }

  // Unset fields read as empty.
  function Value(f: Option<Bytes>): Bytes
  {
    if f.Some? then f.value else []
  }

  lemma OverrideAssociative(a: Fields, b: Fields, c: Fields)
    ensures Override(Override(a, b), c) == Override(a, Override(b, c))
  {
  }

  // What is left to parse, on top of what was seen.
  function Rest(seen: Fields, buf: Bytes): Option<Fields>
  {
    if Parse(buf).None? then None else Some(Override(seen, Parse(buf).value))
  }

  lemma RestStep(seen: Fields, buf: Bytes)
    requires buf != []
    ensures Rest(seen, buf) == if ReadField(buf).None? then None
      else Rest(Override(seen, ReadField(buf).value.0), buf[ReadField(buf).value.1..])
  {
    if ReadField(buf).Some? {
      var (f, n) := ReadField(buf).value;
      if Parse(buf[n..]).Some? {
        OverrideAssociative(seen, f, Parse(buf[n..]).value);
      }
    }
  }

  // One turn of the decoding loop: the field off the front, and what is left after it.
  method TakeField(input: Bytes, name: Bytes, data: Bytes) returns (ok: bool, buf: Bytes, name': Bytes, data': Bytes)
    requires input != []
    ensures ok <==> ReadField(input).Some?
    ensures ok ==> var (f, n) := ReadField(input).value;
      buf == input[n..] && name' == (if f.name.Some? then f.name.value else name) && data' == (if f.data.Some? then f.data.value else data)
  {
    ok, buf, name', data' := false, input, name, data;
    var tag := ReadTag(buf);
    if tag.None? { return; }
    var (num, typ, n) := tag.value;
    buf := buf[n..];
    if typ == BYTES_TYPE {
      var v := ReadBytes(buf);
      if v.None? { return; }
      buf := buf[v.value.1..];
      if num == 1 {
        name' := v.value.0;
      } else if num == 2 {
        data' := v.value.0;
      }
    } else if typ == VARINT_TYPE {
      var v := ReadVarint(buf);
      if v.None? { return; }
      buf := buf[v.value.1..];
    } else {
      return;
    }
    ok := true;
  }

  // The loop keeps the last value of each field; every turn takes at least one byte.
  method DecodeWrapper(input: Bytes) returns (ok: bool, name: Bytes, data: Bytes)
    ensures ok <==> Parse(input).Some?
    ensures ok ==> name == Value(Parse(input).value.name) && data == Value(Parse(input).value.data)
    ensures !ok ==> name == [] && data == []
  {
    var buf := input;
    name, data := [], [];
    ghost var seen := NOTHING;
    while |buf| > 0
      invariant name == Value(seen.name) && data == Value(seen.data)
      invariant Rest(seen, buf) == Parse(input)
      decreases |buf|
    {
      RestStep(seen, buf);
      ghost var field := ReadField(buf);
      ok, buf, name, data := TakeField(buf, name, data);
      if !ok { return false, [], []; }
      seen := Override(seen, field.value.0);
    }
    return true, name, data;
  }

  // ---------- Last one wins ----------

  lemma Dropped(a: Bytes, b: Bytes, n: nat)
    requires n <= |a|
    ensures (a + b)[n..] == a[n..] + b
  {
  }

  lemma ReadPayloadAppend(num: nat, typ: nat, rest: Bytes, b: Bytes)
    requires ReadPayload(num, typ, rest).Some?
    ensures ReadPayload(num, typ, rest + b) == ReadPayload(num, typ, rest)
  {
    if typ == BYTES_TYPE {
      ReadBytesAppend(rest, b);
    } else {
      ReadVarintAppend(rest, 0, b);
    }
  }

  lemma AfterTagAppend(tag: (nat, nat, nat), rest: Bytes, b: Bytes)
    requires AfterTag(tag, rest).Some?
    ensures AfterTag(tag, rest + b) == AfterTag(tag, rest)
  {
    ReadPayloadAppend(tag.0, tag.1, rest, b);
  }

  lemma ReadFieldAppend(a: Bytes, b: Bytes)
    requires ReadField(a).Some?
    ensures ReadField(a + b) == ReadField(a)
  {
    ReadTagAppend(a, b);
    var tag := ReadTag(a).value;
    Dropped(a, b, tag.2);
    AfterTagAppend(tag, a[tag.2..], b);
  }

  // A record followed by more bytes is well-formed exactly when those bytes are, and decodes to
  // the first record overridden field by field by the second
  // (Protocol Buffers encoding specification, section "Last One Wins").
  lemma {:induction false} LastOneWins(a: Bytes, b: Bytes)
    requires Parse(a).Some?
    ensures Parse(a + b) == if Parse(b).None? then None else Some(Override(Parse(a).value, Parse(b).value))
    decreases |a|
  {
    if a == [] {
      assert a + b == b;
    } else {
      ReadFieldAppend(a, b);
      var (f, n) := ReadField(a).value;
      LastOneWins(a[n..], b);
      Dropped(a, b, n);
    }
  }

  lemma FieldRoundTrip(num: nat, v: Bytes)
    requires 1 <= num <= MAX_FIELD && |v| < WORD
    ensures Parse(Field(num, v)) == Some(Setting(num, v))
  {
    var b := Field(num, v);
    TagRoundTrip(num, BYTES_TYPE, Delimited(v));
    var n := |Tag(num, BYTES_TYPE)|;
    BytesRoundTrip(v, []);
    assert b[n..] == Delimited(v) && Delimited(v) + [] == Delimited(v);
    assert ReadField(b) == Some((Setting(num, v), |b|));
    assert b[|b|..] == [];
  }

  // Decoding an encoded wrapper gives back both fields, absent ones as empty.
  lemma FramePartRoundTrip(name: Bytes, data: Bytes)
    requires |name| < WORD && |data| < WORD
    ensures Parse(FramePart(name, data)).Some?
    ensures var f := Parse(FramePart(name, data)).value; Value(f.name) == name && Value(f.data) == data
  {
    var a := if name == [] then [] else Field(1, name);
    var b := if data == [] then [] else Field(2, data);
    FieldRoundTrip(1, name);
    FieldRoundTrip(2, data);
    LastOneWins(a, b);
  }
}
