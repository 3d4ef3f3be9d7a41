/** Wire frames: type byte, message id, wrapper (internal/protocol/wire.go). */
module Frames {
  import opened Protobuf
  import opened Wrapper
  import opened XorCodec
  import Base64

  const MSG_NOTIFY: Byte := 1
  const MSG_REQUEST: Byte := 2
  const MSG_RESPONSE: Byte := 3

  datatype Frame = Frame(kind: Byte, id: nat, name: Bytes, data: Bytes)

  datatype FrameError = ShortFrame | BadWrapper

  datatype Decoded = Good(frame: Frame) | Bad(error: FrameError)

  // ---------- Encoding ----------

  // Type and message id: sixteen bits, low byte first.
  function Header(kind: Byte, id: nat): Bytes
  {
    [kind, id % 256, id / 256 % 256]
  }

  function Request(id: nat, name: Bytes, payload: Bytes): Bytes
  {
    Header(MSG_REQUEST, id) + FramePart(name, payload)
  }

  function Response(id: nat, payload: Bytes): Bytes
  {
    Header(MSG_RESPONSE, id) + FramePart([], payload)
  }

  function Notify(name: Bytes, payload: Bytes): Bytes
  {
    [MSG_NOTIFY] + FramePart(name, payload)
  }

  // {step = 1, name = 2, data = 3}, the data being base 64 of the mixed payload.
  function ActionPrototype(name: Bytes, payload: Bytes, step: nat): Bytes
  {
    Tag(1, VARINT_TYPE) + Varint(step) + Field(2, name) + Field(3, Base64.Encode(Codec(payload)))
  }

  // ".lq.ActionPrototype"
  const NAMESPACE: Bytes :=
    [46, 108, 113, 46, 65, 99, 116, 105, 111, 110, 80, 114, 111, 116, 111, 116, 121, 112, 101]

  function ActionNotify(name: Bytes, payload: Bytes, step: nat): Bytes
  {
    Notify(NAMESPACE, ActionPrototype(name, payload, step))
  }

  method EncodeRequestLE(id: nat, name: Bytes, payload: Bytes) returns (f: Bytes)
    ensures f == Request(id, name, payload)
  {
    f := [MSG_REQUEST];
    f := f + [id % 256, id / 256 % 256];
    f := AppendFramePart(f, name, payload);
  }

  method EncodeResponse(id: nat, payload: Bytes) returns (f: Bytes)
    ensures f == Response(id, payload)
  {
    f := [MSG_RESPONSE];
    f := f + [id % 256, id / 256 % 256];
    f := AppendFramePart(f, [], payload);
  }

  method EncodeNotify(name: Bytes, payload: Bytes) returns (f: Bytes)
    ensures f == Notify(name, payload)
  {
    f := [MSG_NOTIFY];
    f := AppendFramePart(f, name, payload);
  }

  method EncodeActionPrototype(name: Bytes, payload: Bytes, step: nat) returns (f: Bytes)
    ensures f == ActionPrototype(name, payload, step)
  {
    var copy := new Byte[|payload|](i requires 0 <= i < |payload| => payload[i]);
    assert copy[..] == payload;
    XORCodecInPlace(copy);
    var b64 := Base64.Encode(copy[..]);
    f := Tag(1, VARINT_TYPE);
    f := f + Varint(step);
    f := AppendField(f, 2, name);
    f := AppendField(f, 3, b64);
  }

  method EncodeActionNotify(name: Bytes, payload: Bytes, step: nat) returns (f: Bytes)
    ensures f == ActionNotify(name, payload, step)
  {
    var proto := EncodeActionPrototype(name, payload, step);
    f := EncodeNotify(NAMESPACE, proto);
  }

  // ---------- Decoding ----------

  predicate HasId(kind: Byte)
  {
    kind == MSG_REQUEST || kind == MSG_RESPONSE
  }

  function FromWrapper(kind: Byte, id: nat, rest: Bytes): Decoded
  {
    var f := Parse(rest);
    if f.None? then Bad(BadWrapper) else Good(Frame(kind, id, Value(f.value.name), Value(f.value.data)))
  }

  function Decode(frame: Bytes): Decoded
  {
    if |frame| < 2 then Bad(ShortFrame)
    else if !HasId(frame[0]) then FromWrapper(frame[0], 0, frame[1..])
    else if |frame| < 3 then Bad(ShortFrame)
    else FromWrapper(frame[0], frame[1] as int + 256 * frame[2] as int, frame[3..])
  }

  method DecodeFrame(frame: Bytes) returns (r: Decoded)
    ensures r == Decode(frame)
  {
    if |frame| < 2 { return Bad(ShortFrame); }
    var kind := frame[0];
    var id: nat := 0;
    var rest := frame[1..];
    if kind == MSG_REQUEST || kind == MSG_RESPONSE {
      if |rest| < 2 { return Bad(ShortFrame); }
      id := rest[0] as int + 256 * rest[1] as int;
      rest := rest[2..];
      assert rest == frame[3..];
    }
    var ok, name, data := DecodeWrapper(rest);
    if !ok { return Bad(BadWrapper); }
    return Good(Frame(kind, id, name, data));
  }

  // ---------- Round trips ----------

  lemma IdBytes(id: nat)
    requires id < 65536
    ensures id % 256 + 256 * (id / 256 % 256) == id
  {
  }

  lemma AfterHeader(kind: Byte, id: nat, rest: Bytes)
    requires HasId(kind) && id < 65536
    ensures Decode(Header(kind, id) + rest) == FromWrapper(kind, id, rest)
  {
    var f := Header(kind, id) + rest;
    assert f[3..] == rest;
    IdBytes(id);
  }

  lemma RequestRoundTrip(id: nat, name: Bytes, payload: Bytes)
    requires id < 65536 && |name| < WORD && |payload| < WORD
    ensures Decode(Request(id, name, payload)) == Good(Frame(MSG_REQUEST, id, name, payload))
  {
    FramePartRoundTrip(name, payload);
    AfterHeader(MSG_REQUEST, id, FramePart(name, payload));
  }

  lemma ResponseRoundTrip(id: nat, payload: Bytes)
    requires id < 65536 && |payload| < WORD
    ensures Decode(Response(id, payload)) == Good(Frame(MSG_RESPONSE, id, [], payload))
  {
    FramePartRoundTrip([], payload);
    AfterHeader(MSG_RESPONSE, id, FramePart([], payload));
  }

  // A notify with neither name nor payload is one byte, too short to decode; all others come back.
  lemma NotifyRoundTrip(name: Bytes, payload: Bytes)
    requires |name| < WORD && |payload| < WORD
    ensures Decode(Notify(name, payload)) == Good(Frame(MSG_NOTIFY, 0, name, payload)) <==> name != [] || payload != []
    ensures name == [] && payload == [] ==> Decode(Notify(name, payload)) == Bad(ShortFrame)
  {
    FramePartRoundTrip(name, payload);
    assert Notify(name, payload)[1..] == FramePart(name, payload);
  }
}
