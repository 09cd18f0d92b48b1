/**
 * The length-prefixed wire format of src/framing.rs and src/protocol.rs. Serialisation
 * is a parameter: `ser` and `de` stand for the bincode calls.
 */
module Framing {
  import opened Bytes
  import opened Ascii

  const MAX_FRAME_LEN: nat := 16 * 1024 * 1024
  const U32: nat := 0x1_0000_0000

  datatype Result<+T, +E> = Ok(value: T) | Err(error: E)

  datatype EncodeError = Unserialisable | EncodedTooLong

  datatype ReadError =
    | LengthCut
    | LengthTooLarge(length: nat)
    | PayloadCut
    | FrameTooLarge(length: nat)
    | Malformed

  // --------------------------------------------------------------- the length prefix

  /** The cast `as u32`: it would drop the high bits of a longer length. */
  function AsU32(n: nat): (r: nat)
    ensures r < U32
  {
    n % U32
  }

  /** `to_le_bytes` for an integer of `width` bytes. */
  function ToLeBytes(n: nat, width: nat): (s: seq<byte>)
    ensures |s| == width
    decreases width
  {
    if width == 0 then [] else [(n % 256) as byte] + ToLeBytes(n / 256, width - 1)
  }

  function FromLeBytes(s: seq<byte>): nat {
    if s == [] then 0 else s[0] as nat + 256 * FromLeBytes(s[1..])
  }

  /** How many values fit in `width` bytes. */
  function Range(width: nat): nat {
    if width == 0 then 1 else 256 * Range(width - 1)
  }

  lemma {:induction false} FourBytes()
    ensures Range(4) == U32
  {
    assert Range(1) == 256 && Range(2) == 65536 && Range(3) == 16777216;
  }

  lemma {:induction false} LengthRoundTrip(n: nat, width: nat)
    requires n < Range(width)
    ensures FromLeBytes(ToLeBytes(n, width)) == n
    decreases width
  {
    if width > 0 {
      LengthRoundTrip(n / 256, width - 1);
      var s := ToLeBytes(n, width);
      assert s[1..] == ToLeBytes(n / 256, width - 1);
    }
  }

  lemma {:induction false} LengthInverse(s: seq<byte>)
    ensures FromLeBytes(s) < Range(|s|)
    ensures ToLeBytes(FromLeBytes(s), |s|) == s
  {
    if s != [] {
      LengthInverse(s[1..]);
      LowByte(s[0], FromLeBytes(s[1..]));
      assert s == [s[0]] + s[1..];
    }
  }

  lemma {:induction false} LowByte(low: byte, high: nat)
    ensures (low as nat + 256 * high) % 256 == low as nat
    ensures (low as nat + 256 * high) / 256 == high
  {
  }

  /** The number that four length bytes stand for, lowest byte first. */
  lemma {:induction false} FourLengthBytes(s: seq<byte>)
    requires |s| == 4
    ensures FromLeBytes(s) == s[0] as nat + 256 * s[1] as nat + 65_536 * s[2] as nat + 16_777_216 * s[3] as nat
  {
    assert FromLeBytes(s[3..]) == s[3] as nat + 256 * FromLeBytes(s[3..][1..]) && s[3..][1..] == [];
    assert s[2..][1..] == s[3..] && s[1..][1..] == s[2..];
    assert FromLeBytes(s[2..]) == s[2] as nat + 256 * FromLeBytes(s[3..]);
    assert FromLeBytes(s[1..]) == s[1] as nat + 256 * FromLeBytes(s[2..]);
  }

  // ----------------------------------------------------------------------- one frame

  /** The bytes of a frame; for a payload within the limit the cast changes nothing. */
  function Frame(payload: seq<byte>): seq<byte> {
    ToLeBytes(AsU32(|payload|), 4) + payload
  }

  /** `value` serialises, to at most 16 MiB. */
  predicate Admissible<T>(ser: T -> Option<seq<byte>>, value: T) {
    ser(value).Some? && |ser(value).value| <= 16 * 1024 * 1024
  }

  /** Four bytes that read as the length of `payload`, lowest byte first, and then `payload`. */
  predicate IsFrameOf(frame: seq<byte>, payload: seq<byte>) {
    && |frame| == 4 + |payload| && frame[4..] == payload
    && frame[0] as nat + 256 * frame[1] as nat + 65_536 * frame[2] as nat + 16_777_216 * frame[3] as nat == |payload|
  }

  lemma {:induction false} FrameIsFrame(payload: seq<byte>)
    requires |payload| <= 16 * 1024 * 1024
    ensures IsFrameOf(Frame(payload), payload)
  {
    hide ToLeBytes, FromLeBytes;
    FourBytes();
    LengthRoundTrip(|payload|, 4);
    FourLengthBytes(ToLeBytes(|payload|, 4));
  }

  /** Exactly the admissible values encode, each to its frame; the two errors are told apart. */
  lemma {:induction false} EncodedExactly<T>(ser: T -> Option<seq<byte>>, value: T)
    ensures Encoded(ser, value).Ok? <==> Admissible(ser, value)
    ensures Encoded(ser, value) == Err(Unserialisable) <==> ser(value).None?
    ensures Encoded(ser, value).Ok? ==> IsFrameOf(Encoded(ser, value).value, ser(value).value)
  {
    hide Frame;
    if Admissible(ser, value) {
      FrameIsFrame(ser(value).value);
    }
  }

  function Encoded<T>(ser: T -> Option<seq<byte>>, value: T): Result<seq<byte>, EncodeError> {
    var payload := ser(value);
    if payload.None? then Err(Unserialisable)
    else if |payload.value| > MAX_FRAME_LEN then Err(EncodedTooLong)
    else Ok(Frame(payload.value))
  }

  method EncodeFrame<T>(ser: T -> Option<seq<byte>>, value: T) returns (r: Result<seq<byte>, EncodeError>)
    ensures r == Encoded(ser, value)
    ensures r.Ok? <==> Admissible(ser, value)
    ensures r == Err(Unserialisable) <==> ser(value).None?
    ensures r.Ok? ==> IsFrameOf(r.value, ser(value).value)
  {
    EncodedExactly(ser, value);
    var payload := ser(value);
    if payload.None? {
      return Err(Unserialisable);
    }
    if |payload.value| > MAX_FRAME_LEN {
      return Err(EncodedTooLong);
    }
    var frame: seq<byte> := [];
    frame := frame + ToLeBytes(AsU32(|payload.value|), 4);
    frame := frame + payload.value;
    assert frame == Frame(payload.value);
    r := Ok(frame);
  }

  function DecodePayload<T>(de: seq<byte> -> Option<T>, payload: seq<byte>): Result<T, ReadError> {
    if |payload| > MAX_FRAME_LEN then Err(FrameTooLarge(|payload|))
    else
      match de(payload)
      case None => Err(Malformed)
      case Some(value) => Ok(value)
  }

  /** What one `read_frame` returns on a stream, and what it leaves unread. */
  function Read<T>(de: seq<byte> -> Option<T>, s: seq<byte>): (Result<T, ReadError>, seq<byte>) {
    if |s| < 4 then (Err(LengthCut), [])
    else
      var n := FromLeBytes(s[..4]);
      if n > MAX_FRAME_LEN then (Err(LengthTooLarge(n)), s[4..])
      else if |s| < 4 + n then (Err(PayloadCut), [])
      else (DecodePayload(de, s[4..4 + n]), s[4 + n..])
  }

  /** A reader over a finished byte stream. */
  class Reader {
    var rest: seq<byte>

    constructor (stream: seq<byte>)
      ensures rest == stream
    {
      rest := stream;
    }

    /** Exactly `n` bytes; a stream that ends earlier is used up and gives an error. */
    method ReadExact(n: nat) returns (bytes: Option<seq<byte>>)
      modifies this
      ensures |old(rest)| >= n ==> bytes == Some(old(rest)[..n]) && rest == old(rest)[n..]
      ensures |old(rest)| < n ==> bytes == None && rest == []
    {
      if |rest| < n {
        rest := [];
        return None;
      }
      bytes := Some(rest[..n]);
      rest := rest[n..];
    }

    method ReadFrame<T>(de: seq<byte> -> Option<T>) returns (r: Result<T, ReadError>)
      modifies this
      ensures (r, rest) == Read(de, old(rest))
    {
      var prefix := ReadExact(4);
      if prefix.None? {
        return Err(LengthCut);
      }
      var n := FromLeBytes(prefix.value);
      if n > MAX_FRAME_LEN {
        return Err(LengthTooLarge(n));
      }
      var payload := ReadExact(n);
      if payload.None? {
        return Err(PayloadCut);
      }
      assert old(rest)[4..][..n] == old(rest)[4..4 + n];
      r := DecodePayload(de, payload.value);
    }
  }

  class Writer {
    var sent: seq<byte>

    constructor ()
      ensures sent == []
    {
      sent := [];
    }

    method WriteFrame<T>(ser: T -> Option<seq<byte>>, value: T) returns (r: Result<(), EncodeError>)
      modifies this
      ensures r.Ok? <==> Admissible(ser, value)
      ensures r == Err(Unserialisable) <==> ser(value).None?
      ensures r.Ok? ==> old(sent) <= sent && IsFrameOf(sent[|old(sent)|..], ser(value).value)
      ensures r.Err? ==> sent == old(sent)
      ensures r.Ok? ==> sent == old(sent) + Encoded(ser, value).value
    {
      var frame := EncodeFrame(ser, value);
      if frame.Err? {
        return Err(frame.error);
      }
      sent := sent + frame.value;
      r := Ok(());
    }
  }

  // ------------------------------------------------------------- reading is exact

  function Plain(payload: seq<byte>): Option<seq<byte>> {
    Some(payload)
  }

  predicate Fits(payload: seq<byte>) {
    |payload| <= MAX_FRAME_LEN
  }

  lemma {:induction false} FrameReadsBack<T>(de: seq<byte> -> Option<T>, payload: seq<byte>, tail: seq<byte>)
    requires Fits(payload)
    ensures Read(de, Frame(payload) + tail) ==
            (if de(payload).None? then Err(Malformed) else Ok(de(payload).value), tail)
  {
    hide ToLeBytes, FromLeBytes;
    var s := Frame(payload) + tail;
    var n := |payload|;
    FourBytes();
    LengthRoundTrip(n, 4);
    assert s[..4] == ToLeBytes(n, 4);
    assert s[4..4 + n] == payload;
    assert s[4 + n..] == tail;
  }

  /** A read succeeds exactly on streams that start with a frame of an admissible payload. */
  lemma {:induction false} ReadIsExact(s: seq<byte>, payload: seq<byte>, rest: seq<byte>)
    ensures Read(Plain, s) == (Ok(payload), rest) <==> Fits(payload) && s == Frame(payload) + rest
  {
    if Fits(payload) && s == Frame(payload) + rest {
      hide Read, Frame;
      FrameReadsBack(Plain, payload, rest);
    } else if Read(Plain, s) == (Ok(payload), rest) {
      ReadIsFrame(s, payload, rest);
    }
  }

  lemma {:induction false} ReadIsFrame(s: seq<byte>, payload: seq<byte>, rest: seq<byte>)
    requires Read(Plain, s) == (Ok(payload), rest)
    ensures Fits(payload) && s == Frame(payload) + rest
  {
    hide FromLeBytes, ToLeBytes;
    FourBytes();
    LengthInverse(s[..4]);
    var n := FromLeBytes(s[..4]);
    assert payload == s[4..4 + n] && rest == s[4 + n..];
    assert s == s[..4] + payload + rest;
  }

  /** After `read_frame`'s own check the one in `decode_payload` never fires. */
  lemma {:induction false} SecondSizeCheckNeverFires<T>(de: seq<byte> -> Option<T>, s: seq<byte>, n: nat)
    ensures Read(de, s).0 != Err(FrameTooLarge(n))
  {
  }

  predicate IsEndOfStream<T>(r: Result<T, ReadError>) {
    r == Err(LengthCut) || r == Err(PayloadCut)
  }

  /** `s` is the frame of `payload` with its end cut off. */
  predicate CutFrom(s: seq<byte>, payload: seq<byte>) {
    |s| < |Frame(payload)| && s == Frame(payload)[..|s|]
  }

  function Zeros(n: nat): seq<byte> {
    seq(n, _ => 0)
  }

  lemma {:induction false} HighZero(low: seq<byte>)
    ensures FromLeBytes(low + [0]) == FromLeBytes(low)
  {
    if low == [] {
      assert [] + [0 as byte] == [0] && [0 as byte][1..] == [];
      assert FromLeBytes([0]) == 0 + 256 * FromLeBytes([]);
    } else {
      HighZero(low[1..]);
      assert (low + [0])[1..] == low[1..] + [0];
    }
  }

  lemma {:induction false} ThreeBytesFit(low: seq<byte>)
    requires |low| == 3
    ensures FromLeBytes(low + [0]) <= MAX_FRAME_LEN
  {
    HighZero(low);
    LengthInverse(low);
    hide FromLeBytes, ToLeBytes;
    assert Range(1) == 256 && Range(2) == 65536 && Range(3) == 16777216;
  }

  /** A frame whose length bytes are `prefix` and whose payload begins with `part`. */
  lemma {:induction false} FillUp(prefix: seq<byte>, part: seq<byte>) returns (payload: seq<byte>)
    requires |prefix| == 4 && |part| <= FromLeBytes(prefix) <= MAX_FRAME_LEN
    ensures Fits(payload) && |part| <= |payload| == FromLeBytes(prefix)
    ensures Frame(payload) == prefix + part + payload[|part|..]
  {
    hide FromLeBytes, ToLeBytes;
    FourBytes();
    LengthInverse(prefix);
    payload := part + Zeros(FromLeBytes(prefix) - |part|);
    assert AsU32(|payload|) == FromLeBytes(prefix);
    assert prefix + part + payload[|part|..] == prefix + payload;
  }

  lemma {:induction false} CutHasFrame(s: seq<byte>) returns (payload: seq<byte>)
    requires IsEndOfStream(Read(Plain, s).0)
    ensures Fits(payload) && CutFrom(s, payload)
  {
    if |s| < 4 {
      var prefix := s + Zeros(4 - |s|);
      assert prefix == prefix[..3] + [0];
      ThreeBytesFit(prefix[..3]);
      payload := FillUp(prefix, []);
      hide Frame, FromLeBytes;
      assert prefix + [] + payload == prefix + payload;
    } else {
      payload := FillUp(s[..4], s[4..]);
      hide Frame, FromLeBytes;
      assert s[..4] + s[4..] == s;
    }
  }

  /** A read ends with the stream exactly when the stream is a beginning of some admissible frame. */
  lemma {:induction false} EndOfStreamExactly(s: seq<byte>)
    ensures IsEndOfStream(Read(Plain, s).0) <==> exists payload :: Fits(payload) && CutFrom(s, payload)
  {
    hide Read, CutFrom, Fits;
    if IsEndOfStream(Read(Plain, s).0) {
      var payload := CutHasFrame(s);
    }
    forall payload | Fits(payload) && CutFrom(s, payload)
      ensures IsEndOfStream(Read(Plain, s).0)
    {
      CutReads(s, payload);
    }
  }

  lemma {:induction false} CutReads(s: seq<byte>, payload: seq<byte>)
    requires Fits(payload) && CutFrom(s, payload)
    ensures IsEndOfStream(Read(Plain, s).0)
  {
    hide ToLeBytes, FromLeBytes;
    FourBytes();
    LengthRoundTrip(|payload|, 4);
    if |s| >= 4 {
      assert s[..4] == ToLeBytes(|payload|, 4);
    }
  }

  // ------------------------------------------------------------------------- streams

  function Stream(payloads: seq<seq<byte>>): seq<byte> {
    if payloads == [] then [] else Frame(payloads[0]) + Stream(payloads[1..])
  }

  predicate AllFit(payloads: seq<seq<byte>>) {
    forall i | 0 <= i < |payloads| :: Fits(payloads[i])
  }

  /** All values read until the first error, that error, and the bytes before the failed read. */
  function ReadAll<T>(de: seq<byte> -> Option<T>, s: seq<byte>): (seq<T>, ReadError, seq<byte>)
    decreases |s|
  {
    var (r, rest) := Read(de, s);
    if r.Err? then ([], r.error, s)
    else
      var (values, error, last) := ReadAll(de, rest);
      ([r.value] + values, error, last)
  }

  lemma {:induction false} ReadAllFrame<T>(de: seq<byte> -> Option<T>, payload: seq<byte>, tail: seq<byte>)
    requires Fits(payload) && de(payload).Some?
    ensures ReadAll(de, Frame(payload) + tail) ==
            ([de(payload).value] + ReadAll(de, tail).0, ReadAll(de, tail).1, ReadAll(de, tail).2)
  {
    hide Frame, Read, Fits;
    FrameReadsBack(de, payload, tail);
  }

  /** Reading the frames of `payloads`, then anything else, yields those payloads first. */
  lemma {:induction false} StreamReadsBack(payloads: seq<seq<byte>>, tail: seq<byte>)
    requires AllFit(payloads)
    ensures ReadAll(Plain, Stream(payloads) + tail) ==
            (payloads + ReadAll(Plain, tail).0, ReadAll(Plain, tail).1, ReadAll(Plain, tail).2)
  {
    hide Frame, Fits, ReadAll;
    if payloads == [] {
      assert Stream(payloads) + tail == tail;
      assert payloads + ReadAll(Plain, tail).0 == ReadAll(Plain, tail).0;
    } else {
      var rest := Stream(payloads[1..]) + tail;
      assert Stream(payloads) + tail == Frame(payloads[0]) + rest;
      ReadAllFrame(Plain, payloads[0], rest);
      StreamReadsBack(payloads[1..], tail);
      assert [payloads[0]] + (payloads[1..] + ReadAll(Plain, tail).0) == payloads + ReadAll(Plain, tail).0;
    }
  }

  /** The round trip: exactly the payloads come back and every byte is consumed. */
  lemma {:induction false} RoundTrip(payloads: seq<seq<byte>>)
    requires AllFit(payloads)
    ensures ReadAll(Plain, Stream(payloads)) == (payloads, LengthCut, [])
  {
    StreamReadsBack(payloads, []);
    assert Stream(payloads) + [] == Stream(payloads);
    assert payloads + [] == payloads;
  }

  lemma {:induction false} OneMore(s: seq<byte>, payload: seq<byte>, rest: seq<byte>)
    requires Read(Plain, s) == (Ok(payload), rest)
    ensures |rest| < |s|
    ensures ReadAll(Plain, s) == ([payload] + ReadAll(Plain, rest).0, ReadAll(Plain, rest).1, ReadAll(Plain, rest).2)
  {
  }

  lemma {:induction false} PrependFrame(payload: seq<byte>, payloads: seq<seq<byte>>, last: seq<byte>)
    requires Fits(payload) && AllFit(payloads)
    ensures AllFit([payload] + payloads)
    ensures Frame(payload) + (Stream(payloads) + last) == Stream([payload] + payloads) + last
  {
    hide Frame, Fits;
    assert ([payload] + payloads)[1..] == payloads;
  }

  /** On any stream whatever, the payloads read are exactly the frames it starts with. */
  lemma {:induction false} ReadAllIsExact(s: seq<byte>)
    ensures var (payloads, error, last) := ReadAll(Plain, s);
            && AllFit(payloads) && s == Stream(payloads) + last
            && Read(Plain, last).0 == Err(error)
    decreases |s|
  {
    var (r, rest) := Read(Plain, s);
    if r.Ok? {
      hide Read, ReadAll, Frame, Fits, Stream, AllFit;
      ReadIsFrame(s, r.value, rest);
      OneMore(s, r.value, rest);
      ReadAllIsExact(rest);
      var (payloads, _, last) := ReadAll(Plain, rest);
      PrependFrame(r.value, payloads, last);
    } else {
      assert Stream([]) + s == s;
    }
  }

  lemma {:induction false} StreamConcat(a: seq<seq<byte>>, b: seq<seq<byte>>)
    ensures Stream(a + b) == Stream(a) + Stream(b)
  {
    if a == [] {
      assert a + b == b;
    } else {
      assert (a + b)[1..] == a[1..] + b;
      StreamConcat(a[1..], b);
    }
  }

  /** Different lists of payloads have different encodings, and none is cut into another. */
  lemma {:induction false} EncodingIsPrefixFree(a: seq<seq<byte>>, b: seq<seq<byte>>)
    requires AllFit(a) && AllFit(b)
    ensures Stream(a) <= Stream(b) <==> a <= b
    ensures Stream(a) == Stream(b) <==> a == b
  {
    hide AllFit, Stream, ReadAll;
    RoundTrip(a);
    RoundTrip(b);
    if a <= b {
      StreamConcat(a, b[|a|..]);
      assert a + b[|a|..] == b;
    }
    if Stream(a) <= Stream(b) {
      var tail := Stream(b)[|Stream(a)|..];
      assert Stream(b) == Stream(a) + tail;
      StreamReadsBack(a, tail);
    }
  }

  /** A stream cut off anywhere yields the frames that arrived whole, and then an end-of-stream error. */
  lemma {:induction false} CutStream(payloads: seq<seq<byte>>, cut: nat) returns (k: nat)
    requires AllFit(payloads) && cut <= |Stream(payloads)|
    ensures k <= |payloads| && |Stream(payloads[..k])| <= cut
    ensures k < |payloads| ==> cut < |Stream(payloads[..k + 1])|
    ensures ReadAll(Plain, Stream(payloads)[..cut]).0 == payloads[..k]
    ensures ReadAll(Plain, Stream(payloads)[..cut]).1 in {LengthCut, PayloadCut}
  {
    hide Frame, Read, Fits, ReadAll;
    var s := Stream(payloads)[..cut];
    if payloads == [] {
      ReadNothing(s);
      return 0;
    }
    var frame := Frame(payloads[0]);
    if cut < |frame| {
      k := 0;
      assert s == frame[..cut];
      FrameIsCut(payloads[0], cut);
      assert payloads[..1][0] == payloads[0] && Stream(payloads[..1]) == frame + Stream([]);
    } else {
      var j := CutStream(payloads[1..], cut - |frame|);
      k := j + 1;
      var rest := Stream(payloads[1..])[..cut - |frame|];
      assert s == frame + rest;
      ReadAllFrame(Plain, payloads[0], rest);
      HeadFrame(payloads, j);
      if k < |payloads| {
        HeadFrame(payloads, j + 1);
      }
      assert [payloads[0]] + payloads[1..][..j] == payloads[..k];
    }
  }

  lemma {:induction false} HeadFrame(payloads: seq<seq<byte>>, j: nat)
    requires j < |payloads|
    ensures Stream(payloads[..j + 1]) == Frame(payloads[0]) + Stream(payloads[1..][..j])
  {
    assert payloads[..j + 1][1..] == payloads[1..][..j];
  }

  lemma {:induction false} FrameIsCut(payload: seq<byte>, cut: nat)
    requires Fits(payload) && cut < |Frame(payload)|
    ensures ReadAll(Plain, Frame(payload)[..cut]).0 == []
    ensures ReadAll(Plain, Frame(payload)[..cut]).1 in {LengthCut, PayloadCut}
  {
    hide Frame, Read;
    CutReads(Frame(payload)[..cut], payload);
  }

  lemma {:induction false} ReadNothing(s: seq<byte>)
    requires s == []
    ensures ReadAll(Plain, s) == ([], LengthCut, [])
  {
  }

  // ------------------------------------------------------------------------ messages

  /** `de` undoes `ser` wherever `ser` succeeds: what the serialisation library promises. */
  ghost predicate Inverse<T(!new)>(ser: T -> Option<seq<byte>>, de: seq<byte> -> Option<T>) {
    forall value :: ser(value).Some? ==> de(ser(value).value) == Some(value)
  }

  /** What a writer has sent after writing `values` one by one, each admissible. */
  function Sent<T>(ser: T -> Option<seq<byte>>, values: seq<T>): seq<byte>
    requires forall i | 0 <= i < |values| :: Admissible(ser, values[i])
  {
    assert values != [] ==> Admissible(ser, values[0]);
    if values == [] then [] else Encoded(ser, values[0]).value + Sent(ser, values[1..])
  }

  /** Messages written one after another are read back unchanged, to the last byte. */
  lemma {:induction false} MessagesRoundTrip<T(!new)>(ser: T -> Option<seq<byte>>, de: seq<byte> -> Option<T>,
                                               values: seq<T>)
    requires Inverse(ser, de)
    requires forall i | 0 <= i < |values| :: ser(values[i]).Some? && |ser(values[i]).value| <= 16 * 1024 * 1024
    ensures (forall i | 0 <= i < |values| :: Admissible(ser, values[i])) &&
            ReadAll(de, Sent(ser, values)) == (values, LengthCut, [])
  {
    assert forall i | 0 <= i < |values| :: Admissible(ser, values[i]);
    if values == [] {
      assert ReadAll(de, []) == ([], LengthCut, []);
    } else {
      var payload := ser(values[0]).value;
      ReadAllFrame(de, payload, Sent(ser, values[1..]));
      hide Frame, ReadAll, Encoded;
      assert [values[0]] + values[1..] == values;
      MessagesRoundTrip(ser, de, values[1..]);
    }
  }
}
