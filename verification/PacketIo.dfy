/** The two-byte length framing of src/io.c over short reads and writes. */
module PacketIo {
  import opened Options
  import Bits

  type Byte = b: int | 0 <= b < 256
  type Bytes = seq<Byte>

  // ---- The frame format ----

  /** (length >> 8) & 0xff and length & 0xff. */
  function HighByte(length: nat): Byte {
    length / 256 % 256
  }

  function LowByte(length: nat): Byte {
    length % 256
  }

  /** What io_write_packet2 puts on the wire; a length of 65536 or more loses its upper bits. */
  function Frame(payload: Bytes): Bytes {
    [HighByte(|payload|), LowByte(|payload|)] + payload
  }

  /** The two bytes in front are the length, the more significant one first. */
  lemma {:induction false} FrameIsBigEndian(payload: Bytes)
    ensures |Frame(payload)| == 2 + |payload| && Frame(payload)[2..] == payload
    ensures var high: int, low: int := Frame(payload)[0], Frame(payload)[1];
            256 * high + low == |payload| % 0x1_0000
  {
  }

  /** The value of a byte read through `char`. */
  function AsChar(signedChar: bool, b: Byte): int {
    if signedChar && b >= 128 then b - 256 else b
  }

  /** The length io_read_packet2 computes from the two header bytes: one char shifted by eight bits, and the
      other one in bitwise or. */
  function DecodedLength(signedChar: bool, high: Byte, low: Byte): int {
    Bits.SetBits(256 * AsChar(signedChar, high), AsChar(signedChar, low))
  }

  /** The same number in plain arithmetic. */
  function HeaderLength(signedChar: bool, high: Byte, low: Byte): int {
    if signedChar && low >= 128 then low - 256
    else if signedChar && high >= 128 then 256 * (high - 256) + low
    else 256 * high + low
  }

  /** It is the length meant if char is unsigned or both bytes are below 128, and negative otherwise. */
  lemma {:induction false} DecodedLengthIs(signedChar: bool, high: Byte, low: Byte)
    ensures DecodedLength(signedChar, high, low) == HeaderLength(signedChar, high, low)
    ensures DecodedLength(signedChar, high, low) < 0 <==> signedChar && (high >= 128 || low >= 128)
  {
    Bits.OrOfChars(AsChar(signedChar, high), AsChar(signedChar, low));
  }

  /** What a packet reader makes of a byte stream. */
  datatype Received =
    | Packet(payload: Bytes, rest: Bytes)
    | NoHeader
    | Truncated
    | NegativeLength(rest: Bytes)

  function ReadFrame(signedChar: bool, data: Bytes): Received {
    if |data| < 2 then NoHeader
    else
      var length := HeaderLength(signedChar, data[0], data[1]);
      if length < 0 then NegativeLength(data[2..])
      else if length > |data| - 2 then Truncated
      else Packet(data[2..][..length], data[2..][length..])
  }

  // ---- Streams of packets ----

  function Frames(payloads: seq<Bytes>): Bytes {
    if payloads == [] then [] else Frame(payloads[0]) + Frames(payloads[1..])
  }

  /** The payloads that survive the wire. */
  predicate Readable(signedChar: bool, length: nat) {
    length < 0x1_0000 && (signedChar ==> HighByte(length) < 128 && LowByte(length) < 128)
  }

  /** A written packet is read back, with the stream right behind it, exactly when it is readable. */
  lemma {:induction false} FrameRoundTrip(signedChar: bool, payload: Bytes, rest: Bytes)
    ensures ReadFrame(signedChar, Frame(payload) + rest) == Packet(payload, rest) <==> Readable(signedChar, |payload|)
  {
    var n := |payload|;
    var data := Frame(payload) + rest;
    assert data[0] == HighByte(n) && data[1] == LowByte(n);
    assert data[2..] == payload + rest;
    if n < 0x1_0000 {
      assert 256 * HighByte(n) + LowByte(n) == n;
      assert (payload + rest)[..n] == payload && (payload + rest)[n..] == rest;
    } else {
      assert 256 * HighByte(n) + LowByte(n) < 0x1_0000;
    }
  }

  /** Reads count packets one after the other. */
  function ReadFrames(signedChar: bool, data: Bytes, count: nat): Option<(seq<Bytes>, Bytes)> {
    if count == 0 then Some(([], data))
    else
      var first := ReadFrame(signedChar, data);
      if !first.Packet? then None
      else
        var more := ReadFrames(signedChar, first.rest, count - 1);
        if more.None? then None else Some(([first.payload] + more.value.0, more.value.1))
  }

  /** One packet more on top of those read already. */
  function OneMore(signedChar: bool, read: Option<(seq<Bytes>, Bytes)>): Option<(seq<Bytes>, Bytes)> {
    if read.None? then None
    else
      var next := ReadFrame(signedChar, read.value.1);
      if next.Packet? then Some((read.value.0 + [next.payload], next.rest)) else None
  }

  lemma {:induction false} ReadFramesMore(signedChar: bool, data: Bytes, count: nat)
    ensures ReadFrames(signedChar, data, count + 1) == OneMore(signedChar, ReadFrames(signedChar, data, count))
  {
    var first := ReadFrame(signedChar, data);
    if count == 0 {
      assert ReadFrames(signedChar, data, 0) == Some(([], data));
      if first.Packet? {
        assert ReadFrames(signedChar, first.rest, 0) == Some(([], first.rest));
        assert [] + [first.payload] == [first.payload] + [];
      }
    } else if first.Packet? {
      ReadFramesMore(signedChar, first.rest, count - 1);
      var read := ReadFrames(signedChar, first.rest, count - 1);
      if read.Some? {
        OneMoreBehind(signedChar, first.payload, read);
      }
    }
  }

  lemma {:induction false} OneMoreBehind(signedChar: bool, first: Bytes, read: Option<(seq<Bytes>, Bytes)>)
    requires read.Some?
    ensures var one := OneMore(signedChar, read);
            OneMore(signedChar, Some(([first] + read.value.0, read.value.1))) ==
            if one.None? then None else Some(([first] + one.value.0, one.value.1))
  {
    var next := ReadFrame(signedChar, read.value.1);
    if next.Packet? {
      assert [first] + read.value.0 + [next.payload] == [first] + (read.value.0 + [next.payload]);
    }
  }

  /** Reading a stream that starts with a readable packet. */
  lemma {:induction false} ReadableFirst(signedChar: bool, payloads: seq<Bytes>, rest: Bytes)
    requires payloads != [] && Readable(signedChar, |payloads[0]|)
    ensures var more := ReadFrames(signedChar, Frames(payloads[1..]) + rest, |payloads| - 1);
            ReadFrames(signedChar, Frames(payloads) + rest, |payloads|) ==
            if more.None? then None else Some(([payloads[0]] + more.value.0, more.value.1))
  {
    var behind := Frames(payloads[1..]) + rest;
    assert Frames(payloads) + rest == Frame(payloads[0]) + behind;
    FrameRoundTrip(signedChar, payloads[0], behind);
  }

  predicate AllReadable(signedChar: bool, payloads: seq<Bytes>) {
    forall i :: 0 <= i < |payloads| ==> Readable(signedChar, |payloads[i]|)
  }

  lemma {:induction false} AllReadableSplits(signedChar: bool, payloads: seq<Bytes>)
    requires payloads != []
    ensures AllReadable(signedChar, payloads) <==>
            Readable(signedChar, |payloads[0]|) && AllReadable(signedChar, payloads[1..])
  {
    if Readable(signedChar, |payloads[0]|) && AllReadable(signedChar, payloads[1..]) {
      forall i | 0 <= i < |payloads| ensures Readable(signedChar, |payloads[i]|) {
        if i > 0 {
          assert payloads[i] == payloads[1..][i - 1];
        }
      }
    }
  }

  /** A whole sequence of packets comes back, with the stream right behind the last one, exactly when all
      of them are readable. */
  lemma {:induction false} StreamRoundTrip(signedChar: bool, payloads: seq<Bytes>, rest: Bytes)
    ensures ReadFrames(signedChar, Frames(payloads) + rest, |payloads|) == Some((payloads, rest)) <==>
            AllReadable(signedChar, payloads)
  {
    if payloads == [] {
      assert Frames(payloads) + rest == rest;
    } else if !Readable(signedChar, |payloads[0]|) {
      NeverRightLater(signedChar, payloads, rest);
    } else {
      StreamRoundTrip(signedChar, payloads[1..], rest);
      StreamStep(signedChar, payloads, rest);
    }
  }

  lemma {:induction false} StreamStep(signedChar: bool, payloads: seq<Bytes>, rest: Bytes)
    requires payloads != [] && Readable(signedChar, |payloads[0]|)
    requires ReadFrames(signedChar, Frames(payloads[1..]) + rest, |payloads| - 1) == Some((payloads[1..], rest)) <==>
             AllReadable(signedChar, payloads[1..])
    ensures ReadFrames(signedChar, Frames(payloads) + rest, |payloads|) == Some((payloads, rest)) <==>
            AllReadable(signedChar, payloads)
  {
    ReadableFirst(signedChar, payloads, rest);
    AllReadableSplits(signedChar, payloads);
    SameTails(payloads, ReadFrames(signedChar, Frames(payloads[1..]) + rest, |payloads| - 1), rest);
  }

  lemma {:induction false} SameTails(payloads: seq<Bytes>, more: Option<(seq<Bytes>, Bytes)>, rest: Bytes)
    requires payloads != []
    ensures more == Some((payloads[1..], rest)) <==>
            Some((payloads, rest)) ==
            if more.None? then None else Some(([payloads[0]] + more.value.0, more.value.1))
  {
    assert payloads == [payloads[0]] + payloads[1..];
    if more.Some? {
      assert ([payloads[0]] + more.value.0)[1..] == more.value.0;
    }
  }

  /** A first packet that is not read back spoils the sequence. */
  lemma {:induction false} NeverRightLater(signedChar: bool, payloads: seq<Bytes>, rest: Bytes)
    requires payloads != [] && !Readable(signedChar, |payloads[0]|)
    ensures ReadFrames(signedChar, Frames(payloads) + rest, |payloads|) != Some((payloads, rest))
  {
    var n := |payloads[0]|;
    var data := Frames(payloads) + rest;
    assert data[0] == HighByte(n) && data[1] == LowByte(n);
    var first := ReadFrame(signedChar, data);
    if first.Packet? {
      assert |first.payload| == 256 * HighByte(n) + LowByte(n) < 0x1_0000;
      assert !signedChar || (HighByte(n) < 128 && LowByte(n) < 128);
      assert |first.payload| != n;
    }
  }

  // ---- System calls ----

  /** An input stream. failed remembers whether a read of a count in range ever reported an error. */
  class Source {
    var rest: Bytes
    var failed: bool

    constructor (data: Bytes)
      ensures rest == data && !failed
    {
      rest, failed := data, false;
    }

    /** read(2) into buffer[from..from + n]: some bytes, none only at the end or when none are wanted, or
        -1 on an error. A negative n arrives as a count beyond SSIZE_MAX and is refused. */
    method Read(buffer: array<Byte>, from: nat, n: int) returns (r: int)
      requires from + n <= buffer.Length
      modifies this, buffer
      ensures r == -1 || 0 <= r <= n
      ensures failed <==> old(failed) || (r == -1 && n >= 0)
      ensures r == -1 ==> rest == old(rest)
      ensures r >= 0 ==> r <= |old(rest)| && rest == old(rest)[r..] && buffer[from..from + r] == old(rest)[..r]
      ensures r == 0 ==> n == 0 || old(rest) == []
      ensures forall i :: 0 <= i < buffer.Length && !(from <= i < from + r) ==> buffer[i] == old(buffer[i])
    {
      if n < 0 {
        return -1;
      }
      if * {
        failed := true;
        return -1;
      }
      if n == 0 || rest == [] {
        return 0;
      }
      r :| 1 <= r <= n && r <= |rest|;
      forall i | 0 <= i < r {
        buffer[from + i] := rest[i];
      }
      rest := rest[r..];
    }
  }

  /** An output stream. failed remembers whether a non-empty write ever wrote nothing. */
  class Sink {
    var written: Bytes
    var failed: bool

    constructor ()
      ensures written == [] && !failed
    {
      written, failed := [], false;
    }

    /** write(2) of data: some of it, or nothing on an error. */
    method Write(data: Bytes) returns (r: int)
      modifies this
      ensures r == -1 || 0 <= r <= |data|
      ensures failed <==> old(failed) || r == -1 || (r == 0 && data != [])
      ensures written == old(written) + data[..if r < 0 then 0 else r]
    {
      r :| r == -1 || 0 <= r <= |data|;
      if r == -1 || (r == 0 && data != []) {
        failed := true;
      }
      written := written + data[..if r < 0 then 0 else r];
    }
  }

  // ---- src/io.c ----

  /** io_read: all the bytes wanted; 0 when the stream ends before, -1 on an error, and always for a negative
      length. */
  method IoRead(source: Source, buffer: array<Byte>, length: int) returns (r: int)
    requires length <= buffer.Length
    modifies source, buffer
    ensures source.failed <==> old(source.failed) || (r == -1 && length >= 0)
    ensures r == -1 || r == 0 || r == length
    ensures length < 0 ==> r == -1 && source.rest == old(source.rest)
    ensures r != -1 && length <= |old(source.rest)| ==>
              r == length && buffer[..length] == old(source.rest)[..length]
              && source.rest == old(source.rest)[length..]
    ensures r != -1 && length > |old(source.rest)| ==> r == 0 && source.rest == []
    ensures |source.rest| <= |old(source.rest)|
    ensures source.rest == old(source.rest)[|old(source.rest)| - |source.rest|..]
    ensures var kept := if length < 0 then 0 else length; buffer[kept..] == old(buffer[kept..])
  {
    ghost var data := source.rest;
    ghost var kept := if length < 0 then 0 else length;
    var got := 0;
    while true
      invariant got < length || got == 0
      invariant got <= |data| && source.rest == data[got..] && buffer[..got] == data[..got]
      invariant source.failed == old(source.failed)
      invariant buffer[kept..] == old(buffer[kept..])
      decreases length - got
    {
      r := source.Read(buffer, got, length - got);
      if r <= 0 {
        return;
      }
      assert buffer[..got + r] == buffer[..got] + buffer[got..got + r];
      got := got + r;
      if got >= length {
        break;
      }
    }
    return got;
  }

  /** The expression that io_read_packet2 computes the length with. */
  method HeaderBytesLength(signedChar: bool, high: Byte, low: Byte) returns (length: int)
    ensures length == HeaderLength(signedChar, high, low)
  {
    DecodedLengthIs(signedChar, high, low);
    length := DecodedLength(signedChar, high, low);
  }

  /** io_read_packet2. A negative length leaves the payload unread, so that the next call takes its first two
      bytes for a header. */
  method IoReadPacket2(source: Source, buffer: array<Byte>, signedChar: bool) returns (r: int)
    requires buffer.Length >= 0xffff
    modifies source, buffer
    ensures !source.failed ==>
              match ReadFrame(signedChar, old(source.rest))
              case Packet(payload, rest) =>
                r == |payload| <= 0xffff && buffer[..r] == payload && source.rest == rest
              case NoHeader => r == -1 && source.rest == []
              case Truncated => r == 0 && source.rest == []
              case NegativeLength(rest) => r == -1 && source.rest == rest
    ensures old(source.failed) ==> source.failed
    ensures source.failed && !old(source.failed) ==> r == -1
  {
    r := IoRead(source, buffer, 2);
    if r != 2 {
      return -1;
    }
    assert buffer[0] == buffer[..2][0] && buffer[1] == buffer[..2][1];
    var length := HeaderBytesLength(signedChar, buffer[0], buffer[1]);
    r := IoRead(source, buffer, length);
  }

  /** io_write: the length when all bytes are out; otherwise at most 0, with only some of them out. */
  method IoWrite(sink: Sink, data: Bytes) returns (r: int)
    modifies sink
    ensures !sink.failed ==> r == |data|
    ensures old(sink.failed) ==> sink.failed
    ensures r > 0 ==> r == |data|
    ensures r == |data| ==> sink.written == old(sink.written) + data
    ensures exists k :: 0 <= k <= |data| && sink.written == old(sink.written) + data[..k]
  {
    var wrote := 0;
    while true
      invariant wrote < |data| || wrote == 0
      invariant sink.written == old(sink.written) + data[..wrote]
      invariant sink.failed == old(sink.failed)
      decreases |data| - wrote
    {
      r := sink.Write(data[wrote..]);
      assert data[..wrote] + data[wrote..][..if r < 0 then 0 else r] == data[..wrote + if r < 0 then 0 else r];
      if r <= 0 {
        return;
      }
      wrote := wrote + r;
      if wrote >= |data| {
        break;
      }
    }
    return wrote;
  }

  /** io_write_packet2. The results of the two header writes are dropped, so that the returned length only
      speaks for the payload. */
  method IoWritePacket2(sink: Sink, payload: Bytes) returns (r: int)
    modifies sink
    ensures !sink.failed ==> r == |payload| && sink.written == old(sink.written) + Frame(payload)
    ensures old(sink.failed) ==> sink.failed
    ensures exists high: Bytes, low: Bytes, k :: PartialFrame(payload, high, low, k)
              && sink.written == old(sink.written) + high + low + payload[..k]
              && (r > 0 ==> k == r == |payload|)
  {
    var n := |payload|;
    ghost var s0 := sink.written;
    var _ := IoWrite(sink, [HighByte(n)]);
    ghost var s1 := sink.written;
    ghost var high := s1[|s0|..];
    var _ := IoWrite(sink, [LowByte(n)]);
    ghost var s2 := sink.written;
    ghost var low := s2[|s1|..];
    r := IoWrite(sink, payload);
    ghost var k :| 0 <= k <= n && sink.written == s2 + payload[..k] && (r > 0 ==> k == r == n);
    assert PartialFrame(payload, high, low, k);
    assert sink.written == s0 + high + low + payload[..k];
  }

  /** The pieces of a frame that may be missing: either header byte, and the end of the payload. */
  predicate PartialFrame(payload: Bytes, high: Bytes, low: Bytes, k: int) {
    && (high == [] || high == [HighByte(|payload|)])
    && (low == [] || low == [LowByte(|payload|)])
    && 0 <= k <= |payload|
  }
}
