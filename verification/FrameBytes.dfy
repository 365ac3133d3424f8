/** The frames byte by byte, in plain numbers: what is on the wire, apart from how the headers are built. */
module FrameBytes {
  import opened Bytes
  import opened Layers

  /** The four bytes from position `at`, the lowest first. */
  function Value(b: seq<byte>, at: nat): int
    requires at + 4 <= |b|
  {
    (b[at] as int) + 0x100 * (b[at + 1] as int) + 0x1_0000 * (b[at + 2] as int) + 0x100_0000 * (b[at + 3] as int)
  }

  /** From `at`: the identifier in one byte and three zeros, zeros up to `end`, and a number of four bytes there. */
  predicate HeaderIs(b: seq<byte>, at: nat, id: byte, end: nat, number: int) {
    && at + 4 <= end && end + 4 <= |b|
    && b[at..at + 4] == [id, 0, 0, 0]
    && (forall i :: at + 4 <= i < end ==> b[i] == 0)
    && Value(b, end) == number % 0x1_0000_0000
  }

  lemma SmallInt(id: byte)
    ensures EncodeInt(id) == [id, 0, 0, 0]
  {
  }

  lemma HeaderBytes(f: seq<byte>, at: nat, id: byte, filler: nat, number: int, rest: seq<byte>)
    requires at <= |f| && f[at..] == Header(id, filler, number) + rest
    ensures HeaderIs(f, at, id, at + 4 + filler, number)
  {
    var h := Header(id, filler, number);
    assert forall i :: 0 <= i < |h| ==> f[at + i] == f[at..][i] == h[i];
    DigitsRoundTrip(number);
    SmallInt(id);
  }

  function IdByte(p: Proto): byte {
    match p case Ftp => 5 case Telnet => 6 case Rdp => 7 case Dns => 8
  }

  function TransportByte(p: Proto): byte {
    match p case Ftp => 3 case Telnet => 3 case Rdp => 4 case Dns => 4
  }

  /** The headers, each followed by the rest of the frame. */
  lemma HeadersNest(p: Proto, payload: seq<byte>, datalength: int)
    ensures var f := Frame(p, payload, datalength);
            && f[0..] == Header(2, 8, |f| - 16) + f[16..]
            && f[16..] == Header(TransportByte(p), 12, |f| - 36) + f[36..]
            && f[36..] == Header(IdByte(p), 4, datalength) + f[48..]
            && f[48..] == Header(IdByte(p), if p == Rdp then 12 else 8, |payload|) + payload
            && f[if p == Rdp then 68 else 64..] == payload && |f| == (if p == Rdp then 68 else 64) + |payload|
  {
    var f := Frame(p, payload, datalength);
    FrameLayout(p, payload, datalength);
    assert f[0..] == f;
  }

  lemma FourHeaders(f: seq<byte>, transport: byte, id: byte, filler: nat, datalength: int, payload: seq<byte>)
    requires |f| >= 48
    requires f[0..] == Header(2, 8, |f| - 16) + f[16..]
    requires f[16..] == Header(transport, 12, |f| - 36) + f[36..]
    requires f[36..] == Header(id, 4, datalength) + f[48..]
    requires f[48..] == Header(id, filler, |payload|) + payload
    ensures HeaderIs(f, 0, 2, 12, |f| - 16) && HeaderIs(f, 16, transport, 32, |f| - 36)
    ensures HeaderIs(f, 36, id, 44, datalength) && HeaderIs(f, 48, id, 52 + filler, |payload|)
  {
    HeaderBytes(f, 0, 2, 8, |f| - 16, f[16..]);
    HeaderBytes(f, 16, transport, 12, |f| - 36, f[36..]);
    HeaderBytes(f, 36, id, 4, datalength, f[48..]);
    HeaderBytes(f, 48, id, filler, |payload|, payload);
  }

  /** Every byte of every frame of either implementation: identifiers, padding and lengths, and then the payload. */
  lemma FrameIs(p: Proto, payload: seq<byte>, datalength: int)
    ensures var f := Frame(p, payload, datalength);
            var start := if p == Rdp then 68 else 64;
            && |f| == start + |payload| && f[start..] == payload
            && HeaderIs(f, 0, 2, 12, |f| - 16)
            && HeaderIs(f, 16, TransportByte(p), 32, |f| - 36)
            && HeaderIs(f, 36, IdByte(p), 44, datalength)
            && HeaderIs(f, 48, IdByte(p), start - 4, |payload|)
  {
    var f := Frame(p, payload, datalength);
    HeadersNest(p, payload, datalength);
    FourHeaders(f, TransportByte(p), IdByte(p), if p == Rdp then 12 else 8, datalength, payload);
  }

  /** The transport header of `ppm.h` measures the packet it precedes; that of `ppp.h` is always zero. */
  lemma TransportLength(p: Proto, payload: seq<byte>)
    ensures Value(PpmFrame(p, payload), 44) == ((if p == Rdp then 20 else 16) + |payload|) % 0x1_0000_0000
    ensures PppFrame(p, payload)[44..48] == [0, 0, 0, 0]
  {
    FrameIs(p, payload, |AppPacket(p, payload)|);
    FrameIs(p, payload, 0);
  }

  /** A payload arrives whole exactly if its frame fits into the 2048 bytes of the receive buffer; of a longer one
      the part that fits. */
  lemma WholeIff(p: Proto, payload: seq<byte>)
    ensures var room := if p == Rdp then 1980 else 1984;
            && (Received(p, payload) == payload <==> |payload| <= room)
            && (|payload| > room ==> Received(p, payload) == payload[..room])
  {
  }
}
