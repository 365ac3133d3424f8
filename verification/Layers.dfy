/** The protocol identifiers, the header layouts of structs.h, and the frames they nest into. */
module Layers {
  import opened Bytes

  const IP_ID := 2
  const TCP_ID := 3
  const UDP_ID := 4
  const FTP_ID := 5
  const TELNET_ID := 6
  const RDP_ID := 7
  const DNS_ID := 8
  const BUF_SIZE: nat := 2048
  const TOT_SEND: nat := 100

  datatype Transport = Tcp | Udp
  datatype Proto = Ftp | Telnet | Rdp | Dns

  function ProtoId(p: Proto): (id: int)
    ensures 5 <= id <= 8
  {
    match p
    case Ftp => FTP_ID
    case Telnet => TELNET_ID
    case Rdp => RDP_ID
    case Dns => DNS_ID
  }

  function TransportOf(p: Proto): Transport {
    if p == Ftp || p == Telnet then Tcp else Udp
  }

  function TransportId(t: Transport): int {
    if t == Tcp then TCP_ID else UDP_ID
  }

  /** The order in which the completion test reads the counters. */
  function Counter(k: nat): Proto {
    if k == 0 then Ftp else if k == 1 then Telnet else if k == 2 then Rdp else Dns
  }

  /** The counters read from number `k` on stand at the total. */
  predicate AtTotal(count: map<Proto, nat>, k: nat)
    requires forall p: Proto :: p in count
  {
    forall i :: k <= i < 4 ==> count[Counter(i)] == 100
  }

  lemma AllCounters(count: map<Proto, nat>)
    requires forall p: Proto :: p in count
    ensures AtTotal(count, 0) <==> forall p: Proto :: count[p] == 100
  {
    assert Counter(0) == Ftp && Counter(1) == Telnet && Counter(2) == Rdp && Counter(3) == Dns;
    forall p: Proto | AtTotal(count, 0)
      ensures count[p] == 100
    {
      match p { case Ftp => case Telnet => case Rdp => case Dns => }
    }
  }

  /** Sizes of `other_info`; a header is this filler between two 4-byte integers. */
  const ETH_FILLER: nat := 8
  const IP_FILLER: nat := 12
  const TRANSPORT_FILLER: nat := 4

  function AppFiller(p: Proto): nat {
    if p == Rdp then 12 else 8
  }

  const ETH_SIZE: nat := 16
  const IP_SIZE: nat := 20
  const TRANSPORT_SIZE: nat := 12

  function AppSize(p: Proto): nat {
    if p == Rdp then 20 else 16
  }

  /** The bytes of a zero-initialised header with its `hlp` and `datalength` fields set. */
  function Header(hlp: int, filler: nat, datalength: int): (h: seq<byte>)
    ensures |h| == 8 + filler
  {
    EncodeInt(hlp) + Zeros(filler) + EncodeInt(datalength)
  }

  /** The `hlp` field of the header at position `at`. */
  function HlpAt(b: seq<byte>, at: nat): int
    requires at + 4 <= |b|
  {
    DecodeInt(b[at..at + 4])
  }

  /** The `datalength` field of the header of the given size at position `at`. */
  function LengthAt(b: seq<byte>, at: nat, size: nat): int
    requires 4 <= size && at + size <= |b|
  {
    DecodeInt(b[at + size - 4..at + size])
  }

  lemma HeaderFields(hlp: int, filler: nat, datalength: int, rest: seq<byte>)
    ensures var b := Header(hlp, filler, datalength) + rest;
            && HlpAt(b, 0) == ToInt32(hlp)
            && LengthAt(b, 0, 8 + filler) == ToInt32(datalength)
            && (forall i :: 4 <= i < 4 + filler ==> b[i] == 0)
            && b[8 + filler..] == rest
  {
    var b := Header(hlp, filler, datalength) + rest;
    assert b[0..4] == EncodeInt(hlp);
    assert b[4 + filler..8 + filler] == EncodeInt(datalength);
    IntRoundTrip(hlp);
    IntRoundTrip(datalength);
  }

  // ----- frames, with the transport `datalength` left open: it is where the two implementations differ

  function AppPacket(p: Proto, payload: seq<byte>): (b: seq<byte>)
    ensures |b| == AppSize(p) + |payload|
  {
    Header(ProtoId(p), AppFiller(p), |payload|) + payload
  }

  function Segment(p: Proto, payload: seq<byte>, datalength: int): (b: seq<byte>)
    ensures |b| == TRANSPORT_SIZE + AppSize(p) + |payload|
  {
    Header(ProtoId(p), TRANSPORT_FILLER, datalength) + AppPacket(p, payload)
  }

  function Datagram(p: Proto, payload: seq<byte>, datalength: int): (b: seq<byte>)
    ensures |b| == IP_SIZE + TRANSPORT_SIZE + AppSize(p) + |payload|
  {
    var body := Segment(p, payload, datalength);
    Header(TransportId(TransportOf(p)), IP_FILLER, |body|) + body
  }

  function Frame(p: Proto, payload: seq<byte>, datalength: int): (b: seq<byte>)
    ensures |b| == Overhead(p) + |payload|
  {
    var body := Datagram(p, payload, datalength);
    Header(IP_ID, ETH_FILLER, |body|) + body
  }

  function Overhead(p: Proto): nat {
    ETH_SIZE + IP_SIZE + TRANSPORT_SIZE + AppSize(p)
  }

  /** ppm.h measures the message when it builds the transport header. */
  function PpmFrame(p: Proto, payload: seq<byte>): seq<byte> {
    Frame(p, payload, |AppPacket(p, payload)|)
  }

  function Frames(l: seq<(Proto, seq<byte>)>): (r: seq<seq<byte>>)
    ensures |r| == |l|
  {
    seq(|l|, i requires 0 <= i < |l| => PpmFrame(l[i].0, l[i].1))
  }

  lemma FramesMore(l: seq<(Proto, seq<byte>)>, x: (Proto, seq<byte>))
    ensures Frames(l + [x]) == Frames(l) + [PpmFrame(x.0, x.1)]
  {
  }

  /** ppp.h measures a fresh, still empty message (lines 125-128 and 244-247), so the field is always 0. */
  function PppFrame(p: Proto, payload: seq<byte>): seq<byte> {
    Frame(p, payload, 0)
  }

  /** Where the layers of a frame lie, and what the headers say. */
  lemma FrameLayout(p: Proto, payload: seq<byte>, datalength: int)
    ensures var f := Frame(p, payload, datalength);
            && f[16..] == Datagram(p, payload, datalength)
            && f[36..] == Segment(p, payload, datalength)
            && f[48..] == AppPacket(p, payload)
            && f[Overhead(p)..] == payload
            && HlpAt(f, 0) == IP_ID
            && HlpAt(f, 16) == TransportId(TransportOf(p))
            && HlpAt(f, 36) == HlpAt(f, 48) == ProtoId(p)
            && LengthAt(f, 0, ETH_SIZE) == ToInt32(|f| - 16)
            && LengthAt(f, 16, IP_SIZE) == ToInt32(|f| - 36)
            && LengthAt(f, 36, TRANSPORT_SIZE) == ToInt32(datalength)
            && LengthAt(f, 48, AppSize(p)) == ToInt32(|payload|)
            && |f| == Overhead(p) + |payload|
  {
    var f := Frame(p, payload, datalength);
    var d := Datagram(p, payload, datalength);
    var s := Segment(p, payload, datalength);
    var a := AppPacket(p, payload);
    HeaderAt(f, 0, IP_ID, ETH_FILLER, |d|, d);
    HeaderAt(f, 16, TransportId(TransportOf(p)), IP_FILLER, |s|, s);
    HeaderAt(f, 36, ProtoId(p), TRANSPORT_FILLER, datalength, a);
    HeaderAt(f, 48, ProtoId(p), AppFiller(p), |payload|, payload);
  }

  /** The header that begins at position `at`, and what follows it. */
  lemma HeaderAt(f: seq<byte>, at: nat, hlp: int, filler: nat, datalength: int, rest: seq<byte>)
    requires at <= |f| && f[at..] == Header(hlp, filler, datalength) + rest
    ensures |f| == at + 8 + filler + |rest| && f[at + 8 + filler..] == rest
    ensures HlpAt(f, at) == ToInt32(hlp) && LengthAt(f, at, 8 + filler) == ToInt32(datalength)
  {
    var b := f[at..];
    HeaderFields(hlp, filler, datalength, rest);
    assert f[at + 8 + filler..] == b[8 + filler..];
    assert f[at..at + 4] == b[0..4];
    assert f[at + 4 + filler..at + 8 + filler] == b[4 + filler..8 + filler];
  }

  /** Frames determine the protocol and the payload, even across the two implementations. */
  lemma FrameInjective(p: Proto, a: seq<byte>, m: int, q: Proto, b: seq<byte>, n: int)
    ensures Frame(p, a, m) == Frame(q, b, n) ==> p == q && a == b
  {
    FrameLayout(p, a, m);
    FrameLayout(q, b, n);
  }

  /** Every datalength field of a ppm frame counts the bytes after its own header, so a reader that
      trusts the lengths lands on the payload. */
  lemma NestedLengths(p: Proto, payload: seq<byte>)
    requires Overhead(p) + |payload| < 0x8000_0000
    ensures var f := PpmFrame(p, payload);
            && |f| == |payload| + (if p == Rdp then 68 else 64)
            && LengthAt(f, 0, ETH_SIZE) == |f| - 16
            && LengthAt(f, 16, IP_SIZE) == |f| - 36
            && LengthAt(f, 36, TRANSPORT_SIZE) == |f| - 48
            && LengthAt(f, 48, AppSize(p)) == |f| - Overhead(p) == |payload|
  {
    FrameLayout(p, payload, |AppPacket(p, payload)|);
  }

  /** The frames of the two implementations agree outside bytes 44..47, and there they differ unless the
      segment body is a multiple of 2^32 bytes long. */
  lemma FramesAgree(p: Proto, payload: seq<byte>)
    ensures var f, g := PpmFrame(p, payload), PppFrame(p, payload);
            && |f| == |g|
            && f[..44] == g[..44] && f[48..] == g[48..]
            && (f[44..48] == g[44..48] <==> (AppSize(p) + |payload|) % INT_SPAN == 0)
  {
    var n := |AppPacket(p, payload)|;
    FrameParts(p, payload, n);
    FrameParts(p, payload, 0);
    EncodeIntInjective(n, 0);
  }

  /** A frame is a part that does not depend on the transport `datalength`, that field, and the packet. */
  lemma FrameParts(p: Proto, payload: seq<byte>, datalength: int)
    ensures var f := Frame(p, payload, datalength);
            && f[..44] == FrontPart(p, payload)
            && f[44..48] == EncodeInt(datalength)
            && f[48..] == AppPacket(p, payload)
  {
    var f := Frame(p, payload, datalength);
    assert f == FrontPart(p, payload) + EncodeInt(datalength) + AppPacket(p, payload);
  }

  function FrontPart(p: Proto, payload: seq<byte>): (b: seq<byte>)
    ensures |b| == 44
  {
    var n := TRANSPORT_SIZE + |AppPacket(p, payload)|;
    Header(IP_ID, ETH_FILLER, IP_SIZE + n)
    + (Header(TransportId(TransportOf(p)), IP_FILLER, n)
       + (EncodeInt(ProtoId(p)) + Zeros(TRANSPORT_FILLER)))
  }

  // ----- the way up

  /** What `msgStripHdr` does to the content of a message: NULL, an undefined access, or a proper strip. */
  datatype Strip = Null | Undefined | Stripped(hdr: seq<byte>, rest: seq<byte>)

  function StripBytes(b: seq<byte>, n: nat): (r: Strip)
    requires n > 0
  {
    if n > |b| then Null else if n == |b| then Undefined else Stripped(b[..n], b[n..])
  }

  /** Where a received frame ends up. `Fault` is a read through a null header or of an empty list. */
  datatype Delivery = Fault | Discarded | Handed(p: Proto, data: seq<byte>)

  function TransportNamed(id: int): (t: seq<Transport>)
  {
    if id == TCP_ID then [Tcp] else if id == UDP_ID then [Udp] else []
  }

  function ProtoNamed(t: Transport, id: int): seq<Proto> {
    match t
    case Tcp => if id == FTP_ID then [Ftp] else if id == TELNET_ID then [Telnet] else []
    case Udp => if id == RDP_ID then [Rdp] else if id == DNS_ID then [Dns] else []
  }

  /** The Ethernet layer ignores whether its strip succeeded. */
  function DeliverEth(b: seq<byte>): Delivery {
    match StripBytes(b, ETH_SIZE)
    case Null => DeliverIp(b)
    case Undefined => Fault
    case Stripped(_, rest) => DeliverIp(rest)
  }

  function DeliverIp(b: seq<byte>): Delivery {
    match StripBytes(b, IP_SIZE)
    case Null => Fault
    case Undefined => Fault
    case Stripped(hdr, rest) =>
      var t := TransportNamed(HlpAt(hdr, 0));
      if t == [] then Discarded else DeliverTransport(t[0], rest)
  }

  function DeliverTransport(t: Transport, b: seq<byte>): Delivery {
    match StripBytes(b, TRANSPORT_SIZE)
    case Null => Fault
    case Undefined => Fault
    case Stripped(hdr, rest) =>
      var p := ProtoNamed(t, HlpAt(hdr, 0));
      if p == [] then Discarded else DeliverApp(p[0], rest)
  }

  /** The application handlers do not look at the header they strip, or whether there was one. */
  function DeliverApp(p: Proto, b: seq<byte>): Delivery {
    match StripBytes(b, AppSize(p))
    case Null => Handed(p, b)
    case Undefined => Fault
    case Stripped(_, rest) => Handed(p, rest)
  }

  /** A datagram longer than the receive buffer is cut off by `recvfrom`. */
  function Clip(b: seq<byte>): (c: seq<byte>)
    ensures |c| <= BUF_SIZE && c <= b && (|b| <= BUF_SIZE ==> c == b)
  {
    if |b| <= BUF_SIZE then b else b[..BUF_SIZE]
  }

  /** What is left of a payload whose frame went through the receive buffer. */
  function Received(p: Proto, payload: seq<byte>): (r: seq<byte>)
    ensures r <= payload && (Overhead(p) + |payload| <= BUF_SIZE ==> r == payload)
    ensures payload != [] ==> r != []
  {
    if Overhead(p) + |payload| <= BUF_SIZE then payload else payload[..BUF_SIZE - Overhead(p)]
  }

  lemma ClippedLayout(p: Proto, payload: seq<byte>, datalength: int)
    ensures var c := Clip(Frame(p, payload, datalength));
            && |c| == Overhead(p) + |Received(p, payload)|
            && c[Overhead(p)..] == Received(p, payload)
            && HlpAt(c, 16) == TransportId(TransportOf(p))
            && HlpAt(c, 36) == ProtoId(p)
  {
    var f := Frame(p, payload, datalength);
    FrameLayout(p, payload, datalength);
    ClipKeeps(f, Overhead(p));
  }

  /** The receive buffer takes a front part of the datagram. */
  lemma ClipKeeps(f: seq<byte>, at: nat)
    requires 40 <= at <= |f| && at <= BUF_SIZE
    ensures var c := Clip(f);
            && at <= |c| && c[at..] == f[at..][..|c| - at]
            && HlpAt(c, 16) == HlpAt(f, 16) && HlpAt(c, 36) == HlpAt(f, 36)
  {
    assert Clip(f)[16..20] == f[16..20] && Clip(f)[36..40] == f[36..40];
  }

  /** What the walk does with arbitrary received bytes, by length and by two fields only. */
  lemma WalkByOffsets(b: seq<byte>)
    ensures DeliverEth(b) ==
            if |b| <= 36 then Fault
            else
              var t := TransportNamed(HlpAt(b, 16));
              if t == [] then Discarded
              else if |b| <= 48 then Fault
              else
                var p := ProtoNamed(t[0], HlpAt(b, 36));
                if p == [] then Discarded
                else if |b| < Overhead(p[0]) then Handed(p[0], b[48..])
                else if |b| == Overhead(p[0]) then Fault
                else Handed(p[0], b[Overhead(p[0])..])
  {
    if |b| > 36 {
      assert b[16..][..20][0..4] == b[16..20];
      assert b[16..][20..] == b[36..];
      if |b| > 48 {
        assert b[36..][..12][0..4] == b[36..40];
        assert b[36..][12..] == b[48..];
        assert forall p: Proto {:trigger AppSize(p)} :: |b| > Overhead(p) ==> b[48..][AppSize(p)..] == b[Overhead(p)..];
      }
    }
  }

  /** Every frame of either implementation, cut off by the receive buffer or not, is walked up to the
      handler of its own protocol with the payload that was received; the walk faults exactly when the
      payload is empty, because the last strip is then asked for everything. */
  lemma RoundTrip(p: Proto, payload: seq<byte>, datalength: int)
    ensures DeliverEth(Clip(Frame(p, payload, datalength)))
            == if payload == [] then Fault else Handed(p, Received(p, payload))
  {
    var c := Clip(Frame(p, payload, datalength));
    ClippedLayout(p, payload, datalength);
    WalkByOffsets(c);
    NamedBack(p);
  }

  lemma NamedBack(p: Proto)
    ensures TransportNamed(TransportId(TransportOf(p))) == [TransportOf(p)]
    ensures ProtoNamed(TransportOf(p), ProtoId(p)) == [p]
  {
  }
}
