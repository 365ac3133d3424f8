/** The two implementations can receive each other's frames. */
module Interop {
  import opened Bytes
  import opened Layers
  import opened PppNetwork
  import opened PppInvariant

  /** What the deliver processes of ppp.h, one after the other, do with received bytes. */
  function PppDeliver(b: seq<byte>): Delivery {
    match Process(EthDeliver, OnWire, b)
    case Forward(c, dst) => PppDeliverFrom(dst, c)
    case _ => Fault
  }

  /** The process that reads the pipe takes over. */
  function PppDeliverFrom(src: Pipe, b: seq<byte>): Delivery
    decreases 17 - Stage(InPipe(src))
  {
    match Process(Reader(src), InPipe(src), b)
    case Forward(c, dst) => PppDeliverFrom(dst, c)
    case Keep(c) => if Reader(src).AppDeliver? then Handed(Reader(src).p, c) else Fault
    case Discard => Discarded
    case Fail => Fault
  }

  lemma AppAgrees(p: Proto, b: seq<byte>)
    ensures PppDeliverFrom(TransUp(p), b) == DeliverApp(p, b)
  {
  }

  lemma TransportAgrees(t: Transport, b: seq<byte>)
    ensures PppDeliverFrom(NetUp(t), b) == DeliverTransport(t, b)
  {
    match StripBytes(b, TRANSPORT_SIZE) {
      case Stripped(hdr, rest) =>
        var p := ProtoNamed(t, HlpAt(hdr, 0));
        if p != [] {
          AppAgrees(p[0], rest);
        }
      case _ =>
    }
  }

  lemma IpAgrees(b: seq<byte>)
    ensures PppDeliverFrom(EthUp, b) == DeliverIp(b)
  {
    match StripBytes(b, IP_SIZE) {
      case Stripped(hdr, rest) =>
        var t := TransportNamed(HlpAt(hdr, 0));
        if t != [] {
          TransportAgrees(t[0], rest);
        }
      case _ =>
    }
  }

  /** The deliver processes of ppp.h and the deliver chain of ppm.h treat every sequence of bytes alike. */
  lemma DeliversAgree(b: seq<byte>)
    ensures PppDeliver(b) == DeliverEth(b)
  {
    match StripBytes(b, ETH_SIZE) {
      case Null => IpAgrees(b);
      case Undefined =>
      case Stripped(_, rest) => IpAgrees(rest);
    }
  }

  /** Either receiver takes a frame of either sender to the same protocol with the same payload. */
  lemma FramesInterchange(p: Proto, payload: seq<byte>)
    requires payload != []
    ensures PppDeliver(Clip(PpmFrame(p, payload))) == PppDeliver(Clip(PppFrame(p, payload)))
            == DeliverEth(Clip(PppFrame(p, payload))) == DeliverEth(Clip(PpmFrame(p, payload)))
            == Handed(p, Received(p, payload))
  {
    DeliversAgree(Clip(PpmFrame(p, payload)));
    DeliversAgree(Clip(PppFrame(p, payload)));
    RoundTrip(p, payload, |AppPacket(p, payload)|);
    RoundTrip(p, payload, 0);
  }
}
