/** The process-per-message stack of ppm.h: each message is pushed down, or carried up, by one thread. */
module Ppm {
  import opened Bytes
  import opened Rope
  import opened Layers

  /** The argument of every send function; the layers below rewrite `protocolId`. */
  class SendInput {
    var protocolId: int
    const msg: Message

    constructor (msg: Message, protocolId: int)
      ensures this.msg == msg && this.protocolId == protocolId
    {
      this.msg := msg;
      this.protocolId := protocolId;
    }
  }

  /** The datagrams handed to `sendto`, in order. */
  class Socket {
    var sent: seq<seq<byte>>
  }

  method NewHeader(hlp: int, filler: nat, datalength: int) returns (hdr: array<byte>)
    ensures fresh(hdr) && hdr[..] == Header(hlp, filler, datalength)
  {
    var h := Header(hlp, filler, datalength);
    hdr := new byte[|h|](i requires 0 <= i < |h| => h[i]);
  }

  /** What every layer does on the way down: a header naming the layer above and measuring the message. */
  method AddLayer(sen: SendInput, filler: nat)
    requires sen.msg.Valid()
    modifies sen.msg
    ensures sen.msg.Valid()
    ensures sen.msg.Contents() == Wrapped(old(sen.protocolId), filler, old(sen.msg.Contents()))
  {
    var n := sen.msg.MsgLen();
    var hdr := NewHeader(sen.protocolId, filler, n);
    assert hdr[0..8 + filler] == hdr[..];
    sen.msg.MsgAddHdr(Ptr(hdr, 0), 8 + filler);
  }

  function Wrapped(id: int, filler: nat, b: seq<byte>): seq<byte> {
    Header(id, filler, |b|) + b
  }

  method EthSend(sen: SendInput, sock: Socket)
    requires sen.msg.Valid()
    modifies sen, sen.msg, sock
    ensures sock.sent == old(sock.sent) + [Wrapped(old(sen.protocolId), ETH_FILLER, old(sen.msg.Contents()))]
    ensures sen.msg.Valid() && sen.msg.Contents() == sock.sent[|old(sock.sent)|]
  {
    AddLayer(sen, ETH_FILLER);
    var n := sen.msg.MsgLen();
    var buf := new byte[n];
    sen.msg.MsgFlat(buf);
    sock.sent := sock.sent + [buf[..n]];
  }

  method IpSend(sen: SendInput, sock: Socket)
    requires sen.msg.Valid()
    modifies sen, sen.msg, sock
    ensures var packet := Wrapped(old(sen.protocolId), IP_FILLER, old(sen.msg.Contents()));
            sock.sent == old(sock.sent) + [Wrapped(IP_ID, ETH_FILLER, packet)]
    ensures sen.msg.Valid() && sen.msg.Contents() == sock.sent[|old(sock.sent)|]
  {
    AddLayer(sen, IP_FILLER);
    sen.protocolId := IP_ID;
    EthSend(sen, sock);
  }

  /** The frame a transport layer sends for the application layer `id` and packet `b`. */
  function FromTransport(t: Transport, id: int, b: seq<byte>): seq<byte> {
    Wrapped(IP_ID, ETH_FILLER, Wrapped(TransportId(t), IP_FILLER, Wrapped(id, TRANSPORT_FILLER, b)))
  }

  method TcpSend(sen: SendInput, sock: Socket)
    requires sen.msg.Valid()
    modifies sen, sen.msg, sock
    ensures sock.sent == old(sock.sent) + [FromTransport(Tcp, old(sen.protocolId), old(sen.msg.Contents()))]
    ensures sen.msg.Valid() && sen.msg.Contents() == sock.sent[|old(sock.sent)|]
  {
    AddLayer(sen, TRANSPORT_FILLER);
    sen.protocolId := TCP_ID;
    IpSend(sen, sock);
  }

  method UdpSend(sen: SendInput, sock: Socket)
    requires sen.msg.Valid()
    modifies sen, sen.msg, sock
    ensures sock.sent == old(sock.sent) + [FromTransport(Udp, old(sen.protocolId), old(sen.msg.Contents()))]
    ensures sen.msg.Valid() && sen.msg.Contents() == sock.sent[|old(sock.sent)|]
  {
    AddLayer(sen, TRANSPORT_FILLER);
    sen.protocolId := UDP_ID;
    IpSend(sen, sock);
  }

  method FtpSend(sen: SendInput, sock: Socket)
    requires sen.msg.Valid() && sen.protocolId == FTP_ID
    modifies sen, sen.msg, sock
    ensures sock.sent == old(sock.sent) + [PpmFrame(Ftp, old(sen.msg.Contents()))]
    ensures sen.msg.Valid() && sen.msg.Contents() == sock.sent[|old(sock.sent)|]
  {
    AddLayer(sen, 8);
    sen.protocolId := FTP_ID;
    TcpSend(sen, sock);
  }

  method TelnetSend(sen: SendInput, sock: Socket)
    requires sen.msg.Valid() && sen.protocolId == TELNET_ID
    modifies sen, sen.msg, sock
    ensures sock.sent == old(sock.sent) + [PpmFrame(Telnet, old(sen.msg.Contents()))]
    ensures sen.msg.Valid() && sen.msg.Contents() == sock.sent[|old(sock.sent)|]
  {
    AddLayer(sen, 8);
    sen.protocolId := TELNET_ID;
    TcpSend(sen, sock);
  }

  method RdpSend(sen: SendInput, sock: Socket)
    requires sen.msg.Valid() && sen.protocolId == RDP_ID
    modifies sen, sen.msg, sock
    ensures sock.sent == old(sock.sent) + [PpmFrame(Rdp, old(sen.msg.Contents()))]
    ensures sen.msg.Valid() && sen.msg.Contents() == sock.sent[|old(sock.sent)|]
  {
    AddLayer(sen, 12);
    sen.protocolId := RDP_ID;
    UdpSend(sen, sock);
  }

  method DnsSend(sen: SendInput, sock: Socket)
    requires sen.msg.Valid() && sen.protocolId == DNS_ID
    modifies sen, sen.msg, sock
    ensures sock.sent == old(sock.sent) + [PpmFrame(Dns, old(sen.msg.Contents()))]
    ensures sen.msg.Valid() && sen.msg.Contents() == sock.sent[|old(sock.sent)|]
  {
    AddLayer(sen, 8);
    sen.protocolId := DNS_ID;
    UdpSend(sen, sock);
  }

  /** The protocols `ppm::send` knows. */
  function Sendable(id: int): seq<Proto> {
    if id == FTP_ID then [Ftp] else if id == TELNET_ID then [Telnet]
    else if id == RDP_ID then [Rdp] else if id == DNS_ID then [Dns] else []
  }

  /** `ppm::send` with the dispatched thread run to its end. `avail` is the answer of `thread_avail`;
      without a free thread, or for any other identifier, the message is silently dropped. */
  method Send(msg: Message, id: int, avail: bool, sock: Socket)
    requires msg.Valid()
    modifies msg, sock
    ensures sock.sent == old(sock.sent) +
                         (if avail && Sendable(id) != [] then [PpmFrame(Sendable(id)[0], old(msg.Contents()))] else [])
    ensures msg.Valid()
    ensures msg.Contents() == if avail && Sendable(id) != [] then PpmFrame(Sendable(id)[0], old(msg.Contents()))
                              else old(msg.Contents())
  {
    var sen := new SendInput(msg, id);
    if !avail { return; }
    if id == FTP_ID {
      FtpSend(sen, sock);
    } else if id == TELNET_ID {
      TelnetSend(sen, sock);
    } else if id == RDP_ID {
      RdpSend(sen, sock);
    } else if id == DNS_ID {
      DnsSend(sen, sock);
    }
  }

  // ----- the way up

  /** The handlers' counters, what they were handed, and how often the completion was reported. */
  class Counters {
    var ftpCount: nat
    var telnetCount: nat
    var rdpCount: nat
    var dnsCount: nat
    var reports: nat
    ghost var log: seq<(Proto, seq<byte>)>

    ghost predicate Valid()
      reads this
    {
      && ftpCount == Handled(log, Ftp) && telnetCount == Handled(log, Telnet)
      && rdpCount == Handled(log, Rdp) && dnsCount == Handled(log, Dns)
      && reports == Completions(log)
    }

    constructor ()
      ensures Valid() && log == []
    {
      ftpCount, telnetCount, rdpCount, dnsCount, reports, log := 0, 0, 0, 0, 0, [];
    }

    /** The test every handler ends with. */
    method Check()
      modifies `reports
      ensures reports == old(reports)
                         + if ftpCount == telnetCount == rdpCount == dnsCount == TOT_SEND then 1 else 0
    {
      if ftpCount == TOT_SEND && telnetCount == TOT_SEND && rdpCount == TOT_SEND && dnsCount == TOT_SEND {
        reports := reports + 1;
      }
    }

    method CountFtp(ghost data: seq<byte>)
      requires Valid()
      modifies this
      ensures Valid() && log == old(log) + [(Ftp, data)]
    {
      LogGrows(log, Ftp, data);
      log := log + [(Ftp, data)];
      ftpCount := ftpCount + 1;
      Check();
    }

    method CountTelnet(ghost data: seq<byte>)
      requires Valid()
      modifies this
      ensures Valid() && log == old(log) + [(Telnet, data)]
    {
      LogGrows(log, Telnet, data);
      log := log + [(Telnet, data)];
      telnetCount := telnetCount + 1;
      Check();
    }

    method CountRdp(ghost data: seq<byte>)
      requires Valid()
      modifies this
      ensures Valid() && log == old(log) + [(Rdp, data)]
    {
      LogGrows(log, Rdp, data);
      log := log + [(Rdp, data)];
      rdpCount := rdpCount + 1;
      Check();
    }

    method CountDns(ghost data: seq<byte>)
      requires Valid()
      modifies this
      ensures Valid() && log == old(log) + [(Dns, data)]
    {
      LogGrows(log, Dns, data);
      log := log + [(Dns, data)];
      dnsCount := dnsCount + 1;
      Check();
    }
  }

  function Handled(log: seq<(Proto, seq<byte>)>, p: Proto): nat {
    if log == [] then 0
    else Handled(log[..|log| - 1], p) + if log[|log| - 1].0 == p then 1 else 0
  }

  predicate Complete(log: seq<(Proto, seq<byte>)>) {
    forall p: Proto :: Handled(log, p) == TOT_SEND
  }

  /** How many prefixes of the log, the empty one aside, have exactly `TOT_SEND` entries of each protocol. */
  function Completions(log: seq<(Proto, seq<byte>)>): nat {
    if log == [] then 0
    else Completions(log[..|log| - 1]) + if Complete(log) then 1 else 0
  }

  /** When the handlers run one after the other, the report comes exactly once, with the delivery that
      completes the four hundred, and further deliveries never bring it back. */
  lemma {:induction false} ReportedOnce(log: seq<(Proto, seq<byte>)>)
    ensures Completions(log) <= 1
    ensures Completions(log) == 1 <==> exists n :: 0 < n <= |log| && Complete(log[..n])
  {
    if log != [] {
      var shorter := log[..|log| - 1];
      ReportedOnce(shorter);
      assert forall n :: 0 < n < |log| ==> shorter[..n] == log[..n];
      assert log[..|log|] == log;
      if Completions(shorter) == 1 {
        var n :| 0 < n <= |shorter| && Complete(shorter[..n]);
        CompleteOnlyOnce(log, n);
      }
    }
  }

  lemma CompleteOnlyOnce(log: seq<(Proto, seq<byte>)>, n: nat)
    requires n < |log| && Complete(log[..n])
    ensures !Complete(log)
  {
    var shorter := log[..|log| - 1];
    var p := log[|log| - 1].0;
    assert shorter[..n] == log[..n];
    HandledMonotone(shorter, n, p);
    assert Handled(log, p) > TOT_SEND;
  }

  lemma {:induction false} HandledMonotone(log: seq<(Proto, seq<byte>)>, n: nat, p: Proto)
    requires n <= |log|
    ensures Handled(log[..n], p) <= Handled(log, p)
  {
    if n < |log| {
      HandledMonotone(log[..|log| - 1], n, p);
      assert log[..|log| - 1][..n] == log[..n];
    } else {
      assert log[..n] == log;
    }
  }

  /** What one delivery adds to the log. */
  function Logged(d: Delivery): seq<(Proto, seq<byte>)> {
    match d
    case Handed(p, data) => [(p, data)]
    case _ => []
  }

  lemma LogGrows(log: seq<(Proto, seq<byte>)>, p: Proto, data: seq<byte>)
    ensures var more := log + [(p, data)];
            && (forall q: Proto :: Handled(more, q) == Handled(log, q) + if p == q then 1 else 0)
            && Completions(more) == Completions(log) + if Complete(more) then 1 else 0
  {
    var more := log + [(p, data)];
    assert more[..|more| - 1] == log;
  }

  method ReadHlp(hdr: array<byte>, ghost content: seq<byte>) returns (id: int)
    requires 4 <= |content| <= hdr.Length && hdr[..|content|] == content
    ensures id == HlpAt(content, 0)
  {
    assert hdr[0..4] == content[0..4];
    id := DecodeInt(hdr[0..4]);
  }

  /** The first line of every handler: its result is not looked at. */
  method StripApp(msg: Message, ghost p: Proto, size: nat)
    requires msg.Valid() && size == AppSize(p) && DeliverApp(p, msg.Contents()) != Fault
    modifies msg
    ensures msg.Valid() && DeliverApp(p, old(msg.Contents())) == Handed(p, msg.Contents())
  {
    var _ := msg.MsgStripHdr(size);
  }

  method FtpDeliver(msg: Message, c: Counters)
    requires msg.Valid() && c.Valid() && DeliverApp(Ftp, msg.Contents()) != Fault
    modifies msg, c
    ensures c.Valid() && c.log == old(c.log) + Logged(DeliverApp(Ftp, old(msg.Contents())))
  {
    StripApp(msg, Ftp, 16);
    c.CountFtp(msg.Contents());
  }

  method TelnetDeliver(msg: Message, c: Counters)
    requires msg.Valid() && c.Valid() && DeliverApp(Telnet, msg.Contents()) != Fault
    modifies msg, c
    ensures c.Valid() && c.log == old(c.log) + Logged(DeliverApp(Telnet, old(msg.Contents())))
  {
    StripApp(msg, Telnet, 16);
    c.CountTelnet(msg.Contents());
  }

  method RdpDeliver(msg: Message, c: Counters)
    requires msg.Valid() && c.Valid() && DeliverApp(Rdp, msg.Contents()) != Fault
    modifies msg, c
    ensures c.Valid() && c.log == old(c.log) + Logged(DeliverApp(Rdp, old(msg.Contents())))
  {
    StripApp(msg, Rdp, 20);
    c.CountRdp(msg.Contents());
  }

  method DnsDeliver(msg: Message, c: Counters)
    requires msg.Valid() && c.Valid() && DeliverApp(Dns, msg.Contents()) != Fault
    modifies msg, c
    ensures c.Valid() && c.log == old(c.log) + Logged(DeliverApp(Dns, old(msg.Contents())))
  {
    StripApp(msg, Dns, 16);
    c.CountDns(msg.Contents());
  }

  method TcpDeliver(msg: Message, c: Counters)
    requires msg.Valid() && c.Valid() && DeliverTransport(Tcp, msg.Contents()) != Fault
    modifies msg, c
    ensures c.Valid() && c.log == old(c.log) + Logged(DeliverTransport(Tcp, old(msg.Contents())))
  {
    var hdr := msg.MsgStripHdr(12);
    var hlp := ReadHlp(hdr, old(msg.Contents())[..12]);
    if hlp == FTP_ID {
      FtpDeliver(msg, c);
    } else if hlp == TELNET_ID {
      TelnetDeliver(msg, c);
    }
  }

  method UdpDeliver(msg: Message, c: Counters)
    requires msg.Valid() && c.Valid() && DeliverTransport(Udp, msg.Contents()) != Fault
    modifies msg, c
    ensures c.Valid() && c.log == old(c.log) + Logged(DeliverTransport(Udp, old(msg.Contents())))
  {
    var hdr := msg.MsgStripHdr(12);
    var hlp := ReadHlp(hdr, old(msg.Contents())[..12]);
    if hlp == RDP_ID {
      RdpDeliver(msg, c);
    } else if hlp == DNS_ID {
      DnsDeliver(msg, c);
    }
  }

  method IpDeliver(msg: Message, c: Counters)
    requires msg.Valid() && c.Valid() && DeliverIp(msg.Contents()) != Fault
    modifies msg, c
    ensures c.Valid() && c.log == old(c.log) + Logged(DeliverIp(old(msg.Contents())))
  {
    var hdr := msg.MsgStripHdr(20);
    var hlp := ReadHlp(hdr, old(msg.Contents())[..20]);
    if hlp == TCP_ID {
      TcpDeliver(msg, c);
    } else if hlp == UDP_ID {
      UdpDeliver(msg, c);
    }
  }

  /** The datagrams that reach a handler: those for which a thread was free. */
  function Deliveries(arrivals: seq<seq<byte>>, avail: seq<bool>): seq<(Proto, seq<byte>)>
    requires |arrivals| == |avail|
  {
    if arrivals == [] then []
    else
      var n := |arrivals| - 1;
      Deliveries(arrivals[..n], avail[..n]) + if avail[n] then Logged(DeliverEth(Clip(arrivals[n]))) else []
  }

  lemma DeliveriesNext(arrivals: seq<seq<byte>>, avail: seq<bool>, n: nat)
    requires n < |arrivals| == |avail|
    ensures Deliveries(arrivals[..n + 1], avail[..n + 1]) ==
            Deliveries(arrivals[..n], avail[..n]) + if avail[n] then Logged(DeliverEth(Clip(arrivals[n]))) else []
  {
    assert arrivals[..n + 1][..n] == arrivals[..n] && avail[..n + 1][..n] == avail[..n];
  }

  /** The code is defined on this datagram: it is not just an Ethernet header, and no list of segments runs empty. */
  predicate Defined(datagram: seq<byte>, avail: bool) {
    |datagram| != ETH_SIZE && (avail ==> DeliverEth(Clip(datagram)) != Fault)
  }

  /** One round of the loop of `eth_deliver`. */
  method Receive(datagram: seq<byte>, avail: bool, c: Counters)
    requires c.Valid()
    requires Defined(datagram, avail)
    modifies c
    ensures c.Valid()
    ensures c.log == old(c.log) + if avail then Logged(DeliverEth(Clip(datagram))) else []
  {
    var buf, n := RecvFrom(datagram);
    assert buf[0..n] == Clip(datagram);
    var msg := new Message(Ptr(buf, 0), n);
    var _ := msg.MsgStripHdr(16);
    if avail {
      IpDeliver(msg, c);
    }
  }

  /** `recvfrom` into a zeroed buffer: whatever does not fit is lost. */
  method RecvFrom(datagram: seq<byte>) returns (buf: array<byte>, n: nat)
    ensures fresh(buf) && buf.Length == BUF_SIZE
    ensures n == |Clip(datagram)| && buf[..n] == Clip(datagram)
  {
    var got := Clip(datagram);
    n := |got|;
    buf := new byte[BUF_SIZE](i requires 0 <= i < BUF_SIZE => if i < |got| then got[i] else 0);
  }

  /** `eth_deliver`, with the environment's datagrams and the answers of `thread_avail` given in advance and
      every dispatched thread run to its end before the next datagram. */
  method EthDeliver(arrivals: seq<seq<byte>>, avail: seq<bool>, tot: nat, c: Counters)
    requires |arrivals| == |avail| == tot
    requires c.Valid() && c.log == []
    requires forall i :: 0 <= i < tot ==> Defined(arrivals[i], avail[i])
    modifies c
    ensures c.Valid() && c.log == Deliveries(arrivals, avail)
  {
    var cur := 0;
    while cur < tot
      invariant cur <= tot
      invariant c.Valid() && c.log == Deliveries(arrivals[..cur], avail[..cur])
    {
      DeliveriesNext(arrivals, avail, cur);
      Receive(arrivals[cur], avail[cur], c);
      cur := cur + 1;
    }
    assert arrivals[..tot] == arrivals && avail[..tot] == avail;
  }

  lemma FrameDelivered(p: Proto, payload: seq<byte>)
    requires payload != [] && Overhead(p) + |payload| <= BUF_SIZE
    ensures Logged(DeliverEth(Clip(PpmFrame(p, payload)))) == [(p, payload)]
  {
    RoundTrip(p, payload, |AppPacket(p, payload)|);
  }

  lemma AllButLast<T>(s: seq<T>)
    requires s != []
    ensures s[..|s| - 1] + [s[|s| - 1]] == s
  {
  }

  /** The frames of messages with non-empty payloads, each received with a free thread, are logged with their own
      protocols and payloads, in order. */
  lemma {:induction false} EndToEnd(msgs: seq<(Proto, seq<byte>)>, avail: seq<bool>)
    requires |avail| == |msgs| && forall i :: 0 <= i < |avail| ==> avail[i]
    requires forall i :: 0 <= i < |msgs| ==> msgs[i].1 != [] && Overhead(msgs[i].0) + |msgs[i].1| <= BUF_SIZE
    ensures Deliveries(Frames(msgs), avail) == msgs
  {
    if msgs != [] {
      var n := |msgs| - 1;
      AllButLast(msgs);
      FramesMore(msgs[..n], msgs[n]);
      EndToEnd(msgs[..n], avail[..n]);
      FrameDelivered(msgs[n].0, msgs[n].1);
      assert Frames(msgs)[..n] == Frames(msgs[..n]);
    }
  }

  lemma FrameDefined(p: Proto, payload: seq<byte>, avail: bool)
    requires payload != []
    ensures Defined(PpmFrame(p, payload), avail)
  {
    RoundTrip(p, payload, |AppPacket(p, payload)|);
  }

  lemma FramesNext(plan: seq<(Proto, seq<byte>)>, i: nat)
    requires i < |plan|
    ensures Frames(plan[..i + 1]) == Frames(plan[..i]) + [PpmFrame(plan[i].0, plan[i].1)]
  {
    FramesMore(plan[..i], plan[i]);
    assert plan[..i + 1] == plan[..i] + [plan[i]];
  }

  /** Any list of messages, each with the protocol and the payload planned for it, sent one after the other. */
  method SendAll(msgs: seq<Message>, ids: seq<int>, ghost plan: seq<(Proto, seq<byte>)>, sock: Socket)
    requires |msgs| == |ids| == |plan|
    requires forall i, j :: 0 <= i < j < |msgs| ==> msgs[i] != msgs[j]
    requires forall i :: 0 <= i < |msgs| ==> msgs[i].Valid() && msgs[i].Contents() == plan[i].1
    requires forall i :: 0 <= i < |msgs| ==> Sendable(ids[i]) == [plan[i].0]
    modifies msgs, sock
    ensures sock.sent == old(sock.sent) + Frames(plan)
  {
    for i := 0 to |msgs|
      invariant forall k :: i <= k < |msgs| ==> msgs[k].Valid() && msgs[k].Contents() == plan[k].1
      invariant sock.sent == old(sock.sent) + Frames(plan[..i])
    {
      FramesNext(plan, i);
      Send(msgs[i], ids[i], true, sock);
    }
    assert plan[..|msgs|] == plan;
  }

  /** Frames received with a free thread each: the handlers get the payloads for their own protocols, in order. */
  method DeliverAll(frames: seq<seq<byte>>, ghost plan: seq<(Proto, seq<byte>)>, c: Counters)
    requires frames == Frames(plan)
    requires forall i :: 0 <= i < |plan| ==> plan[i].1 != [] && Overhead(plan[i].0) + |plan[i].1| <= BUF_SIZE
    requires c.Valid() && c.log == []
    modifies c
    ensures c.Valid() && c.log == plan
  {
    var avail := seq(|frames|, _ => true);
    forall i | 0 <= i < |frames|
      ensures Defined(frames[i], avail[i])
    {
      FrameDefined(plan[i].0, plan[i].1, true);
    }
    EthDeliver(frames, avail, |frames|, c);
    EndToEnd(plan, avail);
  }

  /** End to end: what is sent, and received with a free thread each time, reaches the handlers. */
  method SendAndDeliver(msgs: seq<Message>, ids: seq<int>, ghost plan: seq<(Proto, seq<byte>)>,
                        sock: Socket, c: Counters)
    requires |msgs| == |ids| == |plan|
    requires forall i, j :: 0 <= i < j < |msgs| ==> msgs[i] != msgs[j]
    requires forall i :: 0 <= i < |msgs| ==> msgs[i].Valid() && msgs[i].Contents() == plan[i].1
    requires forall i :: 0 <= i < |msgs| ==> Sendable(ids[i]) == [plan[i].0]
    requires forall i :: 0 <= i < |plan| ==> plan[i].1 != [] && Overhead(plan[i].0) + |plan[i].1| <= BUF_SIZE
    requires c.Valid() && c.log == [] && sock.sent == []
    modifies msgs, sock, c
    ensures c.Valid() && c.log == plan
  {
    SendAll(msgs, ids, plan, sock);
    assert sock.sent == Frames(plan);
    DeliverAll(sock.sent, plan, c);
  }
}
