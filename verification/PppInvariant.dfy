/** What holds in every reachable state of the network: routing, layering, ownership of messages, and the
    semaphore discipline. */
module PppInvariant {
  import opened Bytes
  import opened Layers
  import opened PppNetwork

  // ----- the path of a protocol through the network, as seventeen stages

  function Stage(x: Place): (k: nat)
    ensures k <= 16
    ensures x.InHand? <==> k % 2 == 0
  {
    match x
    case InHand(q) =>
      (match q
       case Poll(_) => 0
       case AppSend(_) => 2
       case TransSend(_) => 4
       case IpSend => 6
       case EthSend => 8
       case EthDeliver => 10
       case IpDeliver => 12
       case TransDeliver(_) => 14
       case AppDeliver(_) => 16)
    case OnWire => 9
    case InPipe(x) =>
      (match x
       case App(_) => 1
       case Trans(_) => 3
       case Net(_) => 5
       case Eth => 7
       case EthUp => 11
       case NetUp(_) => 13
       case TransUp(_) => 15)
  }

  function PlaceAt(k: nat, p: Proto): (x: Place)
    requires k <= 16
    ensures Stage(x) == k
  {
    if k == 0 then InHand(Poll(p))
    else if k == 1 then InPipe(App(p))
    else if k == 2 then InHand(AppSend(p))
    else if k == 3 then InPipe(Trans(p))
    else if k == 4 then InHand(TransSend(TransportOf(p)))
    else if k == 5 then InPipe(Net(TransportOf(p)))
    else if k == 6 then InHand(IpSend)
    else if k == 7 then InPipe(Eth)
    else if k == 8 then InHand(EthSend)
    else if k == 9 then OnWire
    else if k == 10 then InHand(EthDeliver)
    else if k == 11 then InPipe(EthUp)
    else if k == 12 then InHand(IpDeliver)
    else if k == 13 then InPipe(NetUp(TransportOf(p)))
    else if k == 14 then InHand(TransDeliver(TransportOf(p)))
    else if k == 15 then InPipe(TransUp(p))
    else InHand(AppDeliver(p))
  }

  predicate OnPath(x: Place, p: Proto) {
    x == PlaceAt(Stage(x), p)
  }

  function Reader(x: Pipe): Proc {
    match x
    case App(p) => AppSend(p)
    case Trans(p) => TransSend(TransportOf(p))
    case Net(_) => IpSend
    case Eth => EthSend
    case EthUp => IpDeliver
    case NetUp(t) => TransDeliver(t)
    case TransUp(p) => AppDeliver(p)
  }

  function Writer(x: Pipe): Proc {
    match x
    case App(p) => Poll(p)
    case Trans(p) => AppSend(p)
    case Net(t) => TransSend(t)
    case Eth => IpSend
    case EthUp => EthDeliver
    case NetUp(_) => IpDeliver
    case TransUp(p) => TransDeliver(TransportOf(p))
  }

  /** Each pipe has one reader, and it is the process whose hands come next on every path through the pipe. */
  lemma ReaderIsNext(x: Pipe, p: Proto)
    requires OnPath(InPipe(x), p)
    ensures Stage(InPipe(x)) < 16 && PlaceAt(Stage(InPipe(x)) + 1, p) == InHand(Reader(x))
  {
  }

  /** Each pipe has one writer, and it is the process whose hands come just before the pipe on every path. */
  lemma WriterIsBefore(x: Pipe, p: Proto)
    requires OnPath(InPipe(x), p)
    ensures PlaceAt(Stage(InPipe(x)) - 1, p) == InHand(Writer(x))
  {
  }

  lemma HandsAreReader(q: Proc, src: Pipe, p: Proto)
    requires OnPath(InHand(q), p) && Stage(InHand(q)) > 0 && InPipe(src) == PlaceAt(Stage(InHand(q)) - 1, p)
    ensures Reader(src) == q
  {
    ReaderIsNext(src, p);
  }

  lemma HandsAreWriter(q: Proc, dst: Pipe, p: Proto)
    requires OnPath(InHand(q), p) && Stage(InHand(q)) < 16 && InPipe(dst) == PlaceAt(Stage(InHand(q)) + 1, p)
    ensures Writer(dst) == q
  {
    WriterIsBefore(dst, p);
  }

  lemma OneReader(x: Pipe, q: Proc)
    ensures x in Inputs(q) <==> Reader(x) == q
  {
    match x {
      case Trans(p) => match p { case Ftp => case Telnet => case Rdp => case Dns => }
      case Net(t) => match t { case Tcp => case Udp => }
      case _ =>
    }
  }

  // ----- what a message contains along its path

  /** The content of a message along its path: payload, four headers added one by one; then, as received
      in the buffer of the other peer, and with the four headers stripped one by one. */
  function Body(k: nat, p: Proto, payload: seq<byte>): seq<byte> {
    if k == 0 then payload
    else if k == 1 then AppPacket(p, payload)
    else if k == 2 then Segment(p, payload, 0)
    else if k == 3 then Datagram(p, payload, 0)
    else if k == 4 then PppFrame(p, payload)
    else
      var c := Clip(PppFrame(p, payload));
      ClippedLayout(p, payload, 0);
      if k == 5 then c
      else if k == 6 then c[16..]
      else if k == 7 then c[36..]
      else if k == 8 then c[48..]
      else c[Overhead(p)..]
  }

  /** The process has already added or stripped its header. */
  predicate Done(pc: PC) {
    pc.Framed? || pc.Sending? || pc.WaitOut? || pc.Writing? || pc.Counting?
  }

  function Level(x: Place, done: bool): (k: nat)
    ensures k <= 9
  {
    var stage := Stage(x);
    if !x.InHand? then (if stage <= 9 then (stage - 1) / 2 else (stage + 1) / 2)
    else if x.proc.Poll? then 0
    else (if stage <= 8 then stage / 2 - 1 else stage / 2) + (if done then 1 else 0)
  }

  function LevelOf(s: State, x: Place): (k: nat)
    requires Total(s)
    ensures k <= 9
  {
    Level(x, x.InHand? && Done(s.pc[x.proc]))
  }

  lemma StripAt(c: seq<byte>, at: nat, size: nat)
    requires 4 <= size && at + size < |c|
    ensures StripBytes(c[at..], size) == Stripped(c[at..at + size], c[at + size..])
    ensures HlpAt(c[at..at + size], 0) == HlpAt(c, at)
  {
    assert c[at..at + size][0..4] == c[at..at + 4];
  }

  lemma IpStrips(c: seq<byte>, t: Transport)
    requires |c| > 36 && HlpAt(c, 16) == TransportId(t)
    ensures Process(IpDeliver, InPipe(EthUp), c[16..]) == Forward(c[36..], NetUp(t))
  {
    StripAt(c, 16, IP_SIZE);
  }

  lemma TransportStrips(c: seq<byte>, p: Proto, from: Place)
    requires |c| > 48 && HlpAt(c, 36) == ProtoId(p)
    ensures Process(TransDeliver(TransportOf(p)), from, c[36..]) == Forward(c[48..], TransUp(p))
  {
    StripAt(c, 36, TRANSPORT_SIZE);
  }

  lemma AppStrips(c: seq<byte>, p: Proto, from: Place)
    requires |c| > Overhead(p)
    ensures Process(AppDeliver(p), from, c[48..]) == Keep(c[Overhead(p)..])
  {
    StripAt(c, 48, AppSize(p));
  }

  lemma EthStrips(c: seq<byte>)
    requires |c| > 16
    ensures Process(EthDeliver, OnWire, c) == Forward(c[16..], EthUp)
  {
  }

  /** What the process does with a message that arrived over the path of `p`. */
  ghost predicate Correct(q: Proc, p: Proto, payload: seq<byte>)
    requires OnPath(InHand(q), p) && Stage(InHand(q)) > 0
  {
    var k := Stage(InHand(q));
    var r := Process(q, PlaceAt(k - 1, p), Body(Level(InHand(q), false), p, payload));
    var after := Body(Level(InHand(q), true), p, payload);
    if k == 16 then r == Keep(after)
    else PlaceAt(k + 1, p).InPipe? && r == Forward(after, PlaceAt(k + 1, p).pipe)
  }

  lemma DownAdvances(q: Proc, p: Proto, payload: seq<byte>)
    requires OnPath(InHand(q), p) && (q.AppSend? || q.TransSend? || q == IpSend)
    ensures Correct(q, p, payload)
  {
  }

  lemma EthDeliverStrips(p: Proto, payload: seq<byte>)
    ensures Process(EthDeliver, OnWire, Body(5, p, payload)) == Forward(Body(6, p, payload), EthUp)
  {
    ClippedLayout(p, payload, 0);
    EthStrips(Body(5, p, payload));
  }

  lemma IpDeliverStrips(p: Proto, payload: seq<byte>)
    ensures Process(IpDeliver, InPipe(EthUp), Body(6, p, payload))
            == Forward(Body(7, p, payload), NetUp(TransportOf(p)))
  {
    ClippedLayout(p, payload, 0);
    IpStrips(Body(5, p, payload), TransportOf(p));
  }

  lemma TransDeliverStrips(p: Proto, payload: seq<byte>, from: Place)
    ensures Process(TransDeliver(TransportOf(p)), from, Body(7, p, payload)) == Forward(Body(8, p, payload), TransUp(p))
  {
    ClippedLayout(p, payload, 0);
    TransportStrips(Body(5, p, payload), p, from);
  }

  lemma AppDeliverStrips(p: Proto, payload: seq<byte>, from: Place)
    ensures Process(AppDeliver(p), from, Body(8, p, payload)) ==
            if payload == [] then Fail else Keep(Body(9, p, payload))
  {
    ClippedLayout(p, payload, 0);
    if payload != [] {
      AppStrips(Body(5, p, payload), p, from);
    }
  }

  /** A process with a header to add or strip does it correctly, and routes the message to the next pipe
      on its own path, whatever the payload; only the last strip of an empty payload fails. */
  lemma ProcessAdvances(q: Proc, p: Proto, payload: seq<byte>)
    requires OnPath(InHand(q), p) && !q.Poll? && q != EthSend
    ensures Correct(q, p, payload) <==> (q.AppDeliver? ==> payload != [])
  {
    match q {
      case EthDeliver => EthDeliverStrips(p, payload);
      case IpDeliver => IpDeliverStrips(p, payload);
      case TransDeliver(_) => TransDeliverStrips(p, payload, PlaceAt(13, p));
      case AppDeliver(_) => AppDeliverStrips(p, payload, PlaceAt(15, p));
      case _ => DownAdvances(q, p, payload);
    }
  }

  lemma EthAdvances(p: Proto, payload: seq<byte>)
    ensures EthFrame(Body(3, p, payload)) == Body(4, p, payload)
  {
  }

  // ----- the invariant

  /** A process holding a message of protocol `p` got it from the previous place on the path of `p`, and will
      pass it on to the next. */
  predicate Fits(q: Proc, pc: PC, p: Proto) {
    var k := Stage(InHand(q));
    match pc
    case Got(src) => k > 0 && InPipe(src) == PlaceAt(k - 1, p)
    case Framed => q == EthSend
    case Sending => q == EthSend
    case Work(from) => k > 0 && q != EthSend && from == PlaceAt(k - 1, p)
    case WaitOut(dst) => k < 16 && InPipe(dst) == PlaceAt(k + 1, p)
    case Writing(dst) => k < 16 && InPipe(dst) == PlaceAt(k + 1, p)
    case Counting => q.AppDeliver?
    case _ => false
  }

  predicate Free(q: Proc, pc: PC) {
    match pc
    case Start => true
    case WaitIn(src) => Reader(src) == q
    case Reading(src) => Reader(src) == q
    case Wrote(dst) => Writer(dst) == q
    case Check(k) => k < 4 && q.AppDeliver?
    case _ => false
  }

  ghost predicate Control(s: State)
    requires WellFormed(s)
  {
    forall q: Proc ::
      if Holding(s.pc[q]) then Fits(q, s.pc[q], s.at[InHand(q)][0].origin) else Free(q, s.pc[q])
  }

  /** A reader past `select` still finds its pipe non-empty. */
  ghost predicate Ready(s: State)
    requires WellFormed(s)
  {
    forall q: Proc :: s.pc[q].WaitIn? || s.pc[q].Reading? ==> s.at[InPipe(s.pc[q].src)] != []
  }

  /** Every message is on the path of the protocol it was created for. */
  ghost predicate Routed(s: State)
    requires WellFormed(s)
  {
    forall x: Place, i :: 0 <= i < |s.at[x]| ==> OnPath(x, s.at[x][i].origin)
  }

  /** How the content of a message follows from its level; most lemmas hold for any such function. */
  type Contents = (nat, Proto, seq<byte>) -> seq<byte>

  ghost predicate Contains(s: State, f: Contents, x: Place, i: nat)
    requires WellFormed(s) && i < |s.at[x]|
  {
    var m := s.at[x][i];
    m.payload != [] && s.heap[m.ptr] == f(LevelOf(s, x), m.origin, m.payload)
  }

  /** Every message contains exactly the headers of the layers it has passed, or not yet left. */
  ghost predicate Layered(s: State, f: Contents)
    requires WellFormed(s)
  {
    forall x: Place, i {:trigger s.at[x][i]} :: 0 <= i < |s.at[x]| ==> Contains(s, f, x, i)
  }

  predicate Apart(at: map<Place, seq<Item>>, x: Place, i: nat, y: Place, j: nat)
    requires x in at && y in at && i < |at[x]| && j < |at[y]|
  {
    at[x][i].ptr == at[y][j].ptr ==> x == y && i == j
  }

  /** Every message is in one place only. */
  ghost predicate Owned(s: State)
    requires WellFormed(s)
  {
    forall x: Place, i, y: Place, j ::
      0 <= i < |s.at[x]| && 0 <= j < |s.at[y]| ==> Apart(s.at, x, i, y, j)
  }

  predicate Holds(pc: PC, x: Pipe) {
    match pc
    case Reading(y) => x == y
    case Got(y) => x == y
    case Framed => x == Eth
    case Writing(y) => x == y
    case Wrote(y) => x == y
    case _ => false
  }

  function HeldBy(pc: PC, x: Pipe): nat {
    if Holds(pc, x) then 1 else 0
  }

  function Held(s: State, q: Proc, x: Pipe): nat
    requires Total(s)
  {
    HeldBy(s.pc[q], x)
  }

  /** A semaphore is 1, or it is 0 and exactly one of the two processes that use its pipe holds it. */
  ghost predicate Semaphores(s: State)
    requires Total(s)
  {
    forall x: Pipe :: s.sem[x] + Held(s, Reader(x), x) + Held(s, Writer(x), x) == 1
  }

  ghost predicate Bounded(capacity: nat, s: State)
    requires Total(s)
  {
    forall x: Pipe :: |s.at[InPipe(x)]| <= capacity
  }

  ghost predicate InvFor(capacity: nat, s: State, f: Contents) {
    && WellFormed(s)
    && Control(s) && Ready(s) && Routed(s) && Layered(s, f) && Owned(s) && Semaphores(s) && Bounded(capacity, s)
  }

  ghost predicate Inv(capacity: nat, s: State) {
    InvFor(capacity, s, Body)
  }

  // ----- every step is one of a few sound kinds

  ghost predicate KeepsSemaphores(q: Proc, before: PC, e: Effect, after: PC) {
    match e
    case Take(x) =>
      (q == Reader(x) || q == Writer(x)) && !Holds(before, x) && Holds(after, x)
      && forall y: Pipe :: y != x ==> (Holds(before, y) <==> Holds(after, y))
    case Post(x) =>
      (q == Reader(x) || q == Writer(x)) && Holds(before, x) && !Holds(after, x)
      && forall y: Pipe :: y != x ==> (Holds(before, y) <==> Holds(after, y))
    case _ => forall y: Pipe :: Holds(before, y) <==> Holds(after, y)
  }

  /** A message that is moved goes from one place on its path to the next. */
  ghost predicate Advances(s: State, a: Place, b: Place)
    requires Total(s) && s.at[a] != []
  {
    var p := s.at[a][0].origin;
    && a == PlaceAt(Stage(a), p) && Stage(a) < 16 && b == PlaceAt(Stage(a) + 1, p)
  }

  ghost predicate SoundEffect(capacity: nat, s: State, f: Contents, q: Proc, e: Effect, pc: PC)
    requires WellFormed(s) && Applicable(s, e) && Consistent(q, s.pc[q], e, pc)
  {
    match e
    case Move(a, b) =>
      && Advances(s, a, b) && !a.OnWire? && !b.OnWire? && (b.InPipe? ==> |s.at[b]| < capacity)
      && (a == InHand(q) ==> Done(s.pc[q]))
      && (b == InHand(q) ==> !Done(pc) && Fits(q, pc, s.at[a][0].origin))
    case Copy(a, b, content) =>
      && Advances(s, a, b) && (a.OnWire? || b.OnWire?)
      && content == f(Level(b, false), s.at[a][0].origin, s.at[a][0].payload)
      && (b == InHand(q) ==> !Done(pc) && Fits(q, pc, s.at[a][0].origin))
    case Rewrite(_, content) =>
      && !Done(s.pc[q]) && Done(pc) && Fits(q, pc, s.at[InHand(q)][0].origin)
      && content == f(Level(InHand(q), true), s.at[InHand(q)][0].origin, s.at[InHand(q)][0].payload)
    case Create(p) => s.plan[p][0] != [] && s.plan[p][0] == f(0, p, s.plan[p][0]) && Fits(q, pc, p)
    case Deliver(_) => Done(s.pc[q])
    case Drop(_) => false
    case _ =>
      && (Holding(pc) ==> (Done(s.pc[q]) <==> Done(pc)) && Fits(q, pc, s.at[InHand(q)][0].origin))
  }

  ghost predicate Sound(capacity: nat, s: State, f: Contents, q: Proc, e: Effect, pc: PC)
    requires WellFormed(s)
  {
    && Applicable(s, e)
    && Consistent(q, s.pc[q], e, pc)
    && KeepsSemaphores(q, s.pc[q], e, pc)
    && SoundEffect(capacity, s, f, q, e, pc)
    && (!Holding(pc) ==> Free(q, pc))
    && (pc.WaitIn? || pc.Reading? ==> (e.Nop? || e.Take?) && s.at[InPipe(pc.src)] != [])
  }

  ghost predicate PlanProper(s: State)
    requires Total(s)
  {
    forall p: Proto :: s.plan[p] != [] ==> s.plan[p][0] != []
  }

  /** A process that can take a step, and the parts of the invariant that say where it stands. */
  ghost predicate Going(capacity: nat, s: State, q: Proc) {
    && WellFormed(s) && Control(s) && Ready(s) && Routed(s) && Semaphores(s)
    && PlanProper(s) && Enabled(capacity, s, q)
  }

  ghost predicate SoundNext(capacity: nat, s: State, f: Contents, q: Proc)
    requires WellFormed(s) && Enabled(capacity, s, q)
  {
    var (e, pc) := Act(capacity, s, q).value;
    Sound(capacity, s, f, q, e, pc)
  }

  lemma SelectSound(capacity: nat, s: State, f: Contents, q: Proc)
    requires Going(capacity, s, q) && s.pc[q].Start? && !q.Poll? && q != EthDeliver
    ensures SoundNext(capacity, s, f, q)
  {
    var ready := FirstReady(s, Inputs(q));
    OneReader(ready[0], q);
  }

  lemma PollSound(capacity: nat, s: State, f: Contents, q: Proc)
    requires Going(capacity, s, q) && s.pc[q].Start? && q.Poll?
    requires forall x: seq<byte> :: f(0, q.p, x) == x
    ensures SoundNext(capacity, s, f, q)
  {
  }

  lemma ReceiveSound(capacity: nat, s: State, f: Contents, q: Proc)
    requires Going(capacity, s, q) && Layered(s, f) && s.pc[q].Start? && q == EthDeliver
    requires forall p: Proto, x: seq<byte> :: f(5, p, x) == Clip(f(4, p, x))
    ensures SoundNext(capacity, s, f, q)
  {
    var m := s.at[OnWire][0];
    assert Contains(s, f, OnWire, 0) && OnPath(OnWire, m.origin);
  }

  lemma WaitInSound(capacity: nat, s: State, f: Contents, q: Proc)
    requires Going(capacity, s, q) && s.pc[q].WaitIn?
    ensures SoundNext(capacity, s, f, q)
  {
  }

  lemma ReadingSound(capacity: nat, s: State, f: Contents, q: Proc)
    requires Going(capacity, s, q) && s.pc[q].Reading?
    ensures SoundNext(capacity, s, f, q)
  {
    var src := s.pc[q].src;
    ReaderIsNext(src, s.at[InPipe(src)][0].origin);
  }

  lemma GotSound(capacity: nat, s: State, f: Contents, q: Proc)
    requires Going(capacity, s, q) && s.pc[q].Got? && q != EthSend
    ensures SoundNext(capacity, s, f, q)
  {
    HandsAreReader(q, s.pc[q].src, s.at[InHand(q)][0].origin);
  }

  lemma FrameSound(capacity: nat, s: State, f: Contents, q: Proc)
    requires Going(capacity, s, q) && Layered(s, f) && s.pc[q].Got? && q == EthSend
    requires forall p: Proto, x: seq<byte> :: f(4, p, x) == EthFrame(f(3, p, x))
    ensures SoundNext(capacity, s, f, q)
  {
    assert Contains(s, f, InHand(q), 0);
  }

  lemma FramedSound(capacity: nat, s: State, f: Contents, q: Proc)
    requires Going(capacity, s, q) && s.pc[q].Framed?
    ensures SoundNext(capacity, s, f, q)
  {
  }

  lemma SendingSound(capacity: nat, s: State, f: Contents, q: Proc)
    requires Going(capacity, s, q) && Layered(s, f) && s.pc[q].Sending?
    ensures SoundNext(capacity, s, f, q)
  {
  }

  /** What the process makes of its message is what `f` prescribes further along the path. */
  ghost predicate Prepared(s: State, f: Contents, q: Proc)
    requires WellFormed(s) && s.pc[q].Work?
  {
    var m := s.at[InHand(q)][0];
    var k := Stage(InHand(q));
    var after := f(Level(InHand(q), true), m.origin, m.payload);
    var r := Process(q, s.pc[q].from, Content(s, InHand(q)));
    && OnPath(InHand(q), m.origin)
    && if k == 16 then r == Keep(after)
       else PlaceAt(k + 1, m.origin).InPipe? && r == Forward(after, PlaceAt(k + 1, m.origin).pipe)
  }

  lemma WorkAdvances(capacity: nat, s: State, q: Proc)
    requires Inv(capacity, s) && s.pc[q].Work?
    ensures Prepared(s, Body, q)
  {
    var m := s.at[InHand(q)][0];
    assert OnPath(InHand(q), m.origin) && Contains(s, Body, InHand(q), 0) && Fits(q, s.pc[q], m.origin);
    ProcessAdvances(q, m.origin, m.payload);
  }

  lemma WorkSound(capacity: nat, s: State, f: Contents, q: Proc)
    requires Going(capacity, s, q) && s.pc[q].Work? && Prepared(s, f, q)
    ensures SoundNext(capacity, s, f, q)
  {
  }

  lemma WaitOutSound(capacity: nat, s: State, f: Contents, q: Proc)
    requires Going(capacity, s, q) && s.pc[q].WaitOut?
    ensures SoundNext(capacity, s, f, q)
  {
    HandsAreWriter(q, s.pc[q].dst, s.at[InHand(q)][0].origin);
  }

  lemma WritingSound(capacity: nat, s: State, f: Contents, q: Proc)
    requires Going(capacity, s, q) && s.pc[q].Writing?
    ensures SoundNext(capacity, s, f, q)
  {
    HandsAreWriter(q, s.pc[q].dst, s.at[InHand(q)][0].origin);
  }

  lemma WroteSound(capacity: nat, s: State, f: Contents, q: Proc)
    requires Going(capacity, s, q) && s.pc[q].Wrote?
    ensures SoundNext(capacity, s, f, q)
  {
  }

  lemma CountingSound(capacity: nat, s: State, f: Contents, q: Proc)
    requires Going(capacity, s, q) && s.pc[q].Counting?
    ensures SoundNext(capacity, s, f, q)
  {
  }

  lemma CheckSound(capacity: nat, s: State, f: Contents, q: Proc)
    requires Going(capacity, s, q) && s.pc[q].Check?
    ensures SoundNext(capacity, s, f, q)
  {
  }

  lemma BodyLaws()
    ensures forall p: Proto, x: seq<byte> :: Body(0, p, x) == x
    ensures forall p: Proto, x: seq<byte> :: Body(4, p, x) == EthFrame(Body(3, p, x))
    ensures forall p: Proto, x: seq<byte> :: Body(5, p, x) == Clip(Body(4, p, x))
  {
    forall p: Proto, x: seq<byte>
      ensures Body(4, p, x) == EthFrame(Body(3, p, x))
    {
      EthAdvances(p, x);
    }
  }

  lemma StartSound(capacity: nat, s: State, q: Proc)
    requires Going(capacity, s, q) && Layered(s, Body) && s.pc[q].Start?
    ensures SoundNext(capacity, s, Body, q)
  {
    BodyLaws();
    if q.Poll? {
      PollSound(capacity, s, Body, q);
    } else if q == EthDeliver {
      ReceiveSound(capacity, s, Body, q);
    } else {
      SelectSound(capacity, s, Body, q);
    }
  }

  lemma HeldSound(capacity: nat, s: State, q: Proc)
    requires Going(capacity, s, q) && Layered(s, Body) && s.pc[q].Got?
    ensures SoundNext(capacity, s, Body, q)
  {
    if q == EthSend {
      BodyLaws();
      FrameSound(capacity, s, Body, q);
    } else {
      GotSound(capacity, s, Body, q);
    }
  }

  lemma ActSound(capacity: nat, s: State, q: Proc)
    requires Inv(capacity, s) && PlanProper(s) && Enabled(capacity, s, q)
    ensures SoundNext(capacity, s, Body, q)
  {
    match s.pc[q] {
      case Start => StartSound(capacity, s, q);
      case WaitIn(_) => WaitInSound(capacity, s, Body, q);
      case Reading(_) => ReadingSound(capacity, s, Body, q);
      case Got(_) => HeldSound(capacity, s, q);
      case Framed => FramedSound(capacity, s, Body, q);
      case Sending => SendingSound(capacity, s, Body, q);
      case Work(_) =>
        WorkAdvances(capacity, s, q);
        WorkSound(capacity, s, Body, q);
      case WaitOut(_) => WaitOutSound(capacity, s, Body, q);
      case Writing(_) => WritingSound(capacity, s, Body, q);
      case Wrote(_) => WroteSound(capacity, s, Body, q);
      case Counting => CountingSound(capacity, s, Body, q);
      case Check(_) => CheckSound(capacity, s, Body, q);
      case Crashed =>
    }
  }

  // ----- sound steps keep every part of the invariant

  /** Where the message at position `i` of place `x` was before a move from `a` to `b`. */
  function Source(s: State, a: Place, b: Place, x: Place, i: nat): (r: (Place, nat))
    requires Total(s)
  {
    if x == a then (a, i + 1) else if x == b && i == |s.at[b]| then (a, 0) else (x, i)
  }

  lemma MoveSource(s: State, q: Proc, e: Effect, pc: PC, x: Place, i: nat)
    requires WellFormed(s) && (e.Move? || e.Copy?) && Applicable(s, e)
    requires i < |AtAfter(s, e)[x]|
    ensures var (y, j) := Source(s, e.a, e.b, x, i);
            var m := AtAfter(s, e)[x][i];
            && j < |s.at[y]|
            && m.origin == s.at[y][j].origin && m.payload == s.at[y][j].payload
            && m.ptr == (if e.Copy? && y == e.a && j == 0 then s.next else s.at[y][j].ptr)
  {
  }

  /** A step changes the hands of its own process only. */
  lemma OtherHands(s: State, q: Proc, e: Effect, pc: PC, r: Proc)
    requires WellFormed(s) && Applicable(s, e) && Consistent(q, s.pc[q], e, pc) && r != q
    ensures AtAfter(s, e)[InHand(r)] == s.at[InHand(r)]
  {
  }

  /** A sound step as the lemmas below see it: they take from the invariant only what they need. */
  ghost predicate Moves(s: State, q: Proc, e: Effect, pc: PC) {
    WellFormed(s) && Applicable(s, e) && Consistent(q, s.pc[q], e, pc)
  }

  lemma ControlKept(capacity: nat, s: State, f: Contents, q: Proc, e: Effect, pc: PC)
    requires WellFormed(s) && Control(s) && Sound(capacity, s, f, q, e, pc)
    ensures WellFormed(Next(s, q, e, pc)) && Control(Next(s, q, e, pc))
  {
    NextWellFormed(s, q, e, pc);
    var s' := Next(s, q, e, pc);
    forall r: Proc
      ensures if Holding(s'.pc[r]) then Fits(r, s'.pc[r], s'.at[InHand(r)][0].origin) else Free(r, s'.pc[r])
    {
      if r != q {
        OtherHands(s, q, e, pc, r);
      }
    }
  }

  /** A pipe loses a message only to its reader. */
  lemma PipeKept(s: State, q: Proc, e: Effect, pc: PC, x: Pipe)
    requires Moves(s, q, e, pc)
    requires e.Move? && e.a == InPipe(x) ==> q == Reader(x)
    requires e.Copy? ==> !e.a.InPipe? && !e.b.InPipe?
    ensures q != Reader(x) && s.at[InPipe(x)] != [] ==> AtAfter(s, e)[InPipe(x)] != []
    ensures !e.Move? ==> AtAfter(s, e)[InPipe(x)] == s.at[InPipe(x)]
    ensures |AtAfter(s, e)[InPipe(x)]| <= |s.at[InPipe(x)]| + if e.Move? && e.b == InPipe(x) then 1 else 0
  {
    match e {
      case Move(a, b) => PipeByMove(s, a, b, x);
      case Copy(_, _, _) =>
      case _ => PipeOtherwise(s, e, x);
    }
  }

  lemma PipeByMove(s: State, a: Place, b: Place, x: Pipe)
    requires Total(s) && Applicable(s, Move(a, b))
    ensures AtAfter(s, Move(a, b))[InPipe(x)] ==
            if InPipe(x) == b then s.at[b] + [s.at[a][0]] else if InPipe(x) == a then s.at[a][1..] else s.at[InPipe(x)]
  {
  }

  lemma PipeOtherwise(s: State, e: Effect, x: Pipe)
    requires Total(s) && Applicable(s, e) && !e.Move? && !e.Copy?
    ensures AtAfter(s, e)[InPipe(x)] == s.at[InPipe(x)]
  {
  }

  lemma MoverIsReader(s: State, q: Proc, e: Effect, pc: PC)
    requires Moves(s, q, e, pc)
    requires e.Move? || e.Copy? ==> Advances(s, e.a, e.b)
    requires e.Copy? ==> e.a.OnWire? || e.b.OnWire?
    ensures e.Move? && e.a.InPipe? ==> q == Reader(e.a.pipe)
    ensures e.Copy? ==> !e.a.InPipe? && !e.b.InPipe?
  {
    if e.Move? && e.a.InPipe? {
      ReaderIsNext(e.a.pipe, s.at[e.a][0].origin);
    }
  }

  lemma ReadyNext(s: State, q: Proc, e: Effect, pc: PC, r: Proc)
    requires Moves(s, q, e, pc) && Control(s) && Ready(s) && s.pc[q := pc][r] != Start
    requires e.Move? && e.a.InPipe? ==> q == Reader(e.a.pipe)
    requires e.Copy? ==> !e.a.InPipe? && !e.b.InPipe?
    requires pc.WaitIn? || pc.Reading? ==> (e.Nop? || e.Take?) && s.at[InPipe(pc.src)] != []
    requires s.pc[q := pc][r].WaitIn? || s.pc[q := pc][r].Reading?
    ensures AtAfter(s, e)[InPipe(s.pc[q := pc][r].src)] != []
  {
    if r != q {
      assert Free(r, s.pc[r]);
      PipeKept(s, q, e, pc, s.pc[r].src);
    } else {
      PipeOtherwise(s, e, pc.src);
    }
  }

  lemma ReadyKept(capacity: nat, s: State, f: Contents, q: Proc, e: Effect, pc: PC)
    requires WellFormed(s) && Control(s) && Ready(s) && Sound(capacity, s, f, q, e, pc)
    ensures WellFormed(Next(s, q, e, pc)) && Ready(Next(s, q, e, pc))
  {
    NextWellFormed(s, q, e, pc);
    MoverIsReader(s, q, e, pc);
    var s' := Next(s, q, e, pc);
    forall r: Proc | s'.pc[r].WaitIn? || s'.pc[r].Reading?
      ensures s'.at[InPipe(s'.pc[r].src)] != []
    {
      ReadyNext(s, q, e, pc, r);
    }
  }

  lemma RoutedKept(capacity: nat, s: State, f: Contents, q: Proc, e: Effect, pc: PC)
    requires WellFormed(s) && Routed(s) && Sound(capacity, s, f, q, e, pc)
    ensures WellFormed(Next(s, q, e, pc)) && Routed(Next(s, q, e, pc))
  {
    NextWellFormed(s, q, e, pc);
    if e.Move? || e.Copy? {
      RoutedKeptByMove(s, q, e, pc);
    } else {
      RoutedKeptOtherwise(s, q, e, pc);
    }
  }

  /** Apart from moves, a step concerns the hands of its process only. */
  lemma PlaceOtherwise(s: State, q: Proc, e: Effect, pc: PC, x: Place)
    requires Moves(s, q, e, pc) && !e.Move? && !e.Copy? && x != InHand(q)
    ensures AtAfter(s, e)[x] == s.at[x]
  {
  }

  lemma RoutedKeptOtherwise(s: State, q: Proc, e: Effect, pc: PC)
    requires Moves(s, q, e, pc) && Routed(s) && !e.Move? && !e.Copy?
    ensures WellFormed(Next(s, q, e, pc)) && Routed(Next(s, q, e, pc))
  {
    NextWellFormed(s, q, e, pc);
    forall x: Place, i | 0 <= i < |AtAfter(s, e)[x]|
      ensures OnPath(x, AtAfter(s, e)[x][i].origin)
    {
      OriginOtherwise(s, q, e, pc, x, i);
    }
  }

  /** Apart from moves, a message keeps its protocol, or is new in the hands of the loop that made it. */
  lemma OriginOtherwise(s: State, q: Proc, e: Effect, pc: PC, x: Place, i: nat)
    requires Moves(s, q, e, pc) && !e.Move? && !e.Copy? && i < |AtAfter(s, e)[x]|
    ensures var origin := AtAfter(s, e)[x][i].origin;
            || (i < |s.at[x]| && origin == s.at[x][i].origin)
            || (e.Create? && x == InHand(Poll(e.p)) && origin == e.p)
  {
    if x != InHand(q) {
      PlaceOtherwise(s, q, e, pc, x);
    }
  }

  lemma RoutedKeptByMove(s: State, q: Proc, e: Effect, pc: PC)
    requires Moves(s, q, e, pc) && Routed(s) && (e.Move? || e.Copy?) && Advances(s, e.a, e.b)
    ensures WellFormed(Next(s, q, e, pc)) && Routed(Next(s, q, e, pc))
  {
    NextWellFormed(s, q, e, pc);
    var s' := Next(s, q, e, pc);
    forall x: Place, i | 0 <= i < |s'.at[x]|
      ensures OnPath(x, s'.at[x][i].origin)
    {
      MoveSource(s, q, e, pc, x, i);
    }
  }

  lemma LevelElsewhere(s: State, q: Proc, e: Effect, pc: PC, x: Place)
    requires Moves(s, q, e, pc) && x != InHand(q)
    ensures Total(Next(s, q, e, pc)) && LevelOf(Next(s, q, e, pc), x) == LevelOf(s, x)
  {
    NextWellFormed(s, q, e, pc);
  }

  /** From the hands of a process that is done to the pipe, and from the pipe to the hands of a process that
      is not yet, the level stays the same. */
  lemma LevelsMeet(a: Place, b: Place, p: Proto)
    requires Stage(a) < 16 && a == PlaceAt(Stage(a), p) && b == PlaceAt(Stage(a) + 1, p) && !b.OnWire? && !a.OnWire?
    ensures Level(a, a.InHand?) == Level(b, false)
  {
  }

  lemma ContentMoved(capacity: nat, s: State, f: Contents, q: Proc, e: Effect, pc: PC, x: Place, i: nat)
    requires Moves(s, q, e, pc) && SoundEffect(capacity, s, f, q, e, pc) && e.Move?
    requires WellFormed(Next(s, q, e, pc)) && i < |Next(s, q, e, pc).at[x]|
    requires var (y, j) := Source(s, e.a, e.b, x, i); j < |s.at[y]| ==> Contains(s, f, y, j)
    ensures Contains(Next(s, q, e, pc), f, x, i)
  {
    MoveSource(s, q, e, pc, x, i);
    if x != InHand(q) {
      LevelElsewhere(s, q, e, pc, x);
    }
    if Source(s, e.a, e.b, x, i) == (e.a, 0) {
      LevelsMeet(e.a, e.b, s.at[e.a][0].origin);
    }
  }

  lemma ContentCopied(capacity: nat, s: State, f: Contents, q: Proc, e: Effect, pc: PC, x: Place, i: nat)
    requires Moves(s, q, e, pc) && SoundEffect(capacity, s, f, q, e, pc) && e.Copy?
    requires WellFormed(Next(s, q, e, pc)) && i < |Next(s, q, e, pc).at[x]|
    requires var (y, j) := Source(s, e.a, e.b, x, i); j < |s.at[y]| ==> Contains(s, f, y, j)
    ensures Contains(Next(s, q, e, pc), f, x, i)
  {
    MoveSource(s, q, e, pc, x, i);
    if x != InHand(q) {
      LevelElsewhere(s, q, e, pc, x);
    }
  }

  lemma LayeredKeptByMove(capacity: nat, s: State, f: Contents, q: Proc, e: Effect, pc: PC)
    requires Moves(s, q, e, pc) && Layered(s, f) && SoundEffect(capacity, s, f, q, e, pc) && (e.Move? || e.Copy?)
    ensures WellFormed(Next(s, q, e, pc)) && Layered(Next(s, q, e, pc), f)
  {
    NextWellFormed(s, q, e, pc);
    forall x: Place, i | 0 <= i < |Next(s, q, e, pc).at[x]|
      ensures Contains(Next(s, q, e, pc), f, x, i)
    {
      if e.Move? {
        ContentMoved(capacity, s, f, q, e, pc, x, i);
      } else {
        ContentCopied(capacity, s, f, q, e, pc, x, i);
      }
    }
  }

  lemma ContentStays(capacity: nat, s: State, f: Contents, q: Proc, e: Effect, pc: PC, x: Place, i: nat)
    requires Moves(s, q, e, pc) && SoundEffect(capacity, s, f, q, e, pc) && !e.Move? && !e.Copy? && Owned(s)
    requires WellFormed(Next(s, q, e, pc)) && i < |Next(s, q, e, pc).at[x]|
    requires i < |s.at[x]| ==> Contains(s, f, x, i)
    ensures Contains(Next(s, q, e, pc), f, x, i)
  {
    if x != InHand(q) {
      ContentElsewhere(s, f, q, e, pc, x, i);
    } else {
      assert i == 0;
      ContentInHand(capacity, s, f, q, e, pc);
    }
  }

  lemma ContentInHand(capacity: nat, s: State, f: Contents, q: Proc, e: Effect, pc: PC)
    requires Moves(s, q, e, pc) && SoundEffect(capacity, s, f, q, e, pc) && !e.Move? && !e.Copy?
    requires WellFormed(Next(s, q, e, pc))
    requires s.at[InHand(q)] != [] ==> Contains(s, f, InHand(q), 0)
    ensures Next(s, q, e, pc).at[InHand(q)] != [] ==> Contains(Next(s, q, e, pc), f, InHand(q), 0)
  {
    match e {
      case Rewrite(_, content) => ContentRewritten(s, f, q, content, pc);
      case Create(p) => ContentCreated(s, f, q, p, pc);
      case Deliver(_) =>
      case Drop(_) =>
      case _ => ContentWaits(s, f, q, e, pc);
    }
  }

  lemma ContentRewritten(s: State, f: Contents, q: Proc, content: seq<byte>, pc: PC)
    requires Moves(s, q, Rewrite(q, content), pc) && Contains(s, f, InHand(q), 0) && Done(pc)
    requires content == f(Level(InHand(q), true), s.at[InHand(q)][0].origin, s.at[InHand(q)][0].payload)
    requires WellFormed(Next(s, q, Rewrite(q, content), pc))
    ensures Contains(Next(s, q, Rewrite(q, content), pc), f, InHand(q), 0)
  {
  }

  lemma ContentCreated(s: State, f: Contents, q: Proc, p: Proto, pc: PC)
    requires Moves(s, q, Create(p), pc) && s.plan[p][0] != [] && s.plan[p][0] == f(0, p, s.plan[p][0])
    requires WellFormed(Next(s, q, Create(p), pc))
    ensures Contains(Next(s, q, Create(p), pc), f, InHand(q), 0)
  {
    assert s.at[InHand(q)] == [];
  }

  lemma ContentWaits(s: State, f: Contents, q: Proc, e: Effect, pc: PC)
    requires Moves(s, q, e, pc) && (e.Nop? || e.Take? || e.Post? || e.Report?) && WellFormed(Next(s, q, e, pc))
    requires s.at[InHand(q)] != [] ==> Contains(s, f, InHand(q), 0) && (Done(s.pc[q]) <==> Done(pc))
    ensures s.at[InHand(q)] != [] ==> Contains(Next(s, q, e, pc), f, InHand(q), 0)
  {
    assert Next(s, q, e, pc).at == s.at && Next(s, q, e, pc).heap == s.heap;
  }

  lemma ContentElsewhere(s: State, f: Contents, q: Proc, e: Effect, pc: PC, x: Place, i: nat)
    requires Moves(s, q, e, pc) && !e.Move? && !e.Copy? && Owned(s) && x != InHand(q)
    requires WellFormed(Next(s, q, e, pc)) && i < |Next(s, q, e, pc).at[x]|
    requires i < |s.at[x]| ==> Contains(s, f, x, i)
    ensures Contains(Next(s, q, e, pc), f, x, i)
  {
    LevelElsewhere(s, q, e, pc, x);
    PlaceOtherwise(s, q, e, pc, x);
    BufferElsewhere(s, q, e, pc, x, i);
  }

  /** A buffer is rewritten by the process that holds its message only. */
  lemma BufferElsewhere(s: State, q: Proc, e: Effect, pc: PC, x: Place, i: nat)
    requires Moves(s, q, e, pc) && !e.Move? && !e.Copy? && Owned(s) && x != InHand(q) && i < |s.at[x]|
    ensures s.at[x][i].ptr in HeapAfter(s, e) && HeapAfter(s, e)[s.at[x][i].ptr] == s.heap[s.at[x][i].ptr]
  {
    assert s.at[x][i].ptr in s.heap && s.at[x][i].ptr < s.next;
    if e.Rewrite? {
      assert Apart(s.at, x, i, InHand(q), 0);
    }
  }

  lemma LayeredKept(capacity: nat, s: State, f: Contents, q: Proc, e: Effect, pc: PC)
    requires Moves(s, q, e, pc) && Layered(s, f) && Owned(s) && SoundEffect(capacity, s, f, q, e, pc)
    ensures WellFormed(Next(s, q, e, pc)) && Layered(Next(s, q, e, pc), f)
  {
    NextWellFormed(s, q, e, pc);
    if e.Move? || e.Copy? {
      LayeredKeptByMove(capacity, s, f, q, e, pc);
    } else {
      forall x: Place, i | 0 <= i < |Next(s, q, e, pc).at[x]|
        ensures Contains(Next(s, q, e, pc), f, x, i)
      {
        ContentStays(capacity, s, f, q, e, pc, x, i);
      }
    }
  }

  lemma ApartByMove(s: State, q: Proc, e: Effect, pc: PC, x: Place, i: nat, y: Place, j: nat)
    requires Moves(s, q, e, pc) && Owned(s) && (e.Move? || e.Copy?)
    requires i < |AtAfter(s, e)[x]| && j < |AtAfter(s, e)[y]|
    ensures Apart(AtAfter(s, e), x, i, y, j)
  {
    MoveSource(s, q, e, pc, x, i);
    MoveSource(s, q, e, pc, y, j);
    var (x', i') := Source(s, e.a, e.b, x, i);
    var (y', j') := Source(s, e.a, e.b, y, j);
    assert s.at[x'][i'].ptr < s.next && s.at[y'][j'].ptr < s.next;
    assert Apart(s.at, x', i', y', j');
  }

  lemma OwnedKept(s: State, q: Proc, e: Effect, pc: PC)
    requires Moves(s, q, e, pc) && Owned(s)
    ensures WellFormed(Next(s, q, e, pc)) && Owned(Next(s, q, e, pc))
  {
    NextWellFormed(s, q, e, pc);
    if e.Move? || e.Copy? {
      var s' := Next(s, q, e, pc);
      forall x: Place, i, y: Place, j | 0 <= i < |s'.at[x]| && 0 <= j < |s'.at[y]|
        ensures Apart(s'.at, x, i, y, j)
      {
        ApartByMove(s, q, e, pc, x, i, y, j);
      }
    } else {
      OwnedKeptOtherwise(s, q, e, pc);
    }
  }

  lemma OwnedKeptOtherwise(s: State, q: Proc, e: Effect, pc: PC)
    requires Moves(s, q, e, pc) && Owned(s) && !e.Move? && !e.Copy?
    ensures WellFormed(Next(s, q, e, pc)) && Owned(Next(s, q, e, pc))
  {
    NextWellFormed(s, q, e, pc);
    var s' := Next(s, q, e, pc);
    forall x: Place, i, y: Place, j | 0 <= i < |s'.at[x]| && 0 <= j < |s'.at[y]|
      ensures Apart(s'.at, x, i, y, j)
    {
      ApartOtherwise(s, q, e, pc, x, i, y, j);
    }
  }

  lemma ApartOtherwise(s: State, q: Proc, e: Effect, pc: PC, x: Place, i: nat, y: Place, j: nat)
    requires Moves(s, q, e, pc) && Owned(s) && !e.Move? && !e.Copy?
    requires i < |AtAfter(s, e)[x]| && j < |AtAfter(s, e)[y]|
    ensures Apart(AtAfter(s, e), x, i, y, j)
  {
    PtrOtherwise(s, q, e, pc, x, i);
    PtrOtherwise(s, q, e, pc, y, j);
    assert i < |s.at[x]| && j < |s.at[y]| ==> Apart(s.at, x, i, y, j);
  }

  /** Apart from moves, a message stays where it is, or is the new one in the hands of its creator. */
  lemma PtrOtherwise(s: State, q: Proc, e: Effect, pc: PC, x: Place, i: nat)
    requires Moves(s, q, e, pc) && !e.Move? && !e.Copy? && i < |AtAfter(s, e)[x]|
    ensures var ptr := AtAfter(s, e)[x][i].ptr;
            || (i < |s.at[x]| && ptr == s.at[x][i].ptr && ptr < s.next)
            || (x == InHand(q) && i == 0 && ptr == s.next)
  {
    if x != InHand(q) {
      PlaceOtherwise(s, q, e, pc, x);
    }
  }

  lemma SemaphoresKept(s: State, q: Proc, e: Effect, pc: PC)
    requires Moves(s, q, e, pc) && Semaphores(s) && KeepsSemaphores(q, s.pc[q], e, pc)
    ensures Total(Next(s, q, e, pc)) && Semaphores(Next(s, q, e, pc))
  {
    NextWellFormed(s, q, e, pc);
    var s' := Next(s, q, e, pc);
    forall x: Pipe
      ensures s'.sem[x] + Held(s', Reader(x), x) + Held(s', Writer(x), x) == 1
    {
      assert s.sem[x] + Held(s, Reader(x), x) + Held(s, Writer(x), x) == 1;
      SemaphoreKept(s, q, e, pc, x);
    }
  }

  lemma SemaphoreKept(s: State, q: Proc, e: Effect, pc: PC, x: Pipe)
    requires Total(s) && Applicable(s, e) && KeepsSemaphores(q, s.pc[q], e, pc)
    requires s.sem[x] + Held(s, Reader(x), x) + Held(s, Writer(x), x) == 1
    ensures SemAfter(s, e)[x] + HeldBy(s.pc[q := pc][Reader(x)], x) + HeldBy(s.pc[q := pc][Writer(x)], x) == 1
  {
    assert Reader(x) != Writer(x);
    SemAt(s, e, x);
    assert if e == Take(x) then (q == Reader(x) || q == Writer(x)) && HeldBy(s.pc[q], x) == 0 && HeldBy(pc, x) == 1
           else if e == Post(x) then (q == Reader(x) || q == Writer(x)) && HeldBy(s.pc[q], x) == 1 && HeldBy(pc, x) == 0
           else HeldBy(s.pc[q], x) == HeldBy(pc, x);
  }

  lemma SemAt(s: State, e: Effect, x: Pipe)
    requires Total(s) && Applicable(s, e)
    ensures SemAfter(s, e)[x] == if e == Take(x) then s.sem[x] - 1 else if e == Post(x) then s.sem[x] + 1 else s.sem[x]
  {
  }

  lemma BoundedKept(capacity: nat, s: State, f: Contents, q: Proc, e: Effect, pc: PC)
    requires WellFormed(s) && Bounded(capacity, s) && Sound(capacity, s, f, q, e, pc)
    ensures Total(Next(s, q, e, pc)) && Bounded(capacity, Next(s, q, e, pc))
  {
    NextWellFormed(s, q, e, pc);
    MoverIsReader(s, q, e, pc);
    forall x: Pipe
      ensures |Next(s, q, e, pc).at[InPipe(x)]| <= capacity
    {
      PipeKept(s, q, e, pc, x);
    }
  }

  /** One step of any process keeps the whole invariant. */
  lemma StepKeepsInv(capacity: nat, s: State, q: Proc)
    requires Inv(capacity, s) && PlanProper(s) && Enabled(capacity, s, q)
    ensures Inv(capacity, Step(capacity, s, q))
  {
    ActSound(capacity, s, q);
    var (e, pc) := Act(capacity, s, q).value;
    ControlKept(capacity, s, Body, q, e, pc);
    ReadyKept(capacity, s, Body, q, e, pc);
    RoutedKept(capacity, s, Body, q, e, pc);
    LayeredKept(capacity, s, Body, q, e, pc);
    OwnedKept(s, q, e, pc);
    SemaphoresKept(s, q, e, pc);
    BoundedKept(capacity, s, Body, q, e, pc);
  }
}
