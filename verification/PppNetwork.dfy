/** The process-per-protocol network of ppp.h, one direction: the four polling loops of the application, the
    eight `*_send_ppp` processes of one peer, the datagram wire, and the eight `*_deliver_ppp` processes of the
    other. Every process is deterministic given the shared state, so a run is just a sequence of process names:
    the scheduler. Each step is one semaphore, pipe, socket, message or counter operation. */
module PppNetwork {
  import opened Bytes
  import opened Layers
  import opened Options

  /** The pipes, each with its own semaphore: ftp/telnet/rdp/dns, tcp/tcp2/udp/udp2, ip/ip2, eth, and the same
      going up. `Trans(p)` is the pipe from the application process of `p` to its transport process. */
  datatype Pipe =
    | App(p: Proto) | Trans(p: Proto) | Net(t: Transport) | Eth
    | EthUp | NetUp(t: Transport) | TransUp(p: Proto)

  datatype Proc =
    | Poll(p: Proto) | AppSend(p: Proto) | TransSend(t: Transport) | IpSend | EthSend
    | EthDeliver | IpDeliver | TransDeliver(t: Transport) | AppDeliver(p: Proto)

  /** The places a message can be in. */
  datatype Place = InPipe(pipe: Pipe) | InHand(proc: Proc) | OnWire

  /** A message in transit: a pointer to its buffer, and, as history, the protocol and the payload it was
      created for. No step looks at the history. */
  datatype Item = Item(origin: Proto, payload: seq<byte>, ptr: nat)

  /** Where a process stands in its loop. */
  datatype PC =
    | Start                 // at `select`, at `recvfrom`, or about to create the next message
    | WaitIn(src: Pipe)     // past `select`, before `sem_wait` on the input
    | Reading(src: Pipe)    // input semaphore held, before `read`
    | Got(src: Pipe)        // message read, input semaphore still held
    | Framed                // eth_send only: header added, semaphore still held
    | Sending               // eth_send only: before `sendto`
    | Work(from: Place)     // header still to be added or stripped
    | WaitOut(dst: Pipe)    // before `sem_wait` on the output
    | Writing(dst: Pipe)    // output semaphore held, before `write`
    | Wrote(dst: Pipe)      // message written, output semaphore still held
    | Counting              // application deliver: before the counter is incremented
    | Check(k: nat)         // application deliver: about to read the k-th counter
    | Crashed               // read through a null header or of an empty list

  datatype State = State(
    plan: map<Proto, seq<seq<byte>>>,       // payloads the polling loops still have to create messages for
    at: map<Place, seq<Item>>,              // contents of pipes and wire, head first; messages held
    heap: map<nat, seq<byte>>,              // content of every message buffer and datagram
    next: nat,                              // first unused pointer
    sem: map<Pipe, nat>,
    pc: map<Proc, PC>,
    arrived: map<Proto, seq<seq<byte>>>,    // history: payloads of the messages delivered so far
    delivered: map<Proto, seq<seq<byte>>>,  // contents of the messages delivered so far
    count: map<Proto, nat>,                 // FTP_count2, Telnet_count2, RDP_count2, DNS_count2
    reports: map<Proto, nat>)               // completion reports printed by each deliver process

  /** The message structurally at hand: from the read (or creation) to the write (or delivery). */
  predicate Holding(pc: PC) {
    pc.Got? || pc.Framed? || pc.Sending? || pc.Work? || pc.WaitOut? || pc.Writing? || pc.Counting? || pc.Crashed?
  }

  ghost predicate Total(s: State) {
    && (forall p: Proto :: p in s.plan && p in s.arrived && p in s.delivered && p in s.count && p in s.reports)
    && (forall x: Place :: x in s.at)
    && (forall x: Pipe :: x in s.sem)
    && (forall q: Proc :: q in s.pc)
  }

  ghost predicate WellFormed(s: State) {
    && Total(s)
    && (forall q: Proc :: |s.at[InHand(q)]| == if Holding(s.pc[q]) then 1 else 0)
    && (forall x: Place, i :: 0 <= i < |s.at[x]| ==> s.at[x][i].ptr in s.heap && s.at[x][i].ptr < s.next)
  }

  // ----- the routing table

  function Inputs(q: Proc): seq<Pipe> {
    match q
    case Poll(_) => []
    case AppSend(p) => [App(p)]
    case TransSend(t) => if t == Tcp then [Trans(Ftp), Trans(Telnet)] else [Trans(Rdp), Trans(Dns)]
    case IpSend => [Net(Tcp), Net(Udp)]
    case EthSend => [Eth]
    case EthDeliver => []
    case IpDeliver => [EthUp]
    case TransDeliver(t) => [NetUp(t)]
    case AppDeliver(p) => [TransUp(p)]
  }

  // ----- what a process does to the message it holds

  datatype Result =
    | Forward(content: seq<byte>, dst: Pipe)
    | Keep(content: seq<byte>)
    | Discard
    | Fail

  /** Adding or stripping the header, and choosing the output pipe. The transport processes compute
      `datalength` on a fresh, empty message before they read (ppp.h:125-128, 244-247). */
  function Process(q: Proc, from: Place, b: seq<byte>): Result {
    match q
    case Poll(_) => Fail
    case AppSend(p) => Forward(Header(ProtoId(p), AppFiller(p), |b|) + b, Trans(p))
    case TransSend(t) =>
      if from.InPipe? && from.pipe.Trans? then
        Forward(Header(ProtoId(from.pipe.p), TRANSPORT_FILLER, 0) + b, Net(t))
      else Fail
    case IpSend =>
      if from.InPipe? && from.pipe.Net? then Forward(Header(TransportId(from.pipe.t), IP_FILLER, |b|) + b, Eth)
      else Fail
    case EthSend => Fail
    case EthDeliver =>
      (match StripBytes(b, ETH_SIZE)
       case Null => Forward(b, EthUp)
       case Undefined => Fail
       case Stripped(_, rest) => Forward(rest, EthUp))
    case IpDeliver =>
      (match StripBytes(b, IP_SIZE)
       case Null => Fail
       case Undefined => Fail
       case Stripped(hdr, rest) =>
         var t := TransportNamed(HlpAt(hdr, 0));
         if t == [] then Discard else Forward(rest, NetUp(t[0])))
    case TransDeliver(t) =>
      (match StripBytes(b, TRANSPORT_SIZE)
       case Null => Fail
       case Undefined => Fail
       case Stripped(hdr, rest) =>
         var p := ProtoNamed(t, HlpAt(hdr, 0));
         if p == [] then Discard else Forward(rest, TransUp(p[0])))
    case AppDeliver(p) =>
      (match StripBytes(b, AppSize(p))
       case Null => Keep(b)
       case Undefined => Fail
       case Stripped(_, rest) => Keep(rest))
  }

  function EthFrame(b: seq<byte>): seq<byte> {
    Header(IP_ID, ETH_FILLER, |b|) + b
  }

  // ----- steps: what a process would do next, and its effect on the shared state

  datatype Effect =
    | Nop
    | Take(x: Pipe)
    | Post(x: Pipe)
    | Move(a: Place, b: Place)                          // the first message of `a` goes to the end of `b`
    | Copy(a: Place, b: Place, content: seq<byte>)      // the same, through the socket: into a new buffer
    | Rewrite(q: Proc, content: seq<byte>)              // in place, in the buffer of the message held
    | Create(p: Proto)
    | Deliver(p: Proto)
    | Drop(q: Proc)
    | Report(p: Proto)

  function Content(s: State, x: Place): seq<byte>
    requires WellFormed(s) && s.at[x] != []
  {
    s.heap[s.at[x][0].ptr]
  }

  /** The top of the loop: `select` prefers the first input that is ready. */
  function Begin(s: State, q: Proc): (r: Option<(Effect, PC)>)
    requires WellFormed(s) && s.pc[q] == Start
    ensures r.Some? ==> Applicable(s, r.value.0) && Consistent(q, Start, r.value.0, r.value.1)
  {
    match q
    case Poll(p) => BeginPoll(s, p)
    case EthDeliver => BeginReceive(s)
    case _ =>
      var ready := FirstReady(s, Inputs(q));
      if ready == [] then None else Some((Nop, WaitIn(ready[0])))
  }

  /** A polling loop makes its next message. */
  function BeginPoll(s: State, p: Proto): (r: Option<(Effect, PC)>)
    requires WellFormed(s) && s.pc[Poll(p)] == Start
    ensures r.Some? ==> Applicable(s, r.value.0) && Consistent(Poll(p), Start, r.value.0, r.value.1)
  {
    if s.plan[p] == [] then None else Some((Create(p), WaitOut(App(p))))
  }

  /** `recvfrom`: the datagram arrives in a new buffer, cut off if it does not fit. */
  function BeginReceive(s: State): (r: Option<(Effect, PC)>)
    requires WellFormed(s)
    ensures r.Some? ==> Applicable(s, r.value.0) && Consistent(EthDeliver, Start, r.value.0, r.value.1)
  {
    if s.at[OnWire] == [] then None
    else Some((Copy(OnWire, InHand(EthDeliver), Clip(Content(s, OnWire))), Work(OnWire)))
  }

  /** The first of the given pipes that has a message waiting. */
  function FirstReady(s: State, ins: seq<Pipe>): (r: seq<Pipe>)
    requires Total(s)
    ensures r == [] <==> forall x :: x in ins ==> s.at[InPipe(x)] == []
    ensures r != [] ==> r[0] in ins && s.at[InPipe(r[0])] != []
  {
    if ins == [] then [] else if s.at[InPipe(ins[0])] != [] then [ins[0]] else FirstReady(s, ins[1..])
  }

  /** The input half of the loop: wait, read, post. */
  function ActInput(s: State, q: Proc): (r: Option<(Effect, PC)>)
    requires WellFormed(s) && (s.pc[q].WaitIn? || s.pc[q].Reading? || s.pc[q].Got?)
    ensures r.Some? ==> Applicable(s, r.value.0) && Consistent(q, s.pc[q], r.value.0, r.value.1)
  {
    match s.pc[q]
    case WaitIn(src) => if s.sem[src] == 0 then None else Some((Take(src), Reading(src)))
    case Reading(src) =>
      if s.at[InPipe(src)] == [] then None else Some((Move(InPipe(src), InHand(q)), Got(src)))
    case Got(src) =>
      if q == EthSend then Some((Rewrite(q, EthFrame(Content(s, InHand(q)))), Framed))
      else Some((Post(src), Work(InPipe(src))))
  }

  function ActWork(s: State, q: Proc): (r: Option<(Effect, PC)>)
    requires WellFormed(s) && s.pc[q].Work?
    ensures r.Some? && Applicable(s, r.value.0) && Consistent(q, s.pc[q], r.value.0, r.value.1)
  {
    match Process(q, s.pc[q].from, Content(s, InHand(q)))
    case Forward(content, dst) => Some((Rewrite(q, content), WaitOut(dst)))
    case Keep(content) => Some((Rewrite(q, content), Counting))
    case Discard => Some((Drop(q), Start))
    case Fail => Some((Nop, Crashed))
  }

  /** The output half: wait, write, post. */
  function ActOutput(capacity: nat, s: State, q: Proc): (r: Option<(Effect, PC)>)
    requires WellFormed(s) && (s.pc[q].WaitOut? || s.pc[q].Writing? || s.pc[q].Wrote?)
    ensures r.Some? ==> Applicable(s, r.value.0) && Consistent(q, s.pc[q], r.value.0, r.value.1)
  {
    match s.pc[q]
    case WaitOut(dst) => if s.sem[dst] == 0 then None else Some((Take(dst), Writing(dst)))
    case Writing(dst) =>
      if |s.at[InPipe(dst)]| >= capacity then None else Some((Move(InHand(q), InPipe(dst)), Wrote(dst)))
    case Wrote(dst) => Some((Post(dst), Start))
  }

  /** The completion test: four short-circuit reads. */
  function ActCheck(s: State, q: Proc): (r: Option<(Effect, PC)>)
    requires WellFormed(s) && s.pc[q].Check?
    ensures r.Some? ==> Applicable(s, r.value.0) && Consistent(q, s.pc[q], r.value.0, r.value.1)
  {
    var k := s.pc[q].k;
    if !q.AppDeliver? then None
    else if s.count[Counter(k)] != TOT_SEND then Some((Nop, Start))
    else if k < 3 then Some((Nop, Check(k + 1)))
    else Some((Report(q.p), Start))
  }

  function Act(capacity: nat, s: State, q: Proc): (r: Option<(Effect, PC)>)
    requires WellFormed(s)
    ensures r.Some? ==> Applicable(s, r.value.0) && Consistent(q, s.pc[q], r.value.0, r.value.1)
  {
    match s.pc[q]
    case Start => Begin(s, q)
    case WaitIn(_) => ActInput(s, q)
    case Reading(_) => ActInput(s, q)
    case Got(_) => ActInput(s, q)
    case Framed => Some((Post(Eth), Sending))
    case Sending => Some((Copy(InHand(q), OnWire, Content(s, InHand(q))), Start))
    case Work(_) => ActWork(s, q)
    case WaitOut(_) => ActOutput(capacity, s, q)
    case Writing(_) => ActOutput(capacity, s, q)
    case Wrote(_) => ActOutput(capacity, s, q)
    case Counting => if q.AppDeliver? then Some((Deliver(q.p), Check(0))) else None
    case Check(_) => ActCheck(s, q)
    case Crashed => None
  }

  ghost predicate Applicable(s: State, e: Effect)
    requires Total(s)
  {
    match e
    case Nop => true
    case Take(x) => s.sem[x] > 0
    case Post(x) => true
    case Move(a, b) => a != b && s.at[a] != []
    case Copy(a, b, _) => a != b && s.at[a] != []
    case Rewrite(q, _) => s.at[InHand(q)] != []
    case Create(p) => s.plan[p] != []
    case Deliver(p) => s.at[InHand(AppDeliver(p))] != [] && s.at[InHand(AppDeliver(p))][0].ptr in s.heap
    case Drop(q) => s.at[InHand(q)] != []
    case Report(p) => true
  }

  function PlanAfter(s: State, e: Effect): map<Proto, seq<seq<byte>>>
    requires Total(s) && Applicable(s, e)
  {
    match e
    case Create(p) => s.plan[p := s.plan[p][1..]]
    case _ => s.plan
  }

  function AtAfter(s: State, e: Effect): (at: map<Place, seq<Item>>)
    requires Total(s) && Applicable(s, e)
    ensures forall x: Place :: x in at
  {
    match e
    case Move(a, b) => s.at[a := s.at[a][1..]][b := s.at[b] + [s.at[a][0]]]
    case Copy(a, b, _) => s.at[a := s.at[a][1..]][b := s.at[b] + [s.at[a][0].(ptr := s.next)]]
    case Create(p) => s.at[InHand(Poll(p)) := s.at[InHand(Poll(p))] + [Item(p, s.plan[p][0], s.next)]]
    case Deliver(p) => s.at[InHand(AppDeliver(p)) := s.at[InHand(AppDeliver(p))][1..]]
    case Drop(q) => s.at[InHand(q) := s.at[InHand(q)][1..]]
    case _ => s.at
  }

  function HeapAfter(s: State, e: Effect): map<nat, seq<byte>>
    requires Total(s) && Applicable(s, e)
  {
    match e
    case Copy(_, _, content) => s.heap[s.next := content]
    case Rewrite(q, content) => s.heap[s.at[InHand(q)][0].ptr := content]
    case Create(p) => s.heap[s.next := s.plan[p][0]]
    case _ => s.heap
  }

  function SemAfter(s: State, e: Effect): (sem: map<Pipe, nat>)
    requires Total(s) && Applicable(s, e)
    ensures forall x: Pipe :: x in sem
  {
    match e
    case Take(x) => s.sem[x := s.sem[x] - 1]
    case Post(x) => s.sem[x := s.sem[x] + 1]
    case _ => s.sem
  }

  /** A message leaves the network with its content, and its counter is incremented. */
  function ArrivedAfter(s: State, e: Effect): map<Proto, seq<seq<byte>>>
    requires Total(s) && Applicable(s, e)
  {
    match e
    case Deliver(p) => s.arrived[p := s.arrived[p] + [s.at[InHand(AppDeliver(p))][0].payload]]
    case _ => s.arrived
  }

  function DeliveredAfter(s: State, e: Effect): map<Proto, seq<seq<byte>>>
    requires Total(s) && Applicable(s, e)
  {
    match e
    case Deliver(p) => s.delivered[p := s.delivered[p] + [s.heap[s.at[InHand(AppDeliver(p))][0].ptr]]]
    case _ => s.delivered
  }

  function CountAfter(count: map<Proto, nat>, e: Effect): map<Proto, nat>
    requires e.Deliver? ==> e.p in count
  {
    match e
    case Deliver(p) => count[p := count[p] + 1]
    case _ => count
  }

  function ReportsAfter(reports: map<Proto, nat>, e: Effect): map<Proto, nat>
    requires e.Report? ==> e.p in reports
  {
    match e
    case Report(p) => reports[p := reports[p] + 1]
    case _ => reports
  }

  /** An effect of process `q` changes what `q` holds, and nothing else any process holds, in step with the
      program counter. */
  predicate Consistent(q: Proc, before: PC, e: Effect, after: PC) {
    match e
    case Nop => Holding(before) == Holding(after)
    case Take(_) => Holding(before) == Holding(after)
    case Post(_) => Holding(before) == Holding(after)
    case Move(a, b) => Carries(q, before, a, b, after)
    case Copy(a, b, _) => Carries(q, before, a, b, after)
    case Rewrite(r, _) => r == q && Holding(before) && Holding(after)
    case Create(p) => q == Poll(p) && !Holding(before) && Holding(after)
    case Deliver(p) => q == AppDeliver(p) && Holding(before) && !Holding(after)
    case Drop(r) => r == q && Holding(before) && !Holding(after)
    case Report(_) => Holding(before) == Holding(after)
  }

  predicate Carries(q: Proc, before: PC, a: Place, b: Place, after: PC) {
    || (!a.InHand? && b == InHand(q) && !Holding(before) && Holding(after))
    || (a == InHand(q) && !b.InHand? && Holding(before) && !Holding(after))
  }

  /** The state after an effect, with process `q` at `pc`. */
  function Next(s: State, q: Proc, e: Effect, pc: PC): (s': State)
    requires Total(s) && Applicable(s, e)
    ensures Total(s')
  {
    State(PlanAfter(s, e), AtAfter(s, e), HeapAfter(s, e),
          if e.Copy? || e.Create? then s.next + 1 else s.next,
          SemAfter(s, e), s.pc[q := pc],
          ArrivedAfter(s, e), DeliveredAfter(s, e), CountAfter(s.count, e), ReportsAfter(s.reports, e))
  }

  lemma NextWellFormed(s: State, q: Proc, e: Effect, pc: PC)
    requires WellFormed(s) && Applicable(s, e) && Consistent(q, s.pc[q], e, pc)
    ensures WellFormed(Next(s, q, e, pc))
  {
    match e {
      case Move(a, b) => MoveWellFormed(s, q, a, b, pc);
      case Copy(a, b, content) => CopyWellFormed(s, q, a, b, content, pc);
      case Create(p) => CreateWellFormed(s, q, p, pc);
      case Deliver(p) => DeliverWellFormed(s, q, p, pc);
      case _ =>
    }
  }

  lemma CreateWellFormed(s: State, q: Proc, p: Proto, pc: PC)
    requires WellFormed(s) && Applicable(s, Create(p)) && q == Poll(p) && !Holding(s.pc[q]) && Holding(pc)
    ensures WellFormed(Next(s, q, Create(p), pc))
  {
    var s' := Next(s, q, Create(p), pc);
    forall x: Place, i | 0 <= i < |s'.at[x]|
      ensures s'.at[x][i].ptr in s'.heap && s'.at[x][i].ptr < s'.next
    {
      assert x != InHand(q) ==> s'.at[x] == s.at[x];
    }
  }

  lemma DeliverWellFormed(s: State, q: Proc, p: Proto, pc: PC)
    requires WellFormed(s) && Applicable(s, Deliver(p)) && q == AppDeliver(p) && Holding(s.pc[q]) && !Holding(pc)
    ensures WellFormed(Next(s, q, Deliver(p), pc))
  {
    var s' := Next(s, q, Deliver(p), pc);
    forall x: Place, i | 0 <= i < |s'.at[x]|
      ensures s'.at[x][i].ptr in s'.heap && s'.at[x][i].ptr < s'.next
    {
      assert x != InHand(q) ==> s'.at[x] == s.at[x];
    }
  }

  lemma MoveWellFormed(s: State, q: Proc, a: Place, b: Place, pc: PC)
    requires WellFormed(s) && Applicable(s, Move(a, b)) && Carries(q, s.pc[q], a, b, pc)
    ensures WellFormed(Next(s, q, Move(a, b), pc))
  {
    var s' := Next(s, q, Move(a, b), pc);
    forall x: Place, i | 0 <= i < |s'.at[x]|
      ensures s'.at[x][i].ptr in s'.heap && s'.at[x][i].ptr < s'.next
    {
      if x == a {
        assert s'.at[x][i] == s.at[a][i + 1];
      } else if x == b && i == |s.at[b]| {
        assert s'.at[x][i] == s.at[a][0];
      } else {
        assert s'.at[x][i] == s.at[x][i];
      }
    }
  }

  lemma CopyWellFormed(s: State, q: Proc, a: Place, b: Place, content: seq<byte>, pc: PC)
    requires WellFormed(s) && Applicable(s, Copy(a, b, content)) && Carries(q, s.pc[q], a, b, pc)
    ensures WellFormed(Next(s, q, Copy(a, b, content), pc))
  {
    var s' := Next(s, q, Copy(a, b, content), pc);
    forall x: Place, i | 0 <= i < |s'.at[x]|
      ensures s'.at[x][i].ptr in s'.heap && s'.at[x][i].ptr < s'.next
    {
      if x == a {
        assert s'.at[x][i] == s.at[a][i + 1];
      } else if x == b && i == |s.at[b]| {
        assert s'.at[x][i].ptr == s.next;
      } else {
        assert s'.at[x][i] == s.at[x][i];
      }
    }
  }

  predicate Enabled(capacity: nat, s: State, q: Proc)
    requires WellFormed(s)
  {
    Act(capacity, s, q).Some?
  }

  /** One step of process `q`. */
  function Step(capacity: nat, s: State, q: Proc): (s': State)
    requires WellFormed(s) && Enabled(capacity, s, q)
    ensures WellFormed(s')
  {
    var (e, pc) := Act(capacity, s, q).value;
    NextWellFormed(s, q, e, pc);
    Next(s, q, e, pc)
  }

  /** A schedule that can be followed from `s`, and the state it leads to. */
  predicate Feasible(capacity: nat, s: State, schedule: seq<Proc>)
    requires WellFormed(s)
    decreases |schedule|, 0
  {
    if schedule == [] then true
    else
      var n := |schedule| - 1;
      Feasible(capacity, s, schedule[..n]) && Enabled(capacity, Run(capacity, s, schedule[..n]), schedule[n])
  }

  function Run(capacity: nat, s: State, schedule: seq<Proc>): (s': State)
    requires WellFormed(s) && Feasible(capacity, s, schedule)
    ensures WellFormed(s')
    decreases |schedule|, 1
  {
    if schedule == [] then s
    else
      var n := |schedule| - 1;
      Step(capacity, Run(capacity, s, schedule[..n]), schedule[n])
  }

  // ----- the initial state

  const ALL_PROTOS: set<Proto> := {Ftp, Telnet, Rdp, Dns}

  const ALL_PIPES: set<Pipe> :=
    {App(Ftp), App(Telnet), App(Rdp), App(Dns), Trans(Ftp), Trans(Telnet), Trans(Rdp), Trans(Dns),
     Net(Tcp), Net(Udp), Eth, EthUp, NetUp(Tcp), NetUp(Udp),
     TransUp(Ftp), TransUp(Telnet), TransUp(Rdp), TransUp(Dns)}

  const ALL_PROCS: set<Proc> :=
    {Poll(Ftp), Poll(Telnet), Poll(Rdp), Poll(Dns), AppSend(Ftp), AppSend(Telnet), AppSend(Rdp), AppSend(Dns),
     TransSend(Tcp), TransSend(Udp), IpSend, EthSend, EthDeliver, IpDeliver, TransDeliver(Tcp), TransDeliver(Udp),
     AppDeliver(Ftp), AppDeliver(Telnet), AppDeliver(Rdp), AppDeliver(Dns)}

  function AllPlaces(): set<Place> {
    (set x | x in ALL_PIPES :: InPipe(x)) + (set q | q in ALL_PROCS :: InHand(q)) + {OnWire}
  }

  lemma AllListed()
    ensures forall p: Proto :: p in ALL_PROTOS
    ensures forall x: Pipe :: x in ALL_PIPES
    ensures forall q: Proc :: q in ALL_PROCS
    ensures forall x: Place :: x in AllPlaces()
  {
    forall p: Proto ensures p in ALL_PROTOS {
      match p { case Ftp => case Telnet => case Rdp => case Dns => }
    }
    forall x: Pipe ensures x in ALL_PIPES {
      match x {
        case App(p) => match p { case Ftp => case Telnet => case Rdp => case Dns => }
        case Trans(p) => match p { case Ftp => case Telnet => case Rdp => case Dns => }
        case TransUp(p) => match p { case Ftp => case Telnet => case Rdp => case Dns => }
        case Net(t) => match t { case Tcp => case Udp => }
        case NetUp(t) => match t { case Tcp => case Udp => }
        case Eth =>
        case EthUp =>
      }
    }
    forall q: Proc ensures q in ALL_PROCS {
      match q {
        case Poll(p) => match p { case Ftp => case Telnet => case Rdp => case Dns => }
        case AppSend(p) => match p { case Ftp => case Telnet => case Rdp => case Dns => }
        case AppDeliver(p) => match p { case Ftp => case Telnet => case Rdp => case Dns => }
        case TransSend(t) => match t { case Tcp => case Udp => }
        case TransDeliver(t) => match t { case Tcp => case Udp => }
        case _ =>
      }
    }
    forall x: Place ensures x in AllPlaces() {
      match x {
        case InPipe(_) =>
        case InHand(_) =>
        case OnWire =>
      }
    }
  }

  /** What the four polling loops are going to send. */
  type Plan = map<Proto, seq<seq<byte>>>

  ghost predicate ProperPlan(plan: Plan) {
    && (forall p: Proto :: p in plan)
    && (forall p: Proto, i :: 0 <= i < |plan[p]| ==> plan[p][i] != [])
  }

  function Init(plan: Plan): (s: State)
    requires ProperPlan(plan)
    ensures WellFormed(s)
  {
    AllListed();
    State(plan,
          map x | x in AllPlaces() :: [],
          map[], 0,
          map x | x in ALL_PIPES :: 1,
          map q | q in ALL_PROCS :: Start,
          map p | p in ALL_PROTOS :: [],
          map p | p in ALL_PROTOS :: [],
          map p | p in ALL_PROTOS :: 0,
          map p | p in ALL_PROTOS :: 0)
  }

  /** No step leads out of the set. */
  ghost predicate Closed(capacity: nat, r: iset<State>) {
    forall s: State, q: Proc :: s in r && WellFormed(s) && Enabled(capacity, s, q) ==> Step(capacity, s, q) in r
  }

  /** The reachable states: those in every set that contains the initial state and that no step leaves. */
  ghost predicate Reachable(capacity: nat, plan: Plan, s: State)
    requires ProperPlan(plan)
  {
    forall r: iset<State> :: Init(plan) in r && Closed(capacity, r) ==> s in r
  }

  ghost predicate Leads(capacity: nat, plan: Plan, schedule: seq<Proc>, s: State)
    requires ProperPlan(plan)
  {
    Feasible(capacity, Init(plan), schedule) && Run(capacity, Init(plan), schedule) == s
  }

  lemma InitReachable(capacity: nat, plan: Plan)
    requires ProperPlan(plan)
    ensures Reachable(capacity, plan, Init(plan))
  {
  }

  lemma RunSnoc(capacity: nat, s: State, schedule: seq<Proc>, q: Proc)
    requires WellFormed(s) && Feasible(capacity, s, schedule) && Enabled(capacity, Run(capacity, s, schedule), q)
    ensures Feasible(capacity, s, schedule + [q])
    ensures Run(capacity, s, schedule + [q]) == Step(capacity, Run(capacity, s, schedule), q)
  {
    var longer := schedule + [q];
    assert longer[..|longer| - 1] == schedule && longer[|longer| - 1] == q;
  }

  lemma ReachStep(capacity: nat, plan: Plan, s: State, q: Proc)
    requires ProperPlan(plan) && Reachable(capacity, plan, s) && WellFormed(s) && Enabled(capacity, s, q)
    ensures Reachable(capacity, plan, Step(capacity, s, q))
  {
  }

  lemma {:induction false} RunReachable(capacity: nat, plan: Plan, schedule: seq<Proc>)
    requires ProperPlan(plan) && Feasible(capacity, Init(plan), schedule)
    ensures Reachable(capacity, plan, Run(capacity, Init(plan), schedule))
    decreases |schedule|
  {
    if schedule == [] {
      InitReachable(capacity, plan);
    } else {
      var n := |schedule| - 1;
      RunReachable(capacity, plan, schedule[..n]);
      ReachStep(capacity, plan, Run(capacity, Init(plan), schedule[..n]), schedule[n]);
    }
  }

  /** Some schedule leads to the state. */
  ghost predicate Scheduled(capacity: nat, plan: Plan, s: State)
    requires ProperPlan(plan)
  {
    exists schedule :: Leads(capacity, plan, schedule, s)
  }

  lemma LeadsOn(capacity: nat, plan: Plan, schedule: seq<Proc>, q: Proc)
    requires ProperPlan(plan) && Feasible(capacity, Init(plan), schedule)
    requires Enabled(capacity, Run(capacity, Init(plan), schedule), q)
    ensures Scheduled(capacity, plan, Step(capacity, Run(capacity, Init(plan), schedule), q))
  {
    RunSnoc(capacity, Init(plan), schedule, q);
    assert Leads(capacity, plan, schedule + [q], Run(capacity, Init(plan), schedule + [q]));
  }

  lemma ScheduledClosed(capacity: nat, plan: Plan)
    requires ProperPlan(plan)
    ensures Closed(capacity, iset s: State | Scheduled(capacity, plan, s))
  {
    forall s: State, q: Proc | Scheduled(capacity, plan, s) && WellFormed(s) && Enabled(capacity, s, q)
      ensures Scheduled(capacity, plan, Step(capacity, s, q))
    {
      var schedule :| Leads(capacity, plan, schedule, s);
      LeadsOn(capacity, plan, schedule, q);
    }
  }

  lemma ReachableScheduled(capacity: nat, plan: Plan, s: State)
    requires ProperPlan(plan) && Reachable(capacity, plan, s)
    ensures Scheduled(capacity, plan, s)
  {
    ScheduledClosed(capacity, plan);
    assert Leads(capacity, plan, [], Init(plan));
    assert s in iset s: State | Scheduled(capacity, plan, s);
  }

  /** The reachable states are those that some schedule leads to. */
  lemma ReachableIff(capacity: nat, plan: Plan, s: State)
    requires ProperPlan(plan)
    ensures Reachable(capacity, plan, s) <==> Scheduled(capacity, plan, s)
  {
    if Scheduled(capacity, plan, s) {
      var schedule :| Leads(capacity, plan, schedule, s);
      RunReachable(capacity, plan, schedule);
    } else if Reachable(capacity, plan, s) {
      ReachableScheduled(capacity, plan, s);
    }
  }
}
