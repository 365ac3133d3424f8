/** All interleavings of the threads of ppm.h: one thread for each message sent, the receiving loop, and one
    thread for each datagram received, over a wire that may lose and reorder datagrams. The counters are shared
    and incremented without a lock, as a load and a store. */
module PpmRuns {
  import opened Bytes
  import opened Counting
  import opened Layers
  import P = Ppm

  datatype SenderPC = Ready | Holding | Emitted | Gone

  /** A sending thread; the send chain runs on its own message, so its frame is already determined. */
  datatype Sender = Sender(frame: seq<byte>, pc: SenderPC)

  datatype HandlerPC = Fresh | Loaded(reg: nat) | Test(k: nat) | Finished

  datatype Handler = Handler(p: Proto, data: seq<byte>, pc: HandlerPC)

  /** The handler threads and what they share. */
  datatype Desk = Desk(handlers: seq<Handler>, count: map<Proto, nat>, reports: nat)

  datatype State = State(
    submitted: seq<(Proto, seq<byte>)>,   // history: the calls of ppm::send
    senders: seq<Sender>,
    sem: nat,                             // sendsem
    sent: seq<seq<byte>>,                 // history: everything handed to the network
    wire: multiset<seq<byte>>,
    cur: nat,                             // datagrams the receiving loop has taken
    received: seq<seq<byte>>,             // history: those a handler was started for
    desk: Desk,                           // one handler for each of these
    crashed: bool)                        // a thread has read through a null header or of an empty list

  datatype Action =
    | Submit(id: int, payload: seq<byte>, avail: bool)
    | Acquire(i: nat)
    | Emit(i: nat, ok: bool)                            // `sendto`, which may fail
    | Release(i: nat)
    | Lose(datagram: seq<byte>)
    | Receive(datagram: seq<byte>, avail: bool)
    | Work(h: nat)                                      // the next step of a handler

  ghost predicate Counts(d: Desk) {
    forall p: Proto :: p in d.count
  }

  ghost predicate WellFormed(s: State) {
    Counts(s.desk)
  }

  predicate Workable(d: Desk, h: nat) {
    h < |d.handlers| && d.handlers[h].pc != Finished
  }

  predicate Possible(tot: nat, s: State, a: Action) {
    && !s.crashed
    && match a
       case Submit(_, _, _) => true
       case Acquire(i) => i < |s.senders| && s.senders[i].pc == Ready && s.sem > 0
       case Emit(i, _) => i < |s.senders| && s.senders[i].pc == Holding
       case Release(i) => i < |s.senders| && s.senders[i].pc == Emitted
       case Lose(d) => d in s.wire
       case Receive(d, _) => d in s.wire && s.cur < tot
       case Work(h) => Workable(s.desk, h)
  }

  function Submitted(s: State, id: int, payload: seq<byte>, avail: bool): State {
    var p := P.Sendable(id);
    if p == [] then s
    else
      s.(submitted := s.submitted + [(p[0], payload)],
         senders := if avail then s.senders + [Sender(PpmFrame(p[0], payload), Ready)] else s.senders)
  }

  function Moved(l: seq<Sender>, i: nat, pc: SenderPC): (r: seq<Sender>)
    requires i < |l|
    ensures |r| == |l|
  {
    l[i := l[i].(pc := pc)]
  }

  function Sent(s: State, i: nat): State
    requires i < |s.senders|
  {
    s.(senders := Moved(s.senders, i, Emitted),
       sent := s.sent + [s.senders[i].frame], wire := s.wire + multiset{s.senders[i].frame})
  }

  function Taken(s: State, d: seq<byte>, avail: bool): State {
    var s' := s.(wire := s.wire - multiset{d}, cur := s.cur + 1);
    if !avail then s'
    else
      match DeliverEth(Clip(d))
      case Handed(p, data) => s'.(received := s.received + [d], desk := Started(s.desk, Handler(p, data, Fresh)))
      case Discarded => s'
      case Fault => s'.(crashed := true)
  }

  function Started(d: Desk, x: Handler): Desk {
    d.(handlers := d.handlers + [x])
  }

  /** A handler loads its counter, stores it incremented, and reads the four counters one by one. */
  function Handle(d: Desk, h: nat): (d': Desk)
    requires Counts(d) && Workable(d, h)
    ensures Counts(d') && |d'.handlers| == |d.handlers|
  {
    var x := d.handlers[h];
    match x.pc
    case Fresh => d.(handlers := d.handlers[h := x.(pc := Loaded(d.count[x.p]))])
    case Loaded(reg) => d.(handlers := d.handlers[h := x.(pc := Test(0))], count := d.count[x.p := reg + 1])
    case Test(k) =>
      if d.count[Counter(k)] != TOT_SEND then d.(handlers := d.handlers[h := x.(pc := Finished)])
      else if k < 3 then d.(handlers := d.handlers[h := x.(pc := Test(k + 1))])
      else d.(handlers := d.handlers[h := x.(pc := Finished)], reports := d.reports + 1)
  }

  function After(tot: nat, s: State, a: Action): (s': State)
    requires WellFormed(s) && Possible(tot, s, a)
    ensures WellFormed(s')
  {
    match a
    case Submit(id, payload, avail) => Submitted(s, id, payload, avail)
    case Acquire(i) => s.(senders := Moved(s.senders, i, Holding), sem := s.sem - 1)
    case Emit(i, ok) => if ok then Sent(s, i) else s.(senders := Moved(s.senders, i, Emitted))
    case Release(i) => s.(senders := Moved(s.senders, i, Gone), sem := s.sem + 1)
    case Lose(d) => s.(wire := s.wire - multiset{d})
    case Receive(d, avail) => Taken(s, d, avail)
    case Work(h) => s.(desk := Handle(s.desk, h))
  }

  const ZERO: map<Proto, nat> := map[Ftp := 0, Telnet := 0, Rdp := 0, Dns := 0]

  lemma ZeroTotal()
    ensures forall p: Proto :: p in ZERO && ZERO[p] == 0
  {
    forall p: Proto
      ensures p in ZERO && ZERO[p] == 0
    {
      match p { case Ftp => case Telnet => case Rdp => case Dns => }
    }
  }

  function Init(): (s: State)
    ensures WellFormed(s)
  {
    ZeroTotal();
    State([], [], 1, [], multiset{}, 0, [], Desk([], ZERO, 0), false)
  }

  predicate Feasible(tot: nat, run: seq<Action>)
    decreases |run|, 0
  {
    if run == [] then true
    else
      var n := |run| - 1;
      Feasible(tot, run[..n]) && Possible(tot, Run(tot, run[..n]), run[n])
  }

  function Run(tot: nat, run: seq<Action>): (s: State)
    requires Feasible(tot, run)
    ensures WellFormed(s)
    decreases |run|, 1
  {
    if run == [] then Init()
    else
      var n := |run| - 1;
      After(tot, Run(tot, run[..n]), run[n])
  }

  lemma RunSnoc(tot: nat, run: seq<Action>, a: Action)
    requires Feasible(tot, run) && Possible(tot, Run(tot, run), a)
    ensures Feasible(tot, run + [a]) && Run(tot, run + [a]) == After(tot, Run(tot, run), a)
  {
    var longer := run + [a];
    assert longer[..|longer| - 1] == run;
  }

  // ----- every frame is sent at most once, and received at most as often as it is sent

  /** The thread is still going to send this frame. */
  function Unsent(f: seq<byte>): Sender -> bool {
    (x: Sender) => x.frame == f && (x.pc == Ready || x.pc == Holding)
  }

  ghost predicate SentOnce(submitted: seq<(Proto, seq<byte>)>, senders: seq<Sender>, sent: seq<seq<byte>>,
                           f: seq<byte>)
  {
    multiset(sent)[f] + HowMany(senders, Unsent(f)) <= multiset(Frames(submitted))[f]
  }

  ghost predicate TakenOnce(sent: seq<seq<byte>>, wire: multiset<seq<byte>>, received: seq<seq<byte>>, f: seq<byte>) {
    multiset(received)[f] + wire[f] <= multiset(sent)[f]
  }

  lemma SubmitKeepsSent(submitted: seq<(Proto, seq<byte>)>, senders: seq<Sender>, sent: seq<seq<byte>>,
                        x: (Proto, seq<byte>), f: seq<byte>)
    requires SentOnce(submitted, senders, sent, f)
    ensures SentOnce(submitted + [x], senders, sent, f)
    ensures SentOnce(submitted + [x], senders + [Sender(PpmFrame(x.0, x.1), Ready)], sent, f)
  {
    FramesMore(submitted, x);
    OneMore(Frames(submitted), PpmFrame(x.0, x.1), f);
    HowManyMore(senders, Sender(PpmFrame(x.0, x.1), Ready), Unsent(f));
  }

  lemma EmitKeepsSent(submitted: seq<(Proto, seq<byte>)>, senders: seq<Sender>, sent: seq<seq<byte>>,
                      i: nat, f: seq<byte>)
    requires i < |senders| && senders[i].pc == Holding && SentOnce(submitted, senders, sent, f)
    ensures SentOnce(submitted, Moved(senders, i, Emitted), sent + [senders[i].frame], f)
  {
    HowManyUpdate(senders, i, senders[i].(pc := Emitted), Unsent(f));
    OneMore(sent, senders[i].frame, f);
  }

  /** A sender moves on without sending anything. */
  lemma MoveKeepsSent(submitted: seq<(Proto, seq<byte>)>, senders: seq<Sender>, sent: seq<seq<byte>>,
                      i: nat, pc: SenderPC, f: seq<byte>)
    requires i < |senders| && SentOnce(submitted, senders, sent, f)
    requires if senders[i].pc == Ready then pc != Gone else pc == Emitted || pc == Gone
    ensures SentOnce(submitted, Moved(senders, i, pc), sent, f)
  {
    HowManyUpdate(senders, i, senders[i].(pc := pc), Unsent(f));
  }

  lemma SubmitKeepsFrames(s: State, id: int, payload: seq<byte>, avail: bool, f: seq<byte>)
    requires SentOnce(s.submitted, s.senders, s.sent, f)
    ensures var s' := Submitted(s, id, payload, avail); SentOnce(s'.submitted, s'.senders, s'.sent, f)
  {
    var p := P.Sendable(id);
    if p != [] {
      SubmitKeepsSent(s.submitted, s.senders, s.sent, (p[0], payload), f);
    }
  }

  /** These actions concern neither the senders nor what was sent. */
  lemma SendersUntouched(tot: nat, s: State, a: Action)
    requires WellFormed(s) && Possible(tot, s, a) && (a.Lose? || a.Receive? || a.Work?)
    ensures var s' := After(tot, s, a);
            && s'.submitted == s.submitted && s'.senders == s.senders && s'.sent == s.sent && s'.sem == s.sem
  {
  }

  lemma SentOnceKept(tot: nat, s: State, a: Action, f: seq<byte>)
    requires WellFormed(s) && Possible(tot, s, a) && SentOnce(s.submitted, s.senders, s.sent, f)
    ensures var s' := After(tot, s, a); SentOnce(s'.submitted, s'.senders, s'.sent, f)
  {
    match a {
      case Submit(id, payload, avail) => SubmitKeepsFrames(s, id, payload, avail, f);
      case Acquire(i) => MoveKeepsSent(s.submitted, s.senders, s.sent, i, Holding, f);
      case Emit(i, ok) =>
        EmitKeepsSent(s.submitted, s.senders, s.sent, i, f);
        MoveKeepsSent(s.submitted, s.senders, s.sent, i, Emitted, f);
      case Release(i) => MoveKeepsSent(s.submitted, s.senders, s.sent, i, Gone, f);
      case _ => SendersUntouched(tot, s, a);
    }
  }

  lemma SentKeepsTaken(s: State, i: nat, f: seq<byte>)
    requires i < |s.senders| && TakenOnce(s.sent, s.wire, s.received, f)
    ensures var s' := Sent(s, i); TakenOnce(s'.sent, s'.wire, s'.received, f)
  {
    OneMore(s.sent, s.senders[i].frame, f);
  }

  lemma TakenKeepsTaken(s: State, d: seq<byte>, avail: bool, f: seq<byte>)
    requires d in s.wire && TakenOnce(s.sent, s.wire, s.received, f)
    ensures var s' := Taken(s, d, avail); TakenOnce(s'.sent, s'.wire, s'.received, f)
  {
    OneMore(s.received, d, f);
  }

  lemma LoseKeepsTaken(sent: seq<seq<byte>>, wire: multiset<seq<byte>>, received: seq<seq<byte>>,
                       d: seq<byte>, f: seq<byte>)
    requires TakenOnce(sent, wire, received, f)
    ensures TakenOnce(sent, wire - multiset{d}, received, f)
  {
  }

  lemma WireUntouched(tot: nat, s: State, a: Action)
    requires WellFormed(s) && Possible(tot, s, a) && !a.Lose? && !a.Receive? && !(a.Emit? && a.ok)
    ensures var s' := After(tot, s, a);
            && s'.sent == s.sent && s'.wire == s.wire && s'.received == s.received && s'.crashed == s.crashed
  {
  }

  lemma TakenOnceKept(tot: nat, s: State, a: Action, f: seq<byte>)
    requires WellFormed(s) && Possible(tot, s, a) && TakenOnce(s.sent, s.wire, s.received, f)
    ensures var s' := After(tot, s, a); TakenOnce(s'.sent, s'.wire, s'.received, f)
  {
    if a.Lose? {
      LoseKeepsTaken(s.sent, s.wire, s.received, a.datagram, f);
    } else if a.Receive? {
      TakenKeepsTaken(s, a.datagram, a.avail, f);
    } else if a.Emit? && a.ok {
      SentKeepsTaken(s, a.i, f);
    } else {
      WireUntouched(tot, s, a);
    }
  }

  // ----- one thread at a time is in `sendto`

  predicate Inside(x: Sender) {
    x.pc == Holding || x.pc == Emitted
  }

  ghost predicate OneSends(senders: seq<Sender>, sem: nat) {
    && sem <= 1
    && (forall i :: 0 <= i < |senders| && Inside(senders[i]) ==> sem == 0)
    && (forall i, j ::
          (0 <= i < |senders| && 0 <= j < |senders| && Inside(senders[i]) && Inside(senders[j])) ==> i == j)
  }

  lemma MoveKeepsOneSends(senders: seq<Sender>, sem: nat, i: nat, pc: SenderPC, sem': nat)
    requires OneSends(senders, sem) && i < |senders|
    requires if senders[i].pc == Ready then pc == Holding && sem == 1 && sem' == 0
             else if senders[i].pc == Holding then pc == Emitted && sem' == sem
             else senders[i].pc == Emitted && pc == Gone && sem' == sem + 1
    ensures OneSends(Moved(senders, i, pc), sem')
  {
    assert senders[i].pc != Ready ==> Inside(senders[i]);
  }

  lemma OneSendsKept(tot: nat, s: State, a: Action)
    requires WellFormed(s) && Possible(tot, s, a) && OneSends(s.senders, s.sem)
    ensures var s' := After(tot, s, a); OneSends(s'.senders, s'.sem)
  {
    match a {
      case Submit(_, _, _) =>
      case Acquire(i) => MoveKeepsOneSends(s.senders, s.sem, i, Holding, s.sem - 1);
      case Emit(i, _) => MoveKeepsOneSends(s.senders, s.sem, i, Emitted, s.sem);
      case Release(i) => MoveKeepsOneSends(s.senders, s.sem, i, Gone, s.sem + 1);
      case _ => SendersUntouched(tot, s, a);
    }
  }

  // ----- what the handlers get

  /** A handler was started with what the deliver chain makes of the datagram received. */
  ghost predicate HandlerFits(d: seq<byte>, x: Handler) {
    DeliverEth(Clip(d)) == Handed(x.p, x.data)
  }

  ghost predicate HandlersFit(received: seq<seq<byte>>, handlers: seq<Handler>) {
    |handlers| == |received| && forall i :: 0 <= i < |received| ==> HandlerFits(received[i], handlers[i])
  }

  lemma HandlersFitKept(tot: nat, s: State, a: Action)
    requires WellFormed(s) && Possible(tot, s, a) && HandlersFit(s.received, s.desk.handlers)
    ensures var s' := After(tot, s, a); HandlersFit(s'.received, s'.desk.handlers)
  {
    match a {
      case Receive(d, avail) =>
      case Work(h) => WorkKeepsHandlers(s.received, s.desk, h);
      case _ => DeskUntouched(tot, s, a);
    }
  }

  lemma DeskUntouched(tot: nat, s: State, a: Action)
    requires WellFormed(s) && Possible(tot, s, a) && !a.Receive? && !a.Work?
    ensures After(tot, s, a).desk == s.desk && After(tot, s, a).received == s.received
  {
  }

  lemma WorkKeepsHandlers(received: seq<seq<byte>>, d: Desk, h: nat)
    requires Counts(d) && Workable(d, h) && HandlersFit(received, d.handlers)
    ensures HandlersFit(received, Handle(d, h).handlers)
  {
    forall i | 0 <= i < |received|
      ensures HandlerFits(received[i], Handle(d, h).handlers[i])
    {
      assert HandlerFits(received[i], d.handlers[i]);
    }
  }

  // ----- all of this in every run

  ghost predicate Inv(s: State) {
    && WellFormed(s) && OneSends(s.senders, s.sem) && HandlersFit(s.received, s.desk.handlers)
    && (forall f: seq<byte> :: SentOnce(s.submitted, s.senders, s.sent, f))
    && (forall f: seq<byte> :: TakenOnce(s.sent, s.wire, s.received, f))
  }

  lemma StepKeepsInv(tot: nat, s: State, a: Action)
    requires Inv(s) && Possible(tot, s, a)
    ensures Inv(After(tot, s, a))
  {
    var s' := After(tot, s, a);
    OneSendsKept(tot, s, a);
    HandlersFitKept(tot, s, a);
    forall f: seq<byte>
      ensures SentOnce(s'.submitted, s'.senders, s'.sent, f)
    {
      SentOnceKept(tot, s, a, f);
    }
    forall f: seq<byte>
      ensures TakenOnce(s'.sent, s'.wire, s'.received, f)
    {
      TakenOnceKept(tot, s, a, f);
    }
  }

  lemma {:induction false} RunKeepsInv(tot: nat, run: seq<Action>)
    requires Feasible(tot, run)
    ensures Inv(Run(tot, run))
    decreases |run|
  {
    if run != [] {
      var n := |run| - 1;
      RunKeepsInv(tot, run[..n]);
      StepKeepsInv(tot, Run(tot, run[..n]), run[n]);
    }
  }

  lemma ReceivedWithin(s: State)
    requires Inv(s)
    ensures multiset(s.received) + s.wire <= multiset(s.sent) <= multiset(Frames(s.submitted))
  {
    forall f: seq<byte>
      ensures multiset(s.received)[f] + s.wire[f] <= multiset(s.sent)[f] <= multiset(Frames(s.submitted))[f]
    {
      assert SentOnce(s.submitted, s.senders, s.sent, f);
      assert TakenOnce(s.sent, s.wire, s.received, f);
    }
  }

  /** What goes out is, at most once each, the frames of what was submitted, from one thread at a time. */
  lemma SentAtMostOnce(tot: nat, run: seq<Action>)
    requires Feasible(tot, run)
    ensures var s := Run(tot, run); multiset(s.sent) <= multiset(Frames(s.submitted)) && OneSends(s.senders, s.sem)
  {
    RunKeepsInv(tot, run);
    ReceivedWithin(Run(tot, run));
  }

  // ----- what is delivered is what was submitted

  function Mapped<A, B>(g: A -> B, l: seq<A>): (r: seq<B>)
    ensures |r| == |l|
  {
    seq(|l|, i requires 0 <= i < |l| => g(l[i]))
  }

  lemma Without<A>(l: seq<A>, i: nat)
    requires i < |l|
    ensures multiset(l) == multiset(l[..i] + l[i + 1..]) + multiset{l[i]}
  {
    assert l == l[..i] + [l[i]] + l[i + 1..];
  }

  lemma StillWithin<A>(a: multiset<A>, b: multiset<A>, a': multiset<A>, b': multiset<A>, x: A)
    requires a <= b && a == a' + multiset{x} && b == b' + multiset{x}
    ensures a' <= b'
  {
    forall y
      ensures a'[y] <= b'[y]
    {
      assert a[y] <= b[y];
    }
  }

  lemma MappedWithout<A(!new), B>(g: A -> B, l: seq<A>, i: nat)
    requires i < |l|
    ensures multiset(Mapped(g, l)) == multiset(Mapped(g, l[..i] + l[i + 1..])) + multiset{g(l[i])}
  {
    Without(Mapped(g, l), i);
    assert Mapped(g, l)[..i] + Mapped(g, l)[i + 1..] == Mapped(g, l[..i] + l[i + 1..]);
  }

  /** Applying a function to both sides keeps one list within the other. */
  lemma {:induction false} MappedWithin<A(!new), B>(g: A -> B, a: seq<A>, b: seq<A>)
    requires multiset(a) <= multiset(b)
    ensures multiset(Mapped(g, a)) <= multiset(Mapped(g, b))
  {
    if a != [] {
      var n := |a| - 1;
      assert a[n] in multiset(a);
      var i :| 0 <= i < |b| && b[i] == a[n];
      var rest := b[..i] + b[i + 1..];
      Without(a, n);
      Without(b, i);
      assert a[..n] + a[n + 1..] == a[..n];
      StillWithin(multiset(a), multiset(b), multiset(a[..n]), multiset(rest), a[n]);
      MappedWithin(g, a[..n], rest);
      MappedWithout(g, a, n);
      MappedWithout(g, b, i);
    }
  }

  /** What reaches the handlers, as protocols and payloads. */
  function Delivered(handlers: seq<Handler>): (r: seq<(Proto, seq<byte>)>)
    ensures |r| == |handlers|
  {
    seq(|handlers|, i requires 0 <= i < |handlers| => (handlers[i].p, handlers[i].data))
  }

  /** What the receive buffer leaves of what was submitted. */
  function Expected(l: seq<(Proto, seq<byte>)>): (r: seq<(Proto, seq<byte>)>)
    ensures |r| == |l|
  {
    seq(|l|, i requires 0 <= i < |l| => (l[i].0, Received(l[i].0, l[i].1)))
  }

  /** The submissions with something to deliver. */
  function NonEmpty(l: seq<(Proto, seq<byte>)>): (r: seq<(Proto, seq<byte>)>)
    ensures forall i :: 0 <= i < |r| ==> r[i].1 != []
    ensures (forall i :: 0 <= i < |l| ==> l[i].1 != []) ==> r == l
  {
    if l == [] then []
    else
      var n := |l| - 1;
      assert l == l[..n] + [l[n]];
      if l[n].1 == [] then NonEmpty(l[..n]) else NonEmpty(l[..n]) + [l[n]]
  }

  lemma WalkedFrame(p: Proto, payload: seq<byte>, f: seq<byte>)
    requires DeliverEth(Clip(f)) != Fault && f == PpmFrame(p, payload)
    ensures payload != []
  {
    RoundTrip(p, payload, |AppPacket(p, payload)|);
  }

  lemma FrameCount(l: seq<(Proto, seq<byte>)>, x: (Proto, seq<byte>), f: seq<byte>)
    ensures multiset(Frames(l + [x]))[f] == multiset(Frames(l))[f] + if PpmFrame(x.0, x.1) == f then 1 else 0
  {
    FramesMore(l, x);
    OneMore(Frames(l), PpmFrame(x.0, x.1), f);
  }

  lemma NonEmptyMore(l: seq<(Proto, seq<byte>)>, x: (Proto, seq<byte>))
    ensures NonEmpty(l + [x]) == if x.1 == [] then NonEmpty(l) else NonEmpty(l) + [x]
  {
    assert (l + [x])[..|l|] == l;
  }

  lemma WalkedMore(l: seq<(Proto, seq<byte>)>, x: (Proto, seq<byte>), f: seq<byte>)
    requires DeliverEth(Clip(f)) != Fault
    requires multiset(Frames(l))[f] == multiset(Frames(NonEmpty(l)))[f]
    ensures multiset(Frames(l + [x]))[f] == multiset(Frames(NonEmpty(l + [x])))[f]
  {
    NonEmptyMore(l, x);
    FrameCount(l, x, f);
    if x.1 == [] {
      if PpmFrame(x.0, x.1) == f {
        WalkedFrame(x.0, x.1, f);
      }
    } else {
      FrameCount(NonEmpty(l), x, f);
    }
  }

  /** A datagram that the deliver chain can walk is no frame of an empty payload. */
  lemma {:induction false} WalkedNonEmpty(l: seq<(Proto, seq<byte>)>, f: seq<byte>)
    requires DeliverEth(Clip(f)) != Fault
    ensures multiset(Frames(l))[f] == multiset(Frames(NonEmpty(l)))[f]
  {
    if l == [] {
      assert NonEmpty(l) == l;
    } else {
      var n := |l| - 1;
      assert l == l[..n] + [l[n]];
      WalkedNonEmpty(l[..n], f);
      WalkedMore(l[..n], l[n], f);
    }
  }

  function HandedOver(d: seq<byte>): (Proto, seq<byte>) {
    match DeliverEth(Clip(d))
    case Handed(p, data) => (p, data)
    case _ => (Ftp, [])
  }

  lemma FrameHandedOver(p: Proto, payload: seq<byte>)
    requires payload != []
    ensures DeliverEth(Clip(PpmFrame(p, payload))) == Handed(p, Received(p, payload))
    ensures HandedOver(PpmFrame(p, payload)) == (p, Received(p, payload))
  {
    RoundTrip(p, payload, |AppPacket(p, payload)|);
  }

  lemma ExpectedOfFrames(l: seq<(Proto, seq<byte>)>)
    requires forall i :: 0 <= i < |l| ==> l[i].1 != []
    ensures Mapped(HandedOver, Frames(l)) == Expected(l)
  {
    forall i | 0 <= i < |l|
      ensures Mapped(HandedOver, Frames(l))[i] == Expected(l)[i]
    {
      FrameHandedOver(l[i].0, l[i].1);
    }
  }

  lemma DeliveredOfReceived(received: seq<seq<byte>>, handlers: seq<Handler>)
    requires HandlersFit(received, handlers)
    ensures Mapped(HandedOver, received) == Delivered(handlers)
  {
    forall i | 0 <= i < |received|
      ensures Mapped(HandedOver, received)[i] == Delivered(handlers)[i]
    {
      assert HandlerFits(received[i], handlers[i]);
      assert HandedOver(received[i]) == (handlers[i].p, handlers[i].data);
    }
  }

  lemma ReceivedNonEmpty(s: State)
    requires Inv(s)
    ensures multiset(s.received) <= multiset(Frames(NonEmpty(s.submitted)))
  {
    ReceivedWithin(s);
    forall f: seq<byte> | f in s.received
      ensures multiset(s.received)[f] <= multiset(Frames(NonEmpty(s.submitted)))[f]
    {
      var i :| 0 <= i < |s.received| && s.received[i] == f;
      assert HandlerFits(s.received[i], s.desk.handlers[i]);
      WalkedNonEmpty(s.submitted, f);
    }
  }

  /** The receiving loop stops after `tot` datagrams, with at most one handler for each. */
  lemma {:induction false} ReceivedAtMostTot(tot: nat, run: seq<Action>)
    requires Feasible(tot, run)
    ensures |Run(tot, run).received| <= Run(tot, run).cur <= tot
    decreases |run|
  {
    if run != [] {
      var n := |run| - 1;
      ReceivedAtMostTot(tot, run[..n]);
      ReceivedNext(tot, Run(tot, run[..n]), run[n]);
    }
  }

  lemma ReceivedNext(tot: nat, s: State, a: Action)
    requires WellFormed(s) && Possible(tot, s, a) && |s.received| <= s.cur <= tot
    ensures |After(tot, s, a).received| <= After(tot, s, a).cur <= tot
  {
  }

  /** What the handlers get is, at most once each, what was submitted, for its own protocol; nothing is made up. */
  lemma DeliveredAtMostOnce(tot: nat, run: seq<Action>)
    requires Feasible(tot, run)
    ensures var s := Run(tot, run);
            && multiset(Delivered(s.desk.handlers)) <= multiset(Expected(NonEmpty(s.submitted)))
            && |s.desk.handlers| <= tot
  {
    RunKeepsInv(tot, run);
    ReceivedAtMostTot(tot, run);
    var s := Run(tot, run);
    ReceivedNonEmpty(s);
    MappedWithin(HandedOver, s.received, Frames(NonEmpty(s.submitted)));
    ExpectedOfFrames(NonEmpty(s.submitted));
    DeliveredOfReceived(s.received, s.desk.handlers);
  }

  // ----- what crashes a thread

  ghost predicate HasEmpty(l: seq<(Proto, seq<byte>)>) {
    exists i :: 0 <= i < |l| && l[i].1 == []
  }

  lemma FaultIsEmpty(s: State, d: seq<byte>)
    requires Inv(s) && d in s.wire && DeliverEth(Clip(d)) == Fault
    ensures HasEmpty(s.submitted)
  {
    ReceivedWithin(s);
    assert d in multiset(Frames(s.submitted));
    var i :| 0 <= i < |s.submitted| && Frames(s.submitted)[i] == d;
    var (p, payload) := s.submitted[i];
    RoundTrip(p, payload, |AppPacket(p, payload)|);
  }

  lemma SubmittedKept(tot: nat, s: State, a: Action)
    requires WellFormed(s) && Possible(tot, s, a)
    ensures s.submitted <= After(tot, s, a).submitted
  {
  }

  lemma {:induction false} CrashNeedsEmpty(tot: nat, run: seq<Action>)
    requires Feasible(tot, run) && Run(tot, run).crashed
    ensures tot > 0 && HasEmpty(Run(tot, run).submitted)
    decreases |run|
  {
    if run != [] {
      var n := |run| - 1;
      var s := Run(tot, run[..n]);
      RunKeepsInv(tot, run[..n]);
      SubmittedKept(tot, s, run[n]);
      CrashingStep(tot, s, run[n]);
    }
  }

  lemma CrashingStep(tot: nat, s: State, a: Action)
    requires Inv(s) && Possible(tot, s, a) && After(tot, s, a).crashed
    ensures tot > 0 && HasEmpty(After(tot, s, a).submitted)
  {
    match a {
      case Receive(d, _) =>
        SendersUntouched(tot, s, a);
        FaultIsEmpty(s, d);
      case _ =>
    }
  }

  lemma KnownId(p: Proto)
    ensures P.Sendable(ProtoId(p)) == [p]
  {
  }

  /** All of a list submitted, each with a thread of its own, and nothing else done. */
  ghost predicate AllReady(s: State, plan: seq<(Proto, seq<byte>)>) {
    && s.submitted == plan && !s.crashed && s.sem == 1 && s.cur == 0 && s.wire == multiset{} && s.desk == Init().desk
    && |s.senders| == |plan|
    && forall i :: 0 <= i < |plan| ==> s.senders[i] == Sender(PpmFrame(plan[i].0, plan[i].1), Ready)
  }

  lemma ReadyMore(s: State, plan: seq<(Proto, seq<byte>)>, p: Proto, payload: seq<byte>)
    requires AllReady(s, plan)
    ensures AllReady(Submitted(s, ProtoId(p), payload, true), plan + [(p, payload)])
  {
    KnownId(p);
  }

  lemma SubmitOn(tot: nat, run: seq<Action>, p: Proto, payload: seq<byte>)
    requires Feasible(tot, run) && !Run(tot, run).crashed
    ensures Feasible(tot, run + [Submit(ProtoId(p), payload, true)])
    ensures Run(tot, run + [Submit(ProtoId(p), payload, true)]) == Submitted(Run(tot, run), ProtoId(p), payload, true)
  {
    RunSnoc(tot, run, Submit(ProtoId(p), payload, true));
  }

  lemma {:induction false} SubmitAll(tot: nat, plan: seq<(Proto, seq<byte>)>) returns (run: seq<Action>)
    ensures Feasible(tot, run) && AllReady(Run(tot, run), plan)
    decreases |plan|
  {
    if plan == [] {
      run := [];
    } else {
      var n := |plan| - 1;
      var (p, payload) := plan[n];
      var before := SubmitAll(tot, plan[..n]);
      ReadyMore(Run(tot, before), plan[..n], p, payload);
      assert plan[..n] + [(p, payload)] == plan;
      SubmitOn(tot, before, p, payload);
      run := before + [Submit(ProtoId(p), payload, true)];
    }
  }

  /** A thread that is ready goes through `sendto`, which may fail, and frees the semaphore again. */
  lemma Pass(tot: nat, run: seq<Action>, i: nat, ok: bool) returns (run': seq<Action>)
    requires Feasible(tot, run) && !Run(tot, run).crashed && Run(tot, run).sem > 0
    requires i < |Run(tot, run).senders| && Run(tot, run).senders[i].pc == Ready
    ensures Feasible(tot, run')
    ensures var s := Run(tot, run);
            var f := s.senders[i].frame;
            var s' := s.(senders := Moved(s.senders, i, Gone));
            Run(tot, run') == if ok then s'.(sent := s.sent + [f], wire := s.wire + multiset{f}) else s'
  {
    RunSnoc(tot, run, Acquire(i));
    run' := run + [Acquire(i)];
    RunSnoc(tot, run', Emit(i, ok));
    run' := run' + [Emit(i, ok)];
    RunSnoc(tot, run', Release(i));
    run' := run' + [Release(i)];
    SenderGone(Run(tot, run), i);
  }

  lemma SenderGone(s: State, i: nat)
    requires i < |s.senders|
    ensures Moved(Moved(Moved(s.senders, i, Holding), i, Emitted), i, Gone) == Moved(s.senders, i, Gone)
    ensures Moved(s.senders, i, Holding)[i].frame == s.senders[i].frame
  {
  }

  ghost predicate Crashes(tot: nat, plan: seq<(Proto, seq<byte>)>, run: seq<Action>) {
    Feasible(tot, run) && Run(tot, run).submitted == plan && Run(tot, run).crashed
  }

  /** A frame with an empty payload is sent, and crashes the thread that handles it. */
  lemma EmptyCrashes(tot: nat, run: seq<Action>, i: nat, p: Proto) returns (run': seq<Action>)
    requires tot > 0 && Feasible(tot, run) && !Run(tot, run).crashed && Run(tot, run).sem > 0 && Run(tot, run).cur == 0
    requires i < |Run(tot, run).senders| && Run(tot, run).senders[i] == Sender(PpmFrame(p, []), Ready)
    ensures Feasible(tot, run') && Run(tot, run').crashed && Run(tot, run').submitted == Run(tot, run).submitted
  {
    run' := Pass(tot, run, i, true);
    RoundTrip(p, [], |AppPacket(p, [])|);
    RunSnoc(tot, run', Receive(PpmFrame(p, []), true));
    run' := run' + [Receive(PpmFrame(p, []), true)];
  }

  /** Whatever is submitted: some interleaving crashes a thread exactly if one of the payloads is empty, and the
      receiving loop takes anything at all. */
  lemma CrashIff(tot: nat, plan: seq<(Proto, seq<byte>)>)
    ensures (exists run :: Crashes(tot, plan, run)) <==> tot > 0 && HasEmpty(plan)
  {
    if tot > 0 && HasEmpty(plan) {
      var i :| 0 <= i < |plan| && plan[i].1 == [];
      var run := SubmitAll(tot, plan);
      run := EmptyCrashes(tot, run, i, plan[i].0);
      assert Crashes(tot, plan, run);
    } else if run :| Crashes(tot, plan, run) {
      CrashNeedsEmpty(tot, run);
      assert false;
    }
  }
}
