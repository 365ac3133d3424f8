/** The books of ppm.h: every thread, datagram and handler of a run is accounted for by the actions of the run. */
module PpmLedger {
  import opened Bytes
  import opened Layers
  import opened PpmRuns

  /** What the actions of a run contribute, in order. */
  function Collect<B>(run: seq<Action>, f: Action -> seq<B>): seq<B> {
    if run == [] then [] else Collect(run[..|run| - 1], f) + f(run[|run| - 1])
  }

  /** The calls of `ppm::send` for a protocol it knows. */
  function Calls(): Action -> seq<(Proto, seq<byte>)> {
    (a: Action) =>
      if a.Submit? && P.Sendable(a.id) != [] then [(P.Sendable(a.id)[0], a.payload)] else []
  }

  /** Those for which a thread was free. */
  function Accepted(): Action -> seq<(Proto, seq<byte>)> {
    (a: Action) => if a.Submit? && a.avail then Calls()(a) else []
  }

  /** The threads whose `sendto` succeeded. */
  function Senders(): Action -> seq<nat> {
    (a: Action) => if a.Emit? && a.ok then [a.i] else []
  }

  /** The datagrams the wire lost. */
  function Losses(): Action -> seq<seq<byte>> {
    (a: Action) => if a.Lose? then [a.datagram] else []
  }

  /** The datagrams the receiving loop took. */
  function Receipts(): Action -> seq<seq<byte>> {
    (a: Action) => if a.Receive? then [a.datagram] else []
  }

  /** What the deliver chain made of those for which a thread was free. */
  function Deliveries(): Action -> seq<(Proto, seq<byte>)> {
    (a: Action) => if a.Receive? && a.avail then P.Logged(DeliverEth(Clip(a.datagram))) else []
  }

  /** Whether that went wrong. */
  function Faults(): Action -> seq<seq<byte>> {
    (a: Action) => if a.Receive? && a.avail && DeliverEth(Clip(a.datagram)) == Fault then [a.datagram] else []
  }

  function FramesOf(senders: seq<Sender>): (r: seq<seq<byte>>)
    ensures |r| == |senders|
  {
    seq(|senders|, i requires 0 <= i < |senders| => senders[i].frame)
  }

  // ----- threads

  lemma ThreadsNext(tot: nat, s: State, a: Action)
    requires WellFormed(s) && Possible(tot, s, a)
    ensures After(tot, s, a).submitted == s.submitted + Calls()(a)
    ensures FramesOf(After(tot, s, a).senders) == FramesOf(s.senders) + Frames(Accepted()(a))
  {
    match a {
      case Submit(id, payload, avail) =>
        var p := P.Sendable(id);
        assert p != [] ==> Frames([(p[0], payload)]) == [PpmFrame(p[0], payload)];
      case _ => assert FramesOf(After(tot, s, a).senders) == FramesOf(s.senders);
    }
  }

  lemma FramesConcat(l: seq<(Proto, seq<byte>)>, m: seq<(Proto, seq<byte>)>)
    ensures Frames(l + m) == Frames(l) + Frames(m)
  {
  }

  /** In every run: the submissions are the calls, and there is one thread for each call that found one free, with
      the frame of that call. */
  lemma {:induction false} ThreadsAccounted(tot: nat, run: seq<Action>)
    requires Feasible(tot, run)
    ensures Run(tot, run).submitted == Collect(run, Calls())
    ensures FramesOf(Run(tot, run).senders) == Frames(Collect(run, Accepted()))
    decreases |run|
  {
    if run != [] {
      var n := |run| - 1;
      ThreadsAccounted(tot, run[..n]);
      ThreadsNext(tot, Run(tot, run[..n]), run[n]);
      FramesConcat(Collect(run[..n], Accepted()), Accepted()(run[n]));
    }
  }

  /** What was sent, and by which threads: each at most once, and only while it was in `sendto`. */
  ghost predicate SentBy(sent: seq<seq<byte>>, senders: seq<Sender>, who: seq<nat>) {
    && |sent| == |who|
    && (forall k :: 0 <= k < |who| ==> SentFrom(sent[k], senders, who[k]))
    && (forall k, l :: 0 <= k < l < |who| ==> who[k] != who[l])
  }

  predicate SentFrom(frame: seq<byte>, senders: seq<Sender>, i: nat) {
    i < |senders| && frame == senders[i].frame && (senders[i].pc == Emitted || senders[i].pc == Gone)
  }

  /** Threads are added, and go on, but keep their frames. */
  ghost predicate Goes(senders: seq<Sender>, senders': seq<Sender>) {
    && |senders| <= |senders'|
    && forall i :: 0 <= i < |senders| ==>
         && senders'[i].frame == senders[i].frame
         && (senders[i].pc == Emitted || senders[i].pc == Gone ==> senders'[i].pc == Emitted || senders'[i].pc == Gone)
  }

  lemma SendersGo(tot: nat, s: State, a: Action)
    requires WellFormed(s) && Possible(tot, s, a)
    ensures Goes(s.senders, After(tot, s, a).senders)
    ensures After(tot, s, a).sent == s.sent + if a.Emit? && a.ok then [s.senders[a.i].frame] else []
  {
  }

  lemma SentByNext(tot: nat, s: State, a: Action, who: seq<nat>)
    requires WellFormed(s) && Possible(tot, s, a) && SentBy(s.sent, s.senders, who)
    ensures SentBy(After(tot, s, a).sent, After(tot, s, a).senders, who + Senders()(a))
  {
    var s' := After(tot, s, a);
    SendersGo(tot, s, a);
    forall k | 0 <= k < |who|
      ensures SentFrom(s.sent[k], s'.senders, who[k]) && (a.Emit? ==> who[k] != a.i)
    {
      assert SentFrom(s.sent[k], s.senders, who[k]);
    }
  }

  // ----- datagrams

  /** What was sent is on the wire, lost, or received. */
  ghost predicate Balanced(sent: seq<seq<byte>>, wire: multiset<seq<byte>>,
                           lost: seq<seq<byte>>, taken: seq<seq<byte>>)
  {
    multiset(sent) == wire + multiset(lost) + multiset(taken)
  }

  lemma OneSent(sent: seq<seq<byte>>, wire: multiset<seq<byte>>, lost: seq<seq<byte>>, taken: seq<seq<byte>>,
                d: seq<byte>)
    requires Balanced(sent, wire, lost, taken)
    ensures Balanced(sent + [d], wire + multiset{d}, lost, taken)
  {
  }

  lemma OneLost(sent: seq<seq<byte>>, wire: multiset<seq<byte>>, lost: seq<seq<byte>>, taken: seq<seq<byte>>,
                d: seq<byte>)
    requires Balanced(sent, wire, lost, taken) && d in wire
    ensures Balanced(sent, wire - multiset{d}, lost + [d], taken)
  {
    assert multiset(lost + [d]) == multiset(lost) + multiset{d};
  }

  lemma OneTaken(sent: seq<seq<byte>>, wire: multiset<seq<byte>>, lost: seq<seq<byte>>, taken: seq<seq<byte>>,
                 d: seq<byte>)
    requires Balanced(sent, wire, lost, taken) && d in wire
    ensures Balanced(sent, wire - multiset{d}, lost, taken + [d])
  {
    assert multiset(taken + [d]) == multiset(taken) + multiset{d};
  }

  lemma BalancedNext(tot: nat, s: State, a: Action, lost: seq<seq<byte>>, taken: seq<seq<byte>>)
    requires WellFormed(s) && Possible(tot, s, a) && Balanced(s.sent, s.wire, lost, taken)
    ensures var s' := After(tot, s, a); Balanced(s'.sent, s'.wire, lost + Losses()(a), taken + Receipts()(a))
  {
    assert lost + [] == lost && taken + [] == taken;
    if a.Lose? {
      OneLost(s.sent, s.wire, lost, taken, a.datagram);
    } else if a.Receive? {
      OneTaken(s.sent, s.wire, lost, taken, a.datagram);
    } else if a.Emit? && a.ok {
      OneSent(s.sent, s.wire, lost, taken, s.senders[a.i].frame);
    } else {
      WireUntouched(tot, s, a);
    }
  }

  /** In every run: what was sent is what the threads that succeeded in `sendto` had to send, and of it each copy is
      still on the wire, was lost, or was received. */
  lemma {:induction false} DatagramsAccounted(tot: nat, run: seq<Action>)
    requires Feasible(tot, run)
    ensures var s := Run(tot, run);
            && SentBy(s.sent, s.senders, Collect(run, Senders()))
            && Balanced(s.sent, s.wire, Collect(run, Losses()), Collect(run, Receipts()))
    decreases |run|
  {
    if run != [] {
      var n := |run| - 1;
      DatagramsAccounted(tot, run[..n]);
      SentByNext(tot, Run(tot, run[..n]), run[n], Collect(run[..n], Senders()));
      BalancedNext(tot, Run(tot, run[..n]), run[n], Collect(run[..n], Losses()), Collect(run[..n], Receipts()));
    }
  }

  // ----- receipts

  lemma ReceiptsNext(tot: nat, s: State, a: Action)
    requires WellFormed(s) && Possible(tot, s, a) && s.cur <= tot
    ensures After(tot, s, a).cur == s.cur + |Receipts()(a)| <= tot
    ensures Delivered(After(tot, s, a).desk.handlers) == Delivered(s.desk.handlers) + Deliveries()(a)
    ensures After(tot, s, a).crashed <==> s.crashed || Faults()(a) != []
  {
    match a {
      case Work(h) => assert Delivered(Handle(s.desk, h).handlers) == Delivered(s.desk.handlers);
      case _ =>
    }
  }

  /** In every run: the loop takes at most `tot` datagrams, and there is one handler for each of them for which a
      thread was free and the deliver chain found a protocol, with what the chain made of it. A thread has crashed
      exactly if the chain did on one of them. */
  lemma {:induction false} ReceiptsAccounted(tot: nat, run: seq<Action>)
    requires Feasible(tot, run)
    ensures var s := Run(tot, run);
            && s.cur == |Collect(run, Receipts())| <= tot
            && Delivered(s.desk.handlers) == Collect(run, Deliveries()) && |s.desk.handlers| <= tot
            && (s.crashed <==> Collect(run, Faults()) != [])
    decreases |run|
  {
    if run != [] {
      var n := |run| - 1;
      ReceiptsAccounted(tot, run[..n]);
      ReceiptsNext(tot, Run(tot, run[..n]), run[n]);
    }
    FewerDeliveries(run);
  }

  lemma {:induction false} FewerDeliveries(run: seq<Action>)
    ensures |Collect(run, Deliveries())| <= |Collect(run, Receipts())|
  {
    if run != [] {
      FewerDeliveries(run[..|run| - 1]);
    }
  }

  /** As long as no thread has crashed, a datagram on the wire can be received exactly while fewer than `tot` were. */
  lemma ReceivableIff(tot: nat, run: seq<Action>, d: seq<byte>, avail: bool)
    requires Feasible(tot, run) && !Run(tot, run).crashed && d in Run(tot, run).wire
    ensures Feasible(tot, run + [Receive(d, avail)]) <==> |Collect(run, Receipts())| < tot
  {
    ReceiptsAccounted(tot, run);
    var longer := run + [Receive(d, avail)];
    assert longer[..|longer| - 1] == run;
  }
}
