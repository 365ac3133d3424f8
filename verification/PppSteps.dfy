/** What a process waits for, and which of two inputs it takes: when a step is possible, in any reachable state. */
module PppSteps {
  import opened Bytes
  import opened Layers
  import opened Options
  import opened PppNetwork
  import opened PppInvariant
  import opened PppConservation
  import opened PppFourReports
  import opened PppProgress
  import opened PppReport

  /** Pipe `i` of the list has a message, and none before it has. */
  ghost predicate FirstWith(s: State, ins: seq<Pipe>, i: nat)
    requires Total(s)
  {
    && i < |ins| && s.at[InPipe(ins[i])] != []
    && forall j :: 0 <= j < i ==> s.at[InPipe(ins[j])] == []
  }

  lemma {:induction false} FirstReadyIsFirst(s: State, ins: seq<Pipe>)
    requires Total(s) && FirstReady(s, ins) != []
    ensures exists i: nat :: FirstWith(s, ins, i) && FirstReady(s, ins) == [ins[i]]
  {
    if s.at[InPipe(ins[0])] != [] {
      assert FirstWith(s, ins, 0);
    } else {
      FirstReadyIsFirst(s, ins[1..]);
      var i: nat :| FirstWith(s, ins[1..], i) && FirstReady(s, ins[1..]) == [ins[1..][i]];
      assert forall j :: 0 < j <= i ==> ins[j] == ins[1..][j - 1];
      assert FirstWith(s, ins, i + 1);
    }
  }

  /** At the top of its loop, the process takes `x` if it has a message, and `y` only if `x` has none. */
  ghost predicate Prefers(capacity: nat, s: State, q: Proc, x: Pipe, y: Pipe)
    requires WellFormed(s)
  {
    && (Enabled(capacity, s, q) <==> s.at[InPipe(x)] != [] || s.at[InPipe(y)] != [])
    && (Enabled(capacity, s, q) ==>
          Step(capacity, s, q) == s.(pc := s.pc[q := WaitIn(if s.at[InPipe(x)] != [] then x else y)]))
  }

  lemma SelectsFirst(capacity: nat, s: State, q: Proc, x: Pipe, y: Pipe)
    requires WellFormed(s) && s.pc[q] == Start && !q.Poll? && q != EthDeliver && Inputs(q) == [x, y]
    ensures Prefers(capacity, s, q, x, y)
  {
    var ready := FirstReady(s, Inputs(q));
    assert x in Inputs(q) && y in Inputs(q);
    if ready != [] {
      FirstReadyIsFirst(s, Inputs(q));
    }
  }

  /** FTP before TELNET, RDP before DNS, TCP before UDP. */
  lemma SelectOrder(capacity: nat, s: State)
    requires WellFormed(s)
    ensures s.pc[TransSend(Tcp)] == Start ==> Prefers(capacity, s, TransSend(Tcp), Trans(Ftp), Trans(Telnet))
    ensures s.pc[TransSend(Udp)] == Start ==> Prefers(capacity, s, TransSend(Udp), Trans(Rdp), Trans(Dns))
    ensures s.pc[IpSend] == Start ==> Prefers(capacity, s, IpSend, Net(Tcp), Net(Udp))
  {
    if s.pc[TransSend(Tcp)] == Start {
      SelectsFirst(capacity, s, TransSend(Tcp), Trans(Ftp), Trans(Telnet));
    }
    if s.pc[TransSend(Udp)] == Start {
      SelectsFirst(capacity, s, TransSend(Udp), Trans(Rdp), Trans(Dns));
    }
    if s.pc[IpSend] == Start {
      SelectsFirst(capacity, s, IpSend, Net(Tcp), Net(Udp));
    }
  }

  /** All there is to wait for: a message to send or to read, a semaphore, room in a pipe. */
  ghost predicate Waits(capacity: nat, s: State, q: Proc)
    requires Total(s)
  {
    match s.pc[q]
    case Start =>
      if q.Poll? then s.plan[q.p] == []
      else if q == EthDeliver then s.at[OnWire] == []
      else forall x: Pipe :: Reader(x) == q ==> s.at[InPipe(x)] == []
    case WaitIn(x) => s.sem[x] == 0
    case WaitOut(x) => s.sem[x] == 0
    case Writing(x) => |s.at[InPipe(x)]| >= capacity
    case _ => false
  }

  lemma IdleWaits(capacity: nat, s: State, q: Proc)
    requires WellFormed(s) && s.pc[q] == Start
    ensures Waits(capacity, s, q) <==> !Enabled(capacity, s, q)
  {
    if !Enabled(capacity, s, q) {
      IdleBlocked(capacity, s, q);
    } else if !q.Poll? && q != EthDeliver {
      var ready := FirstReady(s, Inputs(q));
      OneReader(ready[0], q);
    }
  }

  lemma BusyWaits(capacity: nat, s: State, q: Proc)
    requires Inv(capacity, s) && s.pc[q] != Start
    ensures Waits(capacity, s, q) <==> !Enabled(capacity, s, q)
  {
    if HoldsAny(s.pc[q]) && !Enabled(capacity, s, q) {
      HolderBlocked(capacity, s, q);
    } else if !HoldsAny(s.pc[q]) && !s.pc[q].WaitIn? && !s.pc[q].WaitOut? {
      OthersEnabled(capacity, s, q);
    }
  }

  /** In every reachable state, at any capacity, a process cannot take a step exactly if it waits for one of these. */
  lemma BlockedIff(capacity: nat, plan: Plan, s: State, q: Proc)
    requires ProperPlan(plan) && Reachable(capacity, plan, s)
    ensures WellFormed(s) && (Enabled(capacity, s, q) <==> !Waits(capacity, s, q))
  {
    ReachableSafe(capacity, plan, s);
    if s.pc[q] == Start {
      IdleWaits(capacity, s, q);
    } else {
      BusyWaits(capacity, s, q);
    }
  }

  // ----- what the deliver processes do with any bytes at all

  /** The message goes on with the given content, to be written to the given pipe. */
  ghost predicate GoesOn(s: State, s': State, q: Proc, content: seq<byte>, dst: Pipe)
    requires WellFormed(s) && s.at[InHand(q)] != []
  {
    s' == s.(pc := s.pc[q := WaitOut(dst)], heap := s.heap[s.at[InHand(q)][0].ptr := content])
  }

  /** The message is to be counted, with the given content. */
  ghost predicate GoesUp(s: State, s': State, q: Proc, content: seq<byte>)
    requires WellFormed(s) && s.at[InHand(q)] != []
  {
    s' == s.(pc := s.pc[q := Counting], heap := s.heap[s.at[InHand(q)][0].ptr := content])
  }

  /** The message is gone, and the process back at the top of its loop. */
  ghost predicate Forgotten(s: State, s': State, q: Proc)
    requires Total(s)
  {
    s' == s.(pc := s.pc[q := Start], at := s.at[InHand(q) := []])
  }

  ghost predicate Breaks(s: State, s': State, q: Proc)
    requires Total(s)
  {
    s' == s.(pc := s.pc[q := Crashed])
  }

  lemma WorkRewrites(capacity: nat, s: State, q: Proc)
    requires WellFormed(s) && s.pc[q].Work?
    ensures Enabled(capacity, s, q)
    ensures match Process(q, s.pc[q].from, Content(s, InHand(q)))
            case Forward(content, dst) => GoesOn(s, Step(capacity, s, q), q, content, dst)
            case Keep(content) => GoesUp(s, Step(capacity, s, q), q, content)
            case _ => true
  {
  }

  lemma WorkEnds(capacity: nat, s: State, q: Proc)
    requires WellFormed(s) && s.pc[q].Work?
    ensures match Process(q, s.pc[q].from, Content(s, InHand(q)))
            case Discard => Forgotten(s, Step(capacity, s, q), q)
            case Fail => Breaks(s, Step(capacity, s, q), q)
            case _ => true
  {
  }

  lemma WorkStep(capacity: nat, s: State, q: Proc)
    requires WellFormed(s) && s.pc[q].Work?
    ensures Enabled(capacity, s, q)
    ensures match Process(q, s.pc[q].from, Content(s, InHand(q)))
            case Forward(content, dst) => GoesOn(s, Step(capacity, s, q), q, content, dst)
            case Keep(content) => GoesUp(s, Step(capacity, s, q), q, content)
            case Discard => Forgotten(s, Step(capacity, s, q), q)
            case Fail => Breaks(s, Step(capacity, s, q), q)
  {
    WorkRewrites(capacity, s, q);
    WorkEnds(capacity, s, q);
  }

  /** The Ethernet process passes on what is too short for its header, and crashes on a bare header. */
  lemma EthDeliverStep(capacity: nat, s: State)
    requires WellFormed(s) && s.pc[EthDeliver].Work?
    ensures Enabled(capacity, s, EthDeliver)
    ensures var b, s' := Content(s, InHand(EthDeliver)), Step(capacity, s, EthDeliver);
            if |b| == 16 then Breaks(s, s', EthDeliver)
            else GoesOn(s, s', EthDeliver, if |b| < 16 then b else b[16..], EthUp)
  {
    WorkStep(capacity, s, EthDeliver);
  }

  /** The IP process needs more than its header, and drops what is neither TCP nor UDP. */
  lemma IpDeliverStep(capacity: nat, s: State)
    requires WellFormed(s) && s.pc[IpDeliver].Work?
    ensures Enabled(capacity, s, IpDeliver)
    ensures var b, s' := Content(s, InHand(IpDeliver)), Step(capacity, s, IpDeliver);
            if |b| <= 20 then Breaks(s, s', IpDeliver)
            else if HlpAt(b, 0) == 3 then GoesOn(s, s', IpDeliver, b[20..], NetUp(Tcp))
            else if HlpAt(b, 0) == 4 then GoesOn(s, s', IpDeliver, b[20..], NetUp(Udp))
            else Forgotten(s, s', IpDeliver)
  {
    var b := Content(s, InHand(IpDeliver));
    assert |b| > 20 ==> b[..20][0..4] == b[0..4];
    WorkStep(capacity, s, IpDeliver);
  }

  /** The transport processes need more than their header, and drop what is for neither of their protocols. */
  lemma TransDeliverStep(capacity: nat, s: State, t: Transport)
    requires WellFormed(s) && s.pc[TransDeliver(t)].Work?
    ensures Enabled(capacity, s, TransDeliver(t))
    ensures var b, s' := Content(s, InHand(TransDeliver(t))), Step(capacity, s, TransDeliver(t));
            if |b| <= 12 then Breaks(s, s', TransDeliver(t))
            else if HlpAt(b, 0) == (if t == Tcp then 5 else 7) then
              GoesOn(s, s', TransDeliver(t), b[12..], TransUp(if t == Tcp then Ftp else Rdp))
            else if HlpAt(b, 0) == (if t == Tcp then 6 else 8) then
              GoesOn(s, s', TransDeliver(t), b[12..], TransUp(if t == Tcp then Telnet else Dns))
            else Forgotten(s, s', TransDeliver(t))
  {
    var b := Content(s, InHand(TransDeliver(t)));
    assert |b| > 12 ==> b[..12][0..4] == b[0..4];
    WorkStep(capacity, s, TransDeliver(t));
  }

  /** The application processes count what is too short for their header as it is, and crash on a bare header. */
  lemma AppDeliverStep(capacity: nat, s: State, p: Proto)
    requires WellFormed(s) && s.pc[AppDeliver(p)].Work?
    ensures Enabled(capacity, s, AppDeliver(p))
    ensures var b, s' := Content(s, InHand(AppDeliver(p))), Step(capacity, s, AppDeliver(p));
            var size := if p == Rdp then 20 else 16;
            if |b| == size then Breaks(s, s', AppDeliver(p))
            else GoesUp(s, s', AppDeliver(p), if |b| < size then b else b[size..])
  {
    WorkStep(capacity, s, AppDeliver(p));
  }

  // ----- the end of a delivery that no other process interrupts

  /** The tally when the test of `p` is over: it succeeds exactly if all counters still to be read are at 100. */
  ghost predicate Over(t: Tally, t': Tally, p: Proto, k: nat)
    requires Complete(t)
  {
    t' == t.(test := t.test[p := None],
             reports := if AtTotal(t.count, k) then t.reports[p := t.reports[p] + 1] else t.reports)
  }

  lemma OverMore(t: Tally, t1: Tally, t': Tally, p: Proto, k: nat)
    requires Complete(t) && Complete(t1) && k < 3 && t.count[Counter(k)] == 100
    requires t1 == t.(test := t.test[p := Some(k + 1)]) && Over(t1, t', p, k + 1)
    ensures Over(t, t', p, k)
  {
    assert AtTotal(t.count, k) <==> AtTotal(t.count, k + 1);
    assert t.test[p := Some(k + 1)][p := None] == t.test[p := None];
  }

  /** A state of the set, and what it shows. */
  ghost predicate Shown(reach: iset<State>, s: State, t: Tally) {
    s in reach && WellFormed(s) && Complete(t) && Shows(s, t)
  }

  lemma ReadMoves(capacity: nat, reach: iset<State>, s: State, t: Tally, p: Proto) returns (s': State)
    requires Closed(capacity, reach) && Shown(reach, s, t) && t.test[p].Some?
    ensures Shown(reach, s', After(t, Read(p)))
  {
    ReadingEnabled(capacity, s, t, p);
    StepIsEvent(capacity, s, t, AppDeliver(p));
    s' := Step(capacity, s, AppDeliver(p));
  }

  lemma ReadOver(t: Tally, p: Proto)
    requires Complete(t) && t.test[p].Some?
    ensures var k, t' := t.test[p].value, After(t, Read(p));
            if t.count[Counter(k)] == 100 && k < 3 then
              t' == t.(test := t.test[p := Some(k + 1)]) && t'.test[p] == Some(k + 1)
            else Over(t, t', p, k)
  {
  }

  lemma TestAlone(capacity: nat, reach: iset<State>, s: State, t: Tally, p: Proto, k: nat)
    returns (s': State, t': Tally)
    requires Closed(capacity, reach) && Shown(reach, s, t) && t.test[p] == Some(k)
    ensures Shown(reach, s', t') && Over(t, t', p, k)
    decreases 4 - k
  {
    ReadOver(t, p);
    var s1 := ReadMoves(capacity, reach, s, t, p);
    var t1 := After(t, Read(p));
    if t.count[Counter(k)] == 100 && k < 3 {
      s', t' := TestAlone(capacity, reach, s1, t1, p, k + 1);
      OverMore(t, t1, t', p, k);
    } else {
      s', t' := s1, t1;
    }
  }

  lemma CountingEnabled(capacity: nat, s: State, t: Tally, p: Proto)
    requires WellFormed(s) && Complete(t) && Shows(s, t) && s.pc[AppDeliver(p)] == Counting
    ensures Enabled(capacity, s, AppDeliver(p)) && EventOf(s, AppDeliver(p)) == Counted(p) && t.test[p] == None
  {
    assert TestShown(s.pc, t, p);
  }

  /** Message counted, test over, and a report exactly if all four counters now stand at the total. */
  ghost predicate CountedAlone(t: Tally, t': Tally, p: Proto)
    requires Complete(t)
  {
    var count := t.count[p := t.count[p] + 1];
    var all := forall q: Proto :: count[q] == 100;
    t' == Tally(count, if all then t.reports[p := t.reports[p] + 1] else t.reports, t.test)
  }

  lemma CountMoves(capacity: nat, reach: iset<State>, s: State, t: Tally, p: Proto) returns (s': State)
    requires Closed(capacity, reach) && Shown(reach, s, t) && s.pc[AppDeliver(p)] == Counting
    ensures t.test[p] == None && Shown(reach, s', After(t, Counted(p)))
  {
    CountingEnabled(capacity, s, t, p);
    StepIsEvent(capacity, s, t, AppDeliver(p));
    s' := Step(capacity, s, AppDeliver(p));
  }

  lemma CountThenTest(t: Tally, t': Tally, p: Proto)
    requires Complete(t) && t.test[p] == None && Over(After(t, Counted(p)), t', p, 0)
    ensures CountedAlone(t, t', p)
  {
    AllCounters(t.count[p := t.count[p] + 1]);
    assert t.test[p := Some(0)][p := None] == t.test;
  }

  /** A deliver process that nobody interrupts counts its message, and reports exactly if that completes all totals. */
  lemma DeliverAlone(capacity: nat, reach: iset<State>, s: State, t: Tally, p: Proto) returns (s': State, t': Tally)
    requires Closed(capacity, reach) && Shown(reach, s, t) && s.pc[AppDeliver(p)] == Counting
    ensures Shown(reach, s', t') && CountedAlone(t, t', p)
  {
    var s1 := CountMoves(capacity, reach, s, t, p);
    s', t' := TestAlone(capacity, reach, s1, After(t, Counted(p)), p, 0);
    CountThenTest(t, t', p);
  }
}
