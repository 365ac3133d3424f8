/** The other direction: as soon as one more message is planned than fits into a pipe, some scheduling leads
    to a state in which nothing can move although messages are undelivered. */
module PppDeadlock {
  import opened Layers
  import opened PppNetwork
  import opened PppInvariant
  import opened PppConservation
  import opened PppTermination
  import opened PppProgress

  // ----- a stuck pipe stays stuck

  /** The writer waits for room with the semaphore in its hands, and the reader, past `select`, waits for
      the semaphore. */
  ghost predicate Stuck(capacity: nat, s: State, x: Pipe)
    requires Total(s)
  {
    |s.at[InPipe(x)]| >= capacity && s.pc[Writer(x)] == Writing(x) && s.pc[Reader(x)] == WaitIn(x)
  }

  lemma StuckBlocks(capacity: nat, s: State, x: Pipe)
    requires WellFormed(s) && Semaphores(s) && Stuck(capacity, s, x)
    ensures !Enabled(capacity, s, Writer(x)) && !Enabled(capacity, s, Reader(x))
  {
    assert Held(s, Writer(x), x) == 1;
    assert s.sem[x] + Held(s, Reader(x), x) + Held(s, Writer(x), x) == 1;
  }

  lemma PipeOnlyGrows(s: State, q: Proc, e: Effect, pc: PC, x: Pipe)
    requires Moves(s, q, e, pc) && q != Reader(x)
    requires e.Move? && e.a.InPipe? ==> q == Reader(e.a.pipe)
    requires e.Copy? ==> !e.a.InPipe? && !e.b.InPipe?
    ensures |AtAfter(s, e)[InPipe(x)]| >= |s.at[InPipe(x)]|
  {
    match e {
      case Move(a, b) => PipeByMove(s, a, b, x);
      case Copy(_, _, _) =>
      case _ => PipeOtherwise(s, e, x);
    }
  }

  lemma StuckNext(capacity: nat, s: State, q: Proc, e: Effect, pc: PC, x: Pipe)
    requires Moves(s, q, e, pc) && Stuck(capacity, s, x) && q != Reader(x) && q != Writer(x)
    requires e.Move? && e.a.InPipe? ==> q == Reader(e.a.pipe)
    requires e.Copy? ==> !e.a.InPipe? && !e.b.InPipe?
    ensures Stuck(capacity, Next(s, q, e, pc), x)
  {
    PipeOnlyGrows(s, q, e, pc, x);
  }

  lemma StuckStays(capacity: nat, plan: Plan, s: State, q: Proc, x: Pipe)
    requires ProperPlan(plan) && Safe(capacity, plan, s) && Stuck(capacity, s, x) && Enabled(capacity, s, q)
    ensures Stuck(capacity, Step(capacity, s, q), x)
  {
    StuckBlocks(capacity, s, x);
    LedgerPlan(plan, s);
    StepMovesSoundly(capacity, s, q);
    var (e, pc) := Act(capacity, s, q).value;
    StuckNext(capacity, s, q, e, pc, x);
  }

  /** What the lemmas below need to know about a step. */
  lemma StepMovesSoundly(capacity: nat, s: State, q: Proc)
    requires Inv(capacity, s) && PlanProper(s) && Enabled(capacity, s, q)
    ensures var (e, pc) := Act(capacity, s, q).value;
            && Moves(s, q, e, pc)
            && (e.Move? || e.Copy? ==> Advances(s, e.a, e.b))
            && (e.Move? && e.a.InPipe? ==> q == Reader(e.a.pipe))
            && (e.Copy? ==> !e.a.InPipe? && !e.b.InPipe?)
  {
    ActSound(capacity, s, q);
    var (e, pc) := Act(capacity, s, q).value;
    MoverIsReader(s, q, e, pc);
  }

  /** From a reachable state with a stuck pipe a reachable dead state can be reached, with the pipe still stuck. */
  lemma StuckToDead(capacity: nat, plan: Plan, s: State, x: Pipe) returns (s': State)
    requires ProperPlan(plan) && Reachable(capacity, plan, s) && Safe(capacity, plan, s) && Stuck(capacity, s, x)
    ensures Reachable(capacity, plan, s') && Safe(capacity, plan, s') && Stuck(capacity, s', x) && Dead(capacity, s')
    decreases Measure(s)
  {
    if q: Proc :| Enabled(capacity, s, q) {
      StuckStays(capacity, plan, s, q, x);
      StepDrops(capacity, plan, s, q);
      StepKeepsSafe(capacity, plan, s, q);
      ReachStep(capacity, plan, s, q);
      s' := StuckToDead(capacity, plan, Step(capacity, s, q), x);
    } else {
      s' := s;
    }
  }

  // ----- as long as eth_send is never scheduled, nothing passes it

  ghost predicate Upstream(s: State)
    requires Total(s)
  {
    && (forall x: Place :: Stage(x) >= 8 ==> s.at[x] == [])
    && (forall q: Proc :: Stage(InHand(q)) >= 8 ==> s.pc[q] == Start)
    && (forall p: Proto :: s.arrived[p] == [])
  }

  lemma DownstreamIdle(capacity: nat, s: State, q: Proc)
    requires WellFormed(s) && Upstream(s) && Stage(InHand(q)) >= 10
    ensures !Enabled(capacity, s, q)
  {
    if q != EthDeliver {
      forall x | x in Inputs(q)
        ensures s.at[InPipe(x)] == []
      {
        OneReader(x, q);
      }
    }
  }

  lemma UpstreamStep(capacity: nat, plan: Plan, s: State, q: Proc)
    requires ProperPlan(plan) && Safe(capacity, plan, s) && Upstream(s) && Enabled(capacity, s, q) && q != EthSend
    ensures Upstream(Step(capacity, s, q))
  {
    if Stage(InHand(q)) >= 10 {
      DownstreamIdle(capacity, s, q);
    }
    LedgerPlan(plan, s);
    StepMovesSoundly(capacity, s, q);
    var (e, pc) := Act(capacity, s, q).value;
    UpstreamNext(s, q, e, pc);
  }

  lemma UpstreamNext(s: State, q: Proc, e: Effect, pc: PC)
    requires Moves(s, q, e, pc) && Upstream(s) && Stage(InHand(q)) < 8
    requires e.Move? || e.Copy? ==> Advances(s, e.a, e.b)
    ensures Upstream(Next(s, q, e, pc))
  {
    NextWellFormed(s, q, e, pc);
    NoneArrives(s, q, e, pc);
    forall x: Place | Stage(x) >= 8
      ensures AtAfter(s, e)[x] == []
    {
      FarPlacesKept(s, q, e, pc, x);
    }
  }

  lemma NoneArrives(s: State, q: Proc, e: Effect, pc: PC)
    requires Moves(s, q, e, pc) && Stage(InHand(q)) < 8
    ensures ArrivedAfter(s, e) == s.arrived
  {
  }

  lemma FarPlacesKept(s: State, q: Proc, e: Effect, pc: PC, x: Place)
    requires Moves(s, q, e, pc) && Stage(InHand(q)) < 8 && Stage(x) >= 8
    requires e.Move? || e.Copy? ==> Advances(s, e.a, e.b)
    ensures AtAfter(s, e)[x] == s.at[x]
  {
    if e.Move? || e.Copy? {
      assert Stage(e.a) < 8 && Stage(e.b) < 8;
    } else {
      PlaceOtherwise(s, q, e, pc, x);
    }
  }

  /** Never scheduling eth_send, until nothing else can move. */
  lemma HoldBackEthSend(capacity: nat, plan: Plan, s: State) returns (s': State)
    requires ProperPlan(plan) && Reachable(capacity, plan, s) && Safe(capacity, plan, s) && Upstream(s)
    ensures Reachable(capacity, plan, s') && Safe(capacity, plan, s') && Upstream(s')
    ensures forall q: Proc :: q != EthSend ==> !Enabled(capacity, s', q)
    decreases Measure(s)
  {
    if q: Proc :| q != EthSend && Enabled(capacity, s, q) {
      UpstreamStep(capacity, plan, s, q);
      StepDrops(capacity, plan, s, q);
      StepKeepsSafe(capacity, plan, s, q);
      ReachStep(capacity, plan, s, q);
      s' := HoldBackEthSend(capacity, plan, Step(capacity, s, q));
    } else {
      s' := s;
    }
  }

  // ----- in a state where only eth_send could move, a full pipe leads to a stuck pipe

  /** Everything but eth_send is blocked, and eth_send holds nothing. */
  ghost predicate Blocked(capacity: nat, s: State) {
    && Inv(capacity, s)
    && (forall q: Proc :: q != EthSend ==> !Enabled(capacity, s, q))
    && !HoldsAny(s.pc[EthSend])
  }

  /** Moreover eth_send has just passed `select`. */
  ghost predicate Jammed(capacity: nat, s: State) {
    Blocked(capacity, s) && s.pc[EthSend] == WaitIn(Eth)
  }

  /** A semaphore at 0 is held by the writer of its pipe, which waits for room. */
  lemma TakenByWriter(capacity: nat, s: State, x: Pipe)
    requires Blocked(capacity, s) && s.sem[x] == 0
    ensures s.pc[Writer(x)] == Writing(x) && |s.at[InPipe(x)]| >= capacity
  {
    assert s.sem[x] + Held(s, Reader(x), x) + Held(s, Writer(x), x) == 1;
    if Holds(s.pc[Reader(x)], x) {
      ReaderNeverWrites(capacity, s, x);
    } else {
      HolderBlocked(capacity, s, Writer(x));
    }
  }

  lemma ReaderNeverWrites(capacity: nat, s: State, x: Pipe)
    requires Blocked(capacity, s)
    ensures !Holds(s.pc[Reader(x)], x)
  {
    if Holds(s.pc[Reader(x)], x) {
      HolderBlocked(capacity, s, Reader(x));
      WriterIs(capacity, s, Reader(x));
    }
  }

  lemma FindStuck(capacity: nat, s: State, x: Pipe) returns (y: Pipe)
    requires Jammed(capacity, s) && capacity > 0 && Stage(InPipe(x)) <= 7
    requires s.pc[Writer(x)] == Writing(x) && |s.at[InPipe(x)]| >= capacity
    ensures Stuck(capacity, s, y)
    decreases 8 - Stage(InPipe(x))
  {
    var r := Reader(x);
    if s.pc[r] == WaitIn(x) {
      return x;
    }
    ReaderBusy(capacity, s, x);
    if s.pc[r].WaitIn? {
      y := s.pc[r].src;
      WaiterOfTaken(capacity, s, r);
      TakenByWriter(capacity, s, y);
    } else {
      y := FindStuckBehind(capacity, s, r);
    }
  }

  /** The reader of a full pipe is not at the top of its loop. */
  lemma ReaderBusy(capacity: nat, s: State, x: Pipe)
    requires WellFormed(s) && Stage(InPipe(x)) <= 7 && s.at[InPipe(x)] != [] && s.pc[Reader(x)] != WaitIn(x)
    requires s.pc[EthSend] == WaitIn(Eth) && (Reader(x) != EthSend ==> !Enabled(capacity, s, Reader(x)))
    ensures Reader(x) != EthSend && Stage(InHand(Reader(x))) == Stage(InPipe(x)) + 1 && s.pc[Reader(x)] != Start
  {
    var r := Reader(x);
    if s.pc[r] == Start {
      IdleBlocked(capacity, s, r);
    }
  }

  lemma WaiterOfTaken(capacity: nat, s: State, r: Proc)
    requires Inv(capacity, s) && s.pc[r].WaitIn? && !Enabled(capacity, s, r)
    ensures s.sem[s.pc[r].src] == 0 && Reader(s.pc[r].src) == r
  {
  }

  /** The same behind a process that is neither idle nor waiting for input: it is itself writing into a pipe
      further down. */
  lemma FindStuckBehind(capacity: nat, s: State, r: Proc) returns (y: Pipe)
    requires Jammed(capacity, s) && capacity > 0 && r != EthSend && Stage(InHand(r)) <= 6
    requires s.pc[r] != Start && !s.pc[r].WaitIn?
    ensures Stuck(capacity, s, y)
    decreases 8 - Stage(InHand(r))
  {
    if s.pc[r].WaitOut? {
      WaiterIsWriter(capacity, s, r);
      TakenByWriter(capacity, s, s.pc[r].dst);
      assert false;
    } else if !HoldsAny(s.pc[r]) {
      OthersEnabled(capacity, s, r);
      assert false;
    }
    HolderBlocked(capacity, s, r);
    var z := s.pc[r].dst;
    WriterIs(capacity, s, r);
    y := FindStuck(capacity, s, z);
  }

  lemma WaiterIsWriter(capacity: nat, s: State, r: Proc)
    requires Inv(capacity, s) && s.pc[r].WaitOut? && !Enabled(capacity, s, r)
    ensures Writer(s.pc[r].dst) == r && s.sem[s.pc[r].dst] == 0
  {
    assert OnPath(InHand(r), s.at[InHand(r)][0].origin);
    HandsAreWriter(r, s.pc[r].dst, s.at[InHand(r)][0].origin);
  }

  lemma WriterIs(capacity: nat, s: State, r: Proc)
    requires Inv(capacity, s) && s.pc[r].Writing?
    ensures Writer(s.pc[r].dst) == r && Stage(InPipe(s.pc[r].dst)) == Stage(InHand(r)) + 1
  {
    assert OnPath(InHand(r), s.at[InHand(r)][0].origin);
    HandsAreWriter(r, s.pc[r].dst, s.at[InHand(r)][0].origin);
  }

  // ----- the two main results

  lemma TransitOfUpstream(s: State, p: Proto)
    requires WellFormed(s) && Upstream(s)
    requires forall x: Place :: Stage(x) <= 6 ==> s.at[x] == []
    ensures |InTransit(s, p)| == |Pay(p, s.at[InPipe(Eth)])|
  {
    var l := Stages(s.at, p);
    forall k | 0 <= k < 17 && k != 7
      ensures l[k] == []
    {
      assert s.at[PlaceAt(k, p)] == [];
    }
    ChainOfOne(l, 7);
  }

  lemma {:induction false} ChainOfOne<T>(l: seq<seq<T>>, i: nat)
    requires i < |l| && forall k :: 0 <= k < |l| && k != i ==> l[k] == []
    ensures Chain(l) == l[i]
  {
    if i == 0 {
      EmptyChain(l[1..]);
    } else {
      ChainOfOne(l[1..], i - 1);
    }
  }

  /** If no process before eth_send has anything to do, everything planned waits in the eth pipe. */
  lemma AllInEth(capacity: nat, plan: Plan, s: State)
    requires ProperPlan(plan) && Safe(capacity, plan, s) && Upstream(s)
    requires forall x: Place :: Stage(x) <= 6 ==> s.at[x] == []
    requires forall p: Proto :: s.plan[p] == []
    ensures Planned(plan) == |s.at[InPipe(Eth)]|
  {
    ItemsByProto(s.at[InPipe(Eth)]);
    forall p: Proto
      ensures |plan[p]| == |Pay(p, s.at[InPipe(Eth)])|
    {
      TransitOfUpstream(s, p);
      TransitPlanned(plan, s, p);
    }
  }

  lemma EarlyPlaceEmpty(capacity: nat, s: State, y: Place)
    requires WellFormed(s) && Stage(y) <= 6
    requires forall q: Proc :: q != EthSend ==> !Enabled(capacity, s, q) && s.pc[q] == Start
    ensures s.at[y] == []
  {
    match y {
      case InPipe(pipe) => IdleBlocked(capacity, s, Reader(pipe));
      case InHand(_) =>
    }
  }

  /** If all processes but eth_send are idle and blocked, everything planned is in the eth pipe. */
  lemma IdleUpstream(capacity: nat, plan: Plan, s: State)
    requires ProperPlan(plan) && Safe(capacity, plan, s) && Upstream(s)
    requires forall q: Proc :: q != EthSend ==> !Enabled(capacity, s, q) && s.pc[q] == Start
    ensures Planned(plan) <= capacity
  {
    forall y: Place | Stage(y) <= 6
      ensures s.at[y] == []
    {
      EarlyPlaceEmpty(capacity, s, y);
    }
    forall p: Proto
      ensures s.plan[p] == []
    {
      IdleBlocked(capacity, s, Poll(p));
    }
    AllInEth(capacity, plan, s);
  }

  /** Blocked processes before eth_send, with more planned than fits: one of them is writing into a full pipe. */
  lemma SomeoneWriting(capacity: nat, plan: Plan, s: State) returns (x: Pipe)
    requires ProperPlan(plan) && Safe(capacity, plan, s) && Upstream(s) && Planned(plan) > capacity
    requires forall q: Proc :: q != EthSend ==> !Enabled(capacity, s, q)
    ensures Stage(InPipe(x)) <= 7 && s.pc[Writer(x)] == Writing(x) && |s.at[InPipe(x)]| >= capacity
  {
    var r := SomeoneBusy(capacity, plan, s);
    UpstreamBlocked(capacity, s);
    x := WriterBehind(capacity, s, r);
  }

  lemma EthSendRests(s: State)
    requires Total(s) && Upstream(s)
    ensures s.pc[EthSend] == Start
  {
    assert Stage(InHand(EthSend)) == 8;
  }

  lemma UpstreamBlocked(capacity: nat, s: State)
    requires Inv(capacity, s) && Upstream(s) && forall q: Proc :: q != EthSend ==> !Enabled(capacity, s, q)
    ensures Blocked(capacity, s)
  {
    EthSendRests(s);
  }

  lemma SomeoneBusy(capacity: nat, plan: Plan, s: State) returns (r: Proc)
    requires ProperPlan(plan) && Safe(capacity, plan, s) && Upstream(s) && Planned(plan) > capacity
    requires forall q: Proc :: q != EthSend ==> !Enabled(capacity, s, q)
    ensures r != EthSend && s.pc[r] != Start
  {
    if q: Proc :| q != EthSend && s.pc[q] != Start {
      r := q;
    } else {
      IdleUpstream(capacity, plan, s);
      assert false;
    }
  }

  lemma WriterUpstream(s: State, x: Pipe)
    requires Total(s) && Upstream(s) && s.pc[Writer(x)] != Start
    ensures Stage(InPipe(x)) <= 7
  {
  }

  /** A blocked process away from the top of its loop is writing into a full pipe, or waits for one that is. */
  lemma WriterBehind(capacity: nat, s: State, r: Proc) returns (x: Pipe)
    requires Blocked(capacity, s) && Upstream(s) && r != EthSend && s.pc[r] != Start
    ensures Stage(InPipe(x)) <= 7 && s.pc[Writer(x)] == Writing(x) && |s.at[InPipe(x)]| >= capacity
  {
    if s.pc[r].WaitIn? {
      x := s.pc[r].src;
      WaiterOfTaken(capacity, s, r);
      TakenByWriter(capacity, s, x);
      WriterUpstream(s, x);
    } else if s.pc[r].WaitOut? {
      x := s.pc[r].dst;
      WaiterIsWriter(capacity, s, r);
      TakenByWriter(capacity, s, x);
      WriterUpstream(s, x);
    } else {
      if !HoldsAny(s.pc[r]) {
        OthersEnabled(capacity, s, r);
      }
      HolderBlocked(capacity, s, r);
      x := s.pc[r].dst;
      WriterIs(capacity, s, r);
    }
  }

  /** From the state in which only eth_send can move: its `select` makes a stuck pipe. */
  lemma HeldBackToStuck(capacity: nat, plan: Plan, s: State) returns (x: Pipe)
    requires ProperPlan(plan) && Safe(capacity, plan, s) && Upstream(s) && Planned(plan) > capacity
    requires forall q: Proc :: q != EthSend ==> !Enabled(capacity, s, q)
    requires Enabled(capacity, s, EthSend)
    ensures Stuck(capacity, Step(capacity, s, EthSend), x)
  {
    var full := SomeoneWriting(capacity, plan, s);
    LedgerPlan(plan, s);
    EthSendRests(s);
    SelectJams(capacity, s);
    x := JammedToStuck(capacity, s, Step(capacity, s, EthSend), full);
  }

  lemma JammedToStuck(capacity: nat, s: State, s': State, full: Pipe) returns (x: Pipe)
    requires WellFormed(s) && s' == s.(pc := s.pc[EthSend := WaitIn(Eth)]) && Jammed(capacity, s') && capacity > 0
    requires s.pc[EthSend] == Start && Stage(InPipe(full)) <= 7
    requires s.pc[Writer(full)] == Writing(full) && |s.at[InPipe(full)]| >= capacity
    ensures Stuck(capacity, s', x)
  {
    x := FindStuck(capacity, s', full);
  }

  lemma InitUpstream(capacity: nat, plan: Plan)
    requires ProperPlan(plan)
    ensures Reachable(capacity, plan, Init(plan)) && Safe(capacity, plan, Init(plan)) && Upstream(Init(plan))
  {
    InitReachable(capacity, plan);
    InitInv(capacity, plan);
    InitLedger(plan);
    AllListed();
  }

  /** One message more than fits, and a deadlock can be reached. */
  lemma DeadlockReachable(capacity: nat, plan: Plan) returns (s: State)
    requires ProperPlan(plan) && Planned(plan) > capacity
    ensures Reachable(capacity, plan, s) && WellFormed(s) && Dead(capacity, s) && !Final(plan, s)
  {
    InitUpstream(capacity, plan);
    var held := HoldBackEthSend(capacity, plan, Init(plan));
    if !Enabled(capacity, held, EthSend) {
      NothingArrived(plan, held);
      s := held;
    } else {
      var x := HeldBackToStuck(capacity, plan, held);
      StepKeepsSafe(capacity, plan, held, EthSend);
      ReachStep(capacity, plan, held, EthSend);
      s := StuckToDead(capacity, plan, Step(capacity, held, EthSend), x);
    }
  }

  lemma NothingArrived(plan: Plan, s: State)
    requires ProperPlan(plan) && Total(s) && Upstream(s) && Planned(plan) > 0
    ensures !Final(plan, s)
  {
    assert exists p: Proto :: plan[p] != [] by {
      assert plan[Ftp] != [] || plan[Telnet] != [] || plan[Rdp] != [] || plan[Dns] != [];
    }
  }

  /** The only possible step of eth_send is its `select`, and it unblocks nobody. */
  lemma SelectOnly(capacity: nat, s: State)
    requires WellFormed(s) && s.pc[EthSend] == Start && Enabled(capacity, s, EthSend)
    ensures Step(capacity, s, EthSend) == s.(pc := s.pc[EthSend := WaitIn(Eth)]) && s.at[InPipe(Eth)] != []
  {
  }

  lemma SelectUnblocksNobody(capacity: nat, s: State, s': State, q: Proc)
    requires WellFormed(s) && WellFormed(s') && s' == s.(pc := s.pc[EthSend := WaitIn(Eth)])
    requires q != EthSend && !Enabled(capacity, s, q)
    ensures !Enabled(capacity, s', q)
  {
    if s.pc[q] == Start && !q.Poll? && q != EthDeliver {
      assert FirstReady(s, Inputs(q)) == [] == FirstReady(s', Inputs(q));
    }
  }

  lemma SelectJams(capacity: nat, s: State)
    requires Inv(capacity, s) && PlanProper(s) && s.pc[EthSend] == Start && Enabled(capacity, s, EthSend)
    requires forall q: Proc :: q != EthSend ==> !Enabled(capacity, s, q)
    ensures Jammed(capacity, Step(capacity, s, EthSend)) && capacity > 0
    ensures Step(capacity, s, EthSend) == s.(pc := s.pc[EthSend := WaitIn(Eth)])
  {
    StepKeepsInv(capacity, s, EthSend);
    SelectOnly(capacity, s);
    assert 0 < |s.at[InPipe(Eth)]| <= capacity;
    JammedAfter(capacity, s, Step(capacity, s, EthSend));
  }

  lemma JammedAfter(capacity: nat, s: State, s': State)
    requires WellFormed(s) && Inv(capacity, s') && s' == s.(pc := s.pc[EthSend := WaitIn(Eth)])
    requires forall q: Proc :: q != EthSend ==> !Enabled(capacity, s, q)
    ensures Jammed(capacity, s')
  {
    StillBlocked(capacity, s, s');
  }

  lemma StillBlocked(capacity: nat, s: State, s': State)
    requires WellFormed(s) && WellFormed(s') && s' == s.(pc := s.pc[EthSend := WaitIn(Eth)])
    requires forall q: Proc :: q != EthSend ==> !Enabled(capacity, s, q)
    ensures forall q: Proc :: q != EthSend ==> !Enabled(capacity, s', q)
  {
    forall q: Proc | q != EthSend
      ensures !Enabled(capacity, s', q)
    {
      SelectUnblocksNobody(capacity, s, s', q);
    }
  }

  /** The network is free of deadlock, for every scheduling, exactly when the planned messages fit into
      one pipe all together. */
  lemma DeadlockFreeIff(capacity: nat, plan: Plan)
    requires ProperPlan(plan)
    ensures Planned(plan) <= capacity <==>
            forall s: State :: Reachable(capacity, plan, s) && WellFormed(s) && Dead(capacity, s) ==> Final(plan, s)
  {
    if Planned(plan) <= capacity {
      forall s: State | Reachable(capacity, plan, s) && WellFormed(s) && Dead(capacity, s)
        ensures Final(plan, s)
      {
        ReachableSafe(capacity, plan, s);
        DeadMeansFinal(capacity, plan, s);
      }
    } else {
      var s := DeadlockReachable(capacity, plan);
    }
  }
}
