/** Deadlock: the network cannot get stuck exactly when the messages planned, taken together, fit into one
    pipe. Writers hold the semaphore of a pipe while they wait for room in it, so a reader that is past
    `select` can wait for that semaphore forever. */
module PppProgress {
  import opened Layers
  import opened PppNetwork
  import opened PppInvariant
  import opened PppConservation
  import opened PppTermination

  ghost predicate Dead(capacity: nat, s: State)
    requires WellFormed(s)
  {
    forall q: Proc :: !Enabled(capacity, s, q)
  }

  /** Everything delivered, everything empty, every process back at the top of its loop. */
  ghost predicate Final(plan: Plan, s: State)
    requires Total(s) && ProperPlan(plan)
  {
    && (forall p: Proto ::
          && s.plan[p] == [] && s.arrived[p] == plan[p]
          && s.delivered[p] == ReceivedAll(p, plan[p]) && s.count[p] == |plan[p]|)
    && (forall x: Place :: s.at[x] == [])
    && (forall x: Pipe :: s.sem[x] == 1)
    && (forall q: Proc :: s.pc[q] == Start)
  }

  // ----- counting: the messages in one pipe and in one hand are among those in transit

  lemma {:induction false} ItemsByProto(items: seq<Item>)
    ensures |items| == |Pay(Ftp, items)| + |Pay(Telnet, items)| + |Pay(Rdp, items)| + |Pay(Dns, items)|
  {
    if items != [] {
      ItemsByProto(items[1..]);
      match items[0].origin { case Ftp => case Telnet => case Rdp => case Dns => }
    }
  }

  lemma {:induction false} PayNone(p: Proto, items: seq<Item>)
    requires forall i :: 0 <= i < |items| ==> items[i].origin != p
    ensures Pay(p, items) == []
  {
    if items != [] {
      PayNone(p, items[1..]);
    }
  }

  lemma {:induction false} ChainHoldsOne<T>(l: seq<seq<T>>, i: nat)
    requires i < |l|
    ensures |l[i]| <= |Chain(l)|
  {
    if i > 0 {
      ChainHoldsOne(l[1..], i - 1);
    }
  }

  lemma {:induction false} ChainHoldsTwo<T>(l: seq<seq<T>>, i: nat, j: nat)
    requires i < j < |l|
    ensures |l[i]| + |l[j]| <= |Chain(l)|
  {
    if i > 0 {
      ChainHoldsTwo(l[1..], i - 1, j - 1);
    } else {
      ChainHoldsOne(l[1..], j - 1);
    }
  }

  /** Those of protocol `p` in pipe `x`, and the message in a hand just before it, are all in transit. */
  lemma Crowd(s: State, p: Proto, x: Place, y: Place)
    requires WellFormed(s) && Routed(s) && Stage(y) < Stage(x) && |s.at[y]| == 1
    ensures |Pay(p, s.at[x])| + (if s.at[y][0].origin == p then 1 else 0) <= |InTransit(s, p)|
  {
    var l := Stages(s.at, p);
    assert OnPath(y, s.at[y][0].origin);
    if OnPath(x, p) {
      assert l[Stage(x)] == Pay(p, s.at[x]);
      ChainHoldsOne(l, Stage(x));
    } else {
      PayNone(p, s.at[x]);
    }
    if s.at[y][0].origin == p {
      assert l[Stage(y)] == Pay(p, s.at[y]) && Pay(p, s.at[y]) == [s.at[y][0].payload];
      ChainHoldsTwo(l, Stage(y), Stage(x));
      ChainHoldsOne(l, Stage(y));
    }
  }

  /** The messages anywhere in the network. */
  function InFlight(s: State): nat
    requires Total(s)
  {
    |InTransit(s, Ftp)| + |InTransit(s, Telnet)| + |InTransit(s, Rdp)| + |InTransit(s, Dns)|
  }

  /** Those in a pipe and the one in a hand before it are among them. */
  lemma RoomInFlight(s: State, x: Place, y: Place)
    requires WellFormed(s) && Routed(s) && Stage(y) < Stage(x) && |s.at[y]| == 1
    ensures |s.at[x]| + 1 <= InFlight(s)
  {
    ItemsByProto(s.at[x]);
    Crowd(s, Ftp, x, y);
    Crowd(s, Telnet, x, y);
    Crowd(s, Rdp, x, y);
    Crowd(s, Dns, x, y);
    match s.at[y][0].origin { case Ftp => case Telnet => case Rdp => case Dns => }
  }

  /** A process about to write into a pipe finds fewer messages in it than are in flight. */
  lemma RoomToWrite(capacity: nat, plan: Plan, s: State, q: Proc)
    requires ProperPlan(plan) && Safe(capacity, plan, s) && s.pc[q].Writing?
    ensures |s.at[InPipe(s.pc[q].dst)]| + 1 <= InFlight(s) <= Planned(plan)
  {
    assert Fits(q, s.pc[q], s.at[InHand(q)][0].origin);
    RoomInFlight(s, InPipe(s.pc[q].dst), InHand(q));
    FlightPlanned(plan, s);
  }

  lemma FlightPlanned(plan: Plan, s: State)
    requires ProperPlan(plan) && Total(s) && Ledger(plan, s)
    ensures InFlight(s) <= Planned(plan)
  {
    TransitPlanned(plan, s, Ftp);
    TransitPlanned(plan, s, Telnet);
    TransitPlanned(plan, s, Rdp);
    TransitPlanned(plan, s, Dns);
  }

  lemma TransitPlanned(plan: Plan, s: State, p: Proto)
    requires ProperPlan(plan) && Total(s) && Ledger(plan, s)
    ensures |s.arrived[p]| + |InTransit(s, p)| + |s.plan[p]| == |plan[p]|
  {
    assert Balanced(plan, s, p);
  }

  // ----- who is blocked, and why

  predicate HoldsAny(pc: PC) {
    pc.Reading? || pc.Got? || pc.Framed? || pc.Writing? || pc.Wrote?
  }

  /** A process that holds a semaphore is blocked only when it is writing into a full pipe. */
  lemma HolderBlocked(capacity: nat, s: State, q: Proc)
    requires WellFormed(s) && Ready(s) && HoldsAny(s.pc[q]) && !Enabled(capacity, s, q)
    ensures s.pc[q].Writing? && |s.at[InPipe(s.pc[q].dst)]| >= capacity
  {
  }

  /** A process that waits for a semaphore is blocked only by a holder of it. */
  lemma WaiterBlocked(capacity: nat, s: State, q: Proc, x: Pipe)
    requires WellFormed(s) && Semaphores(s)
    requires (s.pc[q] == WaitIn(x) || s.pc[q] == WaitOut(x)) && !Enabled(capacity, s, q)
    ensures Holds(s.pc[Reader(x)], x) || Holds(s.pc[Writer(x)], x)
  {
    assert s.sem[x] == 0;
    assert s.sem[x] + Held(s, Reader(x), x) + Held(s, Writer(x), x) == 1;
  }

  /** Nothing else ever blocks away from the top of the loop. */
  lemma OthersEnabled(capacity: nat, s: State, q: Proc)
    requires WellFormed(s) && Control(s) && !HoldsAny(s.pc[q])
    requires !s.pc[q].Start? && !s.pc[q].WaitIn? && !s.pc[q].WaitOut?
    ensures Enabled(capacity, s, q)
  {
    assert if Holding(s.pc[q]) then Fits(q, s.pc[q], s.at[InHand(q)][0].origin) else Free(q, s.pc[q]);
  }

  /** At the top of its loop a process is blocked only when it has nothing to do. */
  lemma IdleBlocked(capacity: nat, s: State, q: Proc)
    requires WellFormed(s) && s.pc[q] == Start && !Enabled(capacity, s, q)
    ensures q.Poll? ==> s.plan[q.p] == []
    ensures q == EthDeliver ==> s.at[OnWire] == []
    ensures forall x: Pipe :: Reader(x) == q ==> s.at[InPipe(x)] == []
  {
    forall x: Pipe | Reader(x) == q
      ensures s.at[InPipe(x)] == []
    {
      OneReader(x, q);
    }
  }

  /** Nobody can take a step but polling loops that could make another message. */
  ghost predicate AtRest(capacity: nat, s: State)
    requires WellFormed(s)
  {
    forall q: Proc :: Enabled(capacity, s, q) ==> q.Poll? && s.pc[q] == Start
  }

  /** If what is in flight fits into a pipe, every process is then at the top of its loop. */
  lemma RestMeansIdle(capacity: nat, plan: Plan, s: State, q: Proc)
    requires ProperPlan(plan) && Safe(capacity, plan, s) && InFlight(s) <= capacity && AtRest(capacity, s)
    ensures s.pc[q] == Start
  {
    forall r: Proc
      ensures !HoldsAny(s.pc[r])
    {
      if HoldsAny(s.pc[r]) {
        HolderBlocked(capacity, s, r);
        RoomToWrite(capacity, plan, s, r);
      }
    }
    if s.pc[q].WaitIn? {
      WaiterBlocked(capacity, s, q, s.pc[q].src);
    } else if s.pc[q].WaitOut? {
      WaiterBlocked(capacity, s, q, s.pc[q].dst);
    } else if !s.pc[q].Start? {
      OthersEnabled(capacity, s, q);
    }
  }

  lemma IdleMeansEmpty(capacity: nat, s: State, x: Place)
    requires WellFormed(s) && AtRest(capacity, s) && forall q: Proc :: s.pc[q] == Start
    ensures s.at[x] == []
  {
    match x {
      case InPipe(pipe) => IdleBlocked(capacity, s, Reader(pipe));
      case InHand(_) =>
      case OnWire => IdleBlocked(capacity, s, EthDeliver);
    }
  }

  /** With nothing planned and nothing in transit, everything was delivered. */
  lemma EmptyDelivered(plan: Plan, s: State, p: Proto)
    requires ProperPlan(plan) && WellFormed(s) && Ledger(plan, s) && s.plan[p] == []
    requires forall x: Place :: s.at[x] == []
    ensures s.arrived[p] == plan[p] && s.delivered[p] == ReceivedAll(p, plan[p]) && s.count[p] == |plan[p]|
  {
    assert forall k :: 0 <= k < 17 ==> Stages(s.at, p)[k] == [];
    EmptyChain(Stages(s.at, p));
    assert Balanced(plan, s, p);
    assert s.arrived[p] + [] + [] == s.arrived[p];
  }

  lemma RestMeansEmpty(capacity: nat, plan: Plan, s: State)
    requires ProperPlan(plan) && Safe(capacity, plan, s) && InFlight(s) <= capacity && AtRest(capacity, s)
    ensures forall q: Proc :: s.pc[q] == Start
    ensures forall x: Place :: s.at[x] == []
  {
    forall q: Proc ensures s.pc[q] == Start {
      RestMeansIdle(capacity, plan, s, q);
    }
    forall x: Place ensures s.at[x] == [] {
      IdleMeansEmpty(capacity, s, x);
    }
  }

  /** No deadlock below the capacity: a reachable state without a step is the final state, if what is in flight fits
      into a pipe. */
  lemma DeadMeansDone(capacity: nat, plan: Plan, s: State)
    requires ProperPlan(plan) && Safe(capacity, plan, s) && InFlight(s) <= capacity && Dead(capacity, s)
    ensures Final(plan, s)
  {
    RestMeansEmpty(capacity, plan, s);
    forall p: Proto
      ensures s.plan[p] == [] && s.arrived[p] == plan[p]
      ensures s.delivered[p] == ReceivedAll(p, plan[p]) && s.count[p] == |plan[p]|
    {
      IdleBlocked(capacity, s, Poll(p));
      EmptyDelivered(plan, s, p);
    }
    forall x: Pipe ensures s.sem[x] == 1 {
      assert s.sem[x] + Held(s, Reader(x), x) + Held(s, Writer(x), x) == 1;
    }
  }

  lemma DeadMeansFinal(capacity: nat, plan: Plan, s: State)
    requires ProperPlan(plan) && Safe(capacity, plan, s) && Planned(plan) <= capacity && Dead(capacity, s)
    ensures Final(plan, s)
  {
    FlightPlanned(plan, s);
    DeadMeansDone(capacity, plan, s);
  }

  lemma FinalMeansDead(capacity: nat, plan: Plan, s: State)
    requires ProperPlan(plan) && WellFormed(s) && Final(plan, s)
    ensures Dead(capacity, s)
  {
  }

  /** A run that cannot be continued has ended in the final state, after a bounded number of steps, whatever the
      scheduling. */
  lemma MaximalRunsComplete(capacity: nat, plan: Plan, schedule: seq<Proc>)
    requires ProperPlan(plan) && Planned(plan) <= capacity && Feasible(capacity, Init(plan), schedule)
    ensures Dead(capacity, Run(capacity, Init(plan), schedule)) <==> Final(plan, Run(capacity, Init(plan), schedule))
    ensures |schedule| <= 180 * Planned(plan) + 40
  {
    var s := Run(capacity, Init(plan), schedule);
    RunReachable(capacity, plan, schedule);
    ReachableSafe(capacity, plan, s);
    RunsAreFinite(capacity, plan, schedule);
    if Dead(capacity, s) {
      DeadMeansFinal(capacity, plan, s);
    } else if Final(plan, s) {
      FinalMeansDead(capacity, plan, s);
    }
  }
}
