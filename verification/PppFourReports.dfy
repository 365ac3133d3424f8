/** The bound of four completion reports is attained: if every deliver process is held back between its last
    increment and its first read, all four tests succeed. */
module PppFourReports {
  import opened Layers
  import opened Options
  import opened PppNetwork
  import opened PppInvariant
  import opened PppConservation
  import opened PppTermination
  import opened PppProgress
  import opened PppReport

  ghost predicate Parked(s: State, q: Proc)
    requires Total(s)
  {
    q.AppDeliver? && s.pc[q] == Check(0) && s.count[q.p] == TOT_SEND
  }

  ghost predicate AllParked(capacity: nat, s: State)
    requires WellFormed(s)
  {
    forall q: Proc :: Enabled(capacity, s, q) ==> Parked(s, q)
  }

  /** No process that has delivered the total has begun its reads, and nobody has reported. */
  ghost predicate Early(t: Tally, p: Proto)
    requires Complete(t)
  {
    t.reports[p] == 0 && (t.count[p] == TOT_SEND ==> t.test[p] == Some(0))
  }

  lemma EventKeepsEarly(t: Tally, ev: Event, p: Proto)
    requires Possible(t, ev) && Tested(t, p) && Early(t, p)
    requires ev.Read? ==> t.count[ev.p] != TOT_SEND
    ensures Early(After(t, ev), p)
  {
    if ev == Read(p) && t.test[p] == Some(3) && t.count[Dns] == TOT_SEND {
      LastRead(t, p);
    }
  }

  lemma NotParkedReads(s: State, t: Tally, q: Proc)
    requires Total(s) && Complete(t) && Shows(s, t) && !Parked(s, q) && EventOf(s, q).Read?
    requires Early(t, q.p)
    ensures t.count[q.p] != TOT_SEND
  {
    assert TestShown(s.pc, t, q.p);
  }

  ghost predicate AllEarly(s: State, t: Tally)
    requires Total(s)
  {
    Complete(t) && Shows(s, t) && Reporting(t) && forall p: Proto :: Early(t, p)
  }

  lemma StepKeepsEarly(capacity: nat, s: State, t: Tally, q: Proc)
    requires WellFormed(s) && Enabled(capacity, s, q) && !Parked(s, q) && AllEarly(s, t)
    ensures Possible(t, EventOf(s, q)) && AllEarly(Step(capacity, s, q), After(t, EventOf(s, q)))
  {
    var ev := EventOf(s, q);
    StepIsEvent(capacity, s, t, q);
    EventKeepsReporting(t, ev);
    if ev.Read? {
      NotParkedReads(s, t, q);
    }
    forall p: Proto
      ensures Early(After(t, ev), p)
    {
      EventKeepsEarly(t, ev, p);
    }
  }

  lemma EarlyRun(capacity: nat, plan: Plan, s: State, t: Tally) returns (s': State, t': Tally)
    requires ProperPlan(plan) && Reachable(capacity, plan, s) && Safe(capacity, plan, s) && AllEarly(s, t)
    ensures Reachable(capacity, plan, s') && Safe(capacity, plan, s') && AllParked(capacity, s') && AllEarly(s', t')
    decreases Measure(s)
  {
    if q: Proc :| Enabled(capacity, s, q) && !Parked(s, q) {
      StepKeepsEarly(capacity, s, t, q);
      StepDrops(capacity, plan, s, q);
      StepKeepsSafe(capacity, plan, s, q);
      ReachStep(capacity, plan, s, q);
      s', t' := EarlyRun(capacity, plan, Step(capacity, s, q), After(t, EventOf(s, q)));
    } else {
      s', t' := s, t;
    }
  }

  // ----- when only parked processes can move, everything has arrived

  lemma NobodyHolds(capacity: nat, plan: Plan, s: State, q: Proc)
    requires ProperPlan(plan) && Safe(capacity, plan, s) && Planned(plan) <= capacity && AllParked(capacity, s)
    ensures !HoldsAny(s.pc[q])
  {
    if HoldsAny(s.pc[q]) {
      HolderBlocked(capacity, s, q);
      RoomToWrite(capacity, plan, s, q);
    }
  }

  lemma ParkedOrIdle(capacity: nat, plan: Plan, s: State, q: Proc)
    requires ProperPlan(plan) && Safe(capacity, plan, s) && Planned(plan) <= capacity && AllParked(capacity, s)
    ensures s.pc[q] == Start || Parked(s, q)
  {
    NobodyHolds(capacity, plan, s, q);
    if s.pc[q].WaitIn? {
      WaiterBlocked(capacity, s, q, s.pc[q].src);
      NobodyHolds(capacity, plan, s, Reader(s.pc[q].src));
      NobodyHolds(capacity, plan, s, Writer(s.pc[q].src));
    } else if s.pc[q].WaitOut? {
      WaiterBlocked(capacity, s, q, s.pc[q].dst);
      NobodyHolds(capacity, plan, s, Reader(s.pc[q].dst));
      NobodyHolds(capacity, plan, s, Writer(s.pc[q].dst));
    } else if s.pc[q] != Start {
      OthersEnabled(capacity, s, q);
    }
  }

  lemma OwnReader(x: Pipe, p: Proto)
    requires OnPath(InPipe(x), p) && Reader(x).AppDeliver?
    ensures Reader(x) == AppDeliver(p)
  {
  }

  lemma PipeEmpty(capacity: nat, s: State, p: Proto, x: Pipe)
    requires WellFormed(s) && AllParked(capacity, s) && (s.pc[Reader(x)] == Start || Parked(s, Reader(x)))
    requires OnPath(InPipe(x), p) && !Parked(s, AppDeliver(p))
    ensures s.at[InPipe(x)] == []
  {
    if Reader(x).AppDeliver? {
      OwnReader(x, p);
    }
    IdleBlocked(capacity, s, Reader(x));
  }

  lemma PathEmpty(capacity: nat, plan: Plan, s: State, p: Proto, k: nat)
    requires ProperPlan(plan) && Safe(capacity, plan, s) && Planned(plan) <= capacity && AllParked(capacity, s)
    requires k <= 16 && !Parked(s, AppDeliver(p))
    ensures s.at[PlaceAt(k, p)] == []
  {
    match PlaceAt(k, p) {
      case InPipe(x) =>
        ParkedOrIdle(capacity, plan, s, Reader(x));
        PipeEmpty(capacity, s, p, x);
      case InHand(q) => ParkedOrIdle(capacity, plan, s, q);
      case OnWire =>
        ParkedOrIdle(capacity, plan, s, EthDeliver);
        IdleBlocked(capacity, s, EthDeliver);
    }
  }

  lemma TransitEmpty(capacity: nat, plan: Plan, s: State, p: Proto)
    requires ProperPlan(plan) && Safe(capacity, plan, s) && Planned(plan) <= capacity && AllParked(capacity, s)
    requires !Parked(s, AppDeliver(p))
    ensures s.count[p] == |plan[p]|
  {
    forall k | 0 <= k < 17
      ensures Stages(s.at, p)[k] == []
    {
      PathEmpty(capacity, plan, s, p, k);
    }
    EmptyChain(Stages(s.at, p));
    ParkedOrIdle(capacity, plan, s, Poll(p));
    IdleBlocked(capacity, s, Poll(p));
    TransitPlanned(plan, s, p);
    assert Balanced(plan, s, p);
  }

  lemma AllArrived(capacity: nat, plan: Plan, s: State, t: Tally, p: Proto)
    requires ProperPlan(plan) && Safe(capacity, plan, s) && Planned(plan) <= capacity && AllParked(capacity, s)
    requires |plan[p]| == TOT_SEND && Complete(t) && Shows(s, t) && Early(t, p)
    ensures t.count[p] == TOT_SEND && t.reports[p] == 0 && t.test[p].Some?
  {
    assert TestShown(s.pc, t, p);
    if !Parked(s, AppDeliver(p)) {
      TransitEmpty(capacity, plan, s, p);
      assert false;
    }
  }

  // ----- then every test succeeds

  /** The tally after the test of `p` has succeeded. */
  ghost predicate OnlyReports(t: Tally, t': Tally, p: Proto)
    requires Complete(t) && Complete(t')
  {
    && t'.count == t.count && t'.reports[p] == t.reports[p] + 1
    && forall r: Proto :: r != p ==> t'.reports[r] == t.reports[r] && t'.test[r] == t.test[r]
  }

  lemma ReadingEnabled(capacity: nat, s: State, t: Tally, p: Proto)
    requires WellFormed(s) && Complete(t) && Shows(s, t) && t.test[p].Some?
    ensures Enabled(capacity, s, AppDeliver(p)) && EventOf(s, AppDeliver(p)) == Read(p)
  {
    assert TestShown(s.pc, t, p);
  }

  lemma ReadSucceeds(t: Tally, p: Proto)
    requires Complete(t) && AllExactly(t) && t.test[p].Some?
    ensures var t' := After(t, Read(p));
            if t.test[p].value < 3 then t' == t.(test := t.test[p := Some(t.test[p].value + 1)])
            else OnlyReports(t, t', p)
  {
    assert t.count[Counter(t.test[p].value)] == TOT_SEND;
  }

  /** A state of the set, shown by `t`, in which everything is delivered. */
  ghost predicate Testing(reach: iset<State>, s: State, t: Tally) {
    s in reach && WellFormed(s) && Complete(t) && Shows(s, t) && AllExactly(t)
  }

  lemma ReadStep(capacity: nat, reach: iset<State>, s: State, t: Tally, p: Proto) returns (s': State)
    requires Closed(capacity, reach) && Testing(reach, s, t) && t.test[p].Some?
    ensures Testing(reach, s', After(t, Read(p)))
  {
    ReadingEnabled(capacity, s, t, p);
    StepIsEvent(capacity, s, t, AppDeliver(p));
    s' := Step(capacity, s, AppDeliver(p));
    ReadSucceeds(t, p);
  }

  lemma ReportComposes(t: Tally, t1: Tally, t2: Tally, p: Proto)
    requires Complete(t) && Complete(t1) && Complete(t2) && t.test[p].Some?
    requires t1 == t.(test := t.test[p := Some(t.test[p].value + 1)])
    requires OnlyReports(t1, t2, p)
    ensures OnlyReports(t, t2, p)
  {
  }

  lemma TestSucceeds(capacity: nat, reach: iset<State>, s: State, t: Tally, p: Proto) returns (s': State, t': Tally)
    requires Closed(capacity, reach) && Testing(reach, s, t) && t.test[p].Some?
    ensures Testing(reach, s', t') && OnlyReports(t, t', p)
    decreases 4 - t.test[p].value
  {
    ReadSucceeds(t, p);
    s' := ReadStep(capacity, reach, s, t, p);
    t' := After(t, Read(p));
    if t.test[p].value < 3 {
      s', t' := TestSucceeds(capacity, reach, s', t', p);
      ReportComposes(t, After(t, Read(p)), t', p);
    }
  }

  lemma InitEarly(capacity: nat, plan: Plan) returns (t: Tally)
    requires ProperPlan(plan)
    ensures Reachable(capacity, plan, Init(plan)) && Safe(capacity, plan, Init(plan)) && AllEarly(Init(plan), t)
  {
    InitReachable(capacity, plan);
    InitInv(capacity, plan);
    InitLedger(plan);
    t := InitTally(plan);
    AllListed();
    assert forall p: Proto :: t.count[p] == 0 && t.reports[p] == 0;
  }

  lemma AllAtTest(capacity: nat, plan: Plan) returns (s: State, t: Tally)
    requires ProperPlan(plan) && Planned(plan) <= capacity && forall p: Proto :: |plan[p]| == TOT_SEND
    ensures Reachable(capacity, plan, s) && WellFormed(s) && Complete(t) && Shows(s, t) && AllExactly(t)
    ensures forall p: Proto :: t.reports[p] == 0 && t.test[p].Some?
  {
    t := InitEarly(capacity, plan);
    s, t := EarlyRun(capacity, plan, Init(plan), t);
    forall p: Proto
      ensures t.count[p] == TOT_SEND && t.reports[p] == 0 && t.test[p].Some?
    {
      AllArrived(capacity, plan, s, t, p);
    }
  }

  lemma OthersKept(t: Tally, t': Tally, p: Proto, x: Proto)
    requires Complete(t) && Complete(t') && OnlyReports(t, t', p) && x != p
    ensures t'.reports[x] == t.reports[x] && t'.test[x] == t.test[x]
  {
  }

  lemma AllReported(t0: Tally, t1: Tally, t2: Tally, t3: Tally, t4: Tally, p: Proto)
    requires Complete(t0) && Complete(t1) && Complete(t2) && Complete(t3) && Complete(t4) && t0.reports[p] == 0
    requires OnlyReports(t0, t1, Ftp) && OnlyReports(t1, t2, Telnet)
    requires OnlyReports(t2, t3, Rdp) && OnlyReports(t3, t4, Dns)
    ensures t4.reports[p] == 1
  {
    match p { case Ftp => case Telnet => case Rdp => case Dns => }
  }

  lemma AllSucceed(capacity: nat, reach: iset<State>, s: State, t: Tally) returns (s': State, t': Tally)
    requires Closed(capacity, reach) && Testing(reach, s, t)
    requires forall p: Proto :: t.reports[p] == 0 && t.test[p].Some?
    ensures Testing(reach, s', t') && forall p: Proto :: t'.reports[p] == 1
  {
    var s1, t1 := TestSucceeds(capacity, reach, s, t, Ftp);
    OthersKept(t, t1, Ftp, Telnet);
    var s2, t2 := TestSucceeds(capacity, reach, s1, t1, Telnet);
    OthersKept(t, t1, Ftp, Rdp);
    OthersKept(t1, t2, Telnet, Rdp);
    var s3, t3 := TestSucceeds(capacity, reach, s2, t2, Rdp);
    OthersKept(t, t1, Ftp, Dns);
    OthersKept(t1, t2, Telnet, Dns);
    OthersKept(t2, t3, Rdp, Dns);
    s', t' := TestSucceeds(capacity, reach, s3, t3, Dns);
    forall p: Proto
      ensures t'.reports[p] == 1
    {
      AllReported(t, t1, t2, t3, t', p);
    }
  }

  lemma ReachableClosed(capacity: nat, plan: Plan)
    requires ProperPlan(plan)
    ensures Closed(capacity, iset s: State | Reachable(capacity, plan, s))
  {
    forall s: State, q: Proc | Reachable(capacity, plan, s) && WellFormed(s) && Enabled(capacity, s, q)
      ensures Reachable(capacity, plan, Step(capacity, s, q))
    {
      ReachStep(capacity, plan, s, q);
    }
  }

  /** Whenever exactly the total is planned for every protocol, and fits, some scheduling makes all four deliver
      processes report. */
  lemma FourReports(capacity: nat, plan: Plan) returns (s: State)
    requires ProperPlan(plan) && Planned(plan) <= capacity && forall p: Proto :: |plan[p]| == TOT_SEND
    ensures Reachable(capacity, plan, s) && Total(s)
    ensures s.reports[Ftp] == s.reports[Telnet] == s.reports[Rdp] == s.reports[Dns] == 1
  {
    ReachableClosed(capacity, plan);
    var s0, t0 := AllAtTest(capacity, plan);
    var t;
    s, t := AllSucceed(capacity, (iset x: State | Reachable(capacity, plan, x)), s0, t0);
  }
}
