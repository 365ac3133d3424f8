/** Deadlock can be avoided: with any room at all, some schedule delivers everything, whatever is planned. One message
    at a time is enough, and a pipe without room delivers nothing. */
module PppCompletion {
  import opened Layers
  import opened PppNetwork
  import opened PppInvariant
  import opened PppConservation
  import opened PppTermination
  import opened PppProgress
  import opened PppSteps

  // ----- one message at a time

  function Remaining(s: State): nat
    requires Total(s)
  {
    |s.plan[Ftp]| + |s.plan[Telnet]| + |s.plan[Rdp]| + |s.plan[Dns]|
  }

  lemma OnlyStartCreates(capacity: nat, s: State, q: Proc)
    requires WellFormed(s) && Enabled(capacity, s, q)
    ensures Act(capacity, s, q).value.0.Create? ==> q.Poll? && s.pc[q] == Start
  {
  }

  lemma ArrivesMore(s: State, e: Effect, p: Proto)
    requires Total(s) && Applicable(s, e)
    ensures |ArrivedAfter(s, e)[p]| >= |s.arrived[p]|
  {
  }

  lemma FlightOf(plan: Plan, s: State)
    requires ProperPlan(plan) && Total(s) && Ledger(plan, s)
    ensures InFlight(s) + Remaining(s) + |s.arrived[Ftp]| + |s.arrived[Telnet]| + |s.arrived[Rdp]| + |s.arrived[Dns]|
            == Planned(plan)
  {
    TransitPlanned(plan, s, Ftp);
    TransitPlanned(plan, s, Telnet);
    TransitPlanned(plan, s, Rdp);
    TransitPlanned(plan, s, Dns);
  }

  lemma AllArrive(capacity: nat, s: State, q: Proc)
    requires WellFormed(s) && Enabled(capacity, s, q)
    ensures forall p: Proto :: |Step(capacity, s, q).arrived[p]| >= |s.arrived[p]|
    ensures !(q.Poll? && s.pc[q] == Start) ==> Step(capacity, s, q).plan == s.plan
  {
    OnlyStartCreates(capacity, s, q);
    forall p: Proto
      ensures |ArrivedAfter(s, Act(capacity, s, q).value.0)[p]| >= |s.arrived[p]|
    {
      ArrivesMore(s, Act(capacity, s, q).value.0, p);
    }
  }

  /** No step but the creation of a message brings one more into flight. */
  lemma FlightKept(capacity: nat, plan: Plan, s: State, q: Proc)
    requires ProperPlan(plan) && Safe(capacity, plan, s) && Enabled(capacity, s, q) && !(q.Poll? && s.pc[q] == Start)
    ensures InFlight(Step(capacity, s, q)) <= InFlight(s)
  {
    StepKeepsSafe(capacity, plan, s, q);
    AllArrive(capacity, s, q);
    FlightOf(plan, s);
    FlightOf(plan, Step(capacity, s, q));
  }

  lemma OneRemainsLess(s: State, p: Proto)
    requires Total(s) && s.plan[p] != []
    ensures var plan := s.plan[p := s.plan[p][1..]];
            |plan[Ftp]| + |plan[Telnet]| + |plan[Rdp]| + |plan[Dns]| + 1 == Remaining(s)
  {
    match p { case Ftp => case Telnet => case Rdp => case Dns => }
  }

  lemma CreateRemains(capacity: nat, s: State, p: Proto)
    requires WellFormed(s) && s.pc[Poll(p)] == Start && Enabled(capacity, s, Poll(p))
    ensures Remaining(Step(capacity, s, Poll(p))) + 1 == Remaining(s)
  {
    assert s.plan[p] != [] && Act(capacity, s, Poll(p)).value.0 == Create(p);
    OneRemainsLess(s, p);
  }

  lemma FlightOneMore(capacity: nat, plan: Plan, s: State, p: Proto)
    requires ProperPlan(plan) && Safe(capacity, plan, s) && s.pc[Poll(p)] == Start && Enabled(capacity, s, Poll(p))
    ensures InFlight(Step(capacity, s, Poll(p))) <= InFlight(s) + 1
  {
    StepKeepsSafe(capacity, plan, s, Poll(p));
    AllArrive(capacity, s, Poll(p));
    CreateRemains(capacity, s, p);
    FlightOf(plan, s);
    FlightOf(plan, Step(capacity, s, Poll(p)));
  }

  lemma NothingInFlight(s: State)
    requires Total(s) && forall x: Place :: s.at[x] == []
    ensures InFlight(s) == 0
  {
    forall p: Proto
      ensures InTransit(s, p) == []
    {
      assert forall k :: 0 <= k < 17 ==> Stages(s.at, p)[k] == [];
      EmptyChain(Stages(s.at, p));
    }
  }

  /** The next step of a schedule that makes a message only when there is none: any other step first. */
  lemma NextStep(capacity: nat, plan: Plan, s: State) returns (q: Proc)
    requires ProperPlan(plan) && Safe(capacity, plan, s) && InFlight(s) <= 1 <= capacity && !Dead(capacity, s)
    ensures Enabled(capacity, s, q) && InFlight(Step(capacity, s, q)) <= 1
  {
    if r: Proc :| Enabled(capacity, s, r) && !(r.Poll? && s.pc[r] == Start) {
      q := r;
      FlightKept(capacity, plan, s, q);
    } else {
      q :| Enabled(capacity, s, q);
      RestMeansEmpty(capacity, plan, s);
      NothingInFlight(s);
      FlightOneMore(capacity, plan, s, q.p);
    }
  }

  lemma OneAtATime(capacity: nat, plan: Plan, s: State) returns (s': State)
    requires ProperPlan(plan) && Reachable(capacity, plan, s) && Safe(capacity, plan, s) && InFlight(s) <= 1 <= capacity
    ensures Reachable(capacity, plan, s') && WellFormed(s') && Final(plan, s')
    decreases Measure(s)
  {
    if Dead(capacity, s) {
      s' := s;
      DeadMeansDone(capacity, plan, s);
    } else {
      var q := NextStep(capacity, plan, s);
      StepDrops(capacity, plan, s, q);
      StepKeepsSafe(capacity, plan, s, q);
      ReachStep(capacity, plan, s, q);
      s' := OneAtATime(capacity, plan, Step(capacity, s, q));
    }
  }

  // ----- no room at all

  /** Nothing has left the polling loops. */
  ghost predicate Grounded(s: State) {
    && WellFormed(s)
    && (forall x: Place :: !(x.InHand? && x.proc.Poll?) ==> s.at[x] == [])
    && (forall q: Proc :: if q.Poll? then s.pc[q].Start? || s.pc[q].WaitOut? || s.pc[q].Writing? else s.pc[q] == Start)
    && (forall p: Proto :: s.arrived[p] == [])
  }

  lemma OnlyPollsMove(s: State, q: Proc)
    requires Grounded(s) && Enabled(0, s, q)
    ensures q.Poll?
  {
    if !q.Poll? {
      IdleWaits(0, s, q);
    }
  }

  /** They make a message and take the semaphore, and then there is no room. */
  lemma PollActs(s: State, q: Proc)
    requires Grounded(s) && q.Poll? && Enabled(0, s, q)
    ensures var (e, pc) := Act(0, s, q).value;
            (e == Create(q.p) || e.Take?) && (pc.WaitOut? || pc.Writing?)
  {
  }

  lemma GroundedNext(s: State, q: Proc, e: Effect, pc: PC)
    requires Grounded(s) && q.Poll? && Applicable(s, e) && Consistent(q, s.pc[q], e, pc)
    requires (e == Create(q.p) || e.Take?) && (pc.WaitOut? || pc.Writing?)
    ensures Grounded(Next(s, q, e, pc))
  {
    NextWellFormed(s, q, e, pc);
    forall x: Place | !(x.InHand? && x.proc.Poll?)
      ensures AtAfter(s, e)[x] == []
    {
      PlaceOtherwise(s, q, e, pc, x);
    }
  }

  lemma GroundedStep(s: State, q: Proc)
    requires Grounded(s) && Enabled(0, s, q)
    ensures Grounded(Step(0, s, q))
  {
    OnlyPollsMove(s, q);
    PollActs(s, q);
    var (e, pc) := Act(0, s, q).value;
    GroundedNext(s, q, e, pc);
  }

  lemma GroundedReachable(plan: Plan, s: State)
    requires ProperPlan(plan) && Reachable(0, plan, s)
    ensures Grounded(s)
  {
    forall s: State, q: Proc | Grounded(s) && Enabled(0, s, q)
      ensures Grounded(Step(0, s, q))
    {
      GroundedStep(s, q);
    }
    InitGrounded(plan);
    var reach := iset s: State | Grounded(s);
    assert Closed(0, reach) && Init(plan) in reach;
  }

  lemma InitGrounded(plan: Plan)
    requires ProperPlan(plan)
    ensures Grounded(Init(plan))
  {
    AllListed();
  }

  // ----- the main result

  ghost predicate Completes(capacity: nat, plan: Plan, s: State)
    requires ProperPlan(plan)
  {
    Reachable(capacity, plan, s) && WellFormed(s) && Final(plan, s)
  }

  lemma Completion(capacity: nat, plan: Plan) returns (s: State)
    requires ProperPlan(plan) && capacity > 0
    ensures Completes(capacity, plan, s)
  {
    InitReachable(capacity, plan);
    ReachableSafe(capacity, plan, Init(plan));
    AllListed();
    NothingInFlight(Init(plan));
    s := OneAtATime(capacity, plan, Init(plan));
  }

  lemma NothingPlanned(plan: Plan)
    requires ProperPlan(plan) && Planned(plan) == 0
    ensures Completes(0, plan, Init(plan))
  {
    InitReachable(0, plan);
    AllListed();
    forall p: Proto
      ensures plan[p] == [] && ReceivedAll(p, plan[p]) == []
    {
      match p { case Ftp => case Telnet => case Rdp => case Dns => }
    }
  }

  lemma NeverArrives(plan: Plan, s: State)
    requires ProperPlan(plan) && Completes(0, plan, s)
    ensures Planned(plan) == 0
  {
    GroundedReachable(plan, s);
  }

  /** Some schedule delivers everything exactly if pipes have room for a message, or there is nothing to deliver. */
  lemma CompletableIff(capacity: nat, plan: Plan)
    requires ProperPlan(plan)
    ensures (exists s: State :: Completes(capacity, plan, s)) <==> capacity > 0 || Planned(plan) == 0
  {
    if capacity > 0 {
      var s := Completion(capacity, plan);
    } else if Planned(plan) == 0 {
      NothingPlanned(plan);
    } else if s: State :| Completes(capacity, plan, s) {
      NeverArrives(plan, s);
      assert false;
    }
  }
}
