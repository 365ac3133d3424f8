/** The completion report of the deliver processes: the increment and the four reads of the test are separate
    steps, so the question is when, and how often, the test succeeds. */
module PppReport {
  import opened Layers
  import opened Options
  import opened PppNetwork
  import opened PppConservation
  import opened PppTermination
  import opened PppProgress

  /** What the report depends on: the shared counters, the reports of each deliver process, and which counter
      the process is about to read while it is in the middle of the test. */
  datatype Tally = Tally(count: map<Proto, nat>, reports: map<Proto, nat>, test: map<Proto, Option<nat>>)

  datatype Event = Quiet | Counted(p: Proto) | Read(p: Proto)

  ghost predicate Complete(t: Tally) {
    && (forall p: Proto :: p in t.count && p in t.reports && p in t.test)
    && (forall p: Proto :: t.test[p].Some? ==> t.test[p].value < 4)
  }

  function TestOf(pc: PC): Option<nat> {
    if pc.Check? then Some(pc.k) else None
  }

  /** `t` is what the state shows of counters, reports and tests. */
  ghost predicate Shows(s: State, t: Tally)
    requires Total(s)
  {
    t.count == s.count && t.reports == s.reports && TestsShown(s.pc, t)
  }

  ghost predicate TestsShown(pc: map<Proc, PC>, t: Tally) {
    forall p: Proto :: TestShown(pc, t, p)
  }

  ghost predicate TestShown(pc: map<Proc, PC>, t: Tally, p: Proto) {
    AppDeliver(p) in pc && p in t.test && t.test[p] == TestOf(pc[AppDeliver(p)])
  }

  function EventOf(s: State, q: Proc): Event
    requires Total(s)
  {
    if !q.AppDeliver? then Quiet
    else if s.pc[q] == Counting then Counted(q.p)
    else if s.pc[q].Check? then Read(q.p)
    else Quiet
  }

  ghost predicate Possible(t: Tally, e: Event) {
    Complete(t) && (e.Read? ==> t.test[e.p].Some?) && (e.Counted? ==> t.test[e.p] == None)
  }

  /** One event: an increment starts the test, a read of a counter ends it, continues it, or reports. */
  function After(t: Tally, e: Event): (t': Tally)
    requires Possible(t, e)
    ensures Complete(t')
  {
    match e
    case Quiet => t
    case Counted(p) => t.(count := t.count[p := t.count[p] + 1], test := t.test[p := Some(0)])
    case Read(p) =>
      var k := t.test[p].value;
      if t.count[Counter(k)] != TOT_SEND then t.(test := t.test[p := None])
      else if k < 3 then t.(test := t.test[p := Some(k + 1)])
      else t.(test := t.test[p := None], reports := t.reports[p := t.reports[p] + 1])
  }

  /** The effect and the next program counter that belong to an event of a process at `before`. */
  ghost predicate Performs(t: Tally, q: Proc, before: PC, ev: Event, e: Effect, pc: PC)
    requires Complete(t)
  {
    match ev
    case Quiet => !e.Deliver? && !e.Report? && (q.AppDeliver? ==> !before.Check? && !pc.Check?)
    case Counted(p) => q == AppDeliver(p) && e == Deliver(p) && before == Counting && pc == Check(0)
    case Read(p) =>
      && q == AppDeliver(p) && before.Check? && before.k < 4
      && if t.count[Counter(before.k)] != TOT_SEND then e == Nop && pc == Start
         else if before.k < 3 then e == Nop && pc == Check(before.k + 1)
         else e == Report(p) && pc == Start
  }

  lemma StepPerforms(capacity: nat, s: State, t: Tally, q: Proc)
    requires WellFormed(s) && Enabled(capacity, s, q) && (s.pc[q].Check? ==> s.pc[q].k < 4)
    requires Complete(t) && t.count == s.count
    ensures var (e, pc) := Act(capacity, s, q).value; Performs(t, q, s.pc[q], EventOf(s, q), e, pc)
  {
  }

  lemma CountersShown(t: Tally, q: Proc, before: PC, ev: Event, e: Effect, pc: PC)
    requires Possible(t, ev) && Performs(t, q, before, ev, e, pc)
    requires ev.Read? ==> t.test[ev.p] == TestOf(before)
    ensures CountAfter(t.count, e) == After(t, ev).count && ReportsAfter(t.reports, e) == After(t, ev).reports
  {
  }

  lemma OwnTest(t: Tally, q: Proc, before: PC, ev: Event, e: Effect, pc: PC, p: Proto)
    requires Possible(t, ev) && Performs(t, q, before, ev, e, pc) && q == AppDeliver(p) && t.test[p] == TestOf(before)
    ensures After(t, ev).test[p] == TestOf(pc)
  {
  }

  lemma OtherTest(t: Tally, ev: Event, p: Proto)
    requires Possible(t, ev) && (ev != Quiet ==> ev.p != p)
    ensures After(t, ev).test[p] == t.test[p]
  {
  }

  lemma TestNext(pcs: map<Proc, PC>, t: Tally, q: Proc, ev: Event, e: Effect, pc: PC, p: Proto)
    requires q in pcs && Possible(t, ev) && TestShown(pcs, t, p) && Performs(t, q, pcs[q], ev, e, pc)
    ensures TestShown(pcs[q := pc], After(t, ev), p)
  {
    if q == AppDeliver(p) {
      OwnTest(t, q, pcs[q], ev, e, pc, p);
    } else {
      OtherTest(t, ev, p);
    }
  }

  lemma TestsNext(pcs: map<Proc, PC>, t: Tally, q: Proc, ev: Event, e: Effect, pc: PC)
    requires q in pcs && Possible(t, ev) && Performs(t, q, pcs[q], ev, e, pc)
    requires TestsShown(pcs, t)
    ensures TestsShown(pcs[q := pc], After(t, ev))
  {
    var pcs', t' := pcs[q := pc], After(t, ev);
    forall p: Proto
      ensures TestShown(pcs', t', p)
    {
      TestNext(pcs, t, q, ev, e, pc, p);
    }
  }

  lemma NextShown(s: State, q: Proc, e: Effect, pc: PC, t: Tally)
    requires Total(s) && Applicable(s, e)
    requires t.count == CountAfter(s.count, e) && t.reports == ReportsAfter(s.reports, e)
    requires TestsShown(s.pc[q := pc], t)
    ensures Shows(Next(s, q, e, pc), t)
  {
  }

  /** The network refines the tally: every step of every process is one event. */
  lemma StepIsEvent(capacity: nat, s: State, t: Tally, q: Proc)
    requires WellFormed(s) && Complete(t) && Shows(s, t) && Enabled(capacity, s, q)
    ensures Possible(t, EventOf(s, q))
    ensures Shows(Step(capacity, s, q), After(t, EventOf(s, q)))
  {
    if q.AppDeliver? {
      assert TestShown(s.pc, t, q.p);
    }
    var ev := EventOf(s, q);
    StepPerforms(capacity, s, t, q);
    var (e, pc) := Act(capacity, s, q).value;
    CountersShown(t, q, s.pc[q], ev, e, pc);
    TestsNext(s.pc, t, q, ev, e, pc);
    NextShown(s, q, e, pc, After(t, ev));
  }

  // ----- what the test establishes

  function Index(p: Proto): (k: nat)
    ensures k < 4 && Counter(k) == p
  {
    match p case Ftp => 0 case Telnet => 1 case Rdp => 2 case Dns => 3
  }

  ghost predicate AllAtLeast(t: Tally)
    requires Complete(t)
  {
    forall p: Proto :: t.count[p] >= TOT_SEND
  }

  ghost predicate AllExactly(t: Tally)
    requires Complete(t)
  {
    forall p: Proto :: t.count[p] == TOT_SEND
  }

  /** What process `p` has established while it is in the middle of the test. */
  ghost predicate Tested(t: Tally, p: Proto)
    requires Complete(t)
  {
    t.test[p].Some? ==>
      && (forall j :: 0 <= j < t.test[p].value ==> t.count[Counter(j)] >= TOT_SEND)
      && (Index(p) < t.test[p].value ==> t.count[p] == TOT_SEND)
      && (t.count[p] <= TOT_SEND ==> t.reports[p] == 0)
  }

  ghost predicate Reported(t: Tally, p: Proto)
    requires Complete(t)
  {
    t.reports[p] <= 1 && (t.reports[p] == 1 ==> AllAtLeast(t))
  }

  /** Once all counters stand at the total, someone has reported or is still testing. */
  ghost predicate Pending(t: Tally)
    requires Complete(t)
  {
    AllExactly(t) ==> exists p: Proto :: t.reports[p] == 1 || t.test[p].Some?
  }

  ghost predicate Reporting(t: Tally)
    requires Complete(t)
  {
    (forall p: Proto :: Tested(t, p) && Reported(t, p)) && Pending(t)
  }

  lemma TestedKept(t: Tally, e: Event, p: Proto)
    requires Possible(t, e) && Tested(t, p) && Reported(t, p)
    ensures Tested(After(t, e), p)
  {
    match e {
      case Quiet =>
      case Counted(r) =>
      case Read(r) => ReadKeepsTested(t, r, p);
    }
  }

  lemma ReadKeepsTested(t: Tally, r: Proto, p: Proto)
    requires Possible(t, Read(r)) && Tested(t, p)
    ensures Tested(After(t, Read(r)), p)
  {
    var t' := After(t, Read(r));
    assert t'.count == t.count;
    if r == p && t'.test[p].Some? {
      assert t.count[Counter(t.test[p].value)] == TOT_SEND && t'.reports == t.reports;
    }
  }

  /** At its last read a process has seen all four counters reach the total, its own one exactly there. */
  lemma LastRead(t: Tally, p: Proto)
    requires Possible(t, Read(p)) && Tested(t, p) && t.test[p] == Some(3) && t.count[Dns] == TOT_SEND
    ensures AllAtLeast(t) && t.count[p] == TOT_SEND && t.reports[p] == 0
  {
    assert Counter(0) == Ftp && Counter(1) == Telnet && Counter(2) == Rdp;
    forall r: Proto
      ensures t.count[r] >= TOT_SEND
    {
      assert Counter(Index(r)) == r;
    }
  }

  lemma ReportedKept(t: Tally, e: Event, p: Proto)
    requires Possible(t, e) && Tested(t, p) && Reported(t, p)
    ensures Reported(After(t, e), p)
  {
    if e == Read(p) && t.test[p] == Some(3) && t.count[Dns] == TOT_SEND {
      LastRead(t, p);
    }
  }

  lemma PendingKept(t: Tally, e: Event)
    requires Possible(t, e) && Pending(t) && forall p: Proto :: Tested(t, p) && Reported(t, p)
    ensures Pending(After(t, e))
  {
    var t' := After(t, e);
    if e.Counted? {
      assert t'.test[e.p].Some?;
    } else if AllExactly(t') {
      var p: Proto :| t.reports[p] == 1 || t.test[p].Some?;
      PendingWitness(t, e, p);
      assert t'.reports[p] == 1 || t'.test[p].Some?;
    }
  }

  lemma PendingWitness(t: Tally, e: Event, p: Proto)
    requires Possible(t, e) && !e.Counted? && AllExactly(t) && (t.reports[p] == 1 || t.test[p].Some?)
    requires Tested(t, p) && Reported(t, p)
    ensures After(t, e).reports[p] == 1 || After(t, e).test[p].Some?
  {
  }

  lemma EventKeepsReporting(t: Tally, e: Event)
    requires Possible(t, e) && Reporting(t)
    ensures Reporting(After(t, e))
  {
    forall p: Proto
      ensures Tested(After(t, e), p) && Reported(After(t, e), p)
    {
      TestedKept(t, e, p);
      ReportedKept(t, e, p);
    }
    PendingKept(t, e);
  }

  // ----- in the network

  lemma InitTally(plan: Plan) returns (t: Tally)
    requires ProperPlan(plan)
    ensures Complete(t) && Shows(Init(plan), t) && Reporting(t)
  {
    AllListed();
    t := Tally(Init(plan).count, Init(plan).reports, map p | p in ALL_PROTOS :: None);
    assert t.count[Ftp] == 0;
  }

  ghost predicate HasTally(s: State) {
    Total(s) && exists t: Tally :: Complete(t) && Shows(s, t) && Reporting(t)
  }

  lemma HasTallyClosed(capacity: nat)
    ensures Closed(capacity, iset s: State | HasTally(s))
  {
    forall s: State, q: Proc | HasTally(s) && WellFormed(s) && Enabled(capacity, s, q)
      ensures HasTally(Step(capacity, s, q))
    {
      var t: Tally :| Complete(t) && Shows(s, t) && Reporting(t);
      StepIsEvent(capacity, s, t, q);
      EventKeepsReporting(t, EventOf(s, q));
    }
  }

  lemma ReachableReports(capacity: nat, plan: Plan, s: State) returns (t: Tally)
    requires ProperPlan(plan) && Reachable(capacity, plan, s)
    ensures Total(s) && Complete(t) && Shows(s, t) && Reporting(t)
  {
    var t0 := InitTally(plan);
    HasTallyClosed(capacity);
    assert s in iset s: State | HasTally(s);
    t :| Complete(t) && Shows(s, t) && Reporting(t);
  }

  lemma CountIsDelivered(capacity: nat, plan: Plan, s: State, p: Proto)
    requires ProperPlan(plan) && Reachable(capacity, plan, s)
    ensures Total(s) && s.count[p] == |s.delivered[p]|
  {
    ReachableSafe(capacity, plan, s);
    assert Balanced(plan, s, p);
  }

  /** In every reachable state each deliver process has reported at most once, and only after at least the total
      of every protocol was delivered. */
  lemma ReportsAreSound(capacity: nat, plan: Plan, s: State)
    requires ProperPlan(plan) && Reachable(capacity, plan, s)
    ensures Total(s)
    ensures forall p: Proto :: s.reports[p] <= 1
    ensures forall p: Proto, r: Proto :: s.reports[p] == 1 ==> |s.delivered[r]| >= TOT_SEND
    ensures s.reports[Ftp] + s.reports[Telnet] + s.reports[Rdp] + s.reports[Dns] <= 4
  {
    var t := ReachableReports(capacity, plan, s);
    forall p: Proto, r: Proto
      ensures s.reports[p] <= 1 && (s.reports[p] == 1 ==> |s.delivered[r]| >= TOT_SEND)
    {
      assert Reported(t, p);
      CountIsDelivered(capacity, plan, s, r);
    }
  }

  ghost predicate AnyReport(s: State)
    requires Total(s)
  {
    s.reports[Ftp] + s.reports[Telnet] + s.reports[Rdp] + s.reports[Dns] > 0
  }

  /** The report cannot be missed: once all four counters stand at the total and no process is still testing,
      one has reported. */
  lemma ReportNotMissed(capacity: nat, plan: Plan, s: State)
    requires ProperPlan(plan) && Reachable(capacity, plan, s)
    requires Total(s) && (forall p: Proto :: s.count[p] == TOT_SEND && !s.pc[AppDeliver(p)].Check?)
    ensures AnyReport(s)
  {
    var t := ReachableReports(capacity, plan, s);
    var p := PendingReport(s, t);
    match p { case Ftp => case Telnet => case Rdp => case Dns => }
  }

  lemma PendingReport(s: State, t: Tally) returns (p: Proto)
    requires Total(s) && Complete(t) && Shows(s, t) && Pending(t)
    requires forall p: Proto :: s.count[p] == TOT_SEND && !s.pc[AppDeliver(p)].Check?
    ensures s.reports[p] == 1
  {
    assert AllExactly(t);
    p :| t.reports[p] == 1 || t.test[p].Some?;
    assert TestShown(s.pc, t, p);
  }

  lemma FinalReported(capacity: nat, plan: Plan, s: State)
    requires ProperPlan(plan) && Reachable(capacity, plan, s) && Total(s) && Final(plan, s)
    requires forall p: Proto :: |plan[p]| == TOT_SEND
    ensures AnyReport(s)
  {
    assert forall p: Proto :: s.count[p] == TOT_SEND && s.pc[AppDeliver(p)] == Start;
    ReportNotMissed(capacity, plan, s);
  }

  /** With exactly the total planned for every protocol, and room for it, every run that cannot be continued has
      ended in the final state, with at least one report and at most four. */
  lemma CompletionReported(capacity: nat, plan: Plan, s: State)
    requires ProperPlan(plan) && Reachable(capacity, plan, s)
    requires (forall p: Proto :: |plan[p]| == TOT_SEND) && Planned(plan) <= capacity
    requires WellFormed(s) && Dead(capacity, s)
    ensures Final(plan, s) && AnyReport(s)
    ensures s.reports[Ftp] + s.reports[Telnet] + s.reports[Rdp] + s.reports[Dns] <= 4
  {
    ReachableSafe(capacity, plan, s);
    DeadMeansFinal(capacity, plan, s);
    FinalReported(capacity, plan, s);
    ReportsAreSound(capacity, plan, s);
  }
}
