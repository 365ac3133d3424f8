/** Every run is finite: a weighted count of the messages still to travel, plus the micro-steps left in each
    process, drops with every step of every process. */
module PppTermination {
  import opened Bytes
  import opened Layers
  import opened PppNetwork
  import opened PppInvariant
  import opened PppConservation

  /** An upper bound on the steps a process can take without moving a message. */
  function Rank(pc: PC): (r: nat)
    ensures r <= 7
  {
    match pc
    case Start => 2
    case WaitIn(_) => 1
    case Reading(_) => 0
    case Got(_) => 3
    case Framed => 2
    case Sending => 1
    case Work(_) => 2
    case WaitOut(_) => 1
    case Writing(_) => 0
    case Wrote(_) => 3
    case Counting => 0
    case Check(k) => if k < 4 then 7 - k else 3
    case Crashed => 0
  }

  /** Each message counts for the number of stages it has left, this one included. */
  function Weight<T>(l: seq<seq<T>>): nat {
    if l == [] then 0 else |l| * |l[0]| + Weight(l[1..])
  }

  lemma WeightEnter<T>(l: seq<seq<T>>, x: T)
    requires l != []
    ensures Weight(l[0 := l[0] + [x]]) == Weight(l) + |l|
  {
    assert l[0 := l[0] + [x]][1..] == l[1..];
    assert |l| * (|l[0]| + 1) == |l| * |l[0]| + |l|;
  }

  lemma {:induction false} WeightLeave<T>(l: seq<seq<T>>, x: T, rest: seq<T>)
    requires l != [] && l[|l| - 1] == [x] + rest
    ensures Weight(l) == Weight(l[|l| - 1 := rest]) + 1
  {
    var l' := l[|l| - 1 := rest];
    if |l| == 1 {
      assert l[1..] == l'[1..] == [];
    } else {
      WeightLeave(l[1..], x, rest);
      assert l'[1..] == l[1..][|l| - 2 := rest];
    }
  }

  lemma {:induction false} WeightPass<T>(l: seq<seq<T>>, k: nat, x: T, rest: seq<T>)
    requires k + 1 < |l| && l[k] == [x] + rest
    ensures Weight(l) == Weight(l[k := rest][k + 1 := l[k + 1] + [x]]) + 1
  {
    var l' := l[k := rest][k + 1 := l[k + 1] + [x]];
    if k == 0 {
      assert l'[1..] == l[1..][0 := l[1] + [x]];
      WeightEnter(l[1..], x);
      assert |l| * |l[0]| == |l| * (|rest| + 1) == |l| * |rest| + |l|;
    } else {
      WeightPass(l[1..], k - 1, x, rest);
      assert l'[1..] == l[1..][k - 1 := rest][k := l[k + 1] + [x]];
    }
  }

  function Load(at: map<Place, seq<Item>>, plan: map<Proto, seq<seq<byte>>>, p: Proto): nat
    requires (forall x: Place :: x in at) && (forall p: Proto :: p in plan)
  {
    18 * |plan[p]| + Weight(Stages(at, p))
  }

  function Loads(at: map<Place, seq<Item>>, plan: map<Proto, seq<seq<byte>>>): nat
    requires (forall x: Place :: x in at) && (forall p: Proto :: p in plan)
  {
    Load(at, plan, Ftp) + Load(at, plan, Telnet) + Load(at, plan, Rdp) + Load(at, plan, Dns)
  }

  function Ranks(pc: map<Proc, PC>): nat
    requires forall q: Proc :: q in pc
  {
    Rank(pc[Poll(Ftp)]) + Rank(pc[Poll(Telnet)]) + Rank(pc[Poll(Rdp)]) + Rank(pc[Poll(Dns)])
    + Rank(pc[AppSend(Ftp)]) + Rank(pc[AppSend(Telnet)]) + Rank(pc[AppSend(Rdp)]) + Rank(pc[AppSend(Dns)])
    + Rank(pc[TransSend(Tcp)]) + Rank(pc[TransSend(Udp)]) + Rank(pc[IpSend]) + Rank(pc[EthSend])
    + Rank(pc[EthDeliver]) + Rank(pc[IpDeliver]) + Rank(pc[TransDeliver(Tcp)]) + Rank(pc[TransDeliver(Udp)])
    + Rank(pc[AppDeliver(Ftp)]) + Rank(pc[AppDeliver(Telnet)]) + Rank(pc[AppDeliver(Rdp)]) + Rank(pc[AppDeliver(Dns)])
  }

  function Measure(s: State): nat
    requires Total(s)
  {
    10 * Loads(s.at, s.plan) + Ranks(s.pc)
  }

  lemma RanksUpdatePoll(pc: map<Proc, PC>, q: Proc, after: PC)
    requires (forall r: Proc :: r in pc) && q.Poll?
    ensures Ranks(pc[q := after]) == Ranks(pc) - Rank(pc[q]) + Rank(after)
  {
    assert q == Poll(Ftp) || q == Poll(Telnet) || q == Poll(Rdp) || q == Poll(Dns) by {
      match q.p { case Ftp => case Telnet => case Rdp => case Dns => }
    }
  }

  lemma RanksUpdateAppSend(pc: map<Proc, PC>, q: Proc, after: PC)
    requires (forall r: Proc :: r in pc) && q.AppSend?
    ensures Ranks(pc[q := after]) == Ranks(pc) - Rank(pc[q]) + Rank(after)
  {
    assert q == AppSend(Ftp) || q == AppSend(Telnet) || q == AppSend(Rdp) || q == AppSend(Dns) by {
      match q.p { case Ftp => case Telnet => case Rdp => case Dns => }
    }
  }

  lemma RanksUpdateAppDeliver(pc: map<Proc, PC>, q: Proc, after: PC)
    requires (forall r: Proc :: r in pc) && q.AppDeliver?
    ensures Ranks(pc[q := after]) == Ranks(pc) - Rank(pc[q]) + Rank(after)
  {
    assert q == AppDeliver(Ftp) || q == AppDeliver(Telnet) || q == AppDeliver(Rdp) || q == AppDeliver(Dns) by {
      match q.p { case Ftp => case Telnet => case Rdp => case Dns => }
    }
  }

  lemma RanksUpdateOther(pc: map<Proc, PC>, q: Proc, after: PC)
    requires (forall r: Proc :: r in pc) && !q.Poll? && !q.AppSend? && !q.AppDeliver?
    ensures Ranks(pc[q := after]) == Ranks(pc) - Rank(pc[q]) + Rank(after)
  {
    assert q.TransSend? ==> q == TransSend(Tcp) || q == TransSend(Udp) by {
      if q.TransSend? { match q.t { case Tcp => case Udp => } }
    }
    assert q.TransDeliver? ==> q == TransDeliver(Tcp) || q == TransDeliver(Udp) by {
      if q.TransDeliver? { match q.t { case Tcp => case Udp => } }
    }
  }

  lemma RanksUpdate(pc: map<Proc, PC>, q: Proc, after: PC)
    requires forall r: Proc :: r in pc
    ensures Ranks(pc[q := after]) == Ranks(pc) - Rank(pc[q]) + Rank(after)
  {
    match q {
      case Poll(_) => RanksUpdatePoll(pc, q, after);
      case AppSend(_) => RanksUpdateAppSend(pc, q, after);
      case AppDeliver(_) => RanksUpdateAppDeliver(pc, q, after);
      case _ => RanksUpdateOther(pc, q, after);
    }
  }

  lemma LoadByAdvance(s: State, e: Effect, p: Proto)
    requires Total(s) && (e.Move? || e.Copy?) && Applicable(s, e) && Advances(s, e.a, e.b)
    ensures forall x: Place :: x in AtAfter(s, e)
    ensures Load(s.at, s.plan, p) == Load(AtAfter(s, e), s.plan, p) + if s.at[e.a][0].origin == p then 1 else 0
  {
    var m := s.at[e.a][0];
    var l, l' := Stages(s.at, p), Stages(AtAfter(s, e), p);
    AdvanceStages(s, e, p);
    if m.origin == p {
      WeightPass(l, Stage(e.a), m.payload, l'[Stage(e.a)]);
    }
  }

  lemma LoadByCreation(s: State, p: Proto, r: Proto)
    requires Total(s) && Applicable(s, Create(p))
    ensures (forall x: Place :: x in AtAfter(s, Create(p))) && (forall r: Proto :: r in PlanAfter(s, Create(p)))
    ensures Load(s.at, s.plan, r)
            == Load(AtAfter(s, Create(p)), PlanAfter(s, Create(p)), r) + if r == p then 1 else 0
  {
    CreateStages(s, p, r);
    if r == p {
      WeightEnter(Stages(s.at, p), s.plan[p][0]);
    }
  }

  lemma LoadByDelivery(s: State, p: Proto, r: Proto)
    requires Total(s) && Applicable(s, Deliver(p)) && s.at[InHand(AppDeliver(p))][0].origin == p
    ensures forall x: Place :: x in AtAfter(s, Deliver(p))
    ensures Load(s.at, s.plan, r) == Load(AtAfter(s, Deliver(p)), s.plan, r) + if r == p then 1 else 0
  {
    DeliverStages(s, p, r);
    if r == p {
      var l' := Stages(AtAfter(s, Deliver(p)), p);
      WeightLeave(Stages(s.at, p), s.at[InHand(AppDeliver(p))][0].payload, l'[16]);
    }
  }

  /** An effect that moves nothing lowers the rank of its process; any other lowers the load by one. */
  lemma RankDrops(capacity: nat, s: State, q: Proc)
    requires WellFormed(s) && Enabled(capacity, s, q)
    requires s.pc[q].Check? ==> s.pc[q].k < 4
    ensures var (e, pc) := Act(capacity, s, q).value;
            !e.Move? && !e.Copy? && !e.Create? && !e.Deliver? && !e.Drop? ==> Rank(pc) < Rank(s.pc[q])
  {
  }

  /** The protocol of the message an effect moves, creates or delivers. */
  function Mover(s: State, e: Effect): Proto
    requires Total(s) && Applicable(s, e) && (e.Move? || e.Copy? || e.Create? || e.Deliver?)
  {
    if e.Create? || e.Deliver? then e.p else s.at[e.a][0].origin
  }

  lemma LoadDrops(s: State, e: Effect, p: Proto)
    requires Total(s) && Applicable(s, e) && (e.Move? || e.Copy? || e.Create? || e.Deliver?)
    requires e.Move? || e.Copy? ==> Advances(s, e.a, e.b)
    requires e.Deliver? ==> s.at[InHand(AppDeliver(e.p))][0].origin == e.p
    ensures (forall x: Place :: x in AtAfter(s, e)) && (forall p: Proto :: p in PlanAfter(s, e))
    ensures Load(s.at, s.plan, p) == Load(AtAfter(s, e), PlanAfter(s, e), p) + if p == Mover(s, e) then 1 else 0
  {
    match e {
      case Move(_, _) => LoadByAdvance(s, e, p);
      case Copy(_, _, _) => LoadByAdvance(s, e, p);
      case Create(r) => LoadByCreation(s, r, p);
      case Deliver(r) => LoadByDelivery(s, r, p);
    }
  }

  lemma LoadsDrop(s: State, e: Effect)
    requires Total(s) && Applicable(s, e) && (e.Move? || e.Copy? || e.Create? || e.Deliver?)
    requires e.Move? || e.Copy? ==> Advances(s, e.a, e.b)
    requires e.Deliver? ==> s.at[InHand(AppDeliver(e.p))][0].origin == e.p
    ensures (forall x: Place :: x in AtAfter(s, e)) && (forall p: Proto :: p in PlanAfter(s, e))
    ensures Loads(s.at, s.plan) == Loads(AtAfter(s, e), PlanAfter(s, e)) + 1
  {
    LoadDrops(s, e, Ftp);
    LoadDrops(s, e, Telnet);
    LoadDrops(s, e, Rdp);
    LoadDrops(s, e, Dns);
  }

  lemma StayingDrops(s: State, q: Proc, e: Effect, pc: PC)
    requires Total(s) && Applicable(s, e) && !e.Move? && !e.Copy? && !e.Create? && !e.Deliver? && !e.Drop?
    requires Rank(pc) < Rank(s.pc[q])
    ensures Measure(Next(s, q, e, pc)) < Measure(s)
  {
    RanksUpdate(s.pc, q, pc);
  }

  lemma StepDrops(capacity: nat, plan: Plan, s: State, q: Proc)
    requires ProperPlan(plan) && Safe(capacity, plan, s) && Enabled(capacity, s, q)
    ensures Measure(Step(capacity, s, q)) < Measure(s)
  {
    LedgerPlan(plan, s);
    ActSound(capacity, s, q);
    var (e, pc) := Act(capacity, s, q).value;
    if e.Move? || e.Copy? || e.Create? || e.Deliver? {
      if e.Deliver? {
        ContentDelivered(s, Body, e.p);
      }
      CarryingDrops(s, q, e, pc);
    } else {
      RankDrops(capacity, s, q);
      StayingDrops(s, q, e, pc);
    }
  }

  lemma CarryingDrops(s: State, q: Proc, e: Effect, pc: PC)
    requires Total(s) && Applicable(s, e) && (e.Move? || e.Copy? || e.Create? || e.Deliver?)
    requires e.Move? || e.Copy? ==> Advances(s, e.a, e.b)
    requires e.Deliver? ==> s.at[InHand(AppDeliver(e.p))][0].origin == e.p
    ensures Measure(Next(s, q, e, pc)) < Measure(s)
  {
    LoadsDrop(s, e);
    RanksUpdate(s.pc, q, pc);
  }

  function Planned(plan: Plan): nat
    requires forall p: Proto :: p in plan
  {
    |plan[Ftp]| + |plan[Telnet]| + |plan[Rdp]| + |plan[Dns]|
  }

  lemma {:induction false} EmptyWeight<T>(l: seq<seq<T>>)
    requires forall i :: 0 <= i < |l| ==> l[i] == []
    ensures Weight(l) == 0
  {
    if l != [] {
      EmptyWeight(l[1..]);
    }
  }

  lemma InitMeasure(plan: Plan)
    requires ProperPlan(plan)
    ensures Measure(Init(plan)) == 180 * Planned(plan) + 40
  {
    AllListed();
    var s := Init(plan);
    forall p: Proto
      ensures Load(s.at, s.plan, p) == 18 * |plan[p]|
    {
      assert forall k :: 0 <= k < 17 ==> Stages(s.at, p)[k] == [];
      EmptyWeight(Stages(s.at, p));
    }
  }

  lemma {:induction false} RunDrops(capacity: nat, plan: Plan, s: State, schedule: seq<Proc>)
    requires ProperPlan(plan) && Safe(capacity, plan, s) && Feasible(capacity, s, schedule)
    ensures Measure(Run(capacity, s, schedule)) + |schedule| <= Measure(s)
    decreases |schedule|
  {
    if schedule != [] {
      var n := |schedule| - 1;
      RunDrops(capacity, plan, s, schedule[..n]);
      RunKeepsSafe(capacity, plan, s, schedule[..n]);
      StepDrops(capacity, plan, Run(capacity, s, schedule[..n]), schedule[n]);
    }
  }

  /** Whatever the scheduler does and whatever the pipe capacity, no run takes more than 180 steps per planned
      message and 40 more. */
  lemma RunsAreFinite(capacity: nat, plan: Plan, schedule: seq<Proc>)
    requires ProperPlan(plan) && Feasible(capacity, Init(plan), schedule)
    ensures |schedule| <= 180 * Planned(plan) + 40
  {
    InitInv(capacity, plan);
    InitLedger(plan);
    InitMeasure(plan);
    RunDrops(capacity, plan, Init(plan), schedule);
  }
}
