/** Ordered conservation: for each protocol the payloads delivered, in transit, and still to be sent are at
    all times exactly the planned ones, in the planned order, through every merge and every demultiplexing. */
module PppConservation {
  import opened Bytes
  import opened Layers
  import opened PppNetwork
  import opened PppInvariant

  /** The payloads of the messages of one protocol, in order. */
  function Pay(p: Proto, items: seq<Item>): seq<seq<byte>> {
    if items == [] then []
    else (if items[0].origin == p then [items[0].payload] else []) + Pay(p, items[1..])
  }

  /** The payloads at each of the seventeen stages of the path of `p`. */
  function Stages(at: map<Place, seq<Item>>, p: Proto): (l: seq<seq<seq<byte>>>)
    requires forall x: Place :: x in at
    ensures |l| == 17
  {
    seq(17, k requires 0 <= k < 17 => Pay(p, at[PlaceAt(k, p)]))
  }

  /** The lists of all stages as one sequence, the last stage first: what left first is ahead. */
  function Chain<T>(l: seq<seq<T>>): seq<T> {
    if l == [] then [] else Chain(l[1..]) + l[0]
  }

  function InTransit(s: State, p: Proto): seq<seq<byte>>
    requires Total(s)
  {
    Chain(Stages(s.at, p))
  }

  function ReceivedAll(p: Proto, payloads: seq<seq<byte>>): (r: seq<seq<byte>>)
    ensures |r| == |payloads|
  {
    seq(|payloads|, i requires 0 <= i < |payloads| => Received(p, payloads[i]))
  }

  lemma {:induction false} PayConcat(p: Proto, a: seq<Item>, b: seq<Item>)
    ensures Pay(p, a + b) == Pay(p, a) + Pay(p, b)
  {
    if a == [] {
      assert a + b == b;
    } else {
      assert (a + b)[1..] == a[1..] + b;
      PayConcat(p, a[1..], b);
    }
  }

  /** What is added at the first stage comes last. */
  lemma ChainEnter<T>(l: seq<seq<T>>, x: T)
    requires l != []
    ensures Chain(l[0 := l[0] + [x]]) == Chain(l) + [x]
  {
    assert l[0 := l[0] + [x]][1..] == l[1..];
  }

  /** What leaves the last stage came first. */
  lemma {:induction false} ChainLeave<T>(l: seq<seq<T>>, x: T, rest: seq<T>)
    requires l != [] && l[|l| - 1] == [x] + rest
    ensures Chain(l) == [x] + Chain(l[|l| - 1 := rest])
  {
    var l' := l[|l| - 1 := rest];
    if |l| == 1 {
      assert l[1..] == l'[1..] == [];
    } else {
      ChainLeave(l[1..], x, rest);
      assert l'[1..] == l[1..][|l| - 2 := rest];
      assert ([x] + Chain(l'[1..])) + l[0] == [x] + (Chain(l'[1..]) + l[0]);
    }
  }

  /** Passing the first element of one stage on to the end of the next does not change the sequence. */
  lemma {:induction false} ChainPass<T>(l: seq<seq<T>>, k: nat, x: T, rest: seq<T>)
    requires k + 1 < |l| && l[k] == [x] + rest
    ensures Chain(l[k := rest][k + 1 := l[k + 1] + [x]]) == Chain(l)
  {
    var l' := l[k := rest][k + 1 := l[k + 1] + [x]];
    if k == 0 {
      assert l'[1..] == l[1..][0 := l[1] + [x]];
      ChainEnter(l[1..], x);
      assert Chain(l') == (Chain(l[1..]) + [x]) + rest == Chain(l[1..]) + ([x] + rest);
    } else {
      ChainPass(l[1..], k - 1, x, rest);
      assert l'[1..] == l[1..][k - 1 := rest][k := l[k + 1] + [x]];
    }
  }

  lemma PayHead(p: Proto, items: seq<Item>)
    requires items != []
    ensures Pay(p, items) == (if items[0].origin == p then [items[0].payload] else []) + Pay(p, items[1..])
  {
  }

  lemma PayLast(p: Proto, items: seq<Item>, m: Item)
    ensures Pay(p, items + [m]) == Pay(p, items) + if m.origin == p then [m.payload] else []
  {
    PayConcat(p, items, [m]);
  }

  /** What a step does to the list of one stage. */
  lemma StageAfter(s: State, e: Effect, p: Proto, k: nat)
    requires Total(s) && (e.Move? || e.Copy?) && Applicable(s, e) && Advances(s, e.a, e.b) && k < 17
    ensures forall x: Place :: x in AtAfter(s, e)
    ensures var m := s.at[e.a][0];
            var before, after := Stages(s.at, p)[k], Stages(AtAfter(s, e), p)[k];
            if m.origin != p || (k != Stage(e.a) && k != Stage(e.a) + 1) then after == before
            else if k == Stage(e.a) then before == [m.payload] + after
            else after == before + [m.payload]
  {
    var m := s.at[e.a][0];
    var m' := if e.Copy? then m.(ptr := s.next) else m;
    var x := PlaceAt(k, p);
    if x == e.a {
      PayHead(p, s.at[x]);
    } else if x == e.b {
      PayLast(p, s.at[x], m');
    }
  }

  /** The stage lists after a message has advanced. */
  lemma AdvanceStages(s: State, e: Effect, p: Proto)
    requires Total(s) && (e.Move? || e.Copy?) && Applicable(s, e) && Advances(s, e.a, e.b)
    ensures forall x: Place :: x in AtAfter(s, e)
    ensures var m, k := s.at[e.a][0], Stage(e.a);
            var l, l' := Stages(s.at, p), Stages(AtAfter(s, e), p);
            if m.origin == p then l[k] == [m.payload] + l'[k] && l' == l[k := l'[k]][k + 1 := l[k + 1] + [m.payload]]
            else l' == l
  {
    var l := Stages(s.at, p);
    forall k | 0 <= k < 17
      ensures var m := s.at[e.a][0];
              var before, after := l[k], Stages(AtAfter(s, e), p)[k];
              if m.origin != p || (k != Stage(e.a) && k != Stage(e.a) + 1) then after == before
              else if k == Stage(e.a) then before == [m.payload] + after
              else after == before + [m.payload]
    {
      StageAfter(s, e, p, k);
    }
  }

  lemma AdvanceKeepsTransit(s: State, e: Effect, p: Proto)
    requires Total(s) && (e.Move? || e.Copy?) && Applicable(s, e) && Advances(s, e.a, e.b)
    ensures forall x: Place :: x in AtAfter(s, e)
    ensures Chain(Stages(AtAfter(s, e), p)) == Chain(Stages(s.at, p))
  {
    AdvanceStages(s, e, p);
    var m, k := s.at[e.a][0], Stage(e.a);
    if m.origin == p {
      ChainPass(Stages(s.at, p), k, m.payload, Stages(AtAfter(s, e), p)[k]);
    }
  }

  lemma CreateStages(s: State, p: Proto, r: Proto)
    requires Total(s) && Applicable(s, Create(p))
    ensures forall x: Place :: x in AtAfter(s, Create(p))
    ensures var l, l' := Stages(s.at, r), Stages(AtAfter(s, Create(p)), r);
            l' == if r == p then l[0 := l[0] + [s.plan[p][0]]] else l
  {
    var l, l' := Stages(s.at, r), Stages(AtAfter(s, Create(p)), r);
    assert forall k :: 0 < k < 17 ==> l'[k] == l[k];
    if r == p {
      var m := Item(p, s.plan[p][0], s.next);
      PayConcat(p, s.at[PlaceAt(0, p)], [m]);
      assert Pay(p, [m]) == [m.payload];
      assert l'[0] == Pay(p, s.at[PlaceAt(0, p)] + [m]);
    }
  }

  lemma CreateEnters(s: State, p: Proto, r: Proto)
    requires Total(s) && Applicable(s, Create(p))
    ensures forall x: Place :: x in AtAfter(s, Create(p))
    ensures Chain(Stages(AtAfter(s, Create(p)), r))
            == if r == p then Chain(Stages(s.at, r)) + [s.plan[p][0]] else Chain(Stages(s.at, r))
  {
    CreateStages(s, p, r);
    ChainEnter(Stages(s.at, r), s.plan[p][0]);
  }

  lemma DeliverStages(s: State, p: Proto, r: Proto)
    requires Total(s) && Applicable(s, Deliver(p)) && s.at[InHand(AppDeliver(p))][0].origin == p
    ensures forall x: Place :: x in AtAfter(s, Deliver(p))
    ensures var x := s.at[InHand(AppDeliver(p))][0].payload;
            var l, l' := Stages(s.at, r), Stages(AtAfter(s, Deliver(p)), r);
            if r == p then l[16] == [x] + l'[16] && l' == l[16 := l'[16]] else l' == l
  {
    var hand := InHand(AppDeliver(p));
    var m := s.at[hand][0];
    var l, l' := Stages(s.at, r), Stages(AtAfter(s, Deliver(p)), r);
    assert forall k :: 0 <= k < 16 ==> l'[k] == l[k];
    if r == p {
      assert s.at[hand] == [m] + s.at[hand][1..];
      PayConcat(p, [m], s.at[hand][1..]);
    }
  }

  lemma DeliverLeaves(s: State, p: Proto, r: Proto)
    requires Total(s) && Applicable(s, Deliver(p)) && s.at[InHand(AppDeliver(p))][0].origin == p
    ensures forall x: Place :: x in AtAfter(s, Deliver(p))
    ensures var after := Chain(Stages(AtAfter(s, Deliver(p)), r));
            Chain(Stages(s.at, r)) == if r == p then [s.at[InHand(AppDeliver(p))][0].payload] + after else after
  {
    DeliverStages(s, p, r);
    if r == p {
      ChainLeave(Stages(s.at, p), s.at[InHand(AppDeliver(p))][0].payload, Stages(AtAfter(s, Deliver(p)), p)[16]);
    }
  }

  lemma BodyReceived(p: Proto, payload: seq<byte>)
    ensures Body(9, p, payload) == Received(p, payload)
  {
    ClippedLayout(p, payload, 0);
  }

  /** What an application process hands over is the last body of a message of its own protocol. */
  lemma ContentDelivered(s: State, f: Contents, p: Proto)
    requires WellFormed(s) && Routed(s) && Layered(s, f)
    requires Holding(s.pc[AppDeliver(p)]) && Done(s.pc[AppDeliver(p)])
    ensures var m := s.at[InHand(AppDeliver(p))][0];
            m.origin == p && s.heap[m.ptr] == f(9, p, m.payload)
  {
    var hand := InHand(AppDeliver(p));
    var m := s.at[hand][0];
    assert Contains(s, f, hand, 0) && OnPath(hand, m.origin);
  }

  predicate Account(p: Proto, arrived: seq<seq<byte>>, transit: seq<seq<byte>>, left: seq<seq<byte>>,
                    delivered: seq<seq<byte>>, count: nat, plan: seq<seq<byte>>)
  {
    && arrived + transit + left == plan
    && delivered == ReceivedAll(p, arrived)
    && count == |arrived|
  }

  ghost predicate Balanced(plan: Plan, s: State, p: Proto)
    requires Total(s) && ProperPlan(plan)
  {
    Account(p, s.arrived[p], InTransit(s, p), s.plan[p], s.delivered[p], s.count[p], plan[p])
  }

  ghost predicate Ledger(plan: Plan, s: State)
    requires Total(s) && ProperPlan(plan)
  {
    forall p: Proto :: Balanced(plan, s, p)
  }

  lemma AccountDelivery(p: Proto, arrived: seq<seq<byte>>, x: seq<byte>, transit: seq<seq<byte>>, left: seq<seq<byte>>,
                        delivered: seq<seq<byte>>, count: nat, plan: seq<seq<byte>>)
    requires Account(p, arrived, [x] + transit, left, delivered, count, plan)
    ensures Account(p, arrived + [x], transit, left, delivered + [Received(p, x)], count + 1, plan)
  {
    assert arrived + [x] + transit + left == arrived + ([x] + transit) + left;
  }

  lemma AccountCreation(p: Proto, arrived: seq<seq<byte>>, transit: seq<seq<byte>>, left: seq<seq<byte>>,
                        delivered: seq<seq<byte>>, count: nat, plan: seq<seq<byte>>)
    requires Account(p, arrived, transit, left, delivered, count, plan) && left != []
    ensures Account(p, arrived, transit + [left[0]], left[1..], delivered, count, plan)
  {
    assert arrived + (transit + [left[0]]) + left[1..] == arrived + transit + left;
  }

  lemma BalancedByDelivery(plan: Plan, s: State, r: Proto, p: Proto)
    requires ProperPlan(plan) && Total(s) && Applicable(s, Deliver(r)) && Balanced(plan, s, p)
    requires var m := s.at[InHand(AppDeliver(r))][0];
             m.origin == r && s.heap[m.ptr] == Received(r, m.payload)
    ensures Account(p, ArrivedAfter(s, Deliver(r))[p], Chain(Stages(AtAfter(s, Deliver(r)), p)), s.plan[p],
                    DeliveredAfter(s, Deliver(r))[p], CountAfter(s.count, Deliver(r))[p], plan[p])
  {
    DeliverLeaves(s, r, p);
    if r == p {
      AccountDelivery(p, s.arrived[p], s.at[InHand(AppDeliver(p))][0].payload, Chain(Stages(AtAfter(s, Deliver(r)), p)),
                      s.plan[p], s.delivered[p], s.count[p], plan[p]);
    }
  }

  lemma BalancedByCreation(plan: Plan, s: State, r: Proto, p: Proto)
    requires ProperPlan(plan) && Total(s) && Applicable(s, Create(r)) && Balanced(plan, s, p)
    ensures Account(p, s.arrived[p], Chain(Stages(AtAfter(s, Create(r)), p)), PlanAfter(s, Create(r))[p],
                    s.delivered[p], s.count[p], plan[p])
  {
    CreateEnters(s, r, p);
    if r == p {
      AccountCreation(p, s.arrived[p], InTransit(s, p), s.plan[p], s.delivered[p], s.count[p], plan[p]);
    }
  }

  lemma LedgerKept(capacity: nat, plan: Plan, s: State, q: Proc, e: Effect, pc: PC)
    requires ProperPlan(plan) && Moves(s, q, e, pc) && SoundEffect(capacity, s, Body, q, e, pc)
    requires Routed(s) && Layered(s, Body) && Ledger(plan, s)
    ensures Ledger(plan, Next(s, q, e, pc))
  {
    if e.Deliver? {
      ContentDelivered(s, Body, e.p);
      BodyReceived(e.p, s.at[InHand(AppDeliver(e.p))][0].payload);
    }
    forall p: Proto
      ensures Balanced(plan, Next(s, q, e, pc), p)
    {
      assert Balanced(plan, s, p);
      if e.Move? || e.Copy? {
        AdvanceKeepsTransit(s, e, p);
      } else if e.Create? {
        BalancedByCreation(plan, s, e.p, p);
      } else if e.Deliver? {
        BalancedByDelivery(plan, s, e.p, p);
      }
    }
  }

  /** Everything kept by every step. */
  ghost predicate Safe(capacity: nat, plan: Plan, s: State)
    requires ProperPlan(plan)
  {
    Inv(capacity, s) && Ledger(plan, s)
  }

  lemma LedgerPlan(plan: Plan, s: State)
    requires ProperPlan(plan) && Total(s) && Ledger(plan, s)
    ensures PlanProper(s)
  {
    forall p: Proto | s.plan[p] != []
      ensures s.plan[p][0] != []
    {
      assert Balanced(plan, s, p);
      var n := |s.arrived[p] + InTransit(s, p)|;
      assert plan[p][n] == s.plan[p][0];
    }
  }

  lemma StepKeepsSafe(capacity: nat, plan: Plan, s: State, q: Proc)
    requires ProperPlan(plan) && Safe(capacity, plan, s) && Enabled(capacity, s, q)
    ensures Safe(capacity, plan, Step(capacity, s, q))
  {
    LedgerPlan(plan, s);
    StepKeepsInv(capacity, s, q);
    ActSound(capacity, s, q);
    var (e, pc) := Act(capacity, s, q).value;
    LedgerKept(capacity, plan, s, q, e, pc);
  }

  lemma InitInv(capacity: nat, plan: Plan)
    requires ProperPlan(plan)
    ensures Inv(capacity, Init(plan))
  {
    AllListed();
    var s := Init(plan);
    assert forall x: Place :: s.at[x] == [];
    assert forall q: Proc :: s.pc[q] == Start;
  }

  lemma InitLedger(plan: Plan)
    requires ProperPlan(plan)
    ensures Ledger(plan, Init(plan))
  {
    AllListed();
    var s := Init(plan);
    forall p: Proto
      ensures Balanced(plan, s, p)
    {
      assert forall k :: 0 <= k < 17 ==> Stages(s.at, p)[k] == [];
      EmptyChain(Stages(s.at, p));
    }
  }

  lemma {:induction false} EmptyChain<T>(l: seq<seq<T>>)
    requires forall i :: 0 <= i < |l| ==> l[i] == []
    ensures Chain(l) == []
  {
    if l != [] {
      EmptyChain(l[1..]);
    }
  }

  lemma {:induction false} RunKeepsSafe(capacity: nat, plan: Plan, s: State, schedule: seq<Proc>)
    requires ProperPlan(plan) && Safe(capacity, plan, s) && Feasible(capacity, s, schedule)
    ensures Safe(capacity, plan, Run(capacity, s, schedule))
    decreases |schedule|
  {
    if schedule != [] {
      var n := |schedule| - 1;
      RunKeepsSafe(capacity, plan, s, schedule[..n]);
      StepKeepsSafe(capacity, plan, Run(capacity, s, schedule[..n]), schedule[n]);
    }
  }

  ghost function SafeStates(capacity: nat, plan: Plan): (r: iset<State>)
    requires ProperPlan(plan)
    ensures forall s: State :: s in r <==> Safe(capacity, plan, s)
  {
    iset s: State | Safe(capacity, plan, s)
  }

  lemma SafeClosed(capacity: nat, plan: Plan)
    requires ProperPlan(plan)
    ensures Closed(capacity, SafeStates(capacity, plan))
  {
    forall s: State, q: Proc | Safe(capacity, plan, s) && Enabled(capacity, s, q)
      ensures Safe(capacity, plan, Step(capacity, s, q))
    {
      StepKeepsSafe(capacity, plan, s, q);
    }
  }

  /** The invariants hold in every reachable state, whatever the scheduling and the pipe capacity. */
  lemma ReachableSafe(capacity: nat, plan: Plan, s: State)
    requires ProperPlan(plan) && Reachable(capacity, plan, s)
    ensures Safe(capacity, plan, s)
  {
    InitInv(capacity, plan);
    InitLedger(plan);
    SafeClosed(capacity, plan);
    assert Init(plan) in SafeStates(capacity, plan);
  }

  ghost predicate Conserved(plan: Plan, s: State, p: Proto)
    requires ProperPlan(plan) && Total(s)
  {
    && s.arrived[p] + InTransit(s, p) + s.plan[p] == plan[p]
    && s.count[p] == |s.delivered[p]| <= |plan[p]|
    && s.delivered[p] == ReceivedAll(p, plan[p][..|s.delivered[p]|])
  }

  lemma LedgerConserves(plan: Plan, s: State)
    requires ProperPlan(plan) && Total(s) && Ledger(plan, s)
    ensures forall p: Proto :: Conserved(plan, s, p)
  {
    forall p: Proto
      ensures Conserved(plan, s, p)
    {
      assert Balanced(plan, s, p);
      assert plan[p][..|s.arrived[p]|] == s.arrived[p];
    }
  }

  /** Ordered conservation: in every reachable state the payloads of the messages delivered, then of those in
      transit, then of those still to be sent, are the plan in its order; and what was delivered is, message by
      message, the plan as it passes the receive buffer. */
  lemma OrderedConservation(capacity: nat, plan: Plan, s: State)
    requires ProperPlan(plan) && Reachable(capacity, plan, s)
    ensures Total(s) && forall p: Proto :: Conserved(plan, s, p)
  {
    ReachableSafe(capacity, plan, s);
    LedgerConserves(plan, s);
  }
}
