/** The thread pool as a set of concurrent threads: dispatchers, tasks and joiners, with every access to a slot
    flag a step of its own. Testing a flag and clearing it are two critical sections, so two dispatchers can
    claim the same slot; with one dispatcher they cannot. */
module PoolRuns {
  import opened Counting
  import opened Options
  import ThreadPool

  /** Tasks are named by numbers. */
  type Work = nat

  /** Where a dispatching thread stands. `known` remembers the slot that `thread_avail` has just found free. */
  datatype Dispatcher =
    | Idle(known: Option<nat>)
    | Asking(i: nat)                                  // thread_avail, about to read flag i
    | Scanning(i: nat, work: Work, known: Option<nat>)  // dispatch_thread, about to read flag i
    | Claiming(i: nat, work: Work, known: Option<nat>)  // has read true, about to clear flag i
    | Creating(i: nat, work: Work)                    // flag i cleared, about to create the thread
    | Following(i: nat)                               // about to create the joiner

  datatype JoinerPC = Fresh | Waiting(h: nat) | Raising | Done

  datatype Joiner = Joiner(slot: nat, pc: JoinerPC)

  datatype State = State(
    flag: seq<bool>,
    handle: seq<Option<nat>>,         // the last task created on the slot
    works: seq<Work>,                 // what was created, a handle being the position
    slot: seq<nat>,                   // the slot a task was created on
    ended: seq<bool>,
    joins: seq<nat>,                  // how often a task was joined
    joiners: seq<Joiner>,
    disp: seq<Dispatcher>,
    calls: seq<Work>,                 // history: the calls of dispatch_thread
    dropped: seq<Work>,               // history: calls that found no slot
    refused: seq<Work>)               // history: the same, although thread_avail had just found one

  datatype Action =
    | Ask(d: nat) | Call(d: nat, work: Work) | Go(d: nat)  // a dispatcher calls, or takes its next step
    | End(k: nat)                                          // a task's function returns
    | Join(j: nat)                                         // the next step of a joiner

  ghost predicate WellFormed(s: State) {
    && |s.handle| == |s.flag|
    && |s.works| == |s.slot| == |s.ended| == |s.joins|
    && (forall k :: 0 <= k < |s.slot| ==> s.slot[k] < |s.flag|)
    && (forall i :: 0 <= i < |s.handle| ==> s.handle[i].Some? ==> s.handle[i].value < |s.works|)
    && (forall j :: 0 <= j < |s.joiners| ==> JoinerFits(s, s.joiners[j]))
    && (forall d :: 0 <= d < |s.disp| ==> DispatcherFits(s, s.disp[d]))
  }

  ghost predicate JoinerFits(s: State, j: Joiner)
    requires |s.handle| == |s.flag|
  {
    && j.slot < |s.flag| && s.handle[j.slot].Some?
    && (j.pc.Waiting? ==> j.pc.h < |s.works|)
  }

  ghost predicate DispatcherFits(s: State, d: Dispatcher)
    requires |s.handle| == |s.flag|
  {
    match d
    case Idle(known) => known.Some? ==> known.value < |s.flag|
    case Asking(i) => i <= |s.flag|
    case Scanning(i, _, known) => i <= |s.flag| && (known.Some? ==> known.value < |s.flag|)
    case Claiming(i, _, _) => i < |s.flag|
    case Creating(i, _) => i < |s.flag|
    case Following(i) => i < |s.flag| && s.handle[i].Some?
  }

  ghost predicate Possible(s: State, a: Action) {
    match a
    case Ask(d) => d < |s.disp| && s.disp[d].Idle?
    case Call(d, _) => d < |s.disp| && s.disp[d].Idle?
    case Go(d) => d < |s.disp| && !s.disp[d].Idle?
    case End(k) => k < |s.ended| && !s.ended[k]
    case Join(j) =>
      && j < |s.joiners|
      && (match s.joiners[j].pc
          case Fresh => true
          case Waiting(h) => h < |s.ended| && s.ended[h]
          case Raising => true
          case Done => false)
  }

  function Advance(s: State, d: nat): State
    requires WellFormed(s) && Possible(s, Go(d))
  {
    match s.disp[d]
    case Asking(i) =>
      s.(disp := s.disp[d := if i == |s.flag| then Idle(None) else if s.flag[i] then Idle(Some(i)) else Asking(i + 1)])
    case Scanning(i, work, known) =>
      if i == |s.flag| then
        if known.Some? then s.(disp := s.disp[d := Idle(None)], refused := s.refused + [work])
        else s.(disp := s.disp[d := Idle(None)], dropped := s.dropped + [work])
      else s.(disp := s.disp[d := if s.flag[i] then Claiming(i, work, known) else Scanning(i + 1, work, known)])
    case Claiming(i, work, _) => s.(disp := s.disp[d := Creating(i, work)], flag := s.flag[i := false])
    case Creating(i, work) =>
      s.(disp := s.disp[d := Following(i)], handle := s.handle[i := Some(|s.works|)],
         works := s.works + [work], slot := s.slot + [i], ended := s.ended + [false], joins := s.joins + [0])
    case Following(i) => s.(disp := s.disp[d := Idle(None)], joiners := s.joiners + [Joiner(i, Fresh)])
  }

  function JoinerAdvance(s: State, j: nat): State
    requires WellFormed(s) && Possible(s, Join(j))
  {
    var x := s.joiners[j].slot;
    match s.joiners[j].pc
    case Fresh => s.(joiners := s.joiners[j := Joiner(x, Waiting(s.handle[x].value))])
    case Waiting(h) => s.(joiners := s.joiners[j := Joiner(x, Raising)], joins := s.joins[h := s.joins[h] + 1])
    case Raising => s.(joiners := s.joiners[j := Joiner(x, Done)], flag := s.flag[x := true])
  }

  function After(s: State, a: Action): State
    requires WellFormed(s) && Possible(s, a)
  {
    match a
    case Ask(d) => s.(disp := s.disp[d := Asking(0)])
    case Call(d, work) => s.(disp := s.disp[d := Scanning(0, work, s.disp[d].known)], calls := s.calls + [work])
    case Go(d) => Advance(s, d)
    case End(k) => s.(ended := s.ended[k := true])
    case Join(j) => JoinerAdvance(s, j)
  }

  lemma StepWellFormed(s: State, a: Action)
    requires WellFormed(s) && Possible(s, a)
    ensures WellFormed(After(s, a))
    ensures |After(s, a).flag| == |s.flag| && |After(s, a).disp| == |s.disp|
  {
    match a {
      case Go(d) => GoWellFormed(s, d);
      case _ =>
    }
  }

  lemma GoWellFormed(s: State, d: nat)
    requires WellFormed(s) && Possible(s, Go(d))
    ensures WellFormed(Advance(s, d))
    ensures |Advance(s, d).flag| == |s.flag| && |Advance(s, d).disp| == |s.disp|
  {
    assert DispatcherFits(s, s.disp[d]);
  }

  function Init(slots: nat, dispatchers: nat): (s: State)
    ensures WellFormed(s)
  {
    State(seq(slots, _ => true), seq(slots, _ => None), [], [], [], [], [],
          seq(dispatchers, _ => Idle(None)), [], [], [])
  }

  ghost predicate Feasible(s: State, run: seq<Action>)
    requires WellFormed(s)
    decreases |run|, 0
  {
    run == [] ||
    (var n := |run| - 1; Feasible(s, run[..n]) && Possible(Run(s, run[..n]), run[n]))
  }

  ghost function Run(s: State, run: seq<Action>): (s': State)
    requires WellFormed(s) && Feasible(s, run)
    ensures WellFormed(s') && |s'.flag| == |s.flag| && |s'.disp| == |s.disp|
    decreases |run|, 1
  {
    if run == [] then s
    else
      var n := |run| - 1;
      var before := Run(s, run[..n]);
      StepWellFormed(before, run[n]);
      After(before, run[n])
  }

  /** No step leads out of the set. */
  ghost predicate Closed(reach: iset<State>) {
    forall s: State, a: Action :: s in reach && WellFormed(s) && Possible(s, a) ==> After(s, a) in reach
  }

  /** The reachable states: those in every set that contains the initial state and that no step leaves. */
  ghost predicate Reachable(slots: nat, dispatchers: nat, s: State) {
    forall reach: iset<State> :: Init(slots, dispatchers) in reach && Closed(reach) ==> s in reach
  }

  lemma ReachInit(slots: nat, dispatchers: nat)
    ensures Reachable(slots, dispatchers, Init(slots, dispatchers))
  {
  }

  lemma ReachStep(slots: nat, dispatchers: nat, s: State, a: Action)
    requires Reachable(slots, dispatchers, s) && WellFormed(s) && Possible(s, a)
    ensures Reachable(slots, dispatchers, After(s, a)) && WellFormed(After(s, a))
  {
    StepWellFormed(s, a);
  }

  ghost predicate Leads(slots: nat, dispatchers: nat, run: seq<Action>, s: State) {
    Feasible(Init(slots, dispatchers), run) && Run(Init(slots, dispatchers), run) == s
  }

  /** Some run leads to the state. */
  ghost predicate Led(slots: nat, dispatchers: nat, s: State) {
    exists run :: Leads(slots, dispatchers, run, s)
  }

  lemma LeadsOn(slots: nat, dispatchers: nat, run: seq<Action>, s: State, a: Action)
    requires Leads(slots, dispatchers, run, s) && WellFormed(s) && Possible(s, a)
    ensures Leads(slots, dispatchers, run + [a], After(s, a))
  {
    var longer := run + [a];
    assert longer[..|longer| - 1] == run;
  }

  lemma LedClosed(slots: nat, dispatchers: nat)
    ensures Closed(iset s: State | Led(slots, dispatchers, s))
  {
    forall s: State, a: Action | Led(slots, dispatchers, s) && WellFormed(s) && Possible(s, a)
      ensures Led(slots, dispatchers, After(s, a))
    {
      var run :| Leads(slots, dispatchers, run, s);
      LeadsOn(slots, dispatchers, run, s, a);
    }
  }

  lemma {:induction false} RunReachable(slots: nat, dispatchers: nat, run: seq<Action>)
    requires Feasible(Init(slots, dispatchers), run)
    ensures Reachable(slots, dispatchers, Run(Init(slots, dispatchers), run))
    decreases |run|
  {
    if run == [] {
      ReachInit(slots, dispatchers);
    } else {
      var n := |run| - 1;
      RunReachable(slots, dispatchers, run[..n]);
      ReachStep(slots, dispatchers, Run(Init(slots, dispatchers), run[..n]), run[n]);
    }
  }

  lemma ReachableLed(slots: nat, dispatchers: nat, s: State)
    requires Reachable(slots, dispatchers, s)
    ensures Led(slots, dispatchers, s)
  {
    LedClosed(slots, dispatchers);
    assert Leads(slots, dispatchers, [], Init(slots, dispatchers));
    assert s in iset s: State | Led(slots, dispatchers, s);
  }

  /** The reachable states are those that some run leads to. */
  lemma ReachableIff(slots: nat, dispatchers: nat, s: State)
    ensures Reachable(slots, dispatchers, s) <==> Led(slots, dispatchers, s)
  {
    if Led(slots, dispatchers, s) {
      var run :| Leads(slots, dispatchers, run, s);
      RunReachable(slots, dispatchers, run);
    } else if Reachable(slots, dispatchers, s) {
      ReachableLed(slots, dispatchers, s);
    }
  }

  // ----- the invariant with at most one dispatcher

  /** Task `k` still occupies its slot: its joiner has not raised the flag yet. */
  predicate Active(s: State, k: nat) {
    k >= |s.joiners| || s.joiners[k].pc != Done
  }

  /** Task `k` and its joiner: an active task is the one its slot's handle names, and the flag is down. */
  ghost predicate TaskFits(s: State, k: nat)
    requires WellFormed(s) && k < |s.works|
  {
    && (Active(s, k) ==> !s.flag[s.slot[k]] && s.handle[s.slot[k]] == Some(k))
    && (k >= |s.joiners| ==> s.joins[k] == 0)
    && (k < |s.joiners| ==>
          && s.joiners[k].slot == s.slot[k]
          && (s.joiners[k].pc.Waiting? ==> s.joiners[k].pc.h == k)
          && (if s.joiners[k].pc.Raising? || s.joiners[k].pc.Done? then s.ended[k] && s.joins[k] == 1
              else s.joins[k] == 0))
  }

  /** Slot `i` is either free, or the dispatcher is about to use it, or an active task occupies it. */
  ghost predicate SlotFits(s: State, i: nat)
    requires WellFormed(s) && i < |s.flag|
  {
    !s.flag[i] ==>
      || (s.disp != [] && s.disp[0].Creating? && s.disp[0].i == i)
      || (s.handle[i].Some? && s.slot[s.handle[i].value] == i && Active(s, s.handle[i].value))
  }

  ghost predicate Alone(s: State, d: Dispatcher)
    requires WellFormed(s)
  {
    match d
    case Idle(known) => |s.joiners| == |s.works| && (known.Some? ==> known.value < |s.flag| && s.flag[known.value])
    case Asking(_) => |s.joiners| == |s.works|
    case Scanning(i, _, known) =>
      |s.joiners| == |s.works| && (known.Some? ==> i <= known.value < |s.flag| && s.flag[known.value])
    case Claiming(i, _, _) => |s.joiners| == |s.works| && i < |s.flag| && s.flag[i]
    case Creating(i, _) =>
      && |s.joiners| == |s.works| && i < |s.flag| && !s.flag[i]
      && (forall k {:trigger s.slot[k]} :: 0 <= k < |s.works| && s.slot[k] == i ==> !Active(s, k))
    case Following(i) => |s.joiners| + 1 == |s.works| && s.slot[|s.works| - 1] == i
  }

  ghost predicate Inv(s: State) {
    && WellFormed(s) && |s.disp| <= 1
    && (|s.disp| == 0 ==> |s.joiners| == |s.works|)
    && (forall k :: 0 <= k < |s.works| ==> TaskFits(s, k))
    && (forall i :: 0 <= i < |s.flag| ==> SlotFits(s, i))
    && (s.disp != [] ==> Alone(s, s.disp[0]))
    && s.refused == []
  }

  lemma GoKeepsTask(s: State, d: nat, k: nat)
    requires Inv(s) && Possible(s, Go(d)) && k < |Advance(s, d).works|
    ensures WellFormed(Advance(s, d)) && TaskFits(Advance(s, d), k)
  {
    GoWellFormed(s, d);
    if k < |s.works| {
      assert TaskFits(s, k);
      match s.disp[d] {
        case Creating(_, _) =>
        case Following(_) =>
        case _ =>
      }
    }
  }

  lemma GoKeepsSlot(s: State, d: nat, i: nat)
    requires Inv(s) && Possible(s, Go(d)) && i < |s.flag|
    ensures WellFormed(Advance(s, d)) && SlotFits(Advance(s, d), i)
  {
    StepWellFormed(s, Go(d));
    assert SlotFits(s, i);
  }

  /** A task on a free slot is no longer active. */
  lemma FreeSlotIdle(s: State, i: nat)
    requires Inv(s) && i < |s.flag| && s.flag[i]
    ensures forall k {:trigger s.slot[k]} :: 0 <= k < |s.works| && s.slot[k] == i ==> !Active(s, k)
  {
    forall k {:trigger s.slot[k]} | 0 <= k < |s.works| && s.slot[k] == i
      ensures !Active(s, k)
    {
      assert TaskFits(s, k);
    }
  }

  lemma GoKeepsAlone(s: State, d: nat)
    requires Inv(s) && Possible(s, Go(d))
    ensures WellFormed(Advance(s, d)) && Alone(Advance(s, d), Advance(s, d).disp[0])
  {
    StepWellFormed(s, Go(d));
    if s.disp[d].Claiming? {
      FreeSlotIdle(s, s.disp[d].i);
    }
  }

  lemma GoKeepsInv(s: State, d: nat)
    requires Inv(s) && Possible(s, Go(d))
    ensures Inv(After(s, Go(d)))
  {
    var s' := Advance(s, d);
    StepWellFormed(s, Go(d));
    forall k | 0 <= k < |s'.works|
      ensures TaskFits(s', k)
    {
      GoKeepsTask(s, d, k);
    }
    forall i | 0 <= i < |s'.flag|
      ensures SlotFits(s', i)
    {
      GoKeepsSlot(s, d, i);
    }
    GoKeepsAlone(s, d);
  }

  lemma JoinKeepsTask(s: State, j: nat, k: nat)
    requires Inv(s) && Possible(s, Join(j)) && k < |s.works|
    ensures WellFormed(JoinerAdvance(s, j)) && TaskFits(JoinerAdvance(s, j), k)
  {
    StepWellFormed(s, Join(j));
    assert TaskFits(s, k) && TaskFits(s, j);
  }

  lemma JoinKeepsSlot(s: State, j: nat, i: nat)
    requires Inv(s) && Possible(s, Join(j)) && i < |s.flag|
    ensures WellFormed(JoinerAdvance(s, j)) && SlotFits(JoinerAdvance(s, j), i)
  {
    StepWellFormed(s, Join(j));
    assert SlotFits(s, i) && TaskFits(s, j);
  }

  lemma JoinKeepsAlone(s: State, j: nat)
    requires Inv(s) && Possible(s, Join(j)) && s.disp != []
    ensures WellFormed(JoinerAdvance(s, j)) && Alone(JoinerAdvance(s, j), s.disp[0])
  {
    StepWellFormed(s, Join(j));
    assert TaskFits(s, j);
    if s.joiners[j].pc.Raising? && s.disp[0].Creating? {
      assert s.slot[j] == s.disp[0].i ==> !Active(s, j);
    }
  }

  lemma JoinKeepsInv(s: State, j: nat)
    requires Inv(s) && Possible(s, Join(j))
    ensures Inv(After(s, Join(j)))
  {
    var s' := JoinerAdvance(s, j);
    StepWellFormed(s, Join(j));
    forall k | 0 <= k < |s'.works|
      ensures TaskFits(s', k)
    {
      JoinKeepsTask(s, j, k);
    }
    forall i | 0 <= i < |s'.flag|
      ensures SlotFits(s', i)
    {
      JoinKeepsSlot(s, j, i);
    }
    if s.disp != [] {
      JoinKeepsAlone(s, j);
    }
  }

  lemma EndKeepsInv(s: State, k: nat)
    requires Inv(s) && Possible(s, End(k))
    ensures Inv(After(s, End(k)))
  {
    var s' := After(s, End(k));
    StepWellFormed(s, End(k));
    forall l | 0 <= l < |s'.works|
      ensures TaskFits(s', l)
    {
      assert TaskFits(s, l);
    }
    forall i | 0 <= i < |s'.flag|
      ensures SlotFits(s', i)
    {
      assert SlotFits(s, i);
    }
  }

  lemma CallKeepsInv(s: State, a: Action)
    requires Inv(s) && Possible(s, a) && (a.Ask? || a.Call?)
    ensures Inv(After(s, a))
  {
    var s' := After(s, a);
    StepWellFormed(s, a);
    forall k | 0 <= k < |s'.works|
      ensures TaskFits(s', k)
    {
      assert TaskFits(s, k);
    }
    forall i | 0 <= i < |s'.flag|
      ensures SlotFits(s', i)
    {
      assert SlotFits(s, i);
    }
  }

  lemma StepKeepsInv(s: State, a: Action)
    requires Inv(s) && Possible(s, a)
    ensures Inv(After(s, a))
  {
    match a {
      case Go(d) => GoKeepsInv(s, d);
      case Join(j) => JoinKeepsInv(s, j);
      case End(k) => EndKeepsInv(s, k);
      case _ => CallKeepsInv(s, a);
    }
  }

  lemma InitInv(slots: nat, dispatchers: nat)
    requires dispatchers <= 1
    ensures Inv(Init(slots, dispatchers))
  {
  }

  lemma InvClosed()
    ensures Closed(iset s: State | Inv(s))
  {
    forall s: State, a: Action | Inv(s) && Possible(s, a)
      ensures Inv(After(s, a))
    {
      StepKeepsInv(s, a);
    }
  }

  // ----- what a single dispatcher can rely on

  /** A slot is free, with every task it ever ran ended and joined exactly once, or it is busy with one task. */
  ghost predicate SlotSound(s: State, i: nat)
    requires WellFormed(s) && i < |s.flag|
  {
    && (s.flag[i] ==> forall k :: 0 <= k < |s.works| && s.slot[k] == i ==> s.ended[k] && s.joins[k] == 1)
    && (forall k, l ::
          (0 <= k < |s.works| && 0 <= l < |s.works| && s.slot[k] == s.slot[l] == i && Active(s, k) && Active(s, l))
          ==> k == l)
  }

  /** No thread is joined twice, and a joiner waits for its own task. */
  ghost predicate JoinsSound(s: State)
    requires WellFormed(s)
  {
    && (forall k :: 0 <= k < |s.works| ==> s.joins[k] <= 1)
    && (forall j :: 0 <= j < |s.joiners| ==>
          && j < |s.works| && s.joiners[j].slot == s.slot[j]
          && (s.joiners[j].pc.Waiting? ==> s.joiners[j].pc.h == j))
  }

  function Live(s: State): set<nat>
    requires |s.ended| == |s.works|
  {
    set k | 0 <= k < |s.works| && !s.ended[k]
  }

  ghost predicate Sound(s: State)
    requires WellFormed(s)
  {
    && (forall i :: 0 <= i < |s.flag| ==> SlotSound(s, i))
    && JoinsSound(s)
    && |Live(s)| <= |s.flag|
    && s.refused == []
  }

  lemma {:induction false} Pigeonhole(a: set<nat>, f: seq<nat>, b: set<nat>)
    requires forall k :: k in a ==> k < |f| && f[k] in b
    requires forall k, l :: k in a && l in a && f[k] == f[l] ==> k == l
    ensures |a| <= |b|
  {
    if a != {} {
      var x :| x in a;
      Pigeonhole(a - {x}, f, b - {f[x]});
    }
  }

  function UpTo(n: nat): (r: set<nat>)
    ensures |r| == n && forall k: nat :: k in r <==> k < n
  {
    if n == 0 then {} else UpTo(n - 1) + {n - 1}
  }

  lemma SlotIsSound(s: State, i: nat)
    requires Inv(s) && i < |s.flag|
    ensures SlotSound(s, i)
  {
    forall k | 0 <= k < |s.works| && s.slot[k] == i && s.flag[i]
      ensures s.ended[k] && s.joins[k] == 1
    {
      assert TaskFits(s, k);
    }
    forall k, l | 0 <= k < |s.works| && 0 <= l < |s.works| && s.slot[k] == s.slot[l] == i
                  && Active(s, k) && Active(s, l)
      ensures k == l
    {
      assert TaskFits(s, k) && TaskFits(s, l);
    }
  }

  lemma LiveFits(s: State)
    requires Inv(s)
    ensures |Live(s)| <= |s.flag|
  {
    forall k, l | k in Live(s) && l in Live(s) && s.slot[k] == s.slot[l]
      ensures k == l
    {
      assert TaskFits(s, k) && TaskFits(s, l);
    }
    Pigeonhole(Live(s), s.slot, UpTo(|s.flag|));
  }

  lemma JoinsAreSound(s: State)
    requires Inv(s)
    ensures JoinsSound(s)
  {
    forall k | 0 <= k < |s.works|
      ensures s.joins[k] <= 1
    {
      assert TaskFits(s, k);
    }
    forall j | 0 <= j < |s.joiners|
      ensures s.joiners[j].slot == s.slot[j] && (s.joiners[j].pc.Waiting? ==> s.joiners[j].pc.h == j)
    {
      assert TaskFits(s, j);
    }
  }

  lemma InvIsSound(s: State)
    requires Inv(s)
    ensures Sound(s)
  {
    forall i | 0 <= i < |s.flag|
      ensures SlotSound(s, i)
    {
      SlotIsSound(s, i);
    }
    JoinsAreSound(s);
    LiveFits(s);
  }

  lemma OneDispatcherSound(slots: nat, dispatchers: nat, s: State)
    requires dispatchers <= 1 && Reachable(slots, dispatchers, s)
    ensures WellFormed(s) && Inv(s) && Sound(s)
  {
    InitInv(slots, dispatchers);
    InvClosed();
    assert s in iset s: State | Inv(s);
    InvIsSound(s);
  }

  // ----- no call is lost or doubled, whatever the number of dispatchers

  function PendingOf(d: Dispatcher, w: Work): nat {
    if (d.Scanning? || d.Claiming? || d.Creating?) && d.work == w then 1 else 0
  }

  function PendingTo(w: Work): Dispatcher -> nat {
    (d: Dispatcher) => PendingOf(d, w)
  }

  /** The calls under way. */
  function Pending(ds: seq<Dispatcher>, w: Work): nat {
    Sum(ds, PendingTo(w))
  }

  function Settled(s: State, w: Work): nat {
    multiset(s.works)[w] + multiset(s.dropped)[w] + multiset(s.refused)[w]
  }

  ghost predicate Accounted(s: State, w: Work) {
    multiset(s.calls)[w] == Settled(s, w) + Pending(s.disp, w)
  }

  lemma ScanSettles(s: State, d: nat, w: Work)
    requires WellFormed(s) && Possible(s, Go(d)) && s.disp[d].Scanning?
    ensures Settled(Advance(s, d), w) + PendingOf(Advance(s, d).disp[d], w) == Settled(s, w) + PendingOf(s.disp[d], w)
  {
    OneMore(s.dropped, s.disp[d].work, w);
    OneMore(s.refused, s.disp[d].work, w);
  }

  lemma CreateSettles(s: State, d: nat, w: Work)
    requires WellFormed(s) && Possible(s, Go(d)) && s.disp[d].Creating?
    ensures Settled(Advance(s, d), w) + PendingOf(Advance(s, d).disp[d], w) == Settled(s, w) + PendingOf(s.disp[d], w)
  {
    OneMore(s.works, s.disp[d].work, w);
  }

  lemma OthersSettle(s: State, d: nat, w: Work)
    requires WellFormed(s) && Possible(s, Go(d)) && !s.disp[d].Scanning? && !s.disp[d].Creating?
    ensures Settled(Advance(s, d), w) + PendingOf(Advance(s, d).disp[d], w) == Settled(s, w) + PendingOf(s.disp[d], w)
  {
  }

  /** What a step takes from the pending calls it adds to the works or to the calls without a slot. */
  lemma GoSettles(s: State, d: nat, w: Work)
    requires WellFormed(s) && Possible(s, Go(d))
    ensures Settled(Advance(s, d), w) + PendingOf(Advance(s, d).disp[d], w) == Settled(s, w) + PendingOf(s.disp[d], w)
  {
    match s.disp[d] {
      case Scanning(_, _, _) => ScanSettles(s, d, w);
      case Creating(_, _) => CreateSettles(s, d, w);
      case _ => OthersSettle(s, d, w);
    }
  }

  lemma GoKeepsAccounted(s: State, d: nat, w: Work)
    requires WellFormed(s) && Possible(s, Go(d)) && Accounted(s, w)
    ensures Accounted(Advance(s, d), w)
  {
    var s' := Advance(s, d);
    SumUpdate(s.disp, d, s'.disp[d], PendingTo(w));
    assert s'.disp == s.disp[d := s'.disp[d]] && s'.calls == s.calls;
    GoSettles(s, d, w);
  }

  lemma StepKeepsAccounted(s: State, a: Action, w: Work)
    requires WellFormed(s) && Possible(s, a) && Accounted(s, w)
    ensures Accounted(After(s, a), w)
  {
    match a {
      case Go(d) => GoKeepsAccounted(s, d, w);
      case Ask(d) => SumUpdate(s.disp, d, Asking(0), PendingTo(w));
      case Call(d, work) => SumUpdate(s.disp, d, Scanning(0, work, s.disp[d].known), PendingTo(w));
      case _ =>
    }
  }

  lemma AccountedClosed(w: Work)
    ensures Closed(iset s: State | Accounted(s, w))
  {
    forall s: State, a: Action | Accounted(s, w) && WellFormed(s) && Possible(s, a)
      ensures Accounted(After(s, a), w)
    {
      StepKeepsAccounted(s, a, w);
    }
  }

  lemma {:induction false} NothingPending(ds: seq<Dispatcher>, w: Work)
    requires forall d :: 0 <= d < |ds| ==> ds[d].Idle?
    ensures Pending(ds, w) == 0
  {
    if ds != [] {
      NothingPending(ds[1..], w);
    }
  }

  /** Every call of `dispatch_thread` has become one task, has found no slot, or is still under way. */
  lemma CallsAccounted(slots: nat, dispatchers: nat, s: State)
    requires Reachable(slots, dispatchers, s)
    ensures forall w: Work :: Accounted(s, w)
  {
    forall w: Work
      ensures Accounted(s, w)
    {
      NothingPending(Init(slots, dispatchers).disp, w);
      AccountedClosed(w);
      assert s in iset s: State | Accounted(s, w);
    }
  }

  // ----- two dispatchers

  /** A state with the first two dispatchers at `x` and `y`, and nothing yet ended. */
  ghost predicate Scene(slots: nat, dispatchers: nat, s: State, free: bool, x: Dispatcher, y: Dispatcher, n: nat) {
    && Reachable(slots, dispatchers, s) && WellFormed(s)
    && |s.disp| == dispatchers > 1 && |s.flag| == slots > 0
    && s.flag[0] == free && s.disp[0] == x && s.disp[1] == y
    && s.joiners == [] && |s.slot| == n && (forall k :: 0 <= k < n ==> s.slot[k] == 0)
  }

  lemma SceneStep(slots: nat, dispatchers: nat, s: State, free: bool, x: Dispatcher, y: Dispatcher, n: nat, d: nat)
    returns (s': State)
    requires Scene(slots, dispatchers, s, free, x, y, n) && d < 2
    requires var z := if d == 0 then x else y;
             && (z.Scanning? || z.Claiming? || z.Creating?) && z.i == 0
             && (z.Scanning? ==> free)
    ensures var z := if d == 0 then x else y;
            var z' := if z.Scanning? then Claiming(0, z.work, z.known)
                      else if z.Claiming? then Creating(0, z.work) else Following(0);
            Scene(slots, dispatchers, s', free && !z.Claiming?, if d == 0 then z' else x, if d == 0 then y else z',
                  if z.Creating? then n + 1 else n)
  {
    ReachStep(slots, dispatchers, s, Go(d));
    s' := After(s, Go(d));
  }

  lemma BothCall(slots: nat, dispatchers: nat) returns (s: State)
    requires slots > 0 && dispatchers > 1
    ensures Scene(slots, dispatchers, s, true, Scanning(0, 0, None), Scanning(0, 1, None), 0)
  {
    var s0 := Init(slots, dispatchers);
    ReachInit(slots, dispatchers);
    ReachStep(slots, dispatchers, s0, Call(0, 0));
    var s1 := After(s0, Call(0, 0));
    ReachStep(slots, dispatchers, s1, Call(1, 1));
    s := After(s1, Call(1, 1));
  }

  lemma BothClaim(slots: nat, dispatchers: nat) returns (s: State)
    requires slots > 0 && dispatchers > 1
    ensures Scene(slots, dispatchers, s, true, Claiming(0, 0, None), Claiming(0, 1, None), 0)
  {
    s := BothCall(slots, dispatchers);
    s := SceneStep(slots, dispatchers, s, true, Scanning(0, 0, None), Scanning(0, 1, None), 0, 0);
    s := SceneStep(slots, dispatchers, s, true, Claiming(0, 0, None), Scanning(0, 1, None), 0, 1);
  }

  /** Two dispatchers read the flag of the first slot before either clears it, and both start a task there. */
  lemma DoubleClaim(slots: nat, dispatchers: nat) returns (s: State)
    requires slots > 0 && dispatchers > 1
    ensures Reachable(slots, dispatchers, s) && WellFormed(s) && !Sound(s)
  {
    s := BothClaim(slots, dispatchers);
    s := SceneStep(slots, dispatchers, s, true, Claiming(0, 0, None), Claiming(0, 1, None), 0, 0);
    s := SceneStep(slots, dispatchers, s, false, Creating(0, 0), Claiming(0, 1, None), 0, 1);
    s := SceneStep(slots, dispatchers, s, false, Creating(0, 0), Creating(0, 1), 0, 0);
    s := SceneStep(slots, dispatchers, s, false, Following(0), Creating(0, 1), 1, 1);
    assert !SlotSound(s, 0) by {
      assert Active(s, 0) && Active(s, 1) && s.slot[0] == s.slot[1] == 0;
    }
  }

  // ----- the dispatcher on its own does what the method of the class does

  /** The effect of `dispatch_thread` as the class states it, on the state of the concurrent pool. */
  ghost predicate Dispatched(s: State, s': State, d: nat, work: Work, known: Option<nat>)
    requires WellFormed(s) && d < |s.disp|
  {
    var i := ThreadPool.FirstFree(s.flag);
    var after := s.(disp := s.disp[d := Idle(None)]);
    s' == if i == |s.flag| then
            if known == None then after.(dropped := s.dropped + [work]) else after.(refused := s.refused + [work])
          else
            after.(flag := s.flag[i := false], handle := s.handle[i := Some(|s.works|)],
                   works := s.works + [work], slot := s.slot + [i], ended := s.ended + [false], joins := s.joins + [0],
                   joiners := s.joiners + [Joiner(i, Fresh)])
  }

  lemma ClaimAlone(slots: nat, dispatchers: nat, s: State, d: nat) returns (s': State)
    requires Reachable(slots, dispatchers, s) && WellFormed(s) && d < |s.disp| && s.disp[d].Claiming?
    requires s.disp[d].i == ThreadPool.FirstFree(s.flag)
    ensures Reachable(slots, dispatchers, s') && WellFormed(s') && Dispatched(s, s', d, s.disp[d].work, s.disp[d].known)
  {
    ReachStep(slots, dispatchers, s, Go(d));
    var s1 := After(s, Go(d));
    ReachStep(slots, dispatchers, s1, Go(d));
    var s2 := After(s1, Go(d));
    ReachStep(slots, dispatchers, s2, Go(d));
    s' := After(s2, Go(d));
  }

  lemma ScanAlone(slots: nat, dispatchers: nat, s: State, d: nat) returns (s': State)
    requires Reachable(slots, dispatchers, s) && WellFormed(s) && d < |s.disp| && s.disp[d].Scanning?
    requires forall j :: 0 <= j < s.disp[d].i ==> !s.flag[j]
    ensures Reachable(slots, dispatchers, s') && WellFormed(s') && Dispatched(s, s', d, s.disp[d].work, s.disp[d].known)
    decreases |s.flag| - s.disp[d].i
  {
    var i := s.disp[d].i;
    ReachStep(slots, dispatchers, s, Go(d));
    s' := After(s, Go(d));
    if i < |s.flag| && !s.flag[i] {
      s' := ScanAlone(slots, dispatchers, s', d);
    } else {
      ThreadPool.ScanPassed(s.flag, i);
      if i < |s.flag| {
        s' := ClaimAlone(slots, dispatchers, s', d);
      }
    }
  }

  /** A dispatch that no other thread interrupts has the effect stated for the method. */
  lemma UninterruptedDispatch(slots: nat, dispatchers: nat, s: State, d: nat, work: Work) returns (s': State)
    requires Reachable(slots, dispatchers, s) && WellFormed(s) && d < |s.disp| && s.disp[d].Idle?
    ensures Reachable(slots, dispatchers, s') && WellFormed(s')
    ensures Dispatched(s.(calls := s.calls + [work]), s', d, work, s.disp[d].known)
  {
    ReachStep(slots, dispatchers, s, Call(d, work));
    s' := ScanAlone(slots, dispatchers, After(s, Call(d, work)), d);
  }

  /** `thread_avail` on its own answers yes, and with the lowest free slot, exactly if there is one. */
  lemma UninterruptedAsk(slots: nat, dispatchers: nat, s: State, d: nat) returns (s': State)
    requires Reachable(slots, dispatchers, s) && WellFormed(s) && d < |s.disp| && s.disp[d].Idle?
    ensures Reachable(slots, dispatchers, s') && WellFormed(s') && Answered(s, s', d)
  {
    ReachStep(slots, dispatchers, s, Ask(d));
    s' := AskAlone(slots, dispatchers, After(s, Ask(d)), d);
  }

  ghost predicate Answered(s: State, s': State, d: nat)
    requires d < |s.disp|
  {
    var i := ThreadPool.FirstFree(s.flag);
    s' == s.(disp := s.disp[d := Idle(if i < |s.flag| then Some(i) else None)])
  }

  lemma AskAlone(slots: nat, dispatchers: nat, s: State, d: nat) returns (s': State)
    requires Reachable(slots, dispatchers, s) && WellFormed(s) && d < |s.disp| && s.disp[d].Asking?
    requires forall j :: 0 <= j < s.disp[d].i ==> !s.flag[j]
    ensures Reachable(slots, dispatchers, s') && WellFormed(s') && Answered(s, s', d)
    decreases |s.flag| - s.disp[d].i
  {
    var i := s.disp[d].i;
    ReachStep(slots, dispatchers, s, Go(d));
    s' := After(s, Go(d));
    if i < |s.flag| && !s.flag[i] {
      s' := AskAlone(slots, dispatchers, s', d);
    } else {
      ThreadPool.ScanPassed(s.flag, i);
    }
  }

  // ----- no slots at all

  ghost predicate Nothing(s: State) {
    s.flag == [] && s.works == [] && s.joiners == [] && s.refused == []
  }

  lemma NoSlotsStep(s: State, a: Action)
    requires WellFormed(s) && Possible(s, a) && Nothing(s)
    ensures Nothing(After(s, a))
  {
    match a {
      case Go(d) => assert DispatcherFits(s, s.disp[d]);
      case _ =>
    }
  }

  lemma NothingClosed()
    ensures Closed(iset s: State | WellFormed(s) && Nothing(s))
  {
    forall s: State, a: Action | WellFormed(s) && Nothing(s) && Possible(s, a)
      ensures WellFormed(After(s, a)) && Nothing(After(s, a))
    {
      StepWellFormed(s, a);
      NoSlotsStep(s, a);
    }
  }

  lemma NoSlotsSound(dispatchers: nat, s: State)
    requires Reachable(0, dispatchers, s)
    ensures WellFormed(s) && Sound(s)
  {
    NothingClosed();
    assert Nothing(Init(0, dispatchers));
    assert s in iset s: State | WellFormed(s) && Nothing(s);
    assert Live(s) == {};
  }

  /** The pool keeps its promises in every reachable state exactly when a single thread dispatches, or there is
      nothing to dispatch to. */
  lemma PoolSoundIff(slots: nat, dispatchers: nat)
    ensures dispatchers <= 1 || slots == 0 <==>
            forall s: State :: Reachable(slots, dispatchers, s) && WellFormed(s) ==> Sound(s)
  {
    if dispatchers <= 1 || slots == 0 {
      forall s: State | Reachable(slots, dispatchers, s) && WellFormed(s)
        ensures Sound(s)
      {
        if slots == 0 {
          NoSlotsSound(dispatchers, s);
        } else {
          OneDispatcherSound(slots, dispatchers, s);
        }
      }
    } else {
      var s := DoubleClaim(slots, dispatchers);
    }
  }
}
