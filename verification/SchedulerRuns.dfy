/** Runs of the event scheduler on the concurrent thread pool: one thread schedules, any thread cancels, and the
    timeout of an event ends at any moment. The wrapper's scan of the cancel queue is one step: the code takes no
    lock there. */
module SchedulerRuns {
  import opened EventScheduler
  import opened Options
  import Pool = PoolRuns

  /** What became of an event; `seen` is the number of cancel calls made before its scan. */
  datatype Phase = Sleeping | Fired(seen: nat) | Suppressed(seen: nat)

  /** Where the scheduling thread stands in `eventSchedule`. */
  datatype Caller = Resting | Checking | Dispatching

  datatype State = State(
    pool: Pool.State,
    counter: nat,
    queue: seq<int>,
    phase: seq<Phase>,         // one for each task of the pool
    caller: Caller,
    returned: seq<int>,        // history: what the calls of eventSchedule returned
    cancels: seq<int>)         // history: the arguments of the calls of eventCancel

  datatype Action =
    | Schedule | Continue      // eventSchedule is called, or takes its next step
    | Cancel(id: int)
    | Scan(k: nat)             // the timeout of an event is over, and its wrapper scans the queue
    | Finish(k: nat)           // the wrapper returns
    | Join(j: nat)             // a joiner of the pool

  ghost predicate WellFormed(s: State) {
    && Pool.WellFormed(s.pool) && |s.pool.disp| == 1 && |s.phase| == |s.pool.works|
    && (s.caller == Resting ==> s.pool.disp[0].Idle?)
    && (s.caller == Checking ==> s.pool.disp[0].Idle? || s.pool.disp[0].Asking?)
    && (s.caller == Dispatching ==> !s.pool.disp[0].Asking?)
  }

  ghost predicate Possible(s: State, a: Action)
    requires WellFormed(s)
  {
    match a
    case Schedule => s.caller == Resting
    case Continue => s.caller != Resting
    case Cancel(_) => true
    case Scan(k) => k < |s.phase| && s.phase[k] == Sleeping
    case Finish(k) => k < |s.phase| && s.phase[k] != Sleeping && !s.pool.ended[k]
    case Join(j) => Pool.Possible(s.pool, Pool.Join(j))
  }

  function Proceed(s: State): State
    requires WellFormed(s) && s.caller != Resting
  {
    var d := s.pool.disp[0];
    if s.caller == Checking then
      if d.Asking? then s.(pool := Pool.After(s.pool, Pool.Go(0)))
      else if d.known == None then s.(caller := Resting, returned := s.returned + [-1])
      else s.(caller := Dispatching, counter := s.counter + 1, pool := Pool.After(s.pool, Pool.Call(0, s.counter + 1)))
    else if d.Idle? then s.(caller := Resting, returned := s.returned + [s.counter])
    else if d.Creating? then s.(pool := Pool.After(s.pool, Pool.Go(0)), phase := s.phase + [Sleeping])
    else s.(pool := Pool.After(s.pool, Pool.Go(0)))
  }

  function After(s: State, a: Action): State
    requires WellFormed(s) && Possible(s, a)
  {
    match a
    case Schedule => s.(caller := Checking, pool := Pool.After(s.pool, Pool.Ask(0)))
    case Continue => Proceed(s)
    case Cancel(id) => s.(queue := if id <= 0 then s.queue else s.queue + [id], cancels := s.cancels + [id])
    case Scan(k) =>
      var id := s.pool.works[k];
      s.(queue := RemoveFirst(s.queue, id),
         phase := s.phase[k := if id in s.queue then Suppressed(|s.cancels|) else Fired(|s.cancels|)])
    case Finish(k) => s.(pool := Pool.After(s.pool, Pool.End(k)))
    case Join(j) => s.(pool := Pool.After(s.pool, Pool.Join(j)))
  }

  /** The step of the pool below, if there is one. */
  function PoolAction(s: State, a: Action): (r: seq<Pool.Action>)
    requires WellFormed(s) && Possible(s, a)
    ensures r == [] ==> After(s, a).pool == s.pool
    ensures r != [] ==> Pool.Possible(s.pool, r[0]) && After(s, a).pool == Pool.After(s.pool, r[0])
  {
    match a
    case Schedule => [Pool.Ask(0)]
    case Continue =>
      var d := s.pool.disp[0];
      if !d.Idle? then [Pool.Go(0)]
      else if s.caller == Checking && d.known != None then [Pool.Call(0, s.counter + 1)]
      else []
    case Cancel(_) => []
    case Scan(_) => []
    case Finish(k) => [Pool.End(k)]
    case Join(j) => [Pool.Join(j)]
  }

  lemma StepWellFormed(s: State, a: Action)
    requires WellFormed(s) && Possible(s, a)
    ensures WellFormed(After(s, a)) && |After(s, a).pool.flag| == |s.pool.flag|
  {
    var r := PoolAction(s, a);
    if r != [] {
      Pool.StepWellFormed(s.pool, r[0]);
    }
  }

  /** The constructor makes one slot more than the events it is asked for. */
  function Init(maxEvents: nat): (s: State)
    ensures WellFormed(s)
  {
    State(Pool.Init(maxEvents + 1, 1), 0, [], [], Resting, [], [])
  }

  ghost predicate Feasible(maxEvents: nat, run: seq<Action>)
    decreases |run|, 0
  {
    run == [] ||
    (var n := |run| - 1; Feasible(maxEvents, run[..n]) && Possible(Run(maxEvents, run[..n]), run[n]))
  }

  ghost function Run(maxEvents: nat, run: seq<Action>): (s: State)
    requires Feasible(maxEvents, run)
    ensures WellFormed(s) && |s.pool.flag| == maxEvents + 1
    decreases |run|, 1
  {
    if run == [] then Init(maxEvents)
    else
      var n := |run| - 1;
      StepWellFormed(Run(maxEvents, run[..n]), run[n]);
      After(Run(maxEvents, run[..n]), run[n])
  }

  // ----- ids

  predicate Pending(d: Pool.Dispatcher) {
    d.Scanning? || d.Claiming? || d.Creating?
  }

  /** Ids are the positions of tasks, counted from one; only the last may still be on its way to its task. */
  ghost predicate Ids(s: State)
    requires WellFormed(s)
  {
    var d := s.pool.disp[0];
    && (forall k :: 0 <= k < |s.pool.works| ==> s.pool.works[k] == k + 1)
    && s.counter == |s.pool.works| + (if Pending(d) then 1 else 0)
    && (Pending(d) ==> s.caller == Dispatching && d.work == s.counter)
    && (d.Scanning? ==> d.known.Some?)
  }

  function Positives(r: seq<int>): nat {
    if r == [] then 0 else Positives(r[..|r| - 1]) + if r[|r| - 1] > 0 then 1 else 0
  }

  /** The positive results are 1, 2, 3, ... in this order. */
  ghost predicate InOrder(r: seq<int>) {
    forall i :: 0 <= i < |r| ==> r[i] == -1 || r[i] == Positives(r[..i]) + 1
  }

  ghost predicate IssuedBy(returned: seq<int>, counter: nat, caller: Caller) {
    InOrder(returned) && counter == Positives(returned) + (if caller == Dispatching then 1 else 0)
  }

  ghost predicate Issued(s: State) {
    IssuedBy(s.returned, s.counter, s.caller)
  }

  lemma InOrderMore(r: seq<int>, x: int)
    requires InOrder(r) && (x == -1 || x == Positives(r) + 1)
    ensures InOrder(r + [x]) && Positives(r + [x]) == Positives(r) + if x > 0 then 1 else 0
  {
    assert (r + [x])[..|r|] == r;
    assert forall i :: 0 <= i < |r| ==> (r + [x])[..i] == r[..i];
  }

  lemma IdsKept(s: State, a: Action)
    requires WellFormed(s) && Possible(s, a) && Pool.Inv(s.pool) && Ids(s) && Pool.Inv(After(s, a).pool)
    ensures WellFormed(After(s, a)) && Ids(After(s, a))
  {
    StepWellFormed(s, a);
  }

  /** What a step does to the results returned, the counter and the caller. */
  ghost predicate Issues(returned: seq<int>, counter: nat, caller: Caller,
                         returned': seq<int>, counter': nat, caller': Caller) {
    || (returned' == returned && counter' == counter && (caller == Dispatching <==> caller' == Dispatching))
    || (returned' == returned && counter' == counter + 1 && caller == Checking && caller' == Dispatching)
    || (returned' == returned + [-1] && counter' == counter && caller == Checking && caller' == Resting)
    || (returned' == returned + [counter] && counter' == counter && caller == Dispatching && caller' == Resting)
  }

  lemma StepIssues(s: State, a: Action)
    requires WellFormed(s) && Possible(s, a)
    ensures var s' := After(s, a); Issues(s.returned, s.counter, s.caller, s'.returned, s'.counter, s'.caller)
  {
  }

  lemma IssuedNext(returned: seq<int>, counter: nat, caller: Caller,
                   returned': seq<int>, counter': nat, caller': Caller)
    requires Issues(returned, counter, caller, returned', counter', caller') && IssuedBy(returned, counter, caller)
    ensures IssuedBy(returned', counter', caller')
  {
    InOrderMore(returned, -1);
    if caller == Dispatching {
      InOrderMore(returned, counter);
    }
  }

  lemma IssuedKept(s: State, a: Action)
    requires WellFormed(s) && Possible(s, a) && Issued(s)
    ensures Issued(After(s, a))
  {
    var s' := After(s, a);
    StepIssues(s, a);
    IssuedNext(s.returned, s.counter, s.caller, s'.returned, s'.counter, s'.caller);
  }

  // ----- the cancel queue

  function Suppressions(s: State, v: int): nat {
    if 0 < v <= |s.phase| && s.phase[v - 1].Suppressed? then 1 else 0
  }

  /** Every cancel of a positive id is in the queue, or was used up by suppressing that very event. */
  ghost predicate QueueExact(s: State, v: int) {
    v > 0 ==> Count(s.queue, v) + Suppressions(s, v) == Count(s.cancels, v)
  }

  /** An event has fired if no cancel for its id came before its scan, and was suppressed if one did. */
  ghost predicate ResolvedBy(phase: Phase, ended: bool, cancels: seq<int>, id: int) {
    match phase
    case Sleeping => !ended
    case Fired(seen) => seen <= |cancels| && id !in cancels[..seen]
    case Suppressed(seen) => seen <= |cancels| && id in cancels[..seen]
  }

  ghost predicate Resolved(s: State, k: nat)
    requires WellFormed(s) && k < |s.phase|
  {
    ResolvedBy(s.phase[k], s.pool.ended[k], s.cancels, k + 1)
  }

  lemma CancelKeepsQueue(s: State, id: int, v: int)
    requires WellFormed(s) && QueueExact(s, v)
    ensures QueueExact(After(s, Cancel(id)), v)
  {
    CountConcat(s.queue, [id], v);
    CountConcat(s.cancels, [id], v);
    assert Count([id], v) == (if id == v then 1 else 0) + Count([id][1..], v);
  }

  lemma ScanKeepsQueue(s: State, k: nat, v: int)
    requires WellFormed(s) && Possible(s, Scan(k)) && Ids(s) && QueueExact(s, v)
    ensures QueueExact(After(s, Scan(k)), v)
  {
    RemoveFirstCounts(s.queue, k + 1, v);
    ScanSuppresses(s, k, v);
  }

  lemma ScanSuppresses(s: State, k: nat, v: int)
    requires WellFormed(s) && Possible(s, Scan(k)) && Ids(s)
    ensures Suppressions(After(s, Scan(k)), v)
            == Suppressions(s, v) + if v == k + 1 && k + 1 in s.queue then 1 else 0
    ensures After(s, Scan(k)).queue == RemoveFirst(s.queue, k + 1)
  {
  }

  lemma QueueKept(s: State, a: Action, v: int)
    requires WellFormed(s) && Possible(s, a) && Ids(s) && QueueExact(s, v)
    ensures QueueExact(After(s, a), v)
  {
    match a {
      case Cancel(id) => CancelKeepsQueue(s, id, v);
      case Scan(k) => ScanKeepsQueue(s, k, v);
      case _ =>
        assert After(s, a).queue == s.queue && After(s, a).cancels == s.cancels;
        assert Suppressions(After(s, a), v) == Suppressions(s, v);
    }
  }

  lemma CancelKeepsResolved(phase: Phase, ended: bool, cancels: seq<int>, id: int, more: int)
    requires ResolvedBy(phase, ended, cancels, id)
    ensures ResolvedBy(phase, ended, cancels + [more], id)
  {
    if !phase.Sleeping? {
      assert (cancels + [more])[..phase.seen] == cancels[..phase.seen];
    }
  }

  lemma ScanMakesResolved(s: State, k: nat)
    requires WellFormed(s) && Possible(s, Scan(k)) && Ids(s) && QueueExact(s, k + 1)
    ensures WellFormed(After(s, Scan(k))) && Resolved(After(s, Scan(k)), k)
  {
    assert Count(s.queue, k + 1) == Count(s.cancels, k + 1);
    assert s.cancels[..|s.cancels|] == s.cancels;
  }

  /** No other action concerns an event that is there: only a resolved one is finished, and a new one sleeps. */
  lemma OthersKeepResolved(s: State, a: Action, k: nat)
    requires WellFormed(s) && Possible(s, a) && a != Scan(k) && !a.Cancel?
    requires WellFormed(After(s, a)) && k < |After(s, a).phase|
    ensures var s' := After(s, a);
            && s'.cancels == s.cancels
            && if k < |s.phase| then
                 s'.phase[k] == s.phase[k] && (s.phase[k].Sleeping? ==> s'.pool.ended[k] == s.pool.ended[k])
               else
                 s'.phase[k].Sleeping? && !s'.pool.ended[k]
  {
  }

  lemma ResolvedKept(s: State, a: Action, k: nat)
    requires WellFormed(s) && Possible(s, a) && Ids(s) && WellFormed(After(s, a)) && k < |After(s, a).phase|
    requires k < |s.phase| ==> Resolved(s, k)
    requires QueueExact(s, k + 1)
    ensures Resolved(After(s, a), k)
  {
    match a {
      case Cancel(id) => CancelKeepsResolved(s.phase[k], s.pool.ended[k], s.cancels, k + 1, id);
      case _ =>
        if a == Scan(k) {
          ScanMakesResolved(s, k);
        } else {
          OthersKeepResolved(s, a, k);
        }
    }
  }

  ghost predicate Inv(s: State) {
    && WellFormed(s) && Pool.Inv(s.pool) && Ids(s) && Issued(s)
    && (forall v: int :: QueueExact(s, v))
    && (forall k :: 0 <= k < |s.phase| ==> Resolved(s, k))
  }

  lemma StepKeepsInv(s: State, a: Action)
    requires Inv(s) && Possible(s, a)
    ensures Inv(After(s, a))
  {
    StepWellFormed(s, a);
    var r := PoolAction(s, a);
    if r != [] {
      Pool.StepKeepsInv(s.pool, r[0]);
    }
    IdsKept(s, a);
    IssuedKept(s, a);
    forall v: int
      ensures QueueExact(After(s, a), v)
    {
      QueueKept(s, a, v);
    }
    forall k | 0 <= k < |After(s, a).phase|
      ensures Resolved(After(s, a), k)
    {
      ResolvedKept(s, a, k);
    }
  }

  lemma {:induction false} RunKeepsInv(maxEvents: nat, run: seq<Action>)
    requires Feasible(maxEvents, run)
    ensures Inv(Run(maxEvents, run))
    decreases |run|
  {
    if run == [] {
      Pool.InitInv(maxEvents + 1, 1);
    } else {
      var n := |run| - 1;
      RunKeepsInv(maxEvents, run[..n]);
      StepKeepsInv(Run(maxEvents, run[..n]), run[n]);
    }
  }

  // ----- what the scheduler promises, in every run

  lemma ScanResolves(s: State, k: nat)
    requires WellFormed(s) && Ids(s) && QueueExact(s, k + 1) && Possible(s, Scan(k))
    ensures var s' := After(s, Scan(k));
            && (k + 1 !in s.cancels ==> s'.phase[k] == Fired(|s.cancels|) && s'.queue == s.queue)
            && (k + 1 in s.cancels ==> s'.phase[k] == Suppressed(|s.cancels|) && |s'.queue| + 1 == |s.queue|)
  {
    assert Count(s.queue, k + 1) == Count(s.cancels, k + 1);
  }

  /** The timeout of a sleeping event can end at any moment, and it then fires exactly if its id was not cancelled
      before; cancels for other ids, for ids never given out, and for events already resolved have no part in it. */
  lemma FiresIff(maxEvents: nat, run: seq<Action>, k: nat)
    requires Feasible(maxEvents, run) && k < |Run(maxEvents, run).phase| && Run(maxEvents, run).phase[k] == Sleeping
    ensures Possible(Run(maxEvents, run), Scan(k))
    ensures var s := Run(maxEvents, run);
            var s' := After(s, Scan(k));
            && (k + 1 !in s.cancels ==> s'.phase[k] == Fired(|s.cancels|) && s'.queue == s.queue)
            && (k + 1 in s.cancels ==> s'.phase[k] == Suppressed(|s.cancels|) && |s'.queue| + 1 == |s.queue|)
  {
    RunKeepsInv(maxEvents, run);
    ScanResolves(Run(maxEvents, run), k);
  }

  predicate Became(s: State, k: nat, what: Phase) {
    k < |s.phase| && s.phase[k] == what
  }

  lemma ResolutionStays(s: State, a: Action, k: nat, what: Phase)
    requires WellFormed(s) && Possible(s, a) && Became(s, k, what) && what != Sleeping
    ensures Became(After(s, a), k, what)
  {
  }

  /** What an event was resolved to never changes. */
  lemma {:induction false} ResolvedOnce(maxEvents: nat, run: seq<Action>, n: nat, k: nat, what: Phase)
    requires Feasible(maxEvents, run) && n <= |run| && Feasible(maxEvents, run[..n])
    requires Became(Run(maxEvents, run[..n]), k, what) && what != Sleeping
    ensures Became(Run(maxEvents, run), k, what)
    decreases |run|, 1
  {
    if n == |run| {
      assert run[..n] == run;
    } else {
      ResolvedBefore(maxEvents, run, n, k, what);
      ResolutionStays(Run(maxEvents, run[..|run| - 1]), run[|run| - 1], k, what);
    }
  }

  lemma {:induction false} ResolvedBefore(maxEvents: nat, run: seq<Action>, n: nat, k: nat, what: Phase)
    requires Feasible(maxEvents, run) && n < |run| && Feasible(maxEvents, run[..n])
    requires Became(Run(maxEvents, run[..n]), k, what) && what != Sleeping
    ensures Feasible(maxEvents, run[..|run| - 1]) && Became(Run(maxEvents, run[..|run| - 1]), k, what)
    decreases |run|, 0
  {
    assert run[..|run| - 1][..n] == run[..n];
    ResolvedOnce(maxEvents, run[..|run| - 1], n, k, what);
  }

  /** The entries of the cancel queue are exactly the cancels that suppressed nothing. */
  lemma CancelsAccounted(maxEvents: nat, run: seq<Action>, v: int)
    requires Feasible(maxEvents, run) && v > 0
    ensures var s := Run(maxEvents, run); Count(s.queue, v) + Suppressions(s, v) == Count(s.cancels, v)
  {
    RunKeepsInv(maxEvents, run);
    assert QueueExact(Run(maxEvents, run), v);
  }

  lemma {:induction false} PositivesGrow(r: seq<int>, i: nat)
    requires i < |r|
    ensures Positives(r[..i]) + (if r[i] > 0 then 1 else 0) <= Positives(r)
    decreases |r|
  {
    if i == |r| - 1 {
    } else {
      var n := |r| - 1;
      assert r[..n][..i] == r[..i];
      PositivesGrow(r[..n], i);
    }
  }

  /** The ids given out are 1, 2, 3, ..., each to one event whose thread has been started by then; a call
      without a free slot gives out none. */
  lemma IdsIncrease(maxEvents: nat, run: seq<Action>, i: nat, j: nat)
    requires Feasible(maxEvents, run)
    requires i < j < |Run(maxEvents, run).returned|
    requires Run(maxEvents, run).returned[i] > 0 && Run(maxEvents, run).returned[j] > 0
    ensures var s := Run(maxEvents, run);
            && s.returned[i] < s.returned[j] <= |s.pool.works|
            && s.pool.works[s.returned[i] - 1] == s.returned[i] && s.pool.works[s.returned[j] - 1] == s.returned[j]
  {
    RunKeepsInv(maxEvents, run);
    var s := Run(maxEvents, run);
    PositivesGrow(s.returned, j);
    assert s.returned[..j][..i] == s.returned[..i];
    PositivesGrow(s.returned[..j], i);
  }

  /** Events in flight never exceed the number asked for plus one. */
  lemma InFlightBounded(maxEvents: nat, run: seq<Action>)
    requires Feasible(maxEvents, run)
    ensures |Pool.Live(Run(maxEvents, run).pool)| <= maxEvents + 1
  {
    RunKeepsInv(maxEvents, run);
    Pool.InvIsSound(Run(maxEvents, run).pool);
  }

  // ----- a call of eventSchedule that no other thread interrupts

  /** Any set of states that no step leaves: the lemmas below need to know no more about reachability. */
  type States = State -> bool

  ghost predicate Closed(reach: States) {
    forall s: State, a: Action :: reach(s) && WellFormed(s) && Possible(s, a) ==> reach(After(s, a))
  }

  lemma TakeStep(reach: States, s: State, a: Action) returns (s': State)
    requires Closed(reach) && reach(s) && WellFormed(s) && Possible(s, a)
    ensures s' == After(s, a) && WellFormed(s') && reach(s')
  {
    StepWellFormed(s, a);
    s' := After(s, a);
  }

  /** The event sleeps in a thread of its own, and the caller has its id. */
  ghost predicate Accepted(s: State, s': State, id: nat) {
    && s'.caller == Resting && s'.counter == id && s'.returned == s.returned + [id]
    && s'.phase == s.phase + [Sleeping] && s'.queue == s.queue && s'.pool.works == s.pool.works + [id]
  }

  ghost predicate Rejected(s: State, s': State) {
    && s'.caller == Resting && s'.counter == s.counter && s'.returned == s.returned + [-1]
    && s'.phase == s.phase && s'.queue == s.queue && s'.pool.works == s.pool.works
  }

  ghost predicate Answered(s: State, s': State) {
    if exists x :: 0 <= x < |s.pool.flag| && s.pool.flag[x] then Accepted(s, s', s.counter + 1) else Rejected(s, s')
  }

  lemma CreateAlone(reach: States, s: State) returns (s': State)
    requires Closed(reach) && reach(s) && WellFormed(s) && s.caller == Dispatching
    requires s.pool.disp[0].Creating? && s.pool.disp[0].work == s.counter
    ensures reach(s') && WellFormed(s') && Accepted(s, s', s.counter)
  {
    s' := TakeStep(reach, s, Continue);
    s' := TakeStep(reach, s', Continue);
    s' := TakeStep(reach, s', Continue);
  }

  lemma ScanAlone(reach: States, s: State, x: nat) returns (s': State)
    requires Closed(reach) && reach(s) && WellFormed(s) && s.caller == Dispatching
    requires s.pool.disp[0].Scanning? && s.pool.disp[0].work == s.counter
    requires s.pool.disp[0].i <= x < |s.pool.flag| && s.pool.flag[x]
    ensures reach(s') && WellFormed(s') && Accepted(s, s', s.counter)
    decreases x - s.pool.disp[0].i
  {
    s' := TakeStep(reach, s, Continue);
    if s.pool.flag[s.pool.disp[0].i] {
      s' := TakeStep(reach, s', Continue);
      s' := CreateAlone(reach, s');
    } else {
      s' := ScanAlone(reach, s', x);
    }
  }

  lemma CheckFails(reach: States, s: State) returns (s': State)
    requires Closed(reach) && reach(s) && WellFormed(s) && s.caller == Checking
    requires s.pool.disp[0].Asking? && s.pool.disp[0].i == |s.pool.flag|
    ensures reach(s') && WellFormed(s') && Rejected(s, s')
  {
    s' := TakeStep(reach, s, Continue);
    s' := TakeStep(reach, s', Continue);
  }

  lemma CheckSucceeds(reach: States, s: State) returns (s': State)
    requires Closed(reach) && reach(s) && WellFormed(s) && s.caller == Checking
    requires s.pool.disp[0].Asking? && s.pool.disp[0].i < |s.pool.flag| && s.pool.flag[s.pool.disp[0].i]
    ensures reach(s') && WellFormed(s') && Accepted(s, s', s.counter + 1)
  {
    s' := TakeStep(reach, s, Continue);
    s' := TakeStep(reach, s', Continue);
    s' := ScanAlone(reach, s', s.pool.disp[0].i);
  }

  lemma CheckAlone(reach: States, s: State) returns (s': State)
    requires Closed(reach) && reach(s) && WellFormed(s) && s.caller == Checking && s.pool.disp[0].Asking?
    requires s.pool.disp[0].i <= |s.pool.flag| && forall j :: 0 <= j < s.pool.disp[0].i ==> !s.pool.flag[j]
    ensures reach(s') && WellFormed(s') && Answered(s, s')
    decreases |s.pool.flag| - s.pool.disp[0].i
  {
    var i := s.pool.disp[0].i;
    if i == |s.pool.flag| {
      s' := CheckFails(reach, s);
    } else if s.pool.flag[i] {
      s' := CheckSucceeds(reach, s);
    } else {
      var s1 := TakeStep(reach, s, Continue);
      s' := CheckAlone(reach, s1);
      AnsweredFrom(s, s1, s');
    }
  }

  lemma AnsweredFrom(s: State, s1: State, s': State)
    requires s1.pool.flag == s.pool.flag && s1.pool.works == s.pool.works && s1.counter == s.counter
    requires s1.phase == s.phase && s1.queue == s.queue && s1.returned == s.returned && Answered(s1, s')
    ensures Answered(s, s')
  {
  }

  lemma CallAlone(reach: States, s: State) returns (s': State)
    requires Closed(reach) && reach(s) && WellFormed(s) && s.caller == Resting
    ensures reach(s') && WellFormed(s') && Answered(s, s')
  {
    var s1 := TakeStep(reach, s, Schedule);
    s' := CheckAlone(reach, s1);
    AnsweredFrom(s, s1, s');
  }

  ghost predicate Reachable(maxEvents: nat, s: State) {
    exists run :: Leads(maxEvents, run, s)
  }

  ghost predicate Leads(maxEvents: nat, run: seq<Action>, s: State) {
    Feasible(maxEvents, run) && Run(maxEvents, run) == s
  }

  lemma LeadsOn(maxEvents: nat, run: seq<Action>, s: State, a: Action)
    requires Leads(maxEvents, run, s) && WellFormed(s) && Possible(s, a)
    ensures Leads(maxEvents, run + [a], After(s, a))
  {
    var longer := run + [a];
    assert longer[..|longer| - 1] == run;
  }

  lemma ReachableClosed(maxEvents: nat)
    ensures Closed(s => Reachable(maxEvents, s))
  {
    forall s: State, a: Action | Reachable(maxEvents, s) && WellFormed(s) && Possible(s, a)
      ensures Reachable(maxEvents, After(s, a))
    {
      var run :| Leads(maxEvents, run, s);
      LeadsOn(maxEvents, run, s, a);
    }
  }

  /** From every reachable state in which it rests, the scheduling thread can complete a call: with a free slot it
      returns the next id and the event sleeps in a thread; without one it returns -1 and nothing else happens. */
  lemma ScheduleAlone(maxEvents: nat, s: State) returns (s': State)
    requires Reachable(maxEvents, s) && WellFormed(s) && s.caller == Resting
    ensures Reachable(maxEvents, s') && Answered(s, s')
  {
    ReachableClosed(maxEvents);
    s' := CallAlone(x => Reachable(maxEvents, x), s);
  }
}
