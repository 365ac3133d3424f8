/** What becomes of an event in the end: its timeout always resolves it, its slot always comes back, and once nobody
    schedules any more, every run ends with all events resolved and all slots free. */
module SchedulerProgress {
  import opened Counting
  import opened EventScheduler
  import opened Options
  import opened SchedulerRuns
  import PoolProgress

  lemma ReachableInv(maxEvents: nat, s: State)
    requires Reachable(maxEvents, s)
    ensures Inv(s)
  {
    var run :| Leads(maxEvents, run, s);
    RunKeepsInv(maxEvents, run);
  }

  lemma ReachStep(maxEvents: nat, s: State, a: Action)
    requires Reachable(maxEvents, s) && WellFormed(s) && Possible(s, a)
    ensures Reachable(maxEvents, After(s, a)) && WellFormed(After(s, a))
  {
    StepWellFormed(s, a);
    var run :| Leads(maxEvents, run, s);
    LeadsOn(maxEvents, run, s, a);
  }

  // ----- one event

  /** The event is resolved by the cancels made so far, and nothing else happens, but for an entry used up. */
  ghost predicate TimedOut(s: State, s': State, k: nat)
    requires k < |s.phase|
  {
    var cancelled := k + 1 in s.cancels;
    s' == s.(phase := s.phase[k := if cancelled then Suppressed(|s.cancels|) else Fired(|s.cancels|)],
             queue := if cancelled then RemoveFirst(s.queue, k + 1) else s.queue)
  }

  lemma ScanTimesOut(s: State, k: nat)
    requires WellFormed(s) && Ids(s) && QueueExact(s, k + 1) && k < |s.phase| && s.phase[k] == Sleeping
    ensures Possible(s, Scan(k)) && TimedOut(s, After(s, Scan(k)), k)
    ensures k + 1 in s.cancels ==> |After(s, Scan(k)).queue| + 1 == |s.queue|
  {
    ScanResolves(s, k);
  }

  /** From every reachable state the timeout of a sleeping event can end, and resolves it. */
  lemma Timeout(maxEvents: nat, s: State, k: nat) returns (s': State)
    requires Reachable(maxEvents, s) && WellFormed(s) && k < |s.phase| && s.phase[k] == Sleeping
    ensures Reachable(maxEvents, s') && WellFormed(s') && TimedOut(s, s', k)
    ensures k + 1 in s.cancels ==> |s'.queue| + 1 == |s.queue|
  {
    ReachableInv(maxEvents, s);
    ScanTimesOut(s, k);
    ReachStep(maxEvents, s, Scan(k));
    s' := After(s, Scan(k));
  }

  /** Any id can be cancelled at any time; only a positive one is queued. */
  lemma CancelAnyTime(maxEvents: nat, s: State, id: int) returns (s': State)
    requires Reachable(maxEvents, s) && WellFormed(s)
    ensures Reachable(maxEvents, s') && WellFormed(s')
    ensures s' == s.(cancels := s.cancels + [id], queue := if id > 0 then s.queue + [id] else s.queue)
  {
    ReachStep(maxEvents, s, Cancel(id));
    s' := After(s, Cancel(id));
  }

  /** The wrapper of a resolved event returns. */
  lemma WrapperReturns(maxEvents: nat, s: State, k: nat) returns (s': State)
    requires Reachable(maxEvents, s) && WellFormed(s) && k < |s.phase|
    requires s.phase[k] != Sleeping && !s.pool.ended[k]
    ensures Reachable(maxEvents, s') && WellFormed(s')
    ensures s' == s.(pool := s.pool.(ended := s.pool.ended[k := true]))
  {
    ReachStep(maxEvents, s, Finish(k));
    s' := After(s, Finish(k));
  }

  /** The joiner of a task is its own, and joins it once. */
  lemma JoinerOf(s: State, k: nat)
    requires Inv(s) && k < |s.pool.joiners|
    ensures k < |s.phase| && s.pool.joiners[k].slot == s.pool.slot[k] < |s.pool.flag|
    ensures s.pool.joiners[k].pc.Waiting? ==> s.pool.joiners[k].pc.h == k
    ensures s.pool.joiners[k].pc == Pool.Fresh ==> s.pool.handle[s.pool.slot[k]] == Some(k)
    ensures var pc := s.pool.joiners[k].pc; s.pool.joins[k] == if pc == Pool.Raising || pc == Pool.Done then 1 else 0
  {
    assert |s.pool.joiners| <= |s.pool.works| by {
      assert Pool.Alone(s.pool, s.pool.disp[0]);
    }
    assert Pool.TaskFits(s.pool, k);
    assert Pool.Active(s.pool, k) || s.pool.joiners[k].pc == Pool.Done;
  }

  /** The slot of the task is free, the task ended and joined once; everything else is as before. */
  ghost predicate GaveBack(s: State, s': State, k: nat)
    requires WellFormed(s) && k < |s.pool.works| && k < |s.pool.joiners|
  {
    var x := s.pool.slot[k];
    s' == s.(pool := s.pool.(flag := s.pool.flag[x := true], joins := s.pool.joins[k := 1],
                             joiners := s.pool.joiners[k := Pool.Joiner(x, Pool.Done)]))
  }

  /** A joiner's step towards that. */
  ghost predicate Nearer(s: State, s1: State, k: nat)
    requires WellFormed(s) && k < |s.pool.works| && k < |s.pool.joiners|
  {
    && |s1.pool.joins| == |s.pool.joins| && |s1.pool.joiners| == |s.pool.joiners|
    && s1 == s.(pool := s.pool.(joins := s.pool.joins[k := s1.pool.joins[k]],
                                joiners := s.pool.joiners[k := s1.pool.joiners[k]]))
  }

  lemma GaveBackFrom(s: State, s1: State, s': State, k: nat)
    requires WellFormed(s) && WellFormed(s1) && k < |s.pool.works| && k < |s.pool.joiners|
    requires Nearer(s, s1, k) && GaveBack(s1, s', k)
    ensures GaveBack(s, s', k)
  {
    var x := s.pool.slot[k];
    assert s1.pool.joiners[k := Pool.Joiner(x, Pool.Done)] == s.pool.joiners[k := Pool.Joiner(x, Pool.Done)];
    assert s1.pool.joins[k := 1] == s.pool.joins[k := 1];
  }

  lemma JoinerNearer(s: State, k: nat)
    requires Inv(s) && k < |s.pool.joiners| && s.pool.joiners[k].pc != Pool.Done && s.pool.ended[k]
    ensures Possible(s, Join(k)) && k < |s.pool.works|
    ensures var s1 := After(s, Join(k));
            if s.pool.joiners[k].pc == Pool.Raising then GaveBack(s, s1, k)
            else
              && Nearer(s, s1, k)
              && (s.pool.joiners[k].pc == Pool.Fresh ==> s1.pool.joiners[k].pc.Waiting?)
              && (s.pool.joiners[k].pc.Waiting? ==> s1.pool.joiners[k].pc == Pool.Raising)
  {
    JoinerOf(s, k);
    assert s.pool.joins[k := s.pool.joins[k]] == s.pool.joins;
  }

  /** The joiner of an ended event gives its slot back, from every reachable state. */
  lemma SlotComesBack(maxEvents: nat, s: State, k: nat) returns (s': State)
    requires Reachable(maxEvents, s) && WellFormed(s) && k < |s.phase| && s.pool.ended[k]
    requires k < |s.pool.joiners| && s.pool.joiners[k].pc != Pool.Done
    ensures Reachable(maxEvents, s') && WellFormed(s') && GaveBack(s, s', k)
    decreases match s.pool.joiners[k].pc case Fresh => 2 case Waiting(_) => 1 case _ => 0
  {
    ReachableInv(maxEvents, s);
    JoinerNearer(s, k);
    ReachStep(maxEvents, s, Join(k));
    s' := After(s, Join(k));
    if s.pool.joiners[k].pc != Pool.Raising {
      var s1 := s';
      s' := SlotComesBack(maxEvents, s1, k);
      GaveBackFrom(s, s1, s', k);
    }
  }

  lemma SleepingNotEnded(s: State, k: nat)
    requires Inv(s) && k < |s.phase| && s.phase[k] == Sleeping && k < |s.pool.joiners|
    ensures !s.pool.ended[k] && s.pool.joiners[k].pc != Pool.Done
  {
    assert Resolved(s, k);
    assert Pool.TaskFits(s.pool, k);
  }

  /** A sleeping event, once its joiner is there, can run to its end: resolved, ended, joined, its slot free. */
  lemma EventRunsOut(maxEvents: nat, s: State, k: nat) returns (s': State)
    requires Reachable(maxEvents, s) && WellFormed(s) && k < |s.phase| && s.phase[k] == Sleeping
    requires k < |s.pool.joiners|
    ensures Reachable(maxEvents, s') && WellFormed(s') && k < |s'.phase|
    ensures s'.phase[k] == if k + 1 in s.cancels then Suppressed(|s.cancels|) else Fired(|s.cancels|)
    ensures s'.pool.ended[k] && s'.pool.joins[k] == 1 && s'.pool.flag == s.pool.flag[s.pool.slot[k] := true]
    ensures s'.counter == s.counter && s'.cancels == s.cancels && s'.returned == s.returned && s'.caller == s.caller
  {
    ReachableInv(maxEvents, s);
    SleepingNotEnded(s, k);
    var s1 := Timeout(maxEvents, s, k);
    var s2 := WrapperReturns(maxEvents, s1, k);
    s' := SlotComesBack(maxEvents, s2, k);
  }

  // ----- nobody schedules any more

  lemma {:induction false} PoolReachable(maxEvents: nat, run: seq<Action>)
    requires Feasible(maxEvents, run)
    ensures Pool.Reachable(maxEvents + 1, 1, Run(maxEvents, run).pool)
    decreases |run|
  {
    if run == [] {
      Pool.ReachInit(maxEvents + 1, 1);
    } else {
      var n := |run| - 1;
      PoolReachable(maxEvents, run[..n]);
      var s := Run(maxEvents, run[..n]);
      var r := PoolAction(s, run[n]);
      if r != [] {
        Pool.ReachStep(maxEvents + 1, 1, s.pool, r[0]);
      }
    }
  }

  /** No step is possible but a call of `eventSchedule` or `eventCancel`. */
  ghost predicate Quiet(s: State)
    requires WellFormed(s)
  {
    forall a: Action :: Possible(s, a) ==> a.Schedule? || a.Cancel?
  }

  /** Every event was resolved, its thread has ended, its slot is free, and the id of its call was returned. */
  ghost predicate AllOver(s: State) {
    && s.caller == Resting
    && (forall k :: 0 <= k < |s.phase| ==> s.phase[k] != Sleeping)
    && PoolProgress.AllFree(s.pool)
    && s.counter == |s.pool.works| == Positives(s.returned)
  }

  lemma QuietPool(s: State)
    requires WellFormed(s) && Quiet(s)
    ensures s.caller == Resting && PoolProgress.Quiet(s.pool)
    ensures forall k :: 0 <= k < |s.phase| ==> s.phase[k] != Sleeping
  {
    assert !Possible(s, Continue);
    forall k | 0 <= k < |s.phase|
      ensures s.phase[k] != Sleeping && !Pool.Possible(s.pool, Pool.End(k))
    {
      assert !Possible(s, Scan(k)) && !Possible(s, Finish(k));
    }
    forall a: Pool.Action
      ensures Pool.Possible(s.pool, a) ==> a.Ask? || a.Call?
    {
      if a.Join? {
        assert !Possible(s, Join(a.j));
      }
    }
  }

  /** When nothing but a new call is possible, every event is over. */
  lemma QuietMeansOver(maxEvents: nat, s: State)
    requires Reachable(maxEvents, s) && WellFormed(s) && Quiet(s)
    ensures AllOver(s)
  {
    ReachableInv(maxEvents, s);
    var run :| Leads(maxEvents, run, s);
    PoolReachable(maxEvents, run);
    QuietPool(s);
    PoolProgress.QuietMeansFree(maxEvents + 1, 1, s.pool);
  }

  function Asleep(): Phase -> bool {
    (x: Phase) => x == Sleeping
  }

  function CallerSteps(caller: Caller, slots: nat): nat {
    match caller case Resting => 0 case Checking => slots + 13 case Dispatching => 1
  }

  /** How many steps can still be made without a new call. */
  function Left(s: State): nat {
    PoolProgress.Left(s.pool) + HowMany(s.phase, Asleep()) + CallerSteps(s.caller, |s.pool.flag|)
  }

  lemma CallCosts(p: Pool.State, work: nat)
    requires Pool.WellFormed(p) && |p.disp| == 1 && p.disp[0].Idle?
    ensures PoolProgress.Left(Pool.After(p, Pool.Call(0, work))) == PoolProgress.Left(p) + |p.flag| + 10
  {
    SumUpdate(p.disp, 0, Pool.Scanning(0, work, p.disp[0].known), PoolProgress.StepsOf(|p.flag|));
  }

  /** Creating the thread costs the pool more than the sleep of the event. */
  lemma CreateDrops(p: Pool.State)
    requires Pool.WellFormed(p) && |p.disp| == 1 && p.disp[0].Creating?
    ensures PoolProgress.Left(Pool.After(p, Pool.Go(0))) + 1 < PoolProgress.Left(p)
  {
    var p' := Pool.After(p, Pool.Go(0));
    SumUpdate(p.disp, 0, p'.disp[0], PoolProgress.StepsOf(|p.flag|));
    SumMore(p.ended, false, PoolProgress.Running());
  }

  lemma ContinueDrops(s: State)
    requires WellFormed(s) && s.caller != Resting
    ensures Left(After(s, Continue)) < Left(s)
  {
    if !s.pool.disp[0].Idle? {
      PoolProgress.StepDrops(s.pool, Pool.Go(0));
      if s.pool.disp[0].Creating? {
        CreateDrops(s.pool);
        HowManyMore(s.phase, Sleeping, Asleep());
      }
    } else if s.caller == Checking && s.pool.disp[0].known != None {
      CallCosts(s.pool, s.counter + 1);
    }
  }

  lemma StepDrops(s: State, a: Action)
    requires WellFormed(s) && Possible(s, a) && !a.Schedule? && !a.Cancel?
    ensures Left(After(s, a)) < Left(s)
  {
    match a {
      case Continue => ContinueDrops(s);
      case Scan(k) => HowManyUpdate(s.phase, k, After(s, a).phase[k], Asleep());
      case Finish(k) => PoolProgress.StepDrops(s.pool, Pool.End(k));
      case Join(j) => PoolProgress.StepDrops(s.pool, Pool.Join(j));
    }
  }

  /** From every reachable state, any way of going on without new calls is finite, and one ends with all over. */
  lemma AllEnd(maxEvents: nat, s: State) returns (s': State)
    requires Reachable(maxEvents, s) && WellFormed(s)
    ensures Reachable(maxEvents, s') && WellFormed(s') && s'.cancels == s.cancels && AllOver(s')
    decreases Left(s)
  {
    if a: Action :| Possible(s, a) && !a.Schedule? && !a.Cancel? {
      StepDrops(s, a);
      ReachStep(maxEvents, s, a);
      s' := AllEnd(maxEvents, After(s, a));
    } else {
      s' := s;
      QuietMeansOver(maxEvents, s);
    }
  }
}
