/** Slots come back: a joiner raises the flag of its slot, and once nobody calls the pool any more, every run ends
    with all slots free, whatever the number of dispatchers. */
module PoolProgress {
  import opened Counting
  import opened Options
  import opened PoolRuns

  // ----- a joiner on its own

  /** The task that a joiner joins, or is going to join. */
  predicate JoinsTask(s: State, j: nat, h: nat) {
    && j < |s.joiners|
    && match s.joiners[j].pc
       case Fresh => s.joiners[j].slot < |s.handle| && s.handle[s.joiners[j].slot] == Some(h)
       case Waiting(i) => i == h
       case _ => false
  }

  /** The slot is free again, the task was joined, the joiner is gone; nothing else has changed. */
  ghost predicate Returned(s: State, s': State, j: nat, h: nat)
    requires WellFormed(s) && j < |s.joiners| && h < |s.joins|
  {
    var x := s.joiners[j].slot;
    s' == s.(flag := s.flag[x := true], joins := s.joins[h := s.joins[h] + 1],
             joiners := s.joiners[j := Joiner(x, Done)])
  }

  lemma RaiseAlone(slots: nat, dispatchers: nat, s: State, j: nat) returns (s': State)
    requires Reachable(slots, dispatchers, s) && WellFormed(s) && j < |s.joiners| && s.joiners[j].pc == Raising
    ensures Reachable(slots, dispatchers, s') && WellFormed(s')
    ensures var x := s.joiners[j].slot; s' == s.(flag := s.flag[x := true], joiners := s.joiners[j := Joiner(x, Done)])
  {
    ReachStep(slots, dispatchers, s, Join(j));
    s' := After(s, Join(j));
  }

  lemma WaitAlone(slots: nat, dispatchers: nat, s: State, j: nat, h: nat) returns (s': State)
    requires Reachable(slots, dispatchers, s) && WellFormed(s) && j < |s.joiners| && s.joiners[j].pc == Waiting(h)
    requires h < |s.ended| && s.ended[h]
    ensures Reachable(slots, dispatchers, s') && WellFormed(s') && Returned(s, s', j, h)
  {
    ReachStep(slots, dispatchers, s, Join(j));
    var s1 := After(s, Join(j));
    s' := RaiseAlone(slots, dispatchers, s1, j);
    assert s1.joiners[j := Joiner(s.joiners[j].slot, Done)] == s.joiners[j := Joiner(s.joiners[j].slot, Done)];
  }

  /** A joiner whose task has ended joins it and gives the slot back, from every reachable state. */
  lemma UninterruptedJoin(slots: nat, dispatchers: nat, s: State, j: nat, h: nat) returns (s': State)
    requires Reachable(slots, dispatchers, s) && WellFormed(s) && JoinsTask(s, j, h)
    requires h < |s.ended| && s.ended[h]
    ensures Reachable(slots, dispatchers, s') && WellFormed(s') && Returned(s, s', j, h)
  {
    if s.joiners[j].pc == Fresh {
      ReachStep(slots, dispatchers, s, Join(j));
      var s1 := After(s, Join(j));
      s' := WaitAlone(slots, dispatchers, s1, j, h);
      assert s1.joiners[j := Joiner(s.joiners[j].slot, Done)] == s.joiners[j := Joiner(s.joiners[j].slot, Done)];
    } else {
      s' := WaitAlone(slots, dispatchers, s, j, h);
    }
  }

  /** Whoever asks next finds a slot, at the latest this one. */
  lemma AskAfterJoin(slots: nat, dispatchers: nat, s: State, j: nat, h: nat, d: nat) returns (s': State)
    requires Reachable(slots, dispatchers, s) && WellFormed(s) && JoinsTask(s, j, h)
    requires h < |s.ended| && s.ended[h] && d < |s.disp| && s.disp[d].Idle?
    ensures Reachable(slots, dispatchers, s') && WellFormed(s')
    ensures var x := s.joiners[j].slot;
            && s'.flag == s.flag[x := true] && s'.works == s.works
            && exists i: nat :: i <= x && s'.flag[i] && s'.disp == s.disp[d := Idle(Some(i))]
  {
    var s1 := UninterruptedJoin(slots, dispatchers, s, j, h);
    s' := UninterruptedAsk(slots, dispatchers, s1, d);
    var i := ThreadPool.FirstFree(s1.flag);
    assert s1.flag[s.joiners[j].slot];
    assert i <= s.joiners[j].slot && s'.flag[i];
  }

  // ----- whose turn it is to raise a flag that is down

  predicate Holds(d: Dispatcher, i: nat) {
    (d.Creating? || d.Following?) && d.i == i
  }

  predicate WillRaise(j: Joiner, i: nat) {
    j.slot == i && j.pc != Done
  }

  /** A flag that is down will be raised: by a joiner, or by one that a dispatcher is still going to start. */
  ghost predicate Owed(s: State, i: nat) {
    i < |s.flag| && !s.flag[i] ==>
      || (exists d :: 0 <= d < |s.disp| && Holds(s.disp[d], i))
      || (exists j :: 0 <= j < |s.joiners| && WillRaise(s.joiners[j], i))
  }

  lemma GoOwed(s: State, d: nat, i: nat)
    requires WellFormed(s) && Possible(s, Go(d)) && Owed(s, i)
    ensures Owed(After(s, Go(d)), i)
  {
    var s' := After(s, Go(d));
    if i < |s.flag| && !s'.flag[i] {
      if s.disp[d] == Following(i) {
        assert WillRaise(s'.joiners[|s.joiners|], i);
      } else if s.flag[i] || Holds(s.disp[d], i) {
        assert Holds(s'.disp[d], i);
      } else if e :| 0 <= e < |s.disp| && Holds(s.disp[e], i) {
        assert Holds(s'.disp[e], i);
      } else {
        var j :| 0 <= j < |s.joiners| && WillRaise(s.joiners[j], i);
        assert WillRaise(s'.joiners[j], i);
      }
    }
  }

  lemma JoinOwed(s: State, j: nat, i: nat)
    requires WellFormed(s) && Possible(s, Join(j)) && Owed(s, i)
    ensures Owed(After(s, Join(j)), i)
  {
    var s' := After(s, Join(j));
    if i < |s.flag| && !s'.flag[i] {
      if e :| 0 <= e < |s.disp| && Holds(s.disp[e], i) {
        assert Holds(s'.disp[e], i);
      } else {
        var k :| 0 <= k < |s.joiners| && WillRaise(s.joiners[k], i);
        assert WillRaise(s'.joiners[k], i);
      }
    }
  }

  lemma StepOwed(s: State, a: Action, i: nat)
    requires WellFormed(s) && Possible(s, a) && Owed(s, i)
    ensures Owed(After(s, a), i)
  {
    match a {
      case Go(d) => GoOwed(s, d, i);
      case Join(j) => JoinOwed(s, j, i);
      case End(_) =>
      case _ =>
        if e :| 0 <= e < |s.disp| && Holds(s.disp[e], i) {
          assert Holds(After(s, a).disp[e], i);
        }
    }
  }

  /** Every task has its joiner, or a dispatcher that is going to start it. */
  function IsFollowing(): Dispatcher -> bool {
    (d: Dispatcher) => d.Following?
  }

  ghost predicate Followed(s: State) {
    |s.joiners| + HowMany(s.disp, IsFollowing()) == |s.works|
  }

  lemma StepFollowed(s: State, a: Action)
    requires WellFormed(s) && Possible(s, a) && Followed(s)
    ensures Followed(After(s, a))
  {
    var s' := After(s, a);
    match a {
      case Go(d) => HowManyUpdate(s.disp, d, s'.disp[d], IsFollowing());
      case Ask(d) => HowManyUpdate(s.disp, d, s'.disp[d], IsFollowing());
      case Call(d, _) => HowManyUpdate(s.disp, d, s'.disp[d], IsFollowing());
      case _ =>
    }
  }

  // ----- nobody calls any more

  /** No step is possible except to call the pool again. */
  ghost predicate Quiet(s: State) {
    forall a: Action :: Possible(s, a) ==> a.Ask? || a.Call?
  }

  /** Every slot is free, every task has ended, and every call has become a task or found no slot. */
  ghost predicate AllFree(s: State) {
    && (forall i :: 0 <= i < |s.flag| ==> s.flag[i])
    && (forall k :: 0 <= k < |s.ended| ==> s.ended[k])
    && (forall j :: 0 <= j < |s.joiners| ==> s.joiners[j].pc == Done)
    && (forall d :: 0 <= d < |s.disp| ==> s.disp[d].Idle?)
    && |s.joiners| == |s.works|
    && multiset(s.calls) == multiset(s.works) + multiset(s.dropped) + multiset(s.refused)
  }

  lemma QuietThreads(s: State)
    requires WellFormed(s) && Quiet(s)
    ensures forall k :: 0 <= k < |s.ended| ==> s.ended[k]
    ensures forall j :: 0 <= j < |s.joiners| ==> s.joiners[j].pc == Done
    ensures forall d :: 0 <= d < |s.disp| ==> s.disp[d].Idle?
  {
    forall k | 0 <= k < |s.ended|
      ensures s.ended[k]
    {
      assert !Possible(s, End(k));
    }
    forall j | 0 <= j < |s.joiners|
      ensures s.joiners[j].pc == Done
    {
      assert !Possible(s, Join(j)) && JoinerFits(s, s.joiners[j]);
    }
    forall d | 0 <= d < |s.disp|
      ensures s.disp[d].Idle?
    {
      assert !Possible(s, Go(d));
    }
  }

  lemma NoneFollowing(ds: seq<Dispatcher>)
    requires forall d :: 0 <= d < |ds| ==> ds[d].Idle?
    ensures HowMany(ds, IsFollowing()) == 0
  {
    if ds != [] {
      NoneFollowing(ds[1..]);
    }
  }

  lemma OwedReachable(slots: nat, dispatchers: nat, s: State, i: nat)
    requires Reachable(slots, dispatchers, s)
    ensures Owed(s, i)
  {
    forall s: State, a: Action | Owed(s, i) && WellFormed(s) && Possible(s, a)
      ensures Owed(After(s, a), i)
    {
      StepOwed(s, a, i);
    }
    var reach := iset s: State | Owed(s, i);
    assert Closed(reach) && Init(slots, dispatchers) in reach;
  }

  lemma FollowedReachable(slots: nat, dispatchers: nat, s: State)
    requires Reachable(slots, dispatchers, s)
    ensures Followed(s)
  {
    forall s: State, a: Action | Followed(s) && WellFormed(s) && Possible(s, a)
      ensures Followed(After(s, a))
    {
      StepFollowed(s, a);
    }
    NoneFollowing(Init(slots, dispatchers).disp);
    var reach := iset s: State | Followed(s);
    assert Closed(reach) && Init(slots, dispatchers) in reach;
  }

  /** When nothing but a new call is possible, every slot has come back, whatever the number of dispatchers. */
  lemma QuietMeansFree(slots: nat, dispatchers: nat, s: State)
    requires Reachable(slots, dispatchers, s) && WellFormed(s) && Quiet(s)
    ensures AllFree(s)
  {
    QuietThreads(s);
    forall i | 0 <= i < |s.flag|
      ensures s.flag[i]
    {
      OwedReachable(slots, dispatchers, s, i);
    }
    FollowedReachable(slots, dispatchers, s);
    NoneFollowing(s.disp);
    CallsAccounted(slots, dispatchers, s);
    forall w: Work
      ensures multiset(s.calls)[w] == (multiset(s.works) + multiset(s.dropped) + multiset(s.refused))[w]
    {
      assert Accounted(s, w);
      NothingPending(s.disp, w);
    }
  }

  // ----- and that point is reached

  function StepsOf(slots: nat): Dispatcher -> nat {
    (d: Dispatcher) =>
      match d
      case Idle(_) => 0
      case Asking(i) => if i <= slots then slots - i + 1 else 1
      case Scanning(i, _, _) => if i <= slots then slots - i + 10 else 1
      case Claiming(_, _, _) => 9
      case Creating(_, _) => 8
      case Following(_) => 4
  }

  function JoinerSteps(): Joiner -> nat {
    (j: Joiner) => match j.pc case Fresh => 3 case Waiting(_) => 2 case Raising => 1 case Done => 0
  }

  function Running(): bool -> nat {
    (ended: bool) => if ended then 0 else 1
  }

  /** How many steps can still be made without a new call. */
  function Left(s: State): nat {
    Sum(s.disp, StepsOf(|s.flag|)) + Sum(s.joiners, JoinerSteps()) + Sum(s.ended, Running())
  }

  lemma GoDrops(s: State, d: nat)
    requires WellFormed(s) && Possible(s, Go(d))
    ensures Left(After(s, Go(d))) < Left(s)
  {
    var s' := After(s, Go(d));
    assert DispatcherFits(s, s.disp[d]);
    SumUpdate(s.disp, d, s'.disp[d], StepsOf(|s.flag|));
    SumMore(s.joiners, Joiner(0, Fresh), JoinerSteps());
    SumMore(s.ended, false, Running());
    match s.disp[d] {
      case Following(i) => SumMore(s.joiners, Joiner(i, Fresh), JoinerSteps());
      case _ =>
    }
  }

  /** Every step that is not a call brings the pool nearer to rest. */
  lemma StepDrops(s: State, a: Action)
    requires WellFormed(s) && Possible(s, a) && !a.Ask? && !a.Call?
    ensures Left(After(s, a)) < Left(s)
  {
    var s' := After(s, a);
    match a {
      case Go(d) => GoDrops(s, d);
      case End(k) => SumUpdate(s.ended, k, true, Running());
      case Join(j) => SumUpdate(s.joiners, j, s'.joiners[j], JoinerSteps());
    }
  }

  /** From every reachable state, any way of going on without new calls is finite, and one leads to all slots free. */
  lemma AllComeBack(slots: nat, dispatchers: nat, s: State) returns (s': State)
    requires Reachable(slots, dispatchers, s) && WellFormed(s)
    ensures Reachable(slots, dispatchers, s') && WellFormed(s') && s'.calls == s.calls && AllFree(s')
    decreases Left(s)
  {
    if a: Action :| Possible(s, a) && !a.Ask? && !a.Call? {
      StepDrops(s, a);
      ReachStep(slots, dispatchers, s, a);
      s' := AllComeBack(slots, dispatchers, After(s, a));
    } else {
      s' := s;
      QuietMeansFree(slots, dispatchers, s);
    }
  }

  // ----- a dispatch that comes too late

  function IsFree(): bool -> bool {
    (free: bool) => free
  }

  /** One thread dispatches until no slot is free. */
  lemma FillUp(slots: nat, dispatchers: nat, s: State, d: nat) returns (s': State)
    requires Reachable(slots, dispatchers, s) && WellFormed(s) && d < |s.disp| && s.disp[d] == Idle(None)
    ensures Reachable(slots, dispatchers, s') && WellFormed(s') && s'.disp == s.disp && |s'.flag| == |s.flag|
    ensures ThreadPool.FirstFree(s'.flag) == |s'.flag| && s'.refused == s.refused
    decreases HowMany(s.flag, IsFree())
  {
    var i := ThreadPool.FirstFree(s.flag);
    if i == |s.flag| {
      s' := s;
    } else {
      s' := UninterruptedDispatch(slots, dispatchers, s, d, 0);
      HowManyUpdate(s.flag, i, false, IsFree());
      assert s'.disp == s.disp;
      s' := FillUp(slots, dispatchers, s', d);
    }
  }

  /** One thread is told that a slot is free, another takes all of them, and the work of the first is dropped. */
  lemma DispatchTooLate(slots: nat, dispatchers: nat) returns (s: State)
    requires slots > 0 && dispatchers > 1
    ensures Reachable(slots, dispatchers, s) && s.refused == [1]
  {
    s := Init(slots, dispatchers);
    ReachInit(slots, dispatchers);
    s := UninterruptedAsk(slots, dispatchers, s, 1);
    assert s.disp[1].known.Some?;
    var s1 := FillUp(slots, dispatchers, s, 0);
    s := UninterruptedDispatch(slots, dispatchers, s1, 1, 1);
  }

  /** A dispatch right after a positive answer can be dropped exactly if more than one thread dispatches. */
  lemma RefusedIff(slots: nat, dispatchers: nat)
    ensures (exists s: State :: Reachable(slots, dispatchers, s) && s.refused != []) <==> slots > 0 && dispatchers > 1
  {
    if slots > 0 && dispatchers > 1 {
      var s := DispatchTooLate(slots, dispatchers);
    } else {
      forall s: State | Reachable(slots, dispatchers, s)
        ensures s.refused == []
      {
        if slots == 0 {
          NoSlotsSound(dispatchers, s);
        } else {
          OneDispatcherSound(slots, dispatchers, s);
        }
      }
    }
  }
}
