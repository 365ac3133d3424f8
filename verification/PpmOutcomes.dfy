/** Everything that ppm.h allows does happen: threads on their own do what the methods say, and every selection and
    order of deliveries that the books allow has a run. */
module PpmOutcomes {
  import opened Bytes
  import opened Layers
  import opened PpmRuns
  import opened PpmCounts
  import opened PpmLedger

  // ----- one thread at a time

  function With(d: Desk, h: nat, pc: HandlerPC): seq<Handler>
    requires h < |d.handlers|
  {
    d.handlers[h := d.handlers[h].(pc := pc)]
  }

  lemma WorkOn(tot: nat, run: seq<Action>, h: nat)
    requires Feasible(tot, run) && !Run(tot, run).crashed && Workable(Run(tot, run).desk, h)
    ensures Feasible(tot, run + [Work(h)])
    ensures var s := Run(tot, run); Run(tot, run + [Work(h)]) == s.(desk := Handle(s.desk, h))
  {
    RunSnoc(tot, run, Work(h));
  }

  /** The desk when handler `h` has read the counters from `k` on, as far as needed. */
  function Tested(d: Desk, h: nat, k: nat): Desk
    requires Counts(d) && h < |d.handlers|
  {
    Desk(With(d, h, Finished), d.count, d.reports + if AtTotal(d.count, k) then 1 else 0)
  }

  lemma ReadOnce(d: Desk, h: nat, k: nat)
    requires Counts(d) && h < |d.handlers| && d.handlers[h].pc == Test(k) && k < 4
    ensures if d.count[Counter(k)] == 100 && k < 3 then
              Handle(d, h).handlers[h].pc == Test(k + 1) && Tested(Handle(d, h), h, k + 1) == Tested(d, h, k)
            else Handle(d, h) == Tested(d, h, k)
  {
    if d.count[Counter(k)] == 100 && k < 3 {
      assert AtTotal(d.count, k) <==> AtTotal(d.count, k + 1);
      assert With(Handle(d, h), h, Finished) == With(d, h, Finished);
    }
  }

  lemma TestAlone(tot: nat, run: seq<Action>, h: nat, k: nat) returns (run': seq<Action>)
    requires Feasible(tot, run) && !Run(tot, run).crashed && h < |Run(tot, run).desk.handlers|
    requires Run(tot, run).desk.handlers[h].pc == Test(k) && k < 4
    ensures Feasible(tot, run')
    ensures var s := Run(tot, run); Run(tot, run') == s.(desk := Tested(s.desk, h, k))
    decreases 4 - k
  {
    var d := Run(tot, run).desk;
    ReadOnce(d, h, k);
    WorkOn(tot, run, h);
    run' := run + [Work(h)];
    if d.count[Counter(k)] == 100 && k < 3 {
      run' := TestAlone(tot, run', h, k + 1);
    }
  }

  lemma LoadThenStore(d: Desk, h: nat)
    requires Counts(d) && h < |d.handlers| && d.handlers[h].pc == Fresh
    ensures Workable(d, h) && Workable(Handle(d, h), h)
    ensures var p := d.handlers[h].p;
            Handle(Handle(d, h), h) == Desk(With(d, h, Test(0)), d.count[p := d.count[p] + 1], d.reports)
  {
    assert With(d, h, Loaded(d.count[d.handlers[h].p]))[h := d.handlers[h].(pc := Test(0))] == With(d, h, Test(0));
  }

  lemma IncrementAlone(tot: nat, run: seq<Action>, h: nat) returns (run': seq<Action>)
    requires Feasible(tot, run) && !Run(tot, run).crashed && h < |Run(tot, run).desk.handlers|
    requires Run(tot, run).desk.handlers[h].pc == Fresh
    ensures Feasible(tot, run')
    ensures var s := Run(tot, run);
            var p := s.desk.handlers[h].p;
            Run(tot, run') == s.(desk := Desk(With(s.desk, h, Test(0)), s.desk.count[p := s.desk.count[p] + 1],
                                              s.desk.reports))
  {
    LoadThenStore(Run(tot, run).desk, h);
    WorkOn(tot, run, h);
    run' := run + [Work(h)];
    WorkOn(tot, run', h);
    run' := run' + [Work(h)];
  }

  /** A handler that nobody interrupts counts one delivery, and reports exactly if all counters then stand at 100. */
  lemma HandlerAlone(tot: nat, run: seq<Action>, h: nat) returns (run': seq<Action>)
    requires Feasible(tot, run) && !Run(tot, run).crashed && h < |Run(tot, run).desk.handlers|
    requires Run(tot, run).desk.handlers[h].pc == Fresh
    ensures Feasible(tot, run')
    ensures var s := Run(tot, run);
            var p := s.desk.handlers[h].p;
            var count := s.desk.count[p := s.desk.count[p] + 1];
            var all := forall q: Proto :: count[q] == 100;
            Run(tot, run') == s.(desk := Desk(With(s.desk, h, Finished), count, s.desk.reports + if all then 1 else 0))
  {
    var d := Run(tot, run).desk;
    run' := IncrementAlone(tot, run, h);
    var d1 := Run(tot, run').desk;
    run' := TestAlone(tot, run', h, 0);
    AllCounters(d1.count);
    assert With(d1, h, Finished) == With(d, h, Finished);
  }

  /** A message can be submitted at any time. Without a free thread, or for an unknown protocol, nothing is sent. */
  lemma SubmitAnyTime(tot: nat, run: seq<Action>, id: int, payload: seq<byte>, avail: bool)
    requires Feasible(tot, run) && !Run(tot, run).crashed
    ensures var longer := run + [Submit(id, payload, avail)];
            && Feasible(tot, longer)
            && var (s, s') := (Run(tot, run), Run(tot, longer));
               && s'.senders == s.senders + (if avail && 5 <= id <= 8 then
                                               [Sender(PpmFrame(P.Sendable(id)[0], payload), Ready)] else [])
               && s' == s.(senders := s'.senders, submitted := s'.submitted)
  {
    RunSnoc(tot, run, Submit(id, payload, avail));
  }

  /** A datagram can be lost at any time. */
  lemma LoseAnyTime(tot: nat, run: seq<Action>, d: seq<byte>)
    requires Feasible(tot, run) && !Run(tot, run).crashed && d in Run(tot, run).wire
    ensures Feasible(tot, run + [Lose(d)])
    ensures var s := Run(tot, run); Run(tot, run + [Lose(d)]) == s.(wire := s.wire - multiset{d})
  {
    RunSnoc(tot, run, Lose(d));
  }

  // ----- every outcome

  /** The first `n` threads have sent. */
  ghost predicate AllSent(s: State, plan: seq<(Proto, seq<byte>)>, n: nat) {
    && s.submitted == plan && !s.crashed && s.sem == 1 && s.cur == 0 && s.desk == Init().desk
    && |s.senders| == |plan| && n <= |plan| && s.wire == multiset(Frames(plan[..n]))
    && (forall i :: 0 <= i < n ==> s.senders[i].pc == Gone)
    && (forall i :: n <= i < |plan| ==> s.senders[i] == Sender(PpmFrame(plan[i].0, plan[i].1), Ready))
  }

  lemma SentMore(s: State, s': State, plan: seq<(Proto, seq<byte>)>, n: nat)
    requires AllSent(s, plan, n) && n < |plan|
    requires var f := s.senders[n].frame;
             s' == s.(senders := Moved(s.senders, n, Gone), sent := s.sent + [f], wire := s.wire + multiset{f})
    ensures AllSent(s', plan, n + 1)
  {
    FramesMore(plan[..n], plan[n]);
    assert plan[..n + 1] == plan[..n] + [plan[n]];
  }

  lemma {:induction false} SendAll(tot: nat, plan: seq<(Proto, seq<byte>)>, n: nat) returns (run: seq<Action>)
    requires n <= |plan|
    ensures Feasible(tot, run) && AllSent(Run(tot, run), plan, n)
  {
    if n == 0 {
      run := SubmitAll(tot, plan);
    } else {
      var before := SendAll(tot, plan, n - 1);
      run := Pass(tot, before, n - 1, true);
      SentMore(Run(tot, before), Run(tot, run), plan, n - 1);
    }
  }

  /** Only the wire, the receiving loop and the desk are different. */
  ghost predicate OnlyReceived(s: State, s': State) {
    s' == s.(wire := s'.wire, cur := s'.cur, received := s'.received, desk := s'.desk)
  }

  /** One frame is received, and handed over with what the buffer left of it. */
  lemma ReceiveOne(tot: nat, run: seq<Action>, p: Proto, payload: seq<byte>) returns (run': seq<Action>)
    requires Feasible(tot, run) && !Run(tot, run).crashed && Run(tot, run).cur < tot
    requires payload != [] && PpmFrame(p, payload) in Run(tot, run).wire
    ensures Feasible(tot, run')
    ensures var s, s' := Run(tot, run), Run(tot, run');
            && OnlyReceived(s, s') && s'.cur == s.cur + 1 && s'.wire == s.wire - multiset{PpmFrame(p, payload)}
            && s'.desk.handlers == s.desk.handlers + [Handler(p, Received(p, payload), Fresh)]
  {
    FrameHandedOver(p, payload);
    RunSnoc(tot, run, Receive(PpmFrame(p, payload), true));
    run' := run + [Receive(PpmFrame(p, payload), true)];
  }

  lemma OneLess<A>(l: seq<A>, m: seq<A>) returns (i: nat)
    requires l != [] && multiset(l) <= multiset(m)
    ensures i < |m| && m[i] == l[0] && multiset(l[1..]) <= multiset(m[..i] + m[i + 1..])
  {
    assert l[0] in multiset(l);
    i :| 0 <= i < |m| && m[i] == l[0];
    Without(l, 0);
    assert l[..0] + l[1..] == l[1..];
    Without(m, i);
    StillWithin(multiset(l), multiset(m), multiset(l[1..]), multiset(m[..i] + m[i + 1..]), l[0]);
  }

  function Except<A>(l: seq<A>, i: nat): (r: seq<A>)
    requires i < |l|
    ensures |r| == |l| - 1
  {
    l[..i] + l[i + 1..]
  }

  lemma FramesExcept(l: seq<(Proto, seq<byte>)>, i: nat)
    requires i < |l|
    ensures Frames(Except(l, i)) == Except(Frames(l), i) && Expected(Except(l, i)) == Except(Expected(l), i)
  {
  }

  lemma StillNonEmpty(l: seq<(Proto, seq<byte>)>, i: nat)
    requires i < |l| && forall k :: 0 <= k < |l| ==> l[k].1 != []
    ensures forall k :: 0 <= k < |l| - 1 ==> Except(l, i)[k].1 != []
  {
  }

  /** The frames of what is left after one is received. */
  lemma WireLess(wire: multiset<seq<byte>>, rest: seq<(Proto, seq<byte>)>, i: nat)
    requires i < |rest| && multiset(Frames(rest)) <= wire
    ensures Frames(rest)[i] in wire
    ensures multiset(Frames(Except(rest, i))) <= wire - multiset{Frames(rest)[i]}
  {
    Without(Frames(rest), i);
    FramesExcept(rest, i);
    assert Frames(rest)[i] in multiset(Frames(rest));
  }

  /** Which submission a delivery is taken from. */
  lemma Pick(outcome: seq<(Proto, seq<byte>)>, rest: seq<(Proto, seq<byte>)>) returns (i: nat)
    requires outcome != [] && multiset(outcome) <= multiset(Expected(rest))
    ensures i < |rest| && outcome[0] == (rest[i].0, Received(rest[i].0, rest[i].1))
    ensures multiset(outcome[1..]) <= multiset(Expected(Except(rest, i)))
  {
    i := OneLess(outcome, Expected(rest));
    FramesExcept(rest, i);
  }

  lemma DeliveredMore(handlers: seq<Handler>, x: Handler)
    ensures Delivered(handlers + [x]) == Delivered(handlers) + [(x.p, x.data)]
  {
  }

  /** What is on the wire suffices for the deliveries still wanted. */
  ghost predicate Suffices(tot: nat, s: State, rest: seq<(Proto, seq<byte>)>, outcome: seq<(Proto, seq<byte>)>) {
    && !s.crashed && s.cur + |outcome| <= tot
    && multiset(Frames(rest)) <= s.wire && (forall i :: 0 <= i < |rest| ==> rest[i].1 != [])
    && multiset(outcome) <= multiset(Expected(rest))
  }

  lemma ReceiveNext(tot: nat, run: seq<Action>, rest: seq<(Proto, seq<byte>)>, outcome: seq<(Proto, seq<byte>)>)
    returns (run': seq<Action>, rest': seq<(Proto, seq<byte>)>)
    requires Feasible(tot, run) && Suffices(tot, Run(tot, run), rest, outcome) && outcome != []
    ensures Feasible(tot, run') && Suffices(tot, Run(tot, run'), rest', outcome[1..])
    ensures OnlyReceived(Run(tot, run), Run(tot, run'))
    ensures Delivered(Run(tot, run').desk.handlers) == Delivered(Run(tot, run).desk.handlers) + [outcome[0]]
  {
    var i := Pick(outcome, rest);
    var (p, payload) := rest[i];
    WireLess(Run(tot, run).wire, rest, i);
    StillNonEmpty(rest, i);
    rest' := Except(rest, i);
    run' := ReceiveOne(tot, run, p, payload);
    DeliveredMore(Run(tot, run).desk.handlers, Handler(p, Received(p, payload), Fresh));
  }

  /** The handlers have got this, too. */
  ghost predicate Got(s: State, s': State, more: seq<(Proto, seq<byte>)>) {
    OnlyReceived(s, s') && Delivered(s'.desk.handlers) == Delivered(s.desk.handlers) + more
  }

  lemma GotNothing(s: State)
    ensures Got(s, s, [])
  {
  }

  lemma GotThen(s: State, s1: State, s2: State, outcome: seq<(Proto, seq<byte>)>)
    requires outcome != [] && Got(s, s1, [outcome[0]]) && Got(s1, s2, outcome[1..])
    ensures Got(s, s2, outcome)
  {
    assert [outcome[0]] + outcome[1..] == outcome;
  }

  lemma {:induction false} ReceiveAll(tot: nat, run: seq<Action>, rest: seq<(Proto, seq<byte>)>,
                                      outcome: seq<(Proto, seq<byte>)>) returns (run': seq<Action>)
    requires Feasible(tot, run) && Suffices(tot, Run(tot, run), rest, outcome)
    ensures Feasible(tot, run') && Got(Run(tot, run), Run(tot, run'), outcome)
    decreases |outcome|
  {
    if outcome == [] {
      run' := run;
      GotNothing(Run(tot, run));
    } else {
      var r1, rest1 := ReceiveNext(tot, run, rest, outcome);
      run' := ReceiveAll(tot, r1, rest1, outcome[1..]);
      GotThen(Run(tot, run), Run(tot, r1), Run(tot, run'), outcome);
    }
  }

  lemma LoseAll(tot: nat, run: seq<Action>) returns (run': seq<Action>)
    requires Feasible(tot, run) && !Run(tot, run).crashed
    ensures Feasible(tot, run') && Run(tot, run') == Run(tot, run).(wire := multiset{})
    decreases |Run(tot, run).wire|
  {
    run' := run;
    if d :| d in Run(tot, run).wire {
      LoseAnyTime(tot, run, d);
      run' := LoseAll(tot, run + [Lose(d)]);
    }
  }

  /** All over: the threads are gone, the wire is empty, and the handlers have got `outcome`, in this order. */
  ghost predicate Settled(s: State, plan: seq<(Proto, seq<byte>)>, outcome: seq<(Proto, seq<byte>)>) {
    && s.submitted == plan && |s.senders| == |plan| && !s.crashed && s.sem == 1 && s.wire == multiset{}
    && (forall i :: 0 <= i < |s.senders| ==> s.senders[i].pc == Gone)
    && (forall h :: 0 <= h < |s.desk.handlers| ==> s.desk.handlers[h].pc == Finished)
    && Delivered(s.desk.handlers) == outcome
  }

  ghost predicate Settles(tot: nat, plan: seq<(Proto, seq<byte>)>, outcome: seq<(Proto, seq<byte>)>, run: seq<Action>) {
    Feasible(tot, run) && Settled(Run(tot, run), plan, outcome)
  }

  lemma MoreWithin<A>(l: seq<A>, m: seq<A>, x: A)
    requires multiset(l) <= multiset(m)
    ensures multiset(l) <= multiset(m + [x]) && multiset(l + [x]) <= multiset(m + [x])
  {
    assert multiset(l + [x]) == multiset(l) + multiset{x} && multiset(m + [x]) == multiset(m) + multiset{x};
  }

  lemma {:induction false} NonEmptyWithin(plan: seq<(Proto, seq<byte>)>)
    ensures multiset(Frames(NonEmpty(plan))) <= multiset(Frames(plan))
  {
    if plan != [] {
      var n := |plan| - 1;
      NonEmptyWithin(plan[..n]);
      FramesMore(plan[..n], plan[n]);
      FramesMore(NonEmpty(plan[..n]), plan[n]);
      assert plan[..n] + [plan[n]] == plan;
      MoreWithin(Frames(NonEmpty(plan[..n])), Frames(plan[..n]), PpmFrame(plan[n].0, plan[n].1));
    }
  }

  lemma SettledFrom(s0: State, s1: State, s2: State, plan: seq<(Proto, seq<byte>)>, outcome: seq<(Proto, seq<byte>)>)
    requires AllSent(s0, plan, |plan|) && OnlyReceived(s0, s1) && Delivered(s1.desk.handlers) == outcome
    requires s2 == s1.(wire := multiset{}, desk := s2.desk) && Delivered(s2.desk.handlers) == outcome
    requires forall h :: 0 <= h < |s2.desk.handlers| ==> s2.desk.handlers[h].pc == Finished
    ensures Settled(s2, plan, outcome)
  {
  }

  lemma AllSuffices(tot: nat, s: State, plan: seq<(Proto, seq<byte>)>, outcome: seq<(Proto, seq<byte>)>)
    requires AllSent(s, plan, |plan|) && |outcome| <= tot && multiset(outcome) <= multiset(Expected(NonEmpty(plan)))
    ensures Suffices(tot, s, NonEmpty(plan), outcome) && Delivered(s.desk.handlers) == []
  {
    assert plan[..|plan|] == plan;
    NonEmptyWithin(plan);
  }

  lemma OutcomeReached(tot: nat, plan: seq<(Proto, seq<byte>)>, outcome: seq<(Proto, seq<byte>)>)
    returns (run: seq<Action>)
    requires |outcome| <= tot && multiset(outcome) <= multiset(Expected(NonEmpty(plan)))
    ensures Settles(tot, plan, outcome, run)
  {
    var r0 := SendAll(tot, plan, |plan|);
    AllSuffices(tot, Run(tot, r0), plan, outcome);
    var r1 := ReceiveAll(tot, r0, NonEmpty(plan), outcome);
    assert [] + outcome == outcome;
    run := LoseAll(tot, r1);
    run := FinishAll(tot, run);
    SettledFrom(Run(tot, r0), Run(tot, r1), Run(tot, run), plan, outcome);
  }

  /** What the handlers can get, in which order, of a list of messages submitted: any selection of the non-empty ones,
      each at most once, in any order, as long as the receiving loop takes so many; and nothing else. */
  lemma OutcomeIff(tot: nat, plan: seq<(Proto, seq<byte>)>, outcome: seq<(Proto, seq<byte>)>)
    ensures (exists run :: Settles(tot, plan, outcome, run))
            <==> |outcome| <= tot && multiset(outcome) <= multiset(Expected(NonEmpty(plan)))
  {
    if |outcome| <= tot && multiset(outcome) <= multiset(Expected(NonEmpty(plan))) {
      var run := OutcomeReached(tot, plan, outcome);
    }
    forall run | Settles(tot, plan, outcome, run)
      ensures |outcome| <= tot && multiset(outcome) <= multiset(Expected(NonEmpty(plan)))
    {
      DeliveredAtMostOnce(tot, run);
      ReceiptsAccounted(tot, run);
    }
  }
}
