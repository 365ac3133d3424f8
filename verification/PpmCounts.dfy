/** The unprotected counters of ppm.h: when they are exact, and when the completion is reported. */
module PpmCounts {
  import opened Counting
  import opened Layers
  import opened PpmRuns

  function OfProto(p: Proto): Handler -> bool {
    (x: Handler) => x.p == p
  }

  /** The handler has stored its increment. */
  function Stored(p: Proto): Handler -> bool {
    (x: Handler) => x.p == p && (x.pc.Test? || x.pc == Finished)
  }

  function HandlerCount(d: Desk, p: Proto): nat {
    HowMany(d.handlers, OfProto(p))
  }

  /** How often the counter of `p` was incremented, as far as the handlers know. */
  function StoredCount(d: Desk, p: Proto): nat {
    HowMany(d.handlers, Stored(p))
  }

  lemma HandleStored(d: Desk, h: nat, p: Proto)
    requires Counts(d) && Workable(d, h)
    ensures StoredCount(Handle(d, h), p)
            == StoredCount(d, p) + if d.handlers[h].pc.Loaded? && d.handlers[h].p == p then 1 else 0
    ensures HandlerCount(Handle(d, h), p) == HandlerCount(d, p)
  {
    var x := Handle(d, h).handlers[h];
    assert Handle(d, h).handlers == d.handlers[h := x];
    HowManyUpdate(d.handlers, h, x, Stored(p));
    HowManyUpdate(d.handlers, h, x, OfProto(p));
  }

  lemma StartStored(d: Desk, x: Handler, p: Proto)
    requires x.pc == Fresh
    ensures StoredCount(Started(d, x), p) == StoredCount(d, p)
    ensures HandlerCount(Started(d, x), p) == HandlerCount(d, p) + if x.p == p then 1 else 0
  {
    HowManyMore(d.handlers, x, Stored(p));
    HowManyMore(d.handlers, x, OfProto(p));
  }

  lemma StoredOfProto(d: Desk, p: Proto)
    ensures StoredCount(d, p) <= HandlerCount(d, p)
    ensures (exists i :: 0 <= i < |d.handlers| && d.handlers[i].p == p && d.handlers[i].pc.Loaded?)
            ==> StoredCount(d, p) < HandlerCount(d, p)
  {
    HowManyWithin(d.handlers, Stored(p), OfProto(p));
    if i :| 0 <= i < |d.handlers| && d.handlers[i].p == p && d.handlers[i].pc.Loaded? {
      assert OfProto(p)(d.handlers[i]) && !Stored(p)(d.handlers[i]);
    }
  }

  // ----- no counter runs ahead

  ghost predicate CounterFits(d: Desk, p: Proto)
    requires Counts(d)
  {
    d.count[p] <= StoredCount(d, p)
  }

  ghost predicate LoadFits(d: Desk, i: nat)
    requires i < |d.handlers|
  {
    var x := d.handlers[i];
    && (x.pc.Loaded? ==> x.pc.reg <= StoredCount(d, x.p))
    && (x.pc.Test? ==> x.pc.k < 4 && forall j :: 0 <= j < x.pc.k ==> StoredCount(d, Counter(j)) >= TOT_SEND)
  }

  ghost predicate ReportFits(d: Desk) {
    d.reports > 0 ==> forall p: Proto :: StoredCount(d, p) >= TOT_SEND
  }

  ghost predicate Fits(d: Desk)
    requires Counts(d)
  {
    && (forall p: Proto :: CounterFits(d, p))
    && (forall i :: 0 <= i < |d.handlers| ==> LoadFits(d, i))
    && ReportFits(d)
  }

  lemma HandleKeepsCounter(d: Desk, h: nat, p: Proto)
    requires Counts(d) && Workable(d, h) && CounterFits(d, p) && LoadFits(d, h)
    ensures CounterFits(Handle(d, h), p)
  {
    HandleStored(d, h, p);
  }

  lemma HandleKeepsLoad(d: Desk, h: nat, i: nat)
    requires Counts(d) && Workable(d, h) && i < |d.handlers|
    requires (forall p: Proto :: CounterFits(d, p)) && LoadFits(d, i)
    ensures LoadFits(Handle(d, h), i)
  {
    forall p: Proto
      ensures StoredCount(Handle(d, h), p) >= StoredCount(d, p)
    {
      HandleStored(d, h, p);
    }
    assert CounterFits(d, d.handlers[h].p);
    if d.handlers[h].pc.Test? {
      assert CounterFits(d, Counter(d.handlers[h].pc.k));
    }
  }

  lemma HandleKeepsReport(d: Desk, h: nat)
    requires Counts(d) && Workable(d, h) && Fits(d)
    ensures ReportFits(Handle(d, h))
  {
    assert LoadFits(d, h) && CounterFits(d, Dns);
    forall p: Proto | Handle(d, h).reports > 0
      ensures StoredCount(Handle(d, h), p) >= TOT_SEND
    {
      HandleStored(d, h, p);
      assert Counter(0) == Ftp && Counter(1) == Telnet && Counter(2) == Rdp;
      match p { case Ftp => case Telnet => case Rdp => case Dns => }
    }
  }

  lemma HandleKeepsFits(d: Desk, h: nat)
    requires Counts(d) && Workable(d, h) && Fits(d)
    ensures Fits(Handle(d, h))
  {
    forall p: Proto
      ensures CounterFits(Handle(d, h), p)
    {
      assert LoadFits(d, h);
      HandleKeepsCounter(d, h, p);
    }
    forall i | 0 <= i < |d.handlers|
      ensures LoadFits(Handle(d, h), i)
    {
      HandleKeepsLoad(d, h, i);
    }
    HandleKeepsReport(d, h);
  }

  lemma StartKeepsFits(d: Desk, x: Handler)
    requires Counts(d) && Fits(d) && x.pc == Fresh
    ensures Fits(Started(d, x))
  {
    var d' := Started(d, x);
    forall p: Proto
      ensures StoredCount(d', p) == StoredCount(d, p) && CounterFits(d', p)
    {
      StartStored(d, x, p);
      assert CounterFits(d, p);
    }
    forall i | 0 <= i < |d'.handlers|
      ensures LoadFits(d', i)
    {
      if i < |d.handlers| {
        assert LoadFits(d, i);
      }
    }
  }

  /** What an action does to the desk: a step of a handler, a new handler, or nothing. */
  lemma DeskAfter(tot: nat, s: State, a: Action)
    requires WellFormed(s) && Possible(tot, s, a)
    ensures var d' := After(tot, s, a).desk;
            if a.Work? then d' == Handle(s.desk, a.h)
            else if a.Receive? && a.avail && DeliverEth(Clip(a.datagram)).Handed? then
              var got := DeliverEth(Clip(a.datagram));
              d' == Started(s.desk, Handler(got.p, got.data, Fresh))
            else d' == s.desk
  {
  }

  lemma StepKeepsFits(tot: nat, s: State, a: Action)
    requires WellFormed(s) && Possible(tot, s, a) && Fits(s.desk)
    ensures Fits(After(tot, s, a).desk)
  {
    DeskAfter(tot, s, a);
    if a.Work? {
      HandleKeepsFits(s.desk, a.h);
    } else if a.Receive? && a.avail && DeliverEth(Clip(a.datagram)).Handed? {
      var got := DeliverEth(Clip(a.datagram));
      StartKeepsFits(s.desk, Handler(got.p, got.data, Fresh));
    }
  }

  lemma {:induction false} RunFits(tot: nat, run: seq<Action>)
    requires Feasible(tot, run)
    ensures Fits(Run(tot, run).desk)
    decreases |run|
  {
    if run == [] {
      ZeroTotal();
    } else {
      var n := |run| - 1;
      RunFits(tot, run[..n]);
      StepKeepsFits(tot, Run(tot, run[..n]), run[n]);
    }
  }

  /** However the unprotected increments interleave, no counter runs ahead of the handlers that have stored, and a
      completion is reported only after at least the total was counted for every protocol. */
  lemma NoPrematureReport(tot: nat, run: seq<Action>)
    requires Feasible(tot, run)
    ensures var d := Run(tot, run).desk;
            && (forall p: Proto :: d.count[p] <= StoredCount(d, p))
            && (d.reports > 0 ==> forall p: Proto :: StoredCount(d, p) >= TOT_SEND)
  {
    RunFits(tot, run);
    var d := Run(tot, run).desk;
    forall p: Proto
      ensures d.count[p] <= StoredCount(d, p)
    {
      assert CounterFits(d, p);
    }
  }

  // ----- a counter is exact as long as no store is stale

  ghost predicate Exact(d: Desk, p: Proto)
    requires Counts(d)
  {
    d.count[p] == StoredCount(d, p)
  }

  /** Behind for good: what any handler is still going to store is too low as well. */
  ghost predicate Behind(d: Desk, p: Proto)
    requires Counts(d)
  {
    && d.count[p] < StoredCount(d, p)
    && forall i :: 0 <= i < |d.handlers| && d.handlers[i].p == p && d.handlers[i].pc.Loaded? ==>
         d.handlers[i].pc.reg < StoredCount(d, p)
  }

  /** The next step of `h` stores over an increment it has not seen. */
  predicate Stale(d: Desk, h: nat, p: Proto)
    requires h < |d.handlers| && p in d.count
  {
    d.handlers[h].p == p && d.handlers[h].pc.Loaded? && d.handlers[h].pc.reg != d.count[p]
  }

  lemma FreshStoreExact(d: Desk, h: nat, p: Proto)
    requires Counts(d) && Workable(d, h) && Exact(d, p) && !Stale(d, h, p)
    ensures Exact(Handle(d, h), p)
  {
    HandleStored(d, h, p);
  }

  lemma StaleStoreBehind(d: Desk, h: nat, p: Proto)
    requires Counts(d) && Workable(d, h) && Fits(d) && Exact(d, p) && Stale(d, h, p)
    ensures Behind(Handle(d, h), p)
  {
    var d' := Handle(d, h);
    HandleStored(d, h, p);
    assert LoadFits(d, h);
    forall i | 0 <= i < |d'.handlers| && d'.handlers[i].p == p && d'.handlers[i].pc.Loaded?
      ensures d'.handlers[i].pc.reg < StoredCount(d', p)
    {
      assert LoadFits(d, i);
    }
  }

  lemma HandleKeepsBehind(d: Desk, h: nat, p: Proto)
    requires Counts(d) && Workable(d, h) && Behind(d, p)
    ensures Behind(Handle(d, h), p)
  {
    HandleStored(d, h, p);
  }

  /** No step of the run stores a stale value for `p`. */
  predicate LossFree(tot: nat, run: seq<Action>, p: Proto)
    requires Feasible(tot, run)
    decreases |run|
  {
    run == [] ||
    (var n := |run| - 1;
     && LossFree(tot, run[..n], p)
     && !(run[n].Work? && Stale(Run(tot, run[..n]).desk, run[n].h, p)))
  }

  ghost predicate Judged(d: Desk, free: bool, p: Proto)
    requires Counts(d)
  {
    if free then Exact(d, p) else Behind(d, p)
  }

  lemma StepJudged(tot: nat, s: State, a: Action, free: bool, p: Proto)
    requires WellFormed(s) && Possible(tot, s, a) && Fits(s.desk) && Judged(s.desk, free, p)
    ensures Judged(After(tot, s, a).desk, free && !(a.Work? && Stale(s.desk, a.h, p)), p)
  {
    DeskAfter(tot, s, a);
    if a.Work? {
      if !free {
        HandleKeepsBehind(s.desk, a.h, p);
      } else if Stale(s.desk, a.h, p) {
        StaleStoreBehind(s.desk, a.h, p);
      } else {
        FreshStoreExact(s.desk, a.h, p);
      }
    } else if a.Receive? && a.avail && DeliverEth(Clip(a.datagram)).Handed? {
      var got := DeliverEth(Clip(a.datagram));
      StartStored(s.desk, Handler(got.p, got.data, Fresh), p);
    }
  }

  lemma {:induction false} RunJudged(tot: nat, run: seq<Action>, p: Proto)
    requires Feasible(tot, run)
    ensures Judged(Run(tot, run).desk, LossFree(tot, run, p), p)
    decreases |run|
  {
    if run == [] {
      ZeroTotal();
    } else {
      var n := |run| - 1;
      RunJudged(tot, run[..n], p);
      RunFits(tot, run[..n]);
      StepJudged(tot, Run(tot, run[..n]), run[n], LossFree(tot, run[..n], p), p);
    }
  }

  /** In every run: a counter equals the number of handlers that have incremented it exactly if none of them stored
      over an increment it had not seen. */
  lemma CountExactIff(tot: nat, run: seq<Action>, p: Proto)
    requires Feasible(tot, run)
    ensures var d := Run(tot, run).desk; d.count[p] == StoredCount(d, p) <==> LossFree(tot, run, p)
  {
    RunJudged(tot, run, p);
  }

  // ----- what a caller can see to: increments that do not overlap

  predicate Incrementing(d: Desk, i: nat, p: Proto) {
    i < |d.handlers| && d.handlers[i].p == p && d.handlers[i].pc.Loaded?
  }

  /** At most one handler of `p` is between its load and its store. */
  ghost predicate Alone(d: Desk, p: Proto) {
    forall h: nat, i: nat :: Incrementing(d, h, p) && Incrementing(d, i, p) ==> h == i
  }

  ghost predicate Serial(tot: nat, run: seq<Action>, p: Proto)
    requires Feasible(tot, run)
    decreases |run|
  {
    Alone(Run(tot, run).desk, p) && (run == [] || Serial(tot, run[..|run| - 1], p))
  }

  /** The register of a lone handler is the counter. */
  ghost predicate UpToDate(d: Desk, p: Proto)
    requires Counts(d)
  {
    forall i: nat :: Incrementing(d, i, p) ==> d.handlers[i].pc.reg == d.count[p]
  }

  lemma HandleUpToDate(d: Desk, h: nat, p: Proto)
    requires Counts(d) && Workable(d, h) && Alone(d, p) && UpToDate(d, p)
    ensures !Stale(d, h, p) && UpToDate(Handle(d, h), p)
  {
    var d' := Handle(d, h);
    assert Stale(d, h, p) ==> Incrementing(d, h, p);
    forall i: nat | Incrementing(d', i, p)
      ensures d'.handlers[i].pc.reg == d'.count[p]
    {
      if i != h {
        assert Incrementing(d, i, p);
        assert Incrementing(d, h, p) ==> h == i;
      }
    }
  }

  lemma StepUpToDate(tot: nat, s: State, a: Action, p: Proto)
    requires WellFormed(s) && Possible(tot, s, a) && Alone(s.desk, p) && UpToDate(s.desk, p)
    ensures UpToDate(After(tot, s, a).desk, p) && !(a.Work? && Stale(s.desk, a.h, p))
  {
    DeskAfter(tot, s, a);
    if a.Work? {
      HandleUpToDate(s.desk, a.h, p);
    } else {
      var d' := After(tot, s, a).desk;
      forall i: nat | Incrementing(d', i, p)
        ensures d'.handlers[i].pc.reg == d'.count[p]
      {
        assert Incrementing(s.desk, i, p);
      }
    }
  }

  lemma {:induction false} SerialLossFree(tot: nat, run: seq<Action>, p: Proto)
    requires Feasible(tot, run) && Serial(tot, run, p)
    ensures LossFree(tot, run, p) && UpToDate(Run(tot, run).desk, p)
    decreases |run|
  {
    if run != [] {
      var n := |run| - 1;
      SerialLossFree(tot, run[..n], p);
      StepUpToDate(tot, Run(tot, run[..n]), run[n], p);
    }
  }

  /** Two handlers of `p` between load and store, or one of them already overtaken: someone's store will be stale. */
  ghost predicate Doomed(d: Desk, p: Proto)
    requires Counts(d)
  {
    || (exists i: nat :: Incrementing(d, i, p) && d.handlers[i].pc.reg < d.count[p])
    || (exists h: nat, i: nat :: Incrementing(d, h, p) && Incrementing(d, i, p) && h != i)
  }

  /** Without loss no register is ahead of the counter. */
  ghost predicate NotAhead(d: Desk, p: Proto)
    requires Counts(d)
  {
    forall i: nat :: Incrementing(d, i, p) ==> d.handlers[i].pc.reg <= d.count[p]
  }

  lemma HandleNotAhead(d: Desk, h: nat, p: Proto)
    requires Counts(d) && Workable(d, h) && NotAhead(d, p) && !Stale(d, h, p)
    ensures NotAhead(Handle(d, h), p)
  {
    var d' := Handle(d, h);
    forall i: nat | Incrementing(d', i, p)
      ensures d'.handlers[i].pc.reg <= d'.count[p]
    {
      assert i != h ==> Incrementing(d, i, p);
      assert Incrementing(d, h, p) || d'.count[p] == d.count[p];
    }
  }

  /** A handler that is overtaken stays so as long as nothing is lost: its own store would be stale. */
  lemma OvertakenStays(d: Desk, h: nat, i: nat, p: Proto)
    requires Counts(d) && Workable(d, h) && !Stale(d, h, p)
    requires Incrementing(d, i, p) && d.handlers[i].pc.reg < d.count[p]
    ensures Incrementing(Handle(d, h), i, p) && Handle(d, h).handlers[i].pc.reg < Handle(d, h).count[p]
  {
  }

  /** Of two handlers between load and store, the one that does not store is overtaken. */
  lemma PairStays(d: Desk, h: nat, i: nat, j: nat, p: Proto)
    requires Counts(d) && Workable(d, h) && NotAhead(d, p) && !Stale(d, h, p)
    requires Incrementing(d, i, p) && Incrementing(d, j, p) && i != j
    ensures Doomed(Handle(d, h), p)
  {
    var d' := Handle(d, h);
    if h == i {
      assert Incrementing(d', j, p) && d'.handlers[j].pc.reg < d'.count[p];
    } else if h == j {
      assert Incrementing(d', i, p) && d'.handlers[i].pc.reg < d'.count[p];
    } else {
      assert Incrementing(d', i, p) && Incrementing(d', j, p);
    }
  }

  lemma HandleDoomed(d: Desk, h: nat, p: Proto)
    requires Counts(d) && Workable(d, h) && NotAhead(d, p) && !Stale(d, h, p) && Doomed(d, p)
    ensures Doomed(Handle(d, h), p)
  {
    if i: nat :| Incrementing(d, i, p) && d.handlers[i].pc.reg < d.count[p] {
      OvertakenStays(d, h, i, p);
    } else {
      var i: nat, j: nat :| Incrementing(d, i, p) && Incrementing(d, j, p) && i != j;
      PairStays(d, h, i, j, p);
    }
  }

  lemma StartKeepsDoom(d: Desk, x: Handler, p: Proto)
    requires Counts(d) && x.pc == Fresh
    ensures NotAhead(d, p) ==> NotAhead(Started(d, x), p)
    ensures Doomed(d, p) ==> Doomed(Started(d, x), p)
  {
    var d' := Started(d, x);
    assert forall i: nat :: Incrementing(d', i, p) <==> Incrementing(d, i, p);
    assert forall i: nat :: Incrementing(d, i, p) ==> d'.handlers[i] == d.handlers[i];
  }

  lemma StepKeepsDoom(tot: nat, s: State, a: Action, p: Proto)
    requires WellFormed(s) && Possible(tot, s, a) && NotAhead(s.desk, p)
    requires !(a.Work? && Stale(s.desk, a.h, p))
    ensures NotAhead(After(tot, s, a).desk, p)
    ensures Doomed(s.desk, p) ==> Doomed(After(tot, s, a).desk, p)
  {
    DeskAfter(tot, s, a);
    if a.Work? {
      HandleNotAhead(s.desk, a.h, p);
      if Doomed(s.desk, p) {
        HandleDoomed(s.desk, a.h, p);
      }
    } else if a.Receive? && a.avail && DeliverEth(Clip(a.datagram)).Handed? {
      var got := DeliverEth(Clip(a.datagram));
      StartKeepsDoom(s.desk, Handler(got.p, got.data, Fresh), p);
    }
  }

  lemma {:induction false} OverlapDooms(tot: nat, run: seq<Action>, p: Proto)
    requires Feasible(tot, run) && LossFree(tot, run, p)
    ensures NotAhead(Run(tot, run).desk, p)
    ensures !Serial(tot, run, p) ==> Doomed(Run(tot, run).desk, p)
    decreases |run|
  {
    if run != [] {
      var n := |run| - 1;
      OverlapDooms(tot, run[..n], p);
      StepKeepsDoom(tot, Run(tot, run[..n]), run[n], p);
    }
  }

  /** Increments of one protocol that never overlap are all counted. If no handler is left between load and store,
      that is also the only way: any overlap has then lost an increment. */
  lemma ExactIffSerial(tot: nat, run: seq<Action>, p: Proto)
    requires Feasible(tot, run)
    ensures var d := Run(tot, run).desk;
            && (Serial(tot, run, p) ==> d.count[p] == StoredCount(d, p))
            && ((forall i: nat :: !Incrementing(d, i, p)) ==>
                  (d.count[p] == StoredCount(d, p) <==> Serial(tot, run, p)))
  {
    CountExactIff(tot, run, p);
    if Serial(tot, run, p) {
      SerialLossFree(tot, run, p);
    } else if LossFree(tot, run, p) {
      OverlapDooms(tot, run, p);
    }
  }

  // ----- completion

  ghost predicate WithinTotal(d: Desk) {
    forall p: Proto :: HandlerCount(d, p) <= TOT_SEND
  }

  ghost predicate Finishing(d: Desk, p: Proto)
    requires Counts(d)
  {
    d.count[p] == TOT_SEND
  }

  /** What a handler in its test has seen is still so: with no more than the total, a counter that stands there
      stays there. */
  ghost predicate SeenFits(d: Desk, i: nat)
    requires Counts(d) && i < |d.handlers|
  {
    d.handlers[i].pc.Test? ==>
      d.handlers[i].pc.k < 4 && forall j :: 0 <= j < d.handlers[i].pc.k ==> Finishing(d, Counter(j))
  }

  ghost predicate Confirmed(d: Desk)
    requires Counts(d)
  {
    && (forall i :: 0 <= i < |d.handlers| ==> SeenFits(d, i))
    && (d.reports > 0 ==> forall p: Proto :: Finishing(d, p))
  }

  /** With all counters at the total, someone has reported or is in its test. */
  ghost predicate Pending(d: Desk)
    requires Counts(d)
  {
    (forall p: Proto :: Finishing(d, p)) ==>
      d.reports > 0 || exists i :: 0 <= i < |d.handlers| && d.handlers[i].pc.Test?
  }

  lemma TotalStays(d: Desk, h: nat, p: Proto)
    requires Counts(d) && Workable(d, h) && CounterFits(d, p) && HandlerCount(d, p) <= TOT_SEND && Finishing(d, p)
    ensures Finishing(Handle(d, h), p)
  {
    StoredOfProto(d, p);
  }

  lemma HandleConfirmed(d: Desk, h: nat)
    requires Counts(d) && Workable(d, h) && Fits(d) && WithinTotal(d) && Confirmed(d)
    ensures Confirmed(Handle(d, h))
  {
    var d' := Handle(d, h);
    forall p: Proto | Finishing(d, p)
      ensures Finishing(d', p)
    {
      assert CounterFits(d, p);
      TotalStays(d, h, p);
    }
    assert SeenFits(d, h);
    forall i | 0 <= i < |d.handlers|
      ensures SeenFits(d', i)
    {
      assert SeenFits(d, i);
    }
    LastRead(d, h);
  }

  /** A report is made by a handler that has seen all four counters at the total. */
  lemma LastRead(d: Desk, h: nat)
    requires Counts(d) && Workable(d, h) && SeenFits(d, h)
    ensures Handle(d, h).reports > d.reports ==> forall p: Proto :: Finishing(d, p) && Finishing(Handle(d, h), p)
  {
    if Handle(d, h).reports > d.reports {
      assert Finishing(d, Counter(0)) && Finishing(d, Counter(1));
      assert Finishing(d, Counter(2)) && Finishing(d, Counter(3));
      assert Handle(d, h).count == d.count;
      forall p: Proto
        ensures Finishing(d, p)
      {
        match p { case Ftp => case Telnet => case Rdp => case Dns => }
      }
    }
  }

  lemma HandlePending(d: Desk, h: nat)
    requires Counts(d) && Workable(d, h) && Pending(d) && SeenFits(d, h)
    ensures Pending(Handle(d, h))
  {
    var d' := Handle(d, h);
    if forall p: Proto :: Finishing(d', p) {
      if d.handlers[h].pc.Loaded? {
        assert d'.handlers[h].pc.Test?;
      } else {
        assert d'.count == d.count && forall p: Proto :: Finishing(d', p) ==> Finishing(d, p);
        PendingStays(d, h);
      }
    }
  }

  lemma PendingStays(d: Desk, h: nat)
    requires Counts(d) && Workable(d, h) && Pending(d) && SeenFits(d, h) && forall p: Proto :: Finishing(d, p)
    ensures var d' := Handle(d, h);
            d'.reports > 0 || exists i :: 0 <= i < |d'.handlers| && d'.handlers[i].pc.Test?
  {
    var d' := Handle(d, h);
    if d.reports == 0 && d'.reports == 0 {
      var i :| 0 <= i < |d.handlers| && d.handlers[i].pc.Test?;
      assert Finishing(d, Counter(if d.handlers[h].pc.Test? then d.handlers[h].pc.k else 0));
      assert d'.handlers[i].pc.Test?;
    }
  }

  lemma StartConfirmed(d: Desk, x: Handler)
    requires Counts(d) && Confirmed(d) && Pending(d) && x.pc == Fresh
    ensures Confirmed(Started(d, x)) && Pending(Started(d, x))
  {
    var d' := Started(d, x);
    assert forall p: Proto :: Finishing(d', p) <==> Finishing(d, p);
    forall i | 0 <= i < |d'.handlers|
      ensures SeenFits(d', i)
    {
      if i < |d.handlers| {
        assert SeenFits(d, i);
      }
    }
    if (forall p: Proto :: Finishing(d', p)) && d'.reports == 0 {
      var i :| 0 <= i < |d.handlers| && d.handlers[i].pc.Test?;
      assert d'.handlers[i].pc.Test?;
    }
  }

  lemma StepConfirmed(tot: nat, s: State, a: Action)
    requires WellFormed(s) && Possible(tot, s, a) && Fits(s.desk) && WithinTotal(s.desk)
    requires Confirmed(s.desk) && Pending(s.desk)
    ensures Confirmed(After(tot, s, a).desk) && Pending(After(tot, s, a).desk)
  {
    DeskAfter(tot, s, a);
    if a.Work? {
      HandleConfirmed(s.desk, a.h);
      assert SeenFits(s.desk, a.h);
      HandlePending(s.desk, a.h);
    } else if a.Receive? && a.avail && DeliverEth(Clip(a.datagram)).Handed? {
      var got := DeliverEth(Clip(a.datagram));
      StartConfirmed(s.desk, Handler(got.p, got.data, Fresh));
    }
  }

  lemma HandlersGrow(tot: nat, s: State, a: Action, p: Proto)
    requires WellFormed(s) && Possible(tot, s, a)
    ensures HandlerCount(s.desk, p) <= HandlerCount(After(tot, s, a).desk, p)
  {
    DeskAfter(tot, s, a);
    if a.Work? {
      HandleStored(s.desk, a.h, p);
    } else if a.Receive? && a.avail && DeliverEth(Clip(a.datagram)).Handed? {
      var got := DeliverEth(Clip(a.datagram));
      StartStored(s.desk, Handler(got.p, got.data, Fresh), p);
    }
  }

  lemma {:induction false} RunConfirmed(tot: nat, run: seq<Action>)
    requires Feasible(tot, run) && WithinTotal(Run(tot, run).desk)
    ensures Confirmed(Run(tot, run).desk) && Pending(Run(tot, run).desk)
    decreases |run|
  {
    if run == [] {
      ZeroTotal();
      assert !Finishing(Run(tot, run).desk, Ftp);
    } else {
      var n := |run| - 1;
      var s := Run(tot, run[..n]);
      forall p: Proto
        ensures HandlerCount(s.desk, p) <= TOT_SEND
      {
        HandlersGrow(tot, s, run[n], p);
      }
      RunConfirmed(tot, run[..n]);
      RunFits(tot, run[..n]);
      StepConfirmed(tot, s, run[n]);
    }
  }

  ghost predicate Completed(d: Desk) {
    && (forall p: Proto :: HandlerCount(d, p) == TOT_SEND)
    && (forall i :: 0 <= i < |d.handlers| ==> d.handlers[i].pc == Finished)
  }

  lemma FinishedStored(d: Desk, p: Proto)
    requires forall i :: 0 <= i < |d.handlers| ==> d.handlers[i].pc == Finished
    ensures StoredCount(d, p) == HandlerCount(d, p)
  {
    HowManyWithin(d.handlers, Stored(p), OfProto(p));
    HowManyWithin(d.handlers, OfProto(p), Stored(p));
  }

  lemma ReportedIffTotal(d: Desk)
    requires Counts(d) && Confirmed(d) && Pending(d)
    requires forall i :: 0 <= i < |d.handlers| ==> d.handlers[i].pc == Finished
    ensures d.reports > 0 <==> forall p: Proto :: Finishing(d, p)
  {
  }

  predicate NothingLost(tot: nat, run: seq<Action>)
    requires Feasible(tot, run)
  {
    LossFree(tot, run, Ftp) && LossFree(tot, run, Telnet) && LossFree(tot, run, Rdp) && LossFree(tot, run, Dns)
  }

  lemma NothingLostAnywhere(tot: nat, run: seq<Action>, p: Proto)
    requires Feasible(tot, run) && NothingLost(tot, run)
    ensures LossFree(tot, run, p)
  {
    match p { case Ftp => case Telnet => case Rdp => case Dns => }
  }

  /** When exactly the total of each protocol was handled, and every handler is done, the completion has been
      reported exactly if no increment was lost. */
  lemma CompletionIff(tot: nat, run: seq<Action>)
    requires Feasible(tot, run) && Completed(Run(tot, run).desk)
    ensures Run(tot, run).desk.reports > 0 <==> NothingLost(tot, run)
  {
    var d := Run(tot, run).desk;
    RunConfirmed(tot, run);
    ReportedIffTotal(d);
    forall p: Proto
      ensures Finishing(d, p) <==> LossFree(tot, run, p)
    {
      FinishedStored(d, p);
      CountExactIff(tot, run, p);
    }
    if NothingLost(tot, run) {
      forall p: Proto
        ensures Finishing(d, p)
      {
        NothingLostAnywhere(tot, run, p);
      }
    }
  }

  // ----- increments are lost

  /** A run on which a message is sent and received by a new handler thread. */
  lemma DeliverOne(tot: nat, run: seq<Action>, p: Proto) returns (run': seq<Action>)
    requires Feasible(tot, run) && !Run(tot, run).crashed && Run(tot, run).sem > 0 && Run(tot, run).cur < tot
    ensures Feasible(tot, run')
    ensures var s, s' := Run(tot, run), Run(tot, run');
            && !s'.crashed && s'.sem == s.sem && s'.cur == s.cur + 1
            && s'.desk == Started(s.desk, Handler(p, Received(p, [1]), Fresh))
  {
    KnownId(p);
    RunSnoc(tot, run, Submit(ProtoId(p), [1], true));
    var r1 := run + [Submit(ProtoId(p), [1], true)];
    var r2 := Pass(tot, r1, |Run(tot, run).senders|, true);
    FrameHandedOver(p, [1]);
    RunSnoc(tot, r2, Receive(PpmFrame(p, [1]), true));
    run' := r2 + [Receive(PpmFrame(p, [1]), true)];
  }

  /** The desk after `n` deliveries of `p`. */
  ghost predicate Staffed(d: Desk, d': Desk, p: Proto, n: nat) {
    && d'.count == d.count && d'.reports == d.reports && d.handlers <= d'.handlers
    && |d'.handlers| == |d.handlers| + n
    && (forall i :: |d.handlers| <= i < |d'.handlers| ==> d'.handlers[i].p == p && d'.handlers[i].pc == Fresh)
  }

  lemma DeliverMany(tot: nat, run: seq<Action>, p: Proto, n: nat) returns (run': seq<Action>)
    requires Feasible(tot, run) && !Run(tot, run).crashed && Run(tot, run).sem > 0 && Run(tot, run).cur + n <= tot
    ensures Feasible(tot, run') && !Run(tot, run').crashed && Run(tot, run').sem > 0
    ensures Run(tot, run').cur == Run(tot, run).cur + n
    ensures Staffed(Run(tot, run).desk, Run(tot, run').desk, p, n)
    ensures forall q: Proto :: HandlerCount(Run(tot, run').desk, q) ==
              HandlerCount(Run(tot, run).desk, q) + if q == p then n else 0
  {
    run' := run;
    if n > 0 {
      var before := DeliverMany(tot, run, p, n - 1);
      run' := DeliverOne(tot, before, p);
      forall q: Proto
        ensures HandlerCount(Run(tot, run').desk, q) ==
                HandlerCount(Run(tot, before).desk, q) + if q == p then 1 else 0
      {
        StartStored(Run(tot, before).desk, Handler(p, Received(p, [1]), Fresh), q);
      }
    }
  }

  /** How many steps a handler has left, at most. */
  function Left(): Handler -> nat {
    (x: Handler) =>
      match x.pc
      case Fresh => 7
      case Loaded(_) => 6
      case Test(k) => if k < 4 then 5 - k else 1
      case Finished => 0
  }

  lemma WorkLeft(d: Desk, h: nat)
    requires Counts(d) && Workable(d, h)
    ensures Sum(Handle(d, h).handlers, Left()) < Sum(d.handlers, Left())
  {
    var x := Handle(d, h).handlers[h];
    assert Handle(d, h).handlers == d.handlers[h := x];
    SumUpdate(d.handlers, h, x, Left());
  }

  lemma HandleDelivers(d: Desk, h: nat)
    requires Counts(d) && Workable(d, h)
    ensures Delivered(Handle(d, h).handlers) == Delivered(d.handlers)
  {
  }

  /** Every handler runs to its end, and nothing else happens. What was lost stays lost. */
  lemma FinishAll(tot: nat, run: seq<Action>) returns (run': seq<Action>)
    requires Feasible(tot, run) && !Run(tot, run).crashed
    ensures Feasible(tot, run')
    ensures var s, d' := Run(tot, run), Run(tot, run').desk;
            && Run(tot, run') == s.(desk := d')
            && Delivered(d'.handlers) == Delivered(s.desk.handlers)
            && (forall i :: 0 <= i < |d'.handlers| ==> d'.handlers[i].pc == Finished)
            && (forall p: Proto :: HandlerCount(d', p) == HandlerCount(s.desk, p))
    ensures forall p: Proto :: LossFree(tot, run', p) ==> LossFree(tot, run, p)
    decreases Sum(Run(tot, run).desk.handlers, Left())
  {
    var d := Run(tot, run).desk;
    if h: nat :| Workable(d, h) {
      WorkLeft(d, h);
      HandleDelivers(d, h);
      RunSnoc(tot, run, Work(h));
      var longer := run + [Work(h)];
      assert longer[..|longer| - 1] == run;
      forall p: Proto
        ensures HandlerCount(Run(tot, longer).desk, p) == HandlerCount(d, p)
      {
        HandleStored(d, h, p);
      }
      run' := FinishAll(tot, longer);
    } else {
      run' := run;
      forall i | 0 <= i < |d.handlers|
        ensures d.handlers[i].pc == Finished
      {
        assert !Workable(d, i);
      }
    }
  }

  /** Two handlers of one protocol that load one after the other and then store, raise the counter by one. */
  lemma LoseOne(tot: nat, run: seq<Action>, p: Proto, h: nat, i: nat) returns (run': seq<Action>)
    requires Feasible(tot, run) && !Run(tot, run).crashed
    requires var d := Run(tot, run).desk;
             && h < i < |d.handlers| && d.handlers[h].p == d.handlers[i].p == p
             && d.handlers[h].pc == d.handlers[i].pc == Fresh
    ensures Feasible(tot, run') && !Run(tot, run').crashed && !LossFree(tot, run', p)
    ensures forall q: Proto :: HandlerCount(Run(tot, run').desk, q) == HandlerCount(Run(tot, run).desk, q)
  {
    RunSnoc(tot, run, Work(h));
    var r1 := run + [Work(h)];
    RunSnoc(tot, r1, Work(i));
    var r2 := r1 + [Work(i)];
    RunSnoc(tot, r2, Work(h));
    var r3 := r2 + [Work(h)];
    RunSnoc(tot, r3, Work(i));
    run' := r3 + [Work(i)];
    assert run'[..|run'| - 1] == r3;
    assert Stale(Run(tot, r3).desk, i, p);
    forall q: Proto
      ensures HandlerCount(Run(tot, run').desk, q) == HandlerCount(Run(tot, run).desk, q)
    {
      HandleStored(Run(tot, run).desk, h, q);
      HandleStored(Run(tot, r1).desk, i, q);
      HandleStored(Run(tot, r2).desk, h, q);
      HandleStored(Run(tot, r3).desk, i, q);
    }
  }

  /** The total of every protocol delivered, no handler begun. */
  lemma DeliverTotals(tot: nat) returns (run: seq<Action>)
    requires tot >= 4 * TOT_SEND
    ensures Feasible(tot, run) && !Run(tot, run).crashed
    ensures var d := Run(tot, run).desk;
            && (forall p: Proto :: HandlerCount(d, p) == TOT_SEND)
            && |d.handlers| >= TOT_SEND
            && (forall i :: 0 <= i < TOT_SEND ==> d.handlers[i].p == Ftp)
            && (forall i :: 0 <= i < |d.handlers| ==> d.handlers[i].pc == Fresh)
  {
    var r1 := DeliverMany(tot, [], Ftp, TOT_SEND);
    var r2 := DeliverMany(tot, r1, Telnet, TOT_SEND);
    var r3 := DeliverMany(tot, r2, Rdp, TOT_SEND);
    run := DeliverMany(tot, r3, Dns, TOT_SEND);
    forall p: Proto
      ensures HandlerCount(Run(tot, run).desk, p) == TOT_SEND
    {
      match p { case Ftp => case Telnet => case Rdp => case Dns => }
    }
  }

  /** The total of every protocol can be delivered and handled to the end without any report, for good. */
  lemma CompletionMissed(tot: nat) returns (run: seq<Action>)
    requires tot >= 4 * TOT_SEND
    ensures Feasible(tot, run) && Completed(Run(tot, run).desk) && Run(tot, run).desk.reports == 0
  {
    var r1 := DeliverTotals(tot);
    var r2 := LoseOne(tot, r1, Ftp, 0, 1);
    run := FinishAll(tot, r2);
    assert !LossFree(tot, run, Ftp);
    CompletionIff(tot, run);
  }
}
