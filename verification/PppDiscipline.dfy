/** What the invariants of the network mean, state by state, for semaphores, messages and processes. */
module PppDiscipline {
  import opened PppNetwork
  import opened PppInvariant
  import opened PppConservation

  /** A semaphore is 0 or 1, and 0 exactly while one of the two processes that use its pipe holds it; the two
      never hold it together. */
  lemma SemaphoreDiscipline(capacity: nat, plan: Plan, s: State, x: Pipe)
    requires ProperPlan(plan) && Reachable(capacity, plan, s)
    ensures Total(s) && s.sem[x] <= 1
    ensures s.sem[x] == 0 <==> Holds(s.pc[Reader(x)], x) || Holds(s.pc[Writer(x)], x)
    ensures !(Holds(s.pc[Reader(x)], x) && Holds(s.pc[Writer(x)], x))
  {
    ReachableSafe(capacity, plan, s);
    assert s.sem[x] + Held(s, Reader(x), x) + Held(s, Writer(x), x) == 1;
  }

  /** A holder of the semaphore of a pipe is the reader or the writer of the pipe. */
  lemma HoldersAreUsers(capacity: nat, plan: Plan, s: State, q: Proc, x: Pipe)
    requires ProperPlan(plan) && Reachable(capacity, plan, s)
    ensures Total(s) && (Holds(s.pc[q], x) ==> q == Reader(x) || q == Writer(x))
  {
    ReachableSafe(capacity, plan, s);
    if Holds(s.pc[q], x) {
      HolderIsUser(s, q, x);
    }
  }

  lemma HolderIsUser(s: State, q: Proc, x: Pipe)
    requires WellFormed(s) && Control(s) && Routed(s) && Holds(s.pc[q], x)
    ensures q == Reader(x) || q == Writer(x)
  {
    match s.pc[q] {
      case Got(_) => HandsAreReader(q, x, s.at[InHand(q)][0].origin);
      case Writing(_) => HandsAreWriter(q, x, s.at[InHand(q)][0].origin);
      case _ =>
    }
  }

  /** Past `select`, the reader of a pipe finds a message in it. */
  ghost predicate FindsMessage(s: State, q: Proc)
    requires Total(s)
  {
    s.pc[q].WaitIn? || s.pc[q].Reading? ==> Reader(s.pc[q].src) == q && s.at[InPipe(s.pc[q].src)] != []
  }

  lemma ReaderFindsMessage(s: State, q: Proc)
    requires WellFormed(s) && Control(s) && Ready(s)
    ensures FindsMessage(s, q)
  {
  }

  lemma FindingEnabled(capacity: nat, s: State, q: Proc)
    requires WellFormed(s) && FindsMessage(s, q) && s.pc[q].Reading?
    ensures Enabled(capacity, s, q)
  {
  }

  /** So a read never blocks while it holds the semaphore. */
  lemma ReadsNeverBlock(capacity: nat, plan: Plan, s: State, q: Proc)
    requires ProperPlan(plan) && Reachable(capacity, plan, s)
    ensures WellFormed(s) && FindsMessage(s, q) && (s.pc[q].Reading? ==> Enabled(capacity, s, q))
  {
    ReachableSafe(capacity, plan, s);
    ReaderFindsMessage(s, q);
    if s.pc[q].Reading? {
      FindingEnabled(capacity, s, q);
    }
  }

  /** Every message is on the path of the protocol it was created for, contains exactly the headers of the layers
      it has passed and not left again, and shares its buffer with no other message anywhere. */
  lemma MessagesLayered(capacity: nat, plan: Plan, s: State, x: Place, i: nat)
    requires ProperPlan(plan) && Reachable(capacity, plan, s) && Total(s) && i < |s.at[x]|
    ensures var m := s.at[x][i];
            && m.ptr in s.heap && m.payload != []
            && x == PlaceAt(Stage(x), m.origin)
            && s.heap[m.ptr] == Body(LevelOf(s, x), m.origin, m.payload)
    ensures forall y: Place, j: nat :: j < |s.at[y]| && s.at[y][j].ptr == s.at[x][i].ptr ==> x == y && i == j
  {
    ReachableSafe(capacity, plan, s);
    assert OnPath(x, s.at[x][i].origin) && Contains(s, Body, x, i);
    forall y: Place, j: nat | j < |s.at[y]| && s.at[y][j].ptr == s.at[x][i].ptr
      ensures x == y && i == j
    {
      assert Apart(s.at, x, i, y, j);
    }
  }

  lemma StripForwards(capacity: nat, s: State, q: Proc)
    requires Inv(capacity, s) && s.pc[q].Work?
    ensures var r := Process(q, s.pc[q].from, Content(s, InHand(q))); r.Forward? || r.Keep?
  {
    var m := s.at[InHand(q)][0];
    assert OnPath(InHand(q), m.origin) && Contains(s, Body, InHand(q), 0) && Fits(q, s.pc[q], m.origin);
    ProcessAdvances(q, m.origin, m.payload);
  }

  lemma NeverCrashed(s: State, q: Proc)
    requires WellFormed(s) && Control(s)
    ensures s.pc[q] != Crashed
  {
    assert Holding(Crashed);
  }

  /** A process with a header to add or strip succeeds, and passes the message on or hands it over. */
  ghost predicate Succeeds(s: State, q: Proc)
    requires WellFormed(s)
  {
    && s.pc[q] != Crashed
    && (s.pc[q].Work? ==>
          var r := Process(q, s.pc[q].from, Content(s, InHand(q))); r.Forward? || r.Keep?)
  }

  lemma InvSucceeds(capacity: nat, s: State, q: Proc)
    requires Inv(capacity, s)
    ensures Succeeds(s, q)
  {
    NeverCrashed(s, q);
    if s.pc[q].Work? {
      StripForwards(capacity, s, q);
    }
  }

  /** No process ever reads through a null header or drops a message: every strip in the network succeeds. */
  lemma EveryStripSucceeds(capacity: nat, plan: Plan, s: State, q: Proc)
    requires ProperPlan(plan) && Reachable(capacity, plan, s)
    ensures WellFormed(s) && Succeeds(s, q)
  {
    ReachableSafe(capacity, plan, s);
    InvSucceeds(capacity, s, q);
  }

  // ----- over a run: a process posts what it took before it takes another

  /** What the steps of a schedule do, one by one. */
  function Events(capacity: nat, s: State, schedule: seq<Proc>): (l: seq<(Proc, Effect)>)
    requires WellFormed(s) && Feasible(capacity, s, schedule)
    ensures |l| == |schedule|
    decreases |schedule|
  {
    if schedule == [] then []
    else
      var n := |schedule| - 1;
      Events(capacity, s, schedule[..n])
      + [(schedule[n], Act(capacity, Run(capacity, s, schedule[..n]), schedule[n]).value.0)]
  }

  /** Of what `q` did with the semaphore of `x`, the last was to take it. */
  predicate Taken(events: seq<(Proc, Effect)>, q: Proc, x: Pipe) {
    if events == [] then false
    else
      var n := |events| - 1;
      if events[n] == (q, Take(x)) then true
      else if events[n] == (q, Post(x)) then false
      else Taken(events[..n], q, x)
  }

  /** Nobody takes a semaphore while one it took earlier is not posted. */
  ghost predicate OneAtATime(events: seq<(Proc, Effect)>) {
    events == [] ||
    (var n := |events| - 1;
     && OneAtATime(events[..n])
     && (events[n].1.Take? ==> forall x: Pipe :: !Taken(events[..n], events[n].0, x)))
  }

  lemma KeepsHold(before: PC, r: Proc, e: Effect, after: PC, x: Pipe)
    requires KeepsSemaphores(r, before, e, after)
    ensures Holds(after, x) <==> e == Take(x) || (e != Post(x) && Holds(before, x))
  {
  }

  lemma StepHolds(capacity: nat, s: State, r: Proc, q: Proc, x: Pipe)
    requires Inv(capacity, s) && PlanProper(s) && Enabled(capacity, s, r)
    ensures var e := Act(capacity, s, r).value.0;
            Holds(Step(capacity, s, r).pc[q], x)
            <==> (r, e) == (q, Take(x)) || ((r, e) != (q, Post(x)) && Holds(s.pc[q], x))
  {
    ActSound(capacity, s, r);
    var (e, pc) := Act(capacity, s, r).value;
    KeepsHold(s.pc[r], r, e, pc, x);
  }

  /** Only a process that holds nothing waits for a semaphore. */
  lemma TakerHoldsNothing(capacity: nat, s: State, q: Proc, x: Pipe)
    requires WellFormed(s) && Enabled(capacity, s, q) && Act(capacity, s, q).value.0.Take?
    ensures !Holds(s.pc[q], x)
  {
  }

  lemma TakenMore(events: seq<(Proc, Effect)>, last: (Proc, Effect), q: Proc, x: Pipe)
    ensures Taken(events + [last], q, x)
            <==> last == (q, Take(x)) || (last != (q, Post(x)) && Taken(events, q, x))
  {
    assert (events + [last])[..|events|] == events;
  }

  lemma OneAtATimeMore(events: seq<(Proc, Effect)>, last: (Proc, Effect))
    requires OneAtATime(events) && (last.1.Take? ==> forall x: Pipe :: !Taken(events, last.0, x))
    ensures OneAtATime(events + [last])
  {
    assert (events + [last])[..|events|] == events;
  }

  lemma InitSafe(capacity: nat, plan: Plan)
    requires ProperPlan(plan)
    ensures Safe(capacity, plan, Init(plan)) && forall q: Proc :: Init(plan).pc[q] == Start
  {
    AllListed();
    InitInv(capacity, plan);
    InitLedger(plan);
  }

  /** A process holds a semaphore exactly while its last operation on it was to take it. */
  lemma {:induction false} HoldsIffTaken(capacity: nat, plan: Plan, schedule: seq<Proc>, q: Proc, x: Pipe)
    requires ProperPlan(plan) && Feasible(capacity, Init(plan), schedule)
    ensures Holds(Run(capacity, Init(plan), schedule).pc[q], x) <==> Taken(Events(capacity, Init(plan), schedule), q, x)
    decreases |schedule|
  {
    InitSafe(capacity, plan);
    if schedule != [] {
      var n := |schedule| - 1;
      var s := Run(capacity, Init(plan), schedule[..n]);
      HoldsIffTaken(capacity, plan, schedule[..n], q, x);
      RunKeepsSafe(capacity, plan, Init(plan), schedule[..n]);
      LedgerPlan(plan, s);
      StepHolds(capacity, s, schedule[n], q, x);
      TakenMore(Events(capacity, Init(plan), schedule[..n]),
                (schedule[n], Act(capacity, s, schedule[n]).value.0), q, x);
    }
  }

  /** No process holds two semaphores: in every run it posts what it took before it takes another. */
  lemma {:induction false} HoldsOne(capacity: nat, plan: Plan, schedule: seq<Proc>)
    requires ProperPlan(plan) && Feasible(capacity, Init(plan), schedule)
    ensures OneAtATime(Events(capacity, Init(plan), schedule))
    decreases |schedule|
  {
    if schedule != [] {
      var n := |schedule| - 1;
      var s := Run(capacity, Init(plan), schedule[..n]);
      HoldsOne(capacity, plan, schedule[..n]);
      forall x: Pipe | Act(capacity, s, schedule[n]).value.0.Take?
        ensures !Taken(Events(capacity, Init(plan), schedule[..n]), schedule[n], x)
      {
        TakerHoldsNothing(capacity, s, schedule[n], x);
        HoldsIffTaken(capacity, plan, schedule[..n], schedule[n], x);
      }
      OneAtATimeMore(Events(capacity, Init(plan), schedule[..n]), (schedule[n], Act(capacity, s, schedule[n]).value.0));
    }
  }
}
