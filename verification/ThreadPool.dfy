/** The thread pool of threadpool.h: one flag and one thread handle per slot. */
module ThreadPool {
  /** The lowest slot whose flag is true, or the number of slots if there is none. */
  function FirstFree(flags: seq<bool>): (i: nat)
    ensures i <= |flags|
    ensures i < |flags| ==> flags[i]
    ensures forall j :: 0 <= j < i ==> !flags[j]
  {
    if flags == [] then 0 else if flags[0] then 0 else 1 + FirstFree(flags[1..])
  }

  /** The scan of the loops below has passed `i` slots that are not free. */
  lemma {:induction false} ScanPassed(flags: seq<bool>, i: nat)
    requires i <= |flags| && (forall j :: 0 <= j < i ==> !flags[j]) && (i < |flags| ==> flags[i])
    ensures FirstFree(flags) == i
  {
    if i > 0 {
      ScanPassed(flags[1..], i - 1);
    }
  }

  /** A pool whose tasks are of type `W`. The operating system's threads appear as the list of tasks started,
      a handle being the position in it, and the list of joiner threads, each waiting for the thread of a slot. */
  class Pool<W> {
    const threadCount: nat
    var pool: array<nat>
    var statusFlags: array<bool>
    var started: seq<W>
    var joiners: seq<nat>

    ghost predicate Valid()
      reads this
    {
      pool.Length == threadCount == statusFlags.Length
    }

    constructor (tc: nat)
      ensures Valid() && threadCount == tc && fresh(pool) && fresh(statusFlags)
      ensures forall i :: 0 <= i < tc ==> statusFlags[i]
      ensures started == [] && joiners == []
    {
      threadCount := tc;
      pool := new nat[tc];
      statusFlags := new bool[tc];
      started := [];
      joiners := [];
      new;
      var i := 0;
      while i < tc
        modifies statusFlags
        invariant 0 <= i <= tc
        invariant forall j :: 0 <= j < i ==> statusFlags[j]
      {
        statusFlags[i] := true;
        i := i + 1;
      }
    }

    method ThreadAvail() returns (avail: bool)
      requires Valid()
      ensures avail <==> exists i :: 0 <= i < threadCount && statusFlags[i]
    {
      var i := 0;
      while i < threadCount
        invariant 0 <= i <= threadCount
        invariant forall j :: 0 <= j < i ==> !statusFlags[j]
      {
        if statusFlags[i] {
          return true;
        }
        i := i + 1;
      }
      return false;
    }

    /** Starts `work` on the lowest free slot, and a joiner for it; without a free slot it is dropped
        silently: the result is 0 either way. `created` says whether the system could create the thread;
        if not, the slot is given back, but a joiner is started for its stale handle all the same. */
    method DispatchThread(work: W, created: bool) returns (r: int)
      requires Valid()
      modifies this`started, this`joiners, pool, statusFlags
      ensures Valid() && pool == old(pool) && statusFlags == old(statusFlags) && r == 0
      ensures var i := FirstFree(old(statusFlags[..]));
              if i == threadCount then
                && started == old(started) && joiners == old(joiners)
                && pool[..] == old(pool[..]) && statusFlags[..] == old(statusFlags[..])
              else if created then
                && started == old(started) + [work] && joiners == old(joiners) + [i]
                && pool[..] == old(pool[..])[i := |old(started)|]
                && statusFlags[..] == old(statusFlags[..])[i := false]
              else
                && started == old(started) && joiners == old(joiners) + [i]
                && pool[..] == old(pool[..]) && statusFlags[..] == old(statusFlags[..])
    {
      var i := 0;
      while i < threadCount
        invariant 0 <= i <= threadCount
        invariant forall j :: 0 <= j < i ==> !statusFlags[j]
        invariant started == old(started) && joiners == old(joiners)
        invariant pool[..] == old(pool[..]) && statusFlags[..] == old(statusFlags[..])
      {
        if statusFlags[i] {
          ScanPassed(statusFlags[..], i);
          statusFlags[i] := false;
          if created {
            pool[i] := |started|;
            started := started + [work];
          } else {
            statusFlags[i] := true;
          }
          joiners := joiners + [i];
          break;
        }
        i := i + 1;
      }
      if i == threadCount {
        ScanPassed(old(statusFlags[..]), i);
      }
      return 0;
    }

    /** The end of a joiner thread: the flag of its slot is raised, and nothing else changes. */
    method SlaveFunction(slot: nat)
      requires Valid() && slot < threadCount
      modifies statusFlags
      ensures Valid() && statusFlags[..] == old(statusFlags[..])[slot := true]
    {
      statusFlags[slot] := true;
    }

    /** What `ThreadAvail` promises a caller who then dispatches: the work is started. */
    method AskAndDispatch(work: W) returns (ok: bool)
      requires Valid()
      modifies this`started, this`joiners, pool, statusFlags
      ensures Valid() && pool == old(pool) && statusFlags == old(statusFlags)
      ensures ok <==> exists i :: 0 <= i < threadCount && old(statusFlags[..])[i]
      ensures var i := FirstFree(old(statusFlags[..]));
              if ok then
                && i < threadCount && started == old(started) + [work] && joiners == old(joiners) + [i]
                && pool[..] == old(pool[..])[i := |old(started)|]
                && statusFlags[..] == old(statusFlags[..])[i := false]
              else
                && started == old(started) && joiners == old(joiners)
                && pool[..] == old(pool[..]) && statusFlags[..] == old(statusFlags[..])
    {
      ok := ThreadAvail();
      if ok {
        var _ := DispatchThread(work, true);
      }
    }
  }
}
