/** The event scheduler of eventscheduler.h: cancellable delayed dispatch on top of the thread pool. */
module EventScheduler {
  import ThreadPool

  /** The list without the first occurrence of `id`. */
  function RemoveFirst(q: seq<int>, id: int): (r: seq<int>)
    ensures id !in q ==> r == q
    ensures id in q ==> |r| + 1 == |q|
  {
    if q == [] then [] else if q[0] == id then q[1..] else [q[0]] + RemoveFirst(q[1..], id)
  }

  function Count(q: seq<int>, id: int): (n: nat)
    ensures n > 0 <==> id in q
  {
    if q == [] then 0 else (if q[0] == id then 1 else 0) + Count(q[1..], id)
  }

  /** One entry for `id` goes, and no entry for any other id. */
  lemma {:induction false} RemoveFirstCounts(q: seq<int>, id: int, v: int)
    ensures Count(q, v) == Count(RemoveFirst(q, id), v) + if v == id && id in q then 1 else 0
  {
    if q != [] && q[0] != id {
      RemoveFirstCounts(q[1..], id, v);
      var rest := RemoveFirst(q[1..], id);
      assert ([q[0]] + rest)[1..] == rest;
    }
  }

  lemma {:induction false} CountConcat(a: seq<int>, b: seq<int>, v: int)
    ensures Count(a + b, v) == Count(a, v) + Count(b, v)
  {
    if a == [] {
      assert a + b == b;
    } else {
      assert (a + b)[1..] == a[1..] + b;
      CountConcat(a[1..], b, v);
    }
  }

  /** Where the scan of the wrapper finds `id`, erasing that position is removing the first occurrence. */
  lemma {:induction false} EraseIsRemoveFirst(q: seq<int>, id: int, i: nat)
    requires i < |q| && q[i] == id && forall j :: 0 <= j < i ==> q[j] != id
    ensures RemoveFirst(q, id) == q[..i] + q[i + 1..]
  {
    if i > 0 {
      EraseIsRemoveFirst(q[1..], id, i - 1);
      assert q[1..][..i - 1] == q[1..i] && q[1..][i..] == q[i + 1..];
      assert [q[0]] + (q[1..i] + q[i + 1..]) == q[..i] + q[i + 1..];
    }
  }

  /** What is handed to the thread of an event. `F` stands for the function and its argument. */
  datatype Event<F> = Event(start: F, timeout: int, id: int)

  class Scheduler<F> {
    const max: nat
    const threadpool: ThreadPool.Pool<Event<F>>
    var eventcounter: nat
    var queue: seq<int>

    ghost predicate Valid()
      reads this, threadpool
    {
      threadpool.Valid() && threadpool.threadCount == max + 1
    }

    constructor (maxEvents: nat)
      ensures Valid() && fresh(threadpool) && max == maxEvents
      ensures eventcounter == 0 && queue == [] && threadpool.started == [] && threadpool.joiners == []
      ensures forall i :: 0 <= i <= maxEvents ==> threadpool.statusFlags[i]
    {
      max := maxEvents;
      threadpool := new ThreadPool.Pool<Event<F>>(maxEvents + 1);
      eventcounter := 0;
      queue := [];
    }

    ghost predicate SlotFree()
      requires Valid()
      reads this, threadpool, threadpool.statusFlags
    {
      exists i :: 0 <= i < threadpool.threadCount && threadpool.statusFlags[i]
    }

    /** With a free slot the event gets the next id and its thread is started; otherwise nothing happens and the
        result is -1. */
    method EventSchedule(start: F, timeout: int) returns (id: int)
      requires Valid()
      modifies this`eventcounter, threadpool`started, threadpool`joiners, threadpool.pool, threadpool.statusFlags
      ensures Valid()
      ensures threadpool.pool == old(threadpool.pool) && threadpool.statusFlags == old(threadpool.statusFlags)
      ensures if old(SlotFree()) then
                && id == eventcounter == old(eventcounter) + 1
                && threadpool.started == old(threadpool.started) + [Event(start, timeout, id)]
                && var i := ThreadPool.FirstFree(old(threadpool.statusFlags[..]));
                   && i < threadpool.threadCount
                   && threadpool.statusFlags[..] == old(threadpool.statusFlags[..])[i := false]
                   && threadpool.pool[..] == old(threadpool.pool[..])[i := |old(threadpool.started)|]
                   && threadpool.joiners == old(threadpool.joiners) + [i]
              else
                && id == -1 && eventcounter == old(eventcounter)
                && threadpool.started == old(threadpool.started) && threadpool.joiners == old(threadpool.joiners)
                && threadpool.statusFlags[..] == old(threadpool.statusFlags[..])
                && threadpool.pool[..] == old(threadpool.pool[..])
    {
      var avail := threadpool.ThreadAvail();
      if avail {
        eventcounter := eventcounter + 1;
        var _ := threadpool.DispatchThread(Event(start, timeout, eventcounter), true);
        return eventcounter;
      }
      return -1;
    }

    /** An id that is not positive is ignored; any other is queued, whether or not it was ever given out. */
    method EventCancel(eventId: int)
      modifies this`queue
      ensures queue == if eventId <= 0 then old(queue) else old(queue) + [eventId]
    {
      if eventId > 0 {
        queue := queue + [eventId];
      }
    }

    /** The thread of an event after its timeout: it fires unless it finds its id in the queue, and then it takes
        one entry for it out. */
    method EventWrapper(id: int) returns (fires: bool)
      modifies this`queue
      ensures fires <==> id !in old(queue)
      ensures queue == RemoveFirst(old(queue), id)
    {
      var cancel := false;
      var len := |queue|;
      var i := 0;
      while i < len
        invariant 0 <= i <= len == |queue| && !cancel
        invariant queue == old(queue) && forall j :: 0 <= j < i ==> queue[j] != id
      {
        if queue[i] == id {
          cancel := true;
          EraseIsRemoveFirst(queue, id, i);
          queue := queue[..i] + queue[i + 1..];
          break;
        }
        i := i + 1;
      }
      fires := !cancel;
    }
  }
}
