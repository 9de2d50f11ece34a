/** The queue between the io thread and the engine thread; each operation is atomic under its lock. */
module ConcurrentQueues {
  import opened Protocol

  class ConcurrentQueue<T> {
    var q: seq<T>

    constructor ()
      ensures q == []
    {
      q := [];
    }

    method Push(value: T)
      modifies this
      ensures q == old(q) + [value]
    {
      q := q + [value];
    }

    /**
     * The wait is over when there is something to pop or a stop was requested. What is queued is
     * handed out before a stop is obeyed.
     */
    method WaitPop(stopRequested: bool) returns (out: Option<T>)
      requires stopRequested || q != []
      modifies this
      ensures old(q) == [] ==> out == None && q == []
      ensures old(q) != [] ==> out == Some(old(q)[0]) && q == old(q)[1..]
    {
      if q == [] {
        return None;
      }
      out := Some(q[0]);
      q := q[1..];
    }
  }
}
