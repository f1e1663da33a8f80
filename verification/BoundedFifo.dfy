/** The bounded first-in first-out container, as the reference both containers are compared with. */
module BoundedFifo {
  import opened Wrappers
  import opened PointerListSpec

  function Step<P>(q: seq<P>, capacity: nat, call: Call<P>): Reply<seq<P>, Option<P>>
    requires !call.CallRemove?
  {
    match call
    case CallStore(p) => if |q| == capacity then Reply(q, Thrown(StoreFull)) else Reply(q + [p], Returned(None))
    case CallPeek => if q == [] then Reply(q, Thrown(ConsumeEmpty)) else Reply(q, Returned(Some(q[0])))
    case CallConsume => if q == [] then Reply(q, Thrown(ConsumeEmpty)) else Reply(q[1..], Returned(Some(q[0])))
  }

  /** The content and the answers after a sequence of calls; removals by hand are skipped. */
  function FifoRun<P>(q: seq<P>, capacity: nat, calls: seq<Call<P>>): (seq<P>, seq<Outcome<Option<P>>>)
    decreases |calls|
  {
    if calls == [] || calls[0].CallRemove? then (q, [])
    else
      var r := Step(q, capacity, calls[0]);
      var (end, outcomes) := FifoRun(r.state, capacity, calls[1..]);
      (end, [r.outcome] + outcomes)
  }
}
