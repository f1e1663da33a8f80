/** The input bookkeeping of DataProcessingScheduler, as a function of its two lists, its counter of
    linked buffers and its termination flag, with what every sequence of calls keeps.
  */
module SchedulerSpec {
  import opened Wrappers
  import opened PointerArray
  import List = PointerListSpec

  datatype Scheduler<B> = Scheduler(ready: Slots<B>, notReady: Slots<B>, linked: nat, terminated: bool)

  ghost predicate Consistent<B>(s: Scheduler<B>) {
    PointerArray.Consistent(s.ready) && PointerArray.Consistent(s.notReady)
  }

  /** The number of concurrent inputs the scheduler was declared for. */
  function Capacity<B>(s: Scheduler<B>): nat {
    |s.notReady.pointers|
  }

  function New<B>(inputs: nat): Scheduler<B> {
    Scheduler(Fresh(inputs), Fresh(inputs), 0, false)
  }

  predicate IsLinked<B(==)>(s: Scheduler<B>, b: B) {
    List.Holds(s.notReady, b) || List.Holds(s.ready, b)
  }

  function LinkWith<B(==)>(s: Scheduler<B>, b: B): Reply<Scheduler<B>, ()>
    requires Consistent(s)
  {
    if IsLinked(s, b) then Reply(s, Thrown(AlreadyLinked))
    else if s.terminated then Reply(s, Thrown(SchedulerStopped))
    else if s.linked == Capacity(s) then Reply(s, Thrown(TooManyInputs))
    else
      var stored := List.Store(s.notReady, b);
      Reply(s.(linked := Increment(s.linked), notReady := stored.state), stored.outcome)
  }

  function ActivateFor<B(==)>(s: Scheduler<B>, b: B): Reply<Scheduler<B>, ()>
    requires Consistent(s)
  {
    if !IsLinked(s, b) then Reply(s, Thrown(IllegalActivation))
    else if List.Holds(s.notReady, b) then
      var removed := List.Remove(s.notReady, b);
      var stored := List.Store(s.ready, b);
      Reply(s.(notReady := removed.state, ready := stored.state), stored.outcome)
    else Reply(s, Returned(()))
  }

  function DeactivateFor<B(==)>(s: Scheduler<B>, b: B): Reply<Scheduler<B>, ()>
    requires Consistent(s)
  {
    if !IsLinked(s, b) then Reply(s, Thrown(IllegalDeactivation))
    else if List.Holds(s.ready, b) then
      var removed := List.Remove(s.ready, b);
      var stored := List.Store(s.notReady, b);
      Reply(s.(ready := removed.state, notReady := stored.state), stored.outcome)
    else Reply(s, Returned(()))
  }

  /** The termination order. */
  function Terminate<B>(s: Scheduler<B>): Scheduler<B> {
    s.(terminated := true)
  }

  /** The drain loop's choice of its next input. */
  function NextInput<B>(s: Scheduler<B>): Reply<Scheduler<B>, B>
    requires Consistent(s)
  {
    var peeked := List.Peek(s.ready);
    Reply(s.(ready := peeked.state), peeked.outcome)
  }

  predicate CannotExitSafely<B>(s: Scheduler<B>) {
    !(IsEmpty(s.ready) && s.terminated)
  }

  lemma EmptyMeansNoneReady<B>(s: Scheduler<B>)
    requires Consistent(s)
    ensures IsEmpty(s.ready) <==> Ready(s) == multiset{}
  {
    ContentsCount(s.ready.pointers);
  }

  // ---------------------------------------------------------------------------------------------
  // The partition of the linked buffers

  ghost function Ready<B>(s: Scheduler<B>): multiset<B> {
    Contents(s.ready.pointers)
  }

  ghost function NotReady<B>(s: Scheduler<B>): multiset<B> {
    Contents(s.notReady.pointers)
  }

  ghost function Linked<B>(s: Scheduler<B>): multiset<B> {
    Ready(s) + NotReady(s)
  }

  /** Every linked buffer is in exactly one list, once, and the counter counts the linked buffers. */
  ghost predicate Partition<B>(s: Scheduler<B>) {
    && Consistent(s)
    && |s.ready.pointers| == |s.notReady.pointers|
    && (forall b | b in Linked(s) :: Linked(s)[b] == 1)
    && s.linked == |Linked(s)| <= Capacity(s)
  }

  lemma PartitionCounts<B>(s: Scheduler<B>)
    requires Partition(s)
    ensures s.linked == s.ready.held + s.notReady.held
  {
    ContentsCount(s.ready.pointers);
    ContentsCount(s.notReady.pointers);
  }

  /** In a partition, a buffer of one list is not in the other, and both lists hold it once. */
  lemma PartitionIsExclusive<B>(s: Scheduler<B>, b: B)
    requires Partition(s)
    ensures b in Ready(s) ==> Ready(s)[b] == 1 && b !in NotReady(s)
    ensures b in NotReady(s) ==> NotReady(s)[b] == 1 && b !in Ready(s)
    ensures s.linked == s.ready.held + s.notReady.held
  {
    PartitionCounts(s);
    assert b in Linked(s) ==> Linked(s)[b] == 1;
  }

  lemma IsLinkedIsMembership<B>(s: Scheduler<B>, b: B)
    ensures IsLinked(s, b) <==> b in Linked(s)
    ensures List.Holds(s.notReady, b) <==> b in NotReady(s)
    ensures List.Holds(s.ready, b) <==> b in Ready(s)
  {
    List.HoldsIsMembership(s.notReady, b);
    List.HoldsIsMembership(s.ready, b);
  }

  lemma NewIsPartition<B>(inputs: nat)
    requires inputs <= MAX_HELD
    ensures Partition(New<B>(inputs)) && Linked(New<B>(inputs)) == multiset{}
  {
    FreshIsConsistent<B>(inputs);
  }

  /** Linking adds an unknown buffer to the buffers without data, and refuses without any change. */
  lemma LinkKeepsPartition<B>(s: Scheduler<B>, b: B)
    requires Partition(s)
    ensures var r := LinkWith(s, b);
      && Partition(r.state) && Capacity(r.state) == Capacity(s) && r.state.terminated == s.terminated
      && r.outcome == LinkOutcome(s, b)
      && (r.outcome.Thrown? ==> r.state == s)
      && (r.outcome.Returned? ==>
            Ready(r.state) == Ready(s) && NotReady(r.state) == NotReady(s) + multiset{b}
              && r.state.linked == s.linked + 1)
  {
    IsLinkedIsMembership(s, b);
    if LinkOutcome(s, b).Returned? {
      List.StoreAdds(s.notReady, b);
      LinkAdds(s, List.Store(s.notReady, b).state, b);
    }
  }

  ghost function LinkOutcome<B>(s: Scheduler<B>, b: B): Outcome<()> {
    if b in Linked(s) then Thrown(AlreadyLinked)
    else if s.terminated then Thrown(SchedulerStopped)
    else if s.linked == Capacity(s) then Thrown(TooManyInputs)
    else Returned(())
  }

  lemma LinkAdds<B>(s: Scheduler<B>, notReady: Slots<B>, b: B)
    requires Partition(s) && b !in Linked(s) && s.linked < Capacity(s)
    requires PointerArray.Consistent(notReady) && |notReady.pointers| == Capacity(s)
    requires Contents(notReady.pointers) == NotReady(s) + multiset{b}
    ensures Partition(s.(linked := Increment(s.linked), notReady := notReady))
  {
    var after := s.(linked := Increment(s.linked), notReady := notReady);
    assert Linked(after) == Linked(s) + multiset{b};
    forall c | c in Linked(after) ensures Linked(after)[c] == 1 {
      assert c != b ==> Linked(s)[c] == 1;
    }
  }

  /** Moving b from one list to the other never throws and keeps the two lists together the same. */
  lemma Moves<B>(from: Slots<B>, to: Slots<B>, b: B)
    requires PointerArray.Consistent(from) && PointerArray.Consistent(to)
    requires |from.pointers| == |to.pointers| && from.held + to.held <= |to.pointers|
    requires b in Contents(from.pointers)
    ensures var removed, stored := List.Remove(from, b), List.Store(to, b);
      && removed.outcome == Returned(()) && stored.outcome == Returned(())
      && PointerArray.Consistent(removed.state) && PointerArray.Consistent(stored.state)
      && |removed.state.pointers| == |from.pointers| && |stored.state.pointers| == |to.pointers|
      && Contents(removed.state.pointers) == Contents(from.pointers) - multiset{b}
      && Contents(stored.state.pointers) == Contents(to.pointers) + multiset{b}
      && Contents(removed.state.pointers) + Contents(stored.state.pointers) ==
        Contents(from.pointers) + Contents(to.pointers)
  {
    List.RemoveTakes(from, b);
    List.StoreAdds(to, b);
  }

  /** Activating moves a linked buffer among the ready ones; only an unlinked buffer is refused, so the
      inner removal and store never throw. */
  lemma ActivateKeepsPartition<B>(s: Scheduler<B>, b: B)
    requires Partition(s)
    ensures var r := ActivateFor(s, b);
      && Partition(r.state) && Capacity(r.state) == Capacity(s)
      && Linked(r.state) == Linked(s) && r.state.linked == s.linked && r.state.terminated == s.terminated
      && r.outcome == (if b in Linked(s) then Returned(()) else Thrown(IllegalActivation))
      && (b !in NotReady(s) ==> r.state == s)
      && (b in NotReady(s) ==>
            Ready(r.state) == Ready(s) + multiset{b} && NotReady(r.state) == NotReady(s) - multiset{b})
  {
    IsLinkedIsMembership(s, b);
    if b in NotReady(s) {
      PartitionIsExclusive(s, b);
      Moves(s.notReady, s.ready, b);
      var removed, stored := List.Remove(s.notReady, b).state, List.Store(s.ready, b).state;
      assert ActivateFor(s, b) == Reply(s.(notReady := removed, ready := stored), Returned(()));
      SameLinked(s, s.(notReady := removed, ready := stored));
    }
  }

  /** Lists that hold the same together are a partition if the old ones were. */
  lemma SameLinked<B>(s: Scheduler<B>, after: Scheduler<B>)
    requires Partition(s) && Consistent(after) && after.linked == s.linked
    requires |after.ready.pointers| == |s.ready.pointers| && |after.notReady.pointers| == |s.notReady.pointers|
    requires Ready(after) + NotReady(after) == Ready(s) + NotReady(s)
    ensures Partition(after) && Linked(after) == Linked(s)
  {
  }

  lemma DeactivateKeepsPartition<B>(s: Scheduler<B>, b: B)
    requires Partition(s)
    ensures var r := DeactivateFor(s, b);
      && Partition(r.state) && Capacity(r.state) == Capacity(s)
      && Linked(r.state) == Linked(s) && r.state.linked == s.linked && r.state.terminated == s.terminated
      && r.outcome == (if b in Linked(s) then Returned(()) else Thrown(IllegalDeactivation))
      && (b !in Ready(s) ==> r.state == s)
      && (b in Ready(s) ==>
            Ready(r.state) == Ready(s) - multiset{b} && NotReady(r.state) == NotReady(s) + multiset{b})
  {
    IsLinkedIsMembership(s, b);
    if b in Ready(s) {
      PartitionIsExclusive(s, b);
      Moves(s.ready, s.notReady, b);
      var removed, stored := List.Remove(s.ready, b).state, List.Store(s.notReady, b).state;
      assert DeactivateFor(s, b) == Reply(s.(ready := removed, notReady := stored), Returned(()));
      SameLinked(s, s.(ready := removed, notReady := stored));
    }
  }

  lemma NextInputKeepsPartition<B>(s: Scheduler<B>)
    requires Partition(s)
    ensures var r := NextInput(s);
      && Partition(r.state) && Capacity(r.state) == Capacity(s)
      && Linked(r.state) == Linked(s) && r.state.linked == s.linked && r.state.terminated == s.terminated
      && Ready(r.state) == Ready(s) && NotReady(r.state) == NotReady(s)
      && (r.outcome.Thrown? ==> Ready(s) == multiset{} && r.outcome.reason == ConsumeEmpty && r.state == s)
      && (r.outcome.Returned? ==> r.outcome.value in Ready(s))
  {
    List.PeekKeeps(s.ready);
  }

  lemma NextInputKeepsConsistent<B>(s: Scheduler<B>)
    requires Consistent(s)
    ensures Consistent(NextInput(s).state)
  {
    List.PeekKeeps(s.ready);
  }

  lemma TerminateKeepsPartition<B>(s: Scheduler<B>)
    requires Partition(s)
    ensures Partition(Terminate(s)) && Capacity(Terminate(s)) == Capacity(s)
    ensures Linked(Terminate(s)) == Linked(s) && Ready(Terminate(s)) == Ready(s)
  {
  }

  // ---------------------------------------------------------------------------------------------
  // Whole runs

  datatype Call<B> = CallLink(b: B) | CallActivate(b: B) | CallDeactivate(b: B) | CallTerminate | CallNext

  function Apply<B(==)>(s: Scheduler<B>, call: Call<B>): Reply<Scheduler<B>, ()>
    requires Consistent(s)
  {
    match call
    case CallLink(b) => LinkWith(s, b)
    case CallActivate(b) => ActivateFor(s, b)
    case CallDeactivate(b) => DeactivateFor(s, b)
    case CallTerminate => Reply(Terminate(s), Returned(()))
    case CallNext =>
      var r := NextInput(s);
      Reply(r.state, if r.outcome.Returned? then Returned(()) else Thrown(r.outcome.reason))
  }

  /** An exception of the lists themselves, which the scheduler does not expect. */
  predicate FailedInside(outcome: Outcome<()>) {
    outcome.Thrown? && (outcome.reason.StoreFull? || outcome.reason.RemoveAbsent?)
  }

  /** A call keeps the partition, adds to it what it links, and changes nothing if it is refused. */
  ghost predicate Kept<B>(before: Scheduler<B>, after: Scheduler<B>, refused: bool, added: multiset<B>) {
    && Partition(after) && Capacity(after) == Capacity(before)
    && (refused ==> after == before)
    && Linked(after) == Linked(before) + added
  }

  lemma LinkIsKept<B>(s: Scheduler<B>, b: B)
    requires Partition(s)
    ensures var r := LinkWith(s, b);
      Kept(s, r.state, r.outcome.Thrown?, if r.outcome.Returned? then multiset{b} else multiset{})
  {
    LinkKeepsPartition(s, b);
  }

  lemma ActivateIsKept<B>(s: Scheduler<B>, b: B)
    requires Partition(s)
    ensures var r := ActivateFor(s, b); Kept(s, r.state, r.outcome.Thrown?, multiset{})
  {
    ActivateKeepsPartition(s, b);
  }

  lemma DeactivateIsKept<B>(s: Scheduler<B>, b: B)
    requires Partition(s)
    ensures var r := DeactivateFor(s, b); Kept(s, r.state, r.outcome.Thrown?, multiset{})
  {
    DeactivateKeepsPartition(s, b);
  }

  lemma NextIsKept<B>(s: Scheduler<B>)
    requires Partition(s)
    ensures var r := NextInput(s); Kept(s, r.state, r.outcome.Thrown?, multiset{})
  {
    NextInputKeepsPartition(s);
  }

  lemma ApplyKeepsPartition<B>(s: Scheduler<B>, call: Call<B>)
    requires Partition(s)
    ensures var r := Apply(s, call); Kept(s, r.state, r.outcome.Thrown?, LinkedBy(call, r.outcome))
  {
    match call
    case CallLink(b) => LinkIsKept(s, b);
    case CallActivate(b) => ActivateIsKept(s, b);
    case CallDeactivate(b) => DeactivateIsKept(s, b);
    case CallTerminate => TerminateKeepsPartition(s);
    case CallNext => NextIsKept(s);
  }

  lemma ApplyNeverFailsInside<B>(s: Scheduler<B>, call: Call<B>)
    requires Partition(s)
    ensures !FailedInside(Apply(s, call).outcome)
  {
    if call.CallLink? {
      LinkKeepsPartition(s, call.b);
    } else if call.CallNext? {
      NextInputKeepsPartition(s);
    } else {
      MovesNeverFailInside(s, call);
    }
  }

  lemma MovesNeverFailInside<B>(s: Scheduler<B>, call: Call<B>)
    requires Partition(s) && (call.CallActivate? || call.CallDeactivate? || call.CallTerminate?)
    ensures !FailedInside(Apply(s, call).outcome)
  {
    if call.CallActivate? {
      ActivateKeepsPartition(s, call.b);
    } else if call.CallDeactivate? {
      DeactivateKeepsPartition(s, call.b);
    }
  }

  /** The buffer an accepted call links. */
  ghost function LinkedBy<B>(call: Call<B>, outcome: Outcome<()>): multiset<B> {
    if call.CallLink? && outcome.Returned? then multiset{call.b} else multiset{}
  }

  ghost function Run<B>(s: Scheduler<B>, calls: seq<Call<B>>): (Scheduler<B>, seq<Outcome<()>>)
    requires Partition(s)
    decreases |calls|
  {
    if calls == [] then (s, [])
    else
      ApplyKeepsPartition(s, calls[0]);
      var r := Apply(s, calls[0]);
      var (end, outcomes) := Run(r.state, calls[1..]);
      (end, [r.outcome] + outcomes)
  }

  ghost function AcceptedLinks<B>(calls: seq<Call<B>>, outcomes: seq<Outcome<()>>): multiset<B>
    requires |calls| == |outcomes|
    decreases |calls|
  {
    if calls == [] then multiset{} else LinkedBy(calls[0], outcomes[0]) + AcceptedLinks(calls[1..], outcomes[1..])
  }

  lemma FirstCall<B>(calls: seq<Call<B>>, first: Outcome<()>, rest: seq<Outcome<()>>, linked: multiset<B>)
    requires calls != [] && |rest| == |calls| - 1
    requires !FailedInside(first) && forall i :: 0 <= i < |rest| ==> !FailedInside(rest[i])
    ensures var outcomes := [first] + rest;
      && |outcomes| == |calls|
      && linked + LinkedBy(calls[0], first) + AcceptedLinks(calls[1..], rest) == linked + AcceptedLinks(calls, outcomes)
      && (forall i :: 0 <= i < |outcomes| ==> !FailedInside(outcomes[i]))
  {
    assert ([first] + rest)[1..] == rest;
  }

  /** Over every sequence of calls: both lists partition exactly the buffers whose linking was accepted,
      each held once; their sizes sum to the counter, within the declared number of inputs; and no call
      ever fails inside the lists. */
  lemma RunPartitions<B>(inputs: nat, calls: seq<Call<B>>)
    requires inputs <= MAX_HELD
    ensures Partition(New<B>(inputs))
    ensures var (end, outcomes) := Run(New<B>(inputs), calls);
      && |outcomes| == |calls|
      && Partition(end)
      && Linked(end) == AcceptedLinks(calls, outcomes)
      && end.linked == end.ready.held + end.notReady.held <= inputs
      && (forall i :: 0 <= i < |calls| ==> !FailedInside(outcomes[i]))
  {
    NewIsPartition<B>(inputs);
    RunKeepsPartition(New<B>(inputs), calls);
    PartitionCounts(Run(New<B>(inputs), calls).0);
  }

  lemma {:induction false} RunKeepsPartition<B>(s: Scheduler<B>, calls: seq<Call<B>>)
    requires Partition(s)
    ensures var (end, outcomes) := Run(s, calls);
      && |outcomes| == |calls|
      && Partition(end) && Capacity(end) == Capacity(s)
      && Linked(end) == Linked(s) + AcceptedLinks(calls, outcomes)
      && (forall i :: 0 <= i < |calls| ==> !FailedInside(outcomes[i]))
    decreases |calls|
  {
    if calls != [] {
      ApplyKeepsPartition(s, calls[0]);
      ApplyNeverFailsInside(s, calls[0]);
      var r := Apply(s, calls[0]);
      RunKeepsPartition(r.state, calls[1..]);
      var (end, outcomes) := Run(r.state, calls[1..]);
      FirstCall(calls, r.outcome, outcomes, Linked(s));
      assert Run(s, calls) == (end, [r.outcome] + outcomes);
    }
  }

  // ---------------------------------------------------------------------------------------------
  // Serving stability

  /** The consumer marker stands on a slot holding b: b is being served. */
  ghost predicate Serving<B>(list: Slots<B>, b: B) {
    list.consumer < |list.pointers| && list.pointers[list.consumer] == Some(b)
  }

  lemma ServedAgain<B>(list: Slots<B>, b: B)
    requires PointerArray.Consistent(list) && Serving(list, b)
    ensures List.Peek(list) == Reply(list, Returned(b))
  {
    ContentsCount(list.pointers);
    NextIs(list.pointers, list.consumer, true, list.consumer);
  }

  lemma StoreKeepsServing<B>(list: Slots<B>, b: B, x: B)
    requires PointerArray.Consistent(list) && Serving(list, b)
    ensures Serving(List.Store(list, x).state, b)
  {
    if !IsFull(list) { ContentsCount(list.pointers); }
  }

  lemma RemoveKeepsServing<B>(list: Slots<B>, b: B, x: B)
    requires PointerArray.Consistent(list) && Serving(list, b) && x != b
    ensures Serving(List.Remove(list, x).state, b)
  {
  }

  /** Once a peek has returned b, every later peek returns b and changes nothing, through any linking,
      activation, termination order or deactivation of other inputs: the loop drains one input before it
      turns to another. In particular the ready list, once seen non-empty, is still non-empty at the
      following peek, which never throws. */
  lemma {:induction false} DrainsOneInputFirst<B>(s: Scheduler<B>, b: B, calls: seq<Call<B>>)
    requires Partition(s) && Serving(s.ready, b)
    requires forall i :: 0 <= i < |calls| ==> calls[i] != CallDeactivate(b)
    ensures var end := Run(s, calls).0;
      Partition(end) && Serving(end.ready, b) && NextInput(end) == Reply(end, Returned(b))
    decreases |calls|
  {
    if calls == [] {
      ServedAgain(s.ready, b);
    } else {
      ApplyKeepsPartition(s, calls[0]);
      ApplyKeepsServing(s, b, calls[0]);
      DrainsOneInputFirst(Apply(s, calls[0]).state, b, calls[1..]);
    }
  }

  lemma ApplyKeepsServing<B>(s: Scheduler<B>, b: B, call: Call<B>)
    requires Partition(s) && Serving(s.ready, b) && call != CallDeactivate(b)
    ensures Serving(Apply(s, call).state.ready, b)
  {
    match call
    case CallLink(x) =>
    case CallActivate(x) => StoreKeepsServing(s.ready, b, x);
    case CallDeactivate(x) => RemoveKeepsServing(s.ready, b, x);
    case CallTerminate =>
    case CallNext => ServedAgain(s.ready, b);
  }

  /** A first peek on a non-empty ready list starts such a service, on the occupied slot nearest to the
      marker in circular order. */
  lemma PeekStartsService<B>(s: Scheduler<B>)
    requires Partition(s) && Ready(s) != multiset{}
    ensures var r := NextInput(s);
      && r.outcome.Returned? && Serving(r.state.ready, r.outcome.value)
      && s.ready.consumer < |s.ready.pointers|
      && forall j :: Suitable(s.ready.pointers, j, true) ==>
           Distance(|s.ready.pointers|, s.ready.consumer, r.state.ready.consumer)
             <= Distance(|s.ready.pointers|, s.ready.consumer, j)
  {
    ContentsCount(s.ready.pointers);
  }

  lemma LinkKeepsReady<B>(s: Scheduler<B>, b: B)
    requires Partition(s)
    ensures Ready(s) <= Ready(LinkWith(s, b).state)
  {
    LinkKeepsPartition(s, b);
  }

  lemma ActivateKeepsReady<B>(s: Scheduler<B>, b: B)
    requires Partition(s)
    ensures Ready(s) <= Ready(ActivateFor(s, b).state)
  {
    ActivateKeepsPartition(s, b);
  }

  lemma ApplyKeepsReady<B>(s: Scheduler<B>, call: Call<B>)
    requires Partition(s) && !call.CallDeactivate?
    ensures Ready(s) <= Ready(Apply(s, call).state)
  {
    match call
    case CallLink(b) => LinkKeepsReady(s, b);
    case CallActivate(b) => ActivateKeepsReady(s, b);
    case CallTerminate =>
    case CallNext => NextInputKeepsPartition(s);
  }

  /** Check, then act: a ready list seen non-empty stays so through any calls but deactivations, which
      only the scheduler's own consumption makes; the peek that follows the check never throws. */
  lemma {:induction false} NonEmptyStays<B>(s: Scheduler<B>, calls: seq<Call<B>>)
    requires Partition(s) && !IsEmpty(s.ready)
    requires forall i :: 0 <= i < |calls| ==> !calls[i].CallDeactivate?
    ensures var end := Run(s, calls).0;
      Partition(end) && Ready(s) <= Ready(end) && NextInput(end).outcome.Returned?
    decreases |calls|
  {
    if calls == [] {
      NextInputKeepsPartition(s);
    } else {
      ApplyKeepsPartition(s, calls[0]);
      ApplyKeepsReady(s, calls[0]);
      var next := Apply(s, calls[0]).state;
      EmptyMeansNoneReady(s);
      EmptyMeansNoneReady(next);
      NonEmptyStays(next, calls[1..]);
    }
  }
}
