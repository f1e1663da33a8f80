/** ConstantSizedPointerList as a function of its slots, and what it promises over any sequence of calls.

    The list is a bounded multiset with a marker: `Refinement` says so for every sequence of calls.
    It is not the first-in first-out container its own comment announces (`NotFirstInFirstOut`);
    `StoreGoesLast` says exactly which stores keep the arrival order.
  */
module PointerListSpec {
  import opened Wrappers
  import opened PointerArray

  function Store<P>(s: Slots<P>, p: P): Reply<Slots<P>, ()>
    requires Consistent(s)
  {
    if IsFull(s) then Reply(s, Thrown(StoreFull))
    else
      ContentsCount(s.pointers);
      var k := NextFrom(s.pointers, s.producer, false);
      Reply(Slots(s.pointers[k := Some(p)], k, s.consumer, Increment(s.held)), Returned(()))
  }

  /** readNextPointerToConsume: moves the consumer marker but removes nothing. */
  function Peek<P>(s: Slots<P>): Reply<Slots<P>, P>
    requires Consistent(s)
  {
    if IsEmpty(s) then Reply(s, Thrown(ConsumeEmpty))
    else
      ContentsCount(s.pointers);
      var k := NextFrom(s.pointers, s.consumer, true);
      Reply(s.(consumer := k), Returned(s.pointers[k].value))
  }

  function ConsumeNext<P>(s: Slots<P>): Reply<Slots<P>, P>
    requires Consistent(s)
  {
    var peeked := Peek(s);
    if peeked.outcome.Thrown? then peeked
    else
      ContentsCount(s.pointers);
      var at := peeked.state;
      Reply(at.(pointers := at.pointers[at.consumer := None], held := at.held - 1), peeked.outcome)
  }

  /** std::find over all slots: the first slot holding the pointer, or the end. */
  function FindPosition<P(==)>(pointers: seq<Option<P>>, p: P): (k: nat)
    ensures k <= |pointers|
    ensures k < |pointers| ==> pointers[k] == Some(p)
    ensures forall j :: 0 <= j < k ==> pointers[j] != Some(p)
  {
    if pointers == [] || pointers[0] == Some(p) then 0 else 1 + FindPosition(pointers[1..], p)
  }

  predicate Holds<P(==)>(s: Slots<P>, p: P) {
    FindPosition(s.pointers, p) != |s.pointers|
  }

  function Remove<P(==)>(s: Slots<P>, p: P): Reply<Slots<P>, ()>
    requires Consistent(s)
  {
    var k := FindPosition(s.pointers, p);
    if k == |s.pointers| then Reply(s, Thrown(RemoveAbsent))
    else
      EmptySlot(s.pointers, k);
      Reply(s.(pointers := s.pointers[k := None], held := s.held - 1), Returned(()))
  }

  // ---------------------------------------------------------------------------------------------
  // Each call, seen on the multiset of held pointers

  lemma StoreAdds<P>(s: Slots<P>, p: P)
    requires Consistent(s)
    ensures var r := Store(s, p);
      && Consistent(r.state)
      && |r.state.pointers| == |s.pointers|
      && (r.outcome.Thrown? <==> |Contents(s.pointers)| == |s.pointers|)
      && (r.outcome.Returned? ==> Contents(r.state.pointers) == Contents(s.pointers) + multiset{p})
  {
    ContentsCount(s.pointers);
    if !IsFull(s) {
      var k := NextFrom(s.pointers, s.producer, false);
      FillSlot(s.pointers, k, p);
    }
  }

  lemma PeekKeeps<P>(s: Slots<P>)
    requires Consistent(s)
    ensures var r := Peek(s);
      && Consistent(r.state)
      && r.state.pointers == s.pointers
      && (r.outcome.Thrown? <==> Contents(s.pointers) == multiset{})
      && (r.outcome.Returned? ==> r.outcome.value in Contents(s.pointers))
  {
    ContentsCount(s.pointers);
    if !IsEmpty(s) {
      ContentsMembers(s.pointers, Peek(s).outcome.value);
    }
  }

  lemma ConsumeTakes<P>(s: Slots<P>)
    requires Consistent(s)
    ensures var r := ConsumeNext(s);
      && Consistent(r.state)
      && |r.state.pointers| == |s.pointers|
      && (r.outcome.Thrown? <==> Contents(s.pointers) == multiset{})
      && (r.outcome.Returned? ==>
            && r.outcome.value in Contents(s.pointers)
            && Contents(r.state.pointers) == Contents(s.pointers) - multiset{r.outcome.value})
  {
    PeekKeeps(s);
    if !IsEmpty(s) {
      EmptySlot(s.pointers, Peek(s).state.consumer);
    }
  }

  lemma RemoveTakes<P>(s: Slots<P>, p: P)
    requires Consistent(s)
    ensures var r := Remove(s, p);
      && Consistent(r.state)
      && |r.state.pointers| == |s.pointers|
      && (r.outcome.Thrown? <==> p !in Contents(s.pointers))
      && (r.outcome.Returned? ==> Contents(r.state.pointers) == Contents(s.pointers) - multiset{p})
  {
    ContentsMembers(s.pointers, p);
    var k := FindPosition(s.pointers, p);
    if k < |s.pointers| {
      EmptySlot(s.pointers, k);
    }
  }

  lemma HoldsIsMembership<P>(s: Slots<P>, p: P)
    ensures Holds(s, p) <==> p in Contents(s.pointers)
  {
    ContentsMembers(s.pointers, p);
  }

  // ---------------------------------------------------------------------------------------------
  // Whole runs

  datatype Call<P> = CallStore(p: P) | CallPeek | CallConsume | CallRemove(p: P)

  /** The pointer a call hands back, if it hands back one. */
  function Answer<V>(o: Outcome<V>): Outcome<Option<V>> {
    match o
    case Returned(v) => Returned(Some(v))
    case Thrown(reason) => Thrown(reason)
  }

  function NoAnswer<V>(o: Outcome<()>): Outcome<Option<V>> {
    match o
    case Returned(_) => Returned(None)
    case Thrown(reason) => Thrown(reason)
  }

  function Apply<P(==)>(s: Slots<P>, call: Call<P>): Reply<Slots<P>, Option<P>>
    requires Consistent(s)
  {
    match call
    case CallStore(p) => var r := Store(s, p); Reply(r.state, NoAnswer(r.outcome))
    case CallPeek => var r := Peek(s); Reply(r.state, Answer(r.outcome))
    case CallConsume => var r := ConsumeNext(s); Reply(r.state, Answer(r.outcome))
    case CallRemove(p) => var r := Remove(s, p); Reply(r.state, NoAnswer(r.outcome))
  }

  /** The bounded multiset a client may reason with: the bag after a call that ended with `outcome`,
      or None when a bag of that capacity could not have answered so. */
  ghost function BagStep<P>(bag: multiset<P>, capacity: nat, call: Call<P>, outcome: Outcome<Option<P>>)
    : Option<multiset<P>>
  {
    match call
    case CallStore(p) =>
      if |bag| == capacity then Expect(outcome == Thrown(StoreFull), bag)
      else Expect(outcome == Returned(None), bag + multiset{p})
    case CallPeek =>
      if bag == multiset{} then Expect(outcome == Thrown(ConsumeEmpty), bag)
      else Expect(exists x :: x in bag && outcome == Returned(Some(x)), bag)
    case CallConsume =>
      if bag == multiset{} then Expect(outcome == Thrown(ConsumeEmpty), bag)
      else if outcome.Returned? && outcome.value.Some? && outcome.value.value in bag
      then Some(bag - multiset{outcome.value.value})
      else None
    case CallRemove(p) =>
      if p !in bag then Expect(outcome == Thrown(RemoveAbsent), bag)
      else Expect(outcome == Returned(None), bag - multiset{p})
  }

  ghost function Expect<P>(answered: bool, bag: multiset<P>): Option<multiset<P>> {
    if answered then Some(bag) else None
  }

  lemma ApplyIsBagStep<P>(s: Slots<P>, call: Call<P>)
    requires Consistent(s)
    ensures var r := Apply(s, call);
      && Consistent(r.state)
      && |r.state.pointers| == |s.pointers|
      && BagStep(Contents(s.pointers), |s.pointers|, call, r.outcome) == Some(Contents(r.state.pointers))
  {
    ContentsCount(s.pointers);
    match call
    case CallStore(p) => StoreAdds(s, p);
    case CallPeek => PeekKeeps(s);
    case CallConsume => ConsumeTakes(s);
    case CallRemove(p) => RemoveTakes(s, p);
  }

  /** The state and the outcomes after a sequence of calls. */
  ghost function Run<P>(s: Slots<P>, calls: seq<Call<P>>): (Slots<P>, seq<Outcome<Option<P>>>)
    requires Consistent(s)
    decreases |calls|
  {
    if calls == [] then (s, [])
    else
      ApplyIsBagStep(s, calls[0]);
      var r := Apply(s, calls[0]);
      var (end, outcomes) := Run(r.state, calls[1..]);
      (end, [r.outcome] + outcomes)
  }

  ghost function BagRun<P>(bag: multiset<P>, capacity: nat, calls: seq<Call<P>>, outcomes: seq<Outcome<Option<P>>>)
    : Option<multiset<P>>
    requires |calls| == |outcomes|
    decreases |calls|
  {
    if calls == [] then Some(bag)
    else match BagStep(bag, capacity, calls[0], outcomes[0])
      case None => None
      case Some(next) => BagRun(next, capacity, calls[1..], outcomes[1..])
  }

  /** Over every sequence of calls, duplicates included, the list answers as a multiset bounded by the
      number of its slots, ends up holding that multiset, and keeps its counter equal to the number of
      occupied slots. */
  lemma {:induction false} Refinement<P>(s: Slots<P>, calls: seq<Call<P>>)
    requires Consistent(s)
    ensures var (end, outcomes) := Run(s, calls);
      && |outcomes| == |calls|
      && Consistent(end)
      && BagRun(Contents(s.pointers), |s.pointers|, calls, outcomes) == Some(Contents(end.pointers))
    decreases |calls|
  {
    if calls != [] {
      ApplyIsBagStep(s, calls[0]);
      var r := Apply(s, calls[0]);
      Refinement(r.state, calls[1..]);
      var (end, outcomes) := Run(r.state, calls[1..]);
      assert ([r.outcome] + outcomes)[1..] == outcomes;
    }
  }
}
