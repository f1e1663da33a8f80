/** ConstantSizedPointerQueue as a function of its slots, and its refinement of a bounded FIFO. */
module PointerQueueSpec {
  import opened Wrappers
  import opened PointerArray
  import opened PointerListSpec
  import opened BoundedFifo

  function StoreLast<P>(s: Slots<P>, p: P): Reply<Slots<P>, ()>
    requires Consistent(s)
  {
    if IsFull(s) then Reply(s, Thrown(StoreFull))
    else
      ContentsCount(s.pointers);
      Reply(Slots(s.pointers[s.producer := Some(p)], Advance(|s.pointers|, s.producer), s.consumer, Increment(s.held)),
            Returned(()))
  }

  function ConsumeFirst<P>(s: Slots<P>): Reply<Slots<P>, Option<P>>
    requires Consistent(s)
  {
    if IsEmpty(s) then Reply(s, Thrown(ConsumeEmpty))
    else
      ContentsCount(s.pointers);
      Reply(Slots(s.pointers[s.consumer := None], s.producer, Advance(|s.pointers|, s.consumer), s.held - 1),
            Returned(s.pointers[s.consumer]))
  }

  /** The slot `steps` after `from`. */
  function Along(size: nat, from: nat, steps: nat): (k: nat)
    requires from < size && steps <= size
    ensures k < size
  {
    if from + steps < size then from + steps else from + steps - size
  }

  /** Exactly the `held` slots from `from` on are occupied. */
  ghost predicate FilledFrom<P>(pointers: seq<Option<P>>, from: nat, held: nat)
    requires from < |pointers|
  {
    forall j :: 0 <= j < |pointers| ==> (pointers[j].Some? <==> Distance(|pointers|, from, j) < held)
  }

  /** The held pointers start at the consumer marker, and the producer marker comes right after them. */
  ghost predicate WellFormed<P>(s: Slots<P>) {
    && Consistent(s)
    && s.held <= |s.pointers|
    && (|s.pointers| > 0 ==>
          && s.producer == Along(|s.pointers|, s.consumer, s.held)
          && FilledFrom(s.pointers, s.consumer, s.held))
  }

  /** The queued pointers, oldest first. */
  function Queued<P>(s: Slots<P>): seq<P>
    requires WellFormed(s)
  {
    seq(s.held, i requires 0 <= i < s.held => At(s, i))
  }

  function At<P>(s: Slots<P>, i: nat): P
    requires WellFormed(s) && i < s.held
  {
    var k := Along(|s.pointers|, s.consumer, i);
    assert Distance(|s.pointers|, s.consumer, k) == i;
    s.pointers[k].value
  }

  lemma FilledGrows<P>(pointers: seq<Option<P>>, from: nat, held: nat, p: P)
    requires from < |pointers| && held < |pointers| && FilledFrom(pointers, from, held)
    ensures pointers[Along(|pointers|, from, held)] == None
    ensures FilledFrom(pointers[Along(|pointers|, from, held) := Some(p)], from, held + 1)
  {
    assert Distance(|pointers|, from, Along(|pointers|, from, held)) == held;
  }

  lemma FilledShrinks<P>(pointers: seq<Option<P>>, from: nat, held: nat)
    requires from < |pointers| && 0 < held <= |pointers| && FilledFrom(pointers, from, held)
    ensures pointers[from].Some?
    ensures FilledFrom(pointers[from := None], Advance(|pointers|, from), held - 1)
  {
    assert Distance(|pointers|, from, from) == 0;
  }

  lemma StoreAppends<P>(s: Slots<P>, p: P)
    requires WellFormed(s) && !IsFull(s)
    ensures var r := StoreLast(s, p).state;
      WellFormed(r) && |r.pointers| == |s.pointers| && Queued(r) == Queued(s) + [p]
  {
    StoreKeepsWellFormed(s, p);
    StoreAppendsAt(s, p);
  }

  lemma StoreKeepsWellFormed<P>(s: Slots<P>, p: P)
    requires WellFormed(s) && !IsFull(s)
    ensures var r := StoreLast(s, p).state; WellFormed(r) && |r.pointers| == |s.pointers|
  {
    FilledGrows(s.pointers, s.consumer, s.held, p);
    StoreKeepsConsistent(s, p);
    AlongNext(|s.pointers|, s.consumer, s.held);
  }

  lemma StoreKeepsConsistent<P>(s: Slots<P>, p: P)
    requires Consistent(s) && !IsFull(s) && s.producer < |s.pointers| && s.pointers[s.producer] == None
    ensures var r := StoreLast(s, p).state; Consistent(r) && r.held == s.held + 1
  {
    ContentsCount(s.pointers);
    FillSlot(s.pointers, s.producer, p);
  }

  lemma AlongNext(size: nat, from: nat, steps: nat)
    requires from < size && steps < size
    ensures Along(size, from, steps + 1) == Advance(size, Along(size, from, steps))
  {
  }

  lemma StoreAppendsAt<P>(s: Slots<P>, p: P)
    requires WellFormed(s) && !IsFull(s) && WellFormed(StoreLast(s, p).state)
    ensures Queued(StoreLast(s, p).state) == Queued(s) + [p]
  {
    var r := StoreLast(s, p).state;
    forall i | 0 <= i < s.held ensures At(r, i) == At(s, i) {
      assert Along(|s.pointers|, s.consumer, i) != s.producer;
    }
    assert At(r, s.held) == p;
  }

  lemma ConsumeDropsFirst<P>(s: Slots<P>)
    requires WellFormed(s) && !IsEmpty(s)
    ensures var r := ConsumeFirst(s);
      && WellFormed(r.state) && |r.state.pointers| == |s.pointers|
      && Queued(r.state) == Queued(s)[1..]
      && r.outcome == Returned(Some(Queued(s)[0]))
  {
    FilledShrinks(s.pointers, s.consumer, s.held);
    EmptySlot(s.pointers, s.consumer);
    ConsumeDropsAt(s);
  }

  lemma ConsumeDropsAt<P>(s: Slots<P>)
    requires WellFormed(s) && !IsEmpty(s) && WellFormed(ConsumeFirst(s).state)
    ensures Queued(ConsumeFirst(s).state) == Queued(s)[1..]
    ensures s.pointers[s.consumer] == Some(Queued(s)[0])
  {
    var r := ConsumeFirst(s).state;
    forall i | 0 <= i < r.held ensures At(r, i) == At(s, i + 1) {
      assert Along(|s.pointers|, r.consumer, i) == Along(|s.pointers|, s.consumer, i + 1) != s.consumer;
    }
    FilledShrinks(s.pointers, s.consumer, s.held);
    assert At(s, 0) == s.pointers[s.consumer].value;
  }

  function Apply<P>(s: Slots<P>, call: Call<P>): Reply<Slots<P>, Option<P>>
    requires Consistent(s) && (call.CallStore? || call.CallConsume?)
  {
    match call
    case CallStore(p) => var r := StoreLast(s, p); Reply(r.state, NoAnswer(r.outcome))
    case CallConsume => ConsumeFirst(s)
  }

  lemma ApplyIsFifoStep<P>(s: Slots<P>, call: Call<P>)
    requires WellFormed(s) && (call.CallStore? || call.CallConsume?)
    ensures var r := Apply(s, call);
      && WellFormed(r.state) && |r.state.pointers| == |s.pointers|
      && Reply(Queued(r.state), r.outcome) == Step(Queued(s), |s.pointers|, call)
  {
    match call
    case CallStore(p) => if !IsFull(s) { StoreAppends(s, p); }
    case CallConsume => if !IsEmpty(s) { ConsumeDropsFirst(s); }
  }

  ghost predicate QueueCalls<P>(calls: seq<Call<P>>) {
    forall i :: 0 <= i < |calls| ==> calls[i].CallStore? || calls[i].CallConsume?
  }

  ghost function Run<P>(s: Slots<P>, calls: seq<Call<P>>): (Slots<P>, seq<Outcome<Option<P>>>)
    requires WellFormed(s) && QueueCalls(calls)
    decreases |calls|
  {
    if calls == [] then (s, [])
    else
      ApplyIsFifoStep(s, calls[0]);
      var r := Apply(s, calls[0]);
      var (end, outcomes) := Run(r.state, calls[1..]);
      (end, [r.outcome] + outcomes)
  }

  /** A fresh queue of any capacity the counter can count answers every sequence of calls as a
      first-in first-out container of that capacity. */
  lemma Refinement<P>(size: nat, calls: seq<Call<P>>)
    requires size <= MAX_HELD && QueueCalls(calls)
    ensures WellFormed(Fresh<P>(size))
    ensures var (end, outcomes) := Run(Fresh<P>(size), calls);
      WellFormed(end) && (Queued(end), outcomes) == FifoRun([], size, calls)
  {
    FreshIsConsistent<P>(size);
    RunRefines(Fresh<P>(size), calls);
  }

  lemma {:induction false} RunRefines<P>(s: Slots<P>, calls: seq<Call<P>>)
    requires WellFormed(s) && QueueCalls(calls)
    ensures var (end, outcomes) := Run(s, calls);
      WellFormed(end) && (Queued(end), outcomes) == FifoRun(Queued(s), |s.pointers|, calls)
    decreases |calls|
  {
    if calls != [] {
      ApplyIsFifoStep(s, calls[0]);
      RunRefines(Apply(s, calls[0]).state, calls[1..]);
    }
  }
}
