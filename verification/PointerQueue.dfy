/** ConstantSizedPointerQueue as the object it is, proved to act as its functions in PointerQueueSpec. */
module PointerQueue {
  import opened Wrappers
  import opened PointerArray
  import Spec = PointerQueueSpec

  class ConstantSizedPointerQueue<T> {
    const pointers: array<Option<T>>
    var producerMarker: nat
    var consumerMarker: nat
    var numberOfPointersHeld: nat

    ghost function Model(): Slots<T>
      reads this, pointers
    {
      Slots(pointers[..], producerMarker, consumerMarker, numberOfPointersHeld)
    }

    ghost predicate Valid()
      reads this, pointers
    {
      Spec.WellFormed(Model())
    }

    /** The pointers in the queue, oldest first. */
    ghost function Queued(): seq<T>
      requires Valid()
      reads this, pointers
    {
      Spec.Queued(Model())
    }

    constructor (size: nat)
      requires size <= MAX_HELD
      ensures Valid() && Queued() == [] && pointers.Length == size
      ensures fresh(pointers)
    {
      pointers := new Option<T>[size](_ => None);
      producerMarker := 0;
      consumerMarker := 0;
      numberOfPointersHeld := 0;
      new;
      assert pointers[..] == Fresh<T>(size).pointers;
      FreshIsConsistent<T>(size);
    }

    method Store(newPointer: T) returns (outcome: Outcome<()>)
      requires Valid()
      modifies this, pointers
      ensures Valid()
      ensures outcome == if |old(Queued())| == pointers.Length then Thrown(StoreFull) else Returned(())
      ensures Queued() == if outcome.Returned? then old(Queued()) + [newPointer] else old(Queued())
    {
      if numberOfPointersHeld == pointers.Length {
        return Thrown(StoreFull);
      }
      Spec.StoreAppends(Model(), newPointer);
      pointers[producerMarker] := Some(newPointer);
      numberOfPointersHeld := Increment(numberOfPointersHeld);
      producerMarker := Advance(pointers.Length, producerMarker);
      assert Model() == Spec.StoreLast(old(Model()), newPointer).state;
      return Returned(());
    }

    method ConsumeNext() returns (outcome: Outcome<T>)
      requires Valid()
      modifies this, pointers
      ensures Valid()
      ensures outcome == if old(Queued()) == [] then Thrown(ConsumeEmpty) else Returned(old(Queued())[0])
      ensures Queued() == if outcome.Returned? then old(Queued())[1..] else old(Queued())
    {
      if numberOfPointersHeld == 0 {
        return Thrown(ConsumeEmpty);
      }
      Spec.ConsumeDropsFirst(Model());
      outcome := Returned(pointers[consumerMarker].value);
      pointers[consumerMarker] := None;
      numberOfPointersHeld := numberOfPointersHeld - 1;
      consumerMarker := Advance(pointers.Length, consumerMarker);
      assert Model() == Spec.ConsumeFirst(old(Model())).state;
    }
  }
}
