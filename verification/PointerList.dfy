/** ConstantSizedPointerList as the object it is: an array of slots, two markers and a counter, changed
    in place under the list's lock. Every method is proved to act as its function in PointerListSpec.
  */
module PointerList {
  import opened Wrappers
  import opened PointerArray
  import Spec = PointerListSpec

  class ConstantSizedPointerList<T(==)> {
    const pointers: array<Option<T>>
    var producerMarker: nat
    var consumerMarker: nat
    var numberOfPointersHeld: nat

    ghost function Model(): Slots<T>
      reads this, pointers
    {
      Slots(pointers[..], producerMarker, consumerMarker, numberOfPointersHeld)
    }

    ghost predicate Valid()
      reads this, pointers
    {
      Consistent(Model())
    }

    constructor (size: nat)
      requires size <= MAX_HELD
      ensures Valid() && Model() == Fresh(size)
      ensures fresh(pointers)
    {
      pointers := new Option<T>[size](_ => None);
      producerMarker := 0;
      consumerMarker := 0;
      numberOfPointersHeld := 0;
      new;
      assert pointers[..] == Fresh<T>(size).pointers;
      FreshIsConsistent<T>(size);
    }

    method IsEmpty() returns (empty: bool)
      requires Valid()
      ensures empty <==> Contents(Model().pointers) == multiset{}
    {
      ContentsCount(pointers[..]);
      empty := numberOfPointersHeld == 0;
    }

    method IsFull() returns (full: bool)
      requires Valid()
      ensures full <==> forall j :: 0 <= j < pointers.Length ==> pointers[j].Some?
    {
      full := numberOfPointersHeld == pointers.Length;
      ContentsCount(pointers[..]);
      if !full {
        ghost var j: nat :| Suitable(pointers[..], j, false);
        assert pointers[j].None?;
      } else {
        forall j | 0 <= j < pointers.Length ensures pointers[j].Some? {
          assert !Suitable(pointers[..], j, false);
        }
      }
    }

    method Store(newPointer: T) returns (outcome: Outcome<()>)
      requires Valid()
      modifies this, pointers
      ensures Valid()
      ensures Reply(Model(), outcome) == Spec.Store(old(Model()), newPointer)
    {
      if numberOfPointersHeld == pointers.Length {
        return Thrown(StoreFull);
      }
      ghost var before := Model();
      ContentsCount(before.pointers);
      var advances := PlaceProducerMarkerOnNextUnoccupiedPosition();
      ghost var k := producerMarker;
      pointers[producerMarker] := Some(newPointer);
      numberOfPointersHeld := Increment(numberOfPointersHeld);
      assert Model() == Slots(before.pointers[k := Some(newPointer)], k, before.consumer, Increment(before.held));
      assert Model() == Spec.Store(before, newPointer).state;
      Spec.StoreAdds(before, newPointer);
      return Returned(());
    }

    method ConsumeNext() returns (outcome: Outcome<T>)
      requires Valid()
      modifies this, pointers
      ensures Valid()
      ensures Reply(Model(), outcome) == Spec.ConsumeNext(old(Model()))
    {
      Spec.ConsumeTakes(Model());
      if numberOfPointersHeld == 0 {
        return Thrown(ConsumeEmpty);
      }
      var advances := PlaceConsumerMarkerOnNextOccupiedPosition();
      outcome := Returned(pointers[consumerMarker].value);
      Empty(consumerMarker);
    }

    method ReadNextPointerToConsume() returns (outcome: Outcome<T>)
      requires Valid()
      modifies this`consumerMarker
      ensures Valid()
      ensures Reply(Model(), outcome) == Spec.Peek(old(Model()))
    {
      Spec.PeekKeeps(Model());
      if numberOfPointersHeld == 0 {
        return Thrown(ConsumeEmpty);
      }
      var advances := PlaceConsumerMarkerOnNextOccupiedPosition();
      outcome := Returned(pointers[consumerMarker].value);
    }

    method Contains(pointerToFind: T) returns (found: bool)
      requires Valid()
      ensures found <==> pointerToFind in Contents(Model().pointers)
      ensures found <==> Spec.Holds(Model(), pointerToFind)
    {
      var position := FindPositionOf(pointerToFind);
      Spec.HoldsIsMembership(Model(), pointerToFind);
      found := position != pointers.Length;
    }

    method Remove(pointerToRemove: T) returns (outcome: Outcome<()>)
      requires Valid()
      modifies this`numberOfPointersHeld, pointers
      ensures Valid()
      ensures Reply(Model(), outcome) == Spec.Remove(old(Model()), pointerToRemove)
    {
      ghost var before := Model();
      Spec.RemoveTakes(before, pointerToRemove);
      var position := FindPositionOf(pointerToRemove);
      if position == pointers.Length {
        return Thrown(RemoveAbsent);
      }
      Empty(position);
      return Returned(());
    }

    method Empty(position: nat)
      requires position < pointers.Length && numberOfPointersHeld > 0
      modifies this`numberOfPointersHeld, pointers
      ensures Model() == old(Model()).(pointers := old(Model()).pointers[position := None],
        held := old(Model()).held - 1)
    {
      pointers[position] := None;
      numberOfPointersHeld := numberOfPointersHeld - 1;
      assert pointers[..] == old(pointers[..])[position := None];
    }

    method FindPositionOf(pointerToFind: T) returns (position: nat)
      ensures position == Spec.FindPosition(pointers[..], pointerToFind)
    {
      position := 0;
      while position < pointers.Length && pointers[position] != Some(pointerToFind)
        invariant position <= pointers.Length
        invariant Spec.FindPosition(pointers[..], pointerToFind)
                  == position + Spec.FindPosition(pointers[position..], pointerToFind)
      {
        assert pointers[position..][1..] == pointers[position + 1..];
        position := position + 1;
      }
    }

    /** The producer marker search: ends on the first free slot, after fewer advances than there are slots. */
    method PlaceProducerMarkerOnNextUnoccupiedPosition() returns (ghost advances: nat)
      requires Valid() && numberOfPointersHeld < pointers.Length
      modifies this`producerMarker
      ensures exists j :: Suitable(pointers[..], j, false)
      ensures producerMarker == NextFrom(pointers[..], old(producerMarker), false)
      ensures advances == Distance(pointers.Length, old(producerMarker), producerMarker) <= pointers.Length - 1
    {
      ContentsCount(pointers[..]);
      ghost var start := producerMarker;
      ghost var target := NextFrom(pointers[..], start, false);
      advances := 0;
      while pointers[producerMarker].Some?
        invariant producerMarker < pointers.Length
        invariant NextFrom(pointers[..], producerMarker, false) == target
        invariant advances + Distance(pointers.Length, producerMarker, target) == Distance(pointers.Length, start,
          target)
        decreases Distance(pointers.Length, producerMarker, target)
      {
        SearchStep(pointers[..], producerMarker, false);
        producerMarker := Advance(pointers.Length, producerMarker);
        advances := advances + 1;
      }
      NextIs(pointers[..], producerMarker, false, producerMarker);
    }

    /** The consumer marker search: ends on the first occupied slot, after fewer advances than there are slots. */
    method PlaceConsumerMarkerOnNextOccupiedPosition() returns (ghost advances: nat)
      requires Valid() && numberOfPointersHeld > 0
      modifies this`consumerMarker
      ensures exists j :: Suitable(pointers[..], j, true)
      ensures consumerMarker < pointers.Length
      ensures consumerMarker == NextFrom(pointers[..], old(consumerMarker), true)
      ensures advances == Distance(pointers.Length, old(consumerMarker), consumerMarker) <= pointers.Length - 1
    {
      ContentsCount(pointers[..]);
      ghost var start := consumerMarker;
      ghost var target := NextFrom(pointers[..], start, true);
      advances := 0;
      while pointers[consumerMarker].None?
        invariant consumerMarker < pointers.Length
        invariant NextFrom(pointers[..], consumerMarker, true) == target
        invariant advances + Distance(pointers.Length, consumerMarker, target) == Distance(pointers.Length, start,
          target)
        decreases Distance(pointers.Length, consumerMarker, target)
      {
        SearchStep(pointers[..], consumerMarker, true);
        consumerMarker := Advance(pointers.Length, consumerMarker);
        advances := advances + 1;
      }
      NextIs(pointers[..], consumerMarker, true, consumerMarker);
    }
  }
}
