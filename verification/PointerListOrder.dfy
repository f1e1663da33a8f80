/** In which order ConstantSizedPointerList serves the pointers it holds.

    `ServiceOrder` lists the held pointers from the consumer marker on, around the slots. Peeking and
    consuming follow that order, a store inserts somewhere in it. The class comment announces a basic
    FIFO container; that is false in general (`NotFirstInFirstOut`), and the lemmas below say exactly
    when it is true.
  */
module PointerListOrder {
  import opened Wrappers
  import opened PointerArray
  import opened PointerListSpec
  import opened BoundedFifo

  function Values<P>(slots: seq<Option<P>>): seq<P> {
    if slots == [] then []
    else (if slots[0].Some? then [slots[0].value] else []) + Values(slots[1..])
  }

  function Rotated<P>(pointers: seq<Option<P>>, from: nat): seq<Option<P>>
    requires from <= |pointers|
  {
    pointers[from..] + pointers[..from]
  }

  /** The held pointers in the order in which the list would hand them out. */
  function ServiceOrder<P>(s: Slots<P>): seq<P>
    requires InRange(|s.pointers|, s.consumer)
  {
    Values(Rotated(s.pointers, s.consumer))
  }

  lemma {:induction false} ValuesConcat<P>(a: seq<Option<P>>, b: seq<Option<P>>)
    ensures Values(a + b) == Values(a) + Values(b)
  {
    if a == [] {
      assert a + b == b;
    } else {
      ValuesConcat(a[1..], b);
      assert (a + b)[1..] == a[1..] + b;
      Associate(if a[0].Some? then [a[0].value] else [], Values(a[1..]), Values(b));
    }
  }

  lemma {:induction false} ValuesEmpty<P>(slots: seq<Option<P>>)
    ensures Values(slots) == [] <==> forall j :: 0 <= j < |slots| ==> slots[j] == None
  {
    if slots != [] {
      ValuesEmpty(slots[1..]);
      assert forall j :: 0 <= j < |slots[1..]| ==> slots[1..][j] == slots[j + 1];
    }
  }

  lemma {:induction false} ValuesContents<P>(slots: seq<Option<P>>)
    ensures multiset(Values(slots)) == Contents(slots)
  {
    if slots != [] {
      ValuesContents(slots[1..]);
    }
  }

  lemma ValuesOfOne<P>(p: P)
    ensures Values([Some(p)]) == [p] && Values<P>([None]) == []
  {
    var held: seq<Option<P>>, free: seq<Option<P>> := [Some(p)], [None];
    assert held[1..] == [] && free[1..] == [];
  }

  lemma ValuesAround<P>(a: seq<Option<P>>, b: seq<Option<P>>, c: seq<Option<P>>)
    ensures Values(a + b + c) == Values(a) + Values(b) + Values(c)
  {
    ValuesConcat(a, b);
    ValuesConcat(a + b, c);
  }

  lemma RotatedAt<P>(pointers: seq<Option<P>>, from: nat, k: nat)
    requires from < |pointers| && k < |pointers|
    ensures Rotated(pointers, from)[Distance(|pointers|, from, k)] == pointers[k]
  {
  }

  lemma RotatedUpdate<P>(pointers: seq<Option<P>>, from: nat, k: nat, slot: Option<P>)
    requires from < |pointers| && k < |pointers|
    ensures Rotated(pointers[k := slot], from) == Rotated(pointers, from)[Distance(|pointers|, from, k) := slot]
  {
  }

  /** The service order holds each pointer as often as the list does. */
  lemma ServiceOrderIsContents<P>(s: Slots<P>)
    requires Consistent(s)
    ensures multiset(ServiceOrder(s)) == Contents(s.pointers)
  {
    ValuesConcat(s.pointers[s.consumer..], s.pointers[..s.consumer]);
    ValuesConcat(s.pointers[..s.consumer], s.pointers[s.consumer..]);
    assert s.pointers[..s.consumer] + s.pointers[s.consumer..] == s.pointers;
    ValuesContents(s.pointers);
  }

  /** Everything between the consumer marker and the slot a search stops at is empty. */
  lemma SearchSkipsEmpty<P>(pointers: seq<Option<P>>, from: nat)
    requires from < |pointers| && exists j :: Suitable(pointers, j, true)
    ensures var k := NextFrom(pointers, from, true);
      Values(Rotated(pointers, from)[..Distance(|pointers|, from, k)]) == []
  {
    var k := NextFrom(pointers, from, true);
    var i := Distance(|pointers|, from, k);
    var r := Rotated(pointers, from);
    forall j | 0 <= j < i ensures r[..i][j] == None {
      var slot := if from + j < |pointers| then from + j else from + j - |pointers|;
      assert Distance(|pointers|, from, slot) == j;
      assert !Suitable(pointers, slot, true);
    }
    ValuesEmpty(r[..i]);
  }

  /** The service order, seen from the slot that is served next: its pointer, then the rest of the round. */
  lemma OrderFromHead<P>(s: Slots<P>, k: nat, rest: seq<Option<P>>)
    requires Consistent(s) && exists j :: Suitable(s.pointers, j, true)
    requires k == NextFrom(s.pointers, s.consumer, true)
    requires var i, r := Distance(|s.pointers|, s.consumer, k), Rotated(s.pointers, s.consumer);
      rest == r[i + 1..] + r[..i]
    ensures ServiceOrder(s) == Values([s.pointers[k]]) + Values(rest)
  {
    var r := Rotated(s.pointers, s.consumer);
    var i := Distance(|s.pointers|, s.consumer, k);
    RotatedAt(s.pointers, s.consumer, k);
    SearchSkipsEmpty(s.pointers, s.consumer);
    var before, after := r[..i], r[i + 1..];
    assert r == before + [r[i]] + after;
    ValuesAround(before, [r[i]], after);
    ValuesConcat(after, before);
    assert [] + Values([r[i]]) == Values([r[i]]);
  }

  /** With the consumer marker on slot k, which may have been emptied. */
  lemma OrderTurnedTo<P>(pointers: seq<Option<P>>, from: nat, k: nat, slot: Option<P>, rest: seq<Option<P>>)
    requires from < |pointers| && k < |pointers|
    requires var i, r := Distance(|pointers|, from, k), Rotated(pointers, from);
      rest == r[i + 1..] + r[..i]
    ensures Values(Rotated(pointers[k := slot], k)) == Values([slot]) + Values(rest)
  {
    TurnedTo(pointers, from, k);
    RotatedUpdate(pointers, k, k, slot);
    assert Rotated(pointers[k := slot], k) == [slot] + rest;
    ValuesConcat([slot], rest);
  }

  /** The pointer served next, the order behind it, and the order once the marker stands there. */
  lemma HeadAndRest<P>(s: Slots<P>) returns (k: nat, rest: seq<P>)
    requires Consistent(s) && exists j :: Suitable(s.pointers, j, true)
    ensures k == NextFrom(s.pointers, s.consumer, true) && Suitable(s.pointers, k, true)
    ensures ServiceOrder(s) == [s.pointers[k].value] + rest
    ensures Values(Rotated(s.pointers, k)) == [s.pointers[k].value] + rest
    ensures Values(Rotated(s.pointers[k := None], k)) == rest
  {
    k := NextFrom(s.pointers, s.consumer, true);
    var i, r := Distance(|s.pointers|, s.consumer, k), Rotated(s.pointers, s.consumer);
    var others := r[i + 1..] + r[..i];
    rest := Values(others);
    ValuesOfOne(s.pointers[k].value);
    assert s.pointers[k] == Some(s.pointers[k].value);
    OrderFromHead(s, k, others);
    OrderTurnedTo(s.pointers, s.consumer, k, s.pointers[k], others);
    OrderTurnedTo(s.pointers, s.consumer, k, None, others);
    assert s.pointers[k := s.pointers[k]] == s.pointers;
  }

  /** Peeking and consuming hand out the head of the service order; peeking keeps the order and
      consuming leaves its tail. */
  lemma ServesHead<P>(s: Slots<P>)
    requires Consistent(s) && !IsEmpty(s)
    ensures ServiceOrder(s) != []
    ensures Peek(s).outcome == Returned(ServiceOrder(s)[0])
    ensures ServiceOrder(Peek(s).state) == ServiceOrder(s)
    ensures ConsumeNext(s).outcome == Returned(ServiceOrder(s)[0])
    ensures ServiceOrder(ConsumeNext(s).state) == ServiceOrder(s)[1..]
  {
    ContentsCount(s.pointers);
    var k, rest := HeadAndRest(s);
  }

  lemma TurnedTo<P>(pointers: seq<Option<P>>, from: nat, k: nat)
    requires from < |pointers| && k < |pointers|
    ensures var i := Distance(|pointers|, from, k);
      var r := Rotated(pointers, from);
      Rotated(pointers, k) == [pointers[k]] + (r[i + 1..] + r[..i])
  {
    RotatedAt(pointers, from, k);
    assert Rotated(pointers, k) == Rotated(pointers, from)[Distance(|pointers|, from, k)..]
                                   + Rotated(pointers, from)[..Distance(|pointers|, from, k)];
  }

  /** The held pointers that a store into slot k would leave ahead of, and behind, the new one. */
  function Ahead<P>(s: Slots<P>, k: nat): seq<P>
    requires s.consumer < |s.pointers| && k < |s.pointers|
  {
    Values(Rotated(s.pointers, s.consumer)[..Distance(|s.pointers|, s.consumer, k)])
  }

  function Behind<P>(s: Slots<P>, k: nat): seq<P>
    requires s.consumer < |s.pointers| && k < |s.pointers|
  {
    Values(Rotated(s.pointers, s.consumer)[Distance(|s.pointers|, s.consumer, k) + 1..])
  }

  /** A store inserts into the service order: nothing else moves. */
  lemma StoreInserts<P>(s: Slots<P>, p: P)
    requires Consistent(s) && !IsFull(s)
    ensures var k := Store(s, p).state.producer;
      && k < |s.pointers|
      && ServiceOrder(s) == Ahead(s, k) + Behind(s, k)
      && ServiceOrder(Store(s, p).state) == Ahead(s, k) + [p] + Behind(s, k)
  {
    ContentsCount(s.pointers);
    var k := NextFrom(s.pointers, s.producer, false);
    var r := Rotated(s.pointers, s.consumer);
    var i := Distance(|s.pointers|, s.consumer, k);
    RotatedAt(s.pointers, s.consumer, k);
    RotatedUpdate(s.pointers, s.consumer, k, Some(p));
    var before, after := r[..i], r[i + 1..];
    ValuesInserted(r, r[i := Some(p)], before, after, p);
  }

  /** A removal by hand takes the pointer out of the service order, at the lowest slot that holds it, and moves
      neither the others nor the markers. */
  lemma RemoveTakesOut<P>(s: Slots<P>, p: P)
    requires Consistent(s) && Holds(s, p)
    ensures var k := FindPosition(s.pointers, p);
      var after := Remove(s, p).state;
      && k < |s.pointers| && (forall j :: 0 <= j < k ==> s.pointers[j] != Some(p))
      && after.producer == s.producer && after.consumer == s.consumer
      && ServiceOrder(s) == Ahead(s, k) + [p] + Behind(s, k)
      && ServiceOrder(after) == Ahead(s, k) + Behind(s, k)
  {
    var k := FindPosition(s.pointers, p);
    var r := Rotated(s.pointers, s.consumer);
    var i := Distance(|s.pointers|, s.consumer, k);
    RotatedAt(s.pointers, s.consumer, k);
    RotatedUpdate(s.pointers, s.consumer, k, None);
    var before, after := r[..i], r[i + 1..];
    ValuesInserted(r[i := None], r, before, after, p);
  }

  /** In any consistent list, removals included, a new pointer is served last if and only if no held pointer
      lies between its slot and the consumer marker. */
  lemma StoreGoesLastUnlessBehind<P>(s: Slots<P>, p: P)
    requires Consistent(s) && !IsFull(s) && p !in Contents(s.pointers)
    ensures var k := Store(s, p).state.producer;
      && k < |s.pointers|
      && (ServiceOrder(Store(s, p).state) == ServiceOrder(s) + [p] <==> Behind(s, k) == [])
      && (Behind(s, k) == [] <==> NoneBehind(s, k))
  {
    StoreInserts(s, p);
    ServiceOrderIsContents(s);
    var k := Store(s, p).state.producer;
    LastUnlessFollowed(Ahead(s, k), p, Behind(s, k));
    BehindIsEmpty(s, k);
  }

  /** Every held pointer comes before slot k, seen from the consumer marker. */
  ghost predicate NoneBehind<P>(s: Slots<P>, k: nat)
    requires s.consumer < |s.pointers| && k < |s.pointers|
  {
    forall j :: 0 <= j < |s.pointers| && s.pointers[j].Some? ==>
      Distance(|s.pointers|, s.consumer, j) <= Distance(|s.pointers|, s.consumer, k)
  }

  lemma LastUnlessFollowed<P>(before: seq<P>, p: P, after: seq<P>)
    requires p !in multiset(before + after)
    ensures before + [p] + after == before + after + [p] <==> after == []
  {
    if after != [] {
      var last := after[|after| - 1];
      assert last == (before + after)[|before + after| - 1];
      assert last in multiset(before + after);
      assert (before + [p] + after)[|before + after|] == last;
      assert (before + after + [p])[|before + after|] == p;
    }
  }

  lemma HeldBehindIsBehind<P>(s: Slots<P>, k: nat, j: nat)
    requires s.consumer < |s.pointers| && k < |s.pointers| && j < |s.pointers| && s.pointers[j].Some?
    requires Distance(|s.pointers|, s.consumer, j) > Distance(|s.pointers|, s.consumer, k)
    ensures Behind(s, k) != []
  {
    var i := Distance(|s.pointers|, s.consumer, k);
    var behind := Rotated(s.pointers, s.consumer)[i + 1..];
    RotatedAt(s.pointers, s.consumer, j);
    assert behind[Distance(|s.pointers|, s.consumer, j) - i - 1] == s.pointers[j];
    ValuesEmpty(behind);
  }

  lemma BehindIsHeldBehind<P>(s: Slots<P>, k: nat)
    requires s.consumer < |s.pointers| && k < |s.pointers| && Behind(s, k) != []
    ensures !NoneBehind(s, k)
  {
    var n, i := |s.pointers|, Distance(|s.pointers|, s.consumer, k);
    var behind := Rotated(s.pointers, s.consumer)[i + 1..];
    ValuesEmpty(behind);
    var d :| 0 <= d < |behind| && behind[d] != None;
    var slot := if s.consumer + i + 1 + d < n then s.consumer + i + 1 + d else s.consumer + i + 1 + d - n;
    assert s.pointers[slot] == behind[d] && Distance(n, s.consumer, slot) == i + 1 + d;
  }

  lemma BehindIsEmpty<P>(s: Slots<P>, k: nat)
    requires s.consumer < |s.pointers| && k < |s.pointers|
    ensures Behind(s, k) == [] <==> NoneBehind(s, k)
  {
    if !NoneBehind(s, k) {
      var j :| 0 <= j < |s.pointers| && s.pointers[j].Some?
        && Distance(|s.pointers|, s.consumer, j) > Distance(|s.pointers|, s.consumer, k);
      HeldBehindIsBehind(s, k, j);
    } else if Behind(s, k) != [] {
      BehindIsHeldBehind(s, k);
    }
  }

  lemma ValuesInserted<P>(r: seq<Option<P>>, r': seq<Option<P>>, before: seq<Option<P>>, after: seq<Option<P>>, p: P)
    requires r == before + [None] + after && r' == before + [Some(p)] + after
    ensures Values(r) == Values(before) + Values(after)
    ensures Values(r') == Values(before) + [p] + Values(after)
  {
    ValuesAroundNothing(before, after);
    ValuesAroundOne(before, p, after);
  }

  lemma ValuesAroundNothing<P>(before: seq<Option<P>>, after: seq<Option<P>>)
    ensures Values(before + [None] + after) == Values(before) + Values(after)
  {
    ValuesConcat(before, [None]);
    var free: seq<Option<P>> := [None];
    assert Values(free) == [] by { assert free[1..] == []; }
    assert Values(before + [None]) == Values(before);
    ValuesConcat(before + [None], after);
  }

  lemma ValuesAroundOne<P>(before: seq<Option<P>>, p: P, after: seq<Option<P>>)
    ensures Values(before + [Some(p)] + after) == Values(before) + [p] + Values(after)
  {
    ValuesConcat(before, [Some(p)]);
    ValuesOfOne(p);
    assert Values(before + [Some(p)]) == Values(before) + [p];
    ValuesConcat(before + [Some(p)], after);
  }

  // ---------------------------------------------------------------------------------------------
  // When arrival order is kept

  /** The shape kept by stores and consumptions: the held pointers fill the slots that end at the
      producer marker, and the consumer marker stands on the first of them or on the slot just before. */
  ghost predicate QueueShaped<P>(s: Slots<P>) {
    && Consistent(s)
    && (|s.pointers| > 0 ==>
          && FilledUpTo(s.pointers, s.producer, s.held)
          && s.held - 1 <= Distance(|s.pointers|, s.consumer, s.producer) <= s.held)
  }

  /** Exactly the `held` slots that end at `end` are occupied. */
  ghost predicate FilledUpTo<P>(pointers: seq<Option<P>>, end: nat, held: nat)
    requires end < |pointers|
  {
    forall j :: 0 <= j < |pointers| ==> (pointers[j].Some? <==> Distance(|pointers|, j, end) < held)
  }

  lemma FilledGrows<P>(pointers: seq<Option<P>>, end: nat, held: nat, p: P)
    requires end < |pointers| && held < |pointers| && FilledUpTo(pointers, end, held)
    ensures var k := if held == 0 then end else Advance(|pointers|, end);
      FilledUpTo(pointers[k := Some(p)], k, held + 1)
  {
  }

  lemma FilledShrinks<P>(pointers: seq<Option<P>>, end: nat, held: nat, first: nat)
    requires end < |pointers| && first < |pointers| && FilledUpTo(pointers, end, held)
    requires held > 0 && Distance(|pointers|, first, end) == held - 1
    ensures FilledUpTo(pointers[first := None], end, held - 1)
  {
  }

  /** The only store that overtakes: all slots but one are taken and the free one lies under the
      consumer marker, so the new pointer will be served first. */
  predicate Overtakes<P>(s: Slots<P>)
    requires InRange(|s.pointers|, s.consumer)
  {
    && 0 < s.held == |s.pointers| - 1
    && s.pointers[s.consumer] == None
  }

  lemma QueueShapedTarget<P>(s: Slots<P>)
    requires QueueShaped(s) && !IsFull(s)
    requires exists j :: Suitable(s.pointers, j, false)
    ensures NextFrom(s.pointers, s.producer, false) ==
            if s.held == 0 then s.producer else Advance(|s.pointers|, s.producer)
  {
    var next := if s.held == 0 then s.producer else Advance(|s.pointers|, s.producer);
    assert Suitable(s.pointers, next, false);
    NextIs(s.pointers, s.producer, false, next);
  }

  /** Among lists of that shape, a store puts the new pointer last if and only if it is not the
      overtaking one, which puts it first. */
  lemma StoreGoesLast<P>(s: Slots<P>, p: P)
    requires QueueShaped(s) && !IsFull(s) && p !in Contents(s.pointers)
    ensures ServiceOrder(Store(s, p).state) == ServiceOrder(s) + [p] <==> !Overtakes(s)
    ensures Overtakes(s) ==> ServiceOrder(Store(s, p).state) == [p] + ServiceOrder(s)
  {
    ContentsCount(s.pointers);
    QueueShapedTarget(s);
    StoreInserts(s, p);
    if Overtakes(s) {
      OvertakingIsFirst(s, p);
    } else {
      ShapedBehindIsEmpty(s, Store(s, p).state.producer);
    }
  }

  lemma OvertakingIsFirst<P>(s: Slots<P>, p: P)
    requires QueueShaped(s) && !IsFull(s) && p !in Contents(s.pointers) && Overtakes(s)
    ensures ServiceOrder(Store(s, p).state) == [p] + ServiceOrder(s) != ServiceOrder(s) + [p]
  {
    ContentsCount(s.pointers);
    QueueShapedTarget(s);
    StoreInserts(s, p);
    HeadIsHeld(s);
    StoreGoesLastUnlessBehind(s, p);
    NothingAhead(s, Store(s, p).state.producer);
  }

  lemma NothingAhead<P>(s: Slots<P>, k: nat)
    requires s.consumer < |s.pointers| && k == s.consumer
    ensures Ahead(s, k) == []
  {
  }

  lemma HeadIsHeld<P>(s: Slots<P>)
    requires Consistent(s) && !IsEmpty(s)
    ensures ServiceOrder(s) != [] && ServiceOrder(s)[0] in Contents(s.pointers)
  {
    ServesHead(s);
    ServiceOrderIsContents(s);
    assert ServiceOrder(s)[0] in multiset(ServiceOrder(s));
  }

  /** The other stores keep the shape. */
  lemma StoreKeepsShape<P>(s: Slots<P>, p: P)
    requires QueueShaped(s) && !IsFull(s) && !Overtakes(s)
    ensures QueueShaped(Store(s, p).state)
  {
    ContentsCount(s.pointers);
    QueueShapedTarget(s);
    StoreAdds(s, p);
    FilledGrows(s.pointers, s.producer, s.held, p);
    MarkersPart(s);
  }

  /** After the store, the consumer marker is still on the first held pointer or just before it. */
  lemma MarkersPart<P>(s: Slots<P>)
    requires QueueShaped(s) && !IsFull(s) && !Overtakes(s) && |s.pointers| > 0
    ensures var next := if s.held == 0 then s.producer else Advance(|s.pointers|, s.producer);
      s.held <= Distance(|s.pointers|, s.consumer, next) <= s.held + 1
  {
  }

  lemma ShapedBehindIsEmpty<P>(s: Slots<P>, k: nat)
    requires QueueShaped(s) && !IsFull(s) && !Overtakes(s)
    requires |s.pointers| > 0
    requires k == if s.held == 0 then s.producer else Advance(|s.pointers|, s.producer)
    ensures Behind(s, k) == []
  {
    var n := |s.pointers|;
    var r := Rotated(s.pointers, s.consumer);
    var i := Distance(n, s.consumer, k);
    var behind := r[i + 1..];
    forall j | 0 <= j < |behind| ensures behind[j] == None {
      var slot := if s.consumer + i + 1 + j < n then s.consumer + i + 1 + j else s.consumer + i + 1 + j - n;
      assert behind[j] == s.pointers[slot];
      assert Distance(n, slot, s.producer) >= s.held;
    }
    ValuesEmpty(behind);
  }

  lemma ShapedHead<P>(s: Slots<P>)
    requires QueueShaped(s) && !IsEmpty(s) && |s.pointers| > 0
    requires exists j :: Suitable(s.pointers, j, true)
    ensures NextFrom(s.pointers, s.consumer, true) ==
            if s.pointers[s.consumer].Some? then s.consumer else Advance(|s.pointers|, s.consumer)
    ensures Distance(|s.pointers|, NextFrom(s.pointers, s.consumer, true), s.producer) == s.held - 1
  {
    var n := |s.pointers|;
    var first := if s.pointers[s.consumer].Some? then s.consumer else Advance(n, s.consumer);
    assert Distance(n, first, s.producer) == s.held - 1;
    NextIs(s.pointers, s.consumer, true, first);
  }

  lemma ConsumeKeepsShape<P>(s: Slots<P>)
    requires QueueShaped(s) && !IsEmpty(s)
    ensures QueueShaped(ConsumeNext(s).state)
  {
    ContentsCount(s.pointers);
    ConsumeTakes(s);
    ShapedHead(s);
    FilledShrinks(s.pointers, s.producer, s.held, NextFrom(s.pointers, s.consumer, true));
  }

  lemma PeekKeepsShape<P>(s: Slots<P>)
    requires QueueShaped(s) && !IsEmpty(s)
    ensures QueueShaped(Peek(s).state)
  {
    ContentsCount(s.pointers);
    PeekKeeps(s);
    ShapedHead(s);
  }

  /** The calls remove nothing by hand, and no store among them is the overtaking one. */
  ghost predicate NeverOvertakes<P>(s: Slots<P>, calls: seq<Call<P>>)
    requires Consistent(s)
    decreases |calls|
  {
    calls != [] ==>
      && !calls[0].CallRemove?
      && (calls[0].CallStore? && !IsFull(s) ==> !Overtakes(s))
      && (ApplyIsBagStep(s, calls[0]); NeverOvertakes(Apply(s, calls[0]).state, calls[1..]))
  }

  lemma OrderLength<P>(s: Slots<P>)
    requires Consistent(s)
    ensures |ServiceOrder(s)| == s.held
  {
    ServiceOrderIsContents(s);
    ContentsCount(s.pointers);
    assert |ServiceOrder(s)| == |multiset(ServiceOrder(s))|;
  }

  lemma StoreIsFifoStep<P>(s: Slots<P>, p: P)
    requires QueueShaped(s) && (IsFull(s) || !Overtakes(s))
    ensures var r := Store(s, p);
      && QueueShaped(r.state)
      && |r.state.pointers| == |s.pointers|
      && Reply(ServiceOrder(r.state), NoAnswer(r.outcome)) == Step(ServiceOrder(s), |s.pointers|, CallStore(p))
  {
    OrderLength(s);
    if !IsFull(s) {
      StoreKeepsShape(s, p);
      StoreInserts(s, p);
      ContentsCount(s.pointers);
      QueueShapedTarget(s);
      ShapedBehindIsEmpty(s, Store(s, p).state.producer);
      assert ServiceOrder(Store(s, p).state) == ServiceOrder(s) + [p];
    }
  }

  lemma ApplyIsFifoStep<P>(s: Slots<P>, call: Call<P>)
    requires QueueShaped(s) && !call.CallRemove?
    requires call.CallStore? && !IsFull(s) ==> !Overtakes(s)
    ensures var r := Apply(s, call);
      && QueueShaped(r.state)
      && |r.state.pointers| == |s.pointers|
      && Reply(ServiceOrder(r.state), r.outcome) == Step(ServiceOrder(s), |s.pointers|, call)
  {
    ApplyIsBagStep(s, call);
    OrderLength(s);
    match call
    case CallStore(p) => StoreIsFifoStep(s, p);
    case CallPeek => if !IsEmpty(s) { ServesHead(s); PeekKeepsShape(s); }
    case CallConsume => if !IsEmpty(s) { ServesHead(s); ConsumeKeepsShape(s); }
  }

  /** Used as a queue and never overtaking, the list answers every call as a bounded FIFO would. */
  lemma {:induction false} FirstInFirstOut<P>(s: Slots<P>, calls: seq<Call<P>>)
    requires QueueShaped(s) && NeverOvertakes(s, calls)
    ensures var (end, outcomes) := Run(s, calls);
      && QueueShaped(end)
      && (ServiceOrder(end), outcomes) == FifoRun(ServiceOrder(s), |s.pointers|, calls)
    decreases |calls|
  {
    if calls != [] {
      ApplyIsFifoStep(s, calls[0]);
      FirstInFirstOut(Apply(s, calls[0]).state, calls[1..]);
    }
  }

  // Slots of three, as they are after: store a, store b, store c, consume, store d.
  const STORED_A: Slots<char> := Slots([Some('a'), None, None], 0, 0, 1)
  const STORED_AB: Slots<char> := Slots([Some('a'), Some('b'), None], 1, 0, 2)
  const STORED_ABC: Slots<char> := Slots([Some('a'), Some('b'), Some('c')], 2, 0, 3)
  const LEFT_BC: Slots<char> := Slots([None, Some('b'), Some('c')], 2, 0, 2)

  lemma StoreLeads(s: Slots<char>, p: char, k: nat)
    requires Consistent(s) && s.producer < |s.pointers| && k < |s.pointers| && s.held < |s.pointers|
    requires k == if s.pointers[s.producer] == None then s.producer else Advance(|s.pointers|, s.producer)
    requires s.pointers[k] == None
    ensures Store(s, p).state == Slots(s.pointers[k := Some(p)], k, s.consumer, s.held + 1)
  {
    ContentsCount(s.pointers);
    NextIs(s.pointers, s.producer, false, k);
  }

  /** Not first-in first-out: with b and c held in that order, the later d is served before both. */
  lemma NotFirstInFirstOut()
    ensures Consistent(Fresh<char>(3)) && Store(Fresh<char>(3), 'a').state == STORED_A
    ensures Consistent(STORED_A) && Store(STORED_A, 'b').state == STORED_AB
    ensures Consistent(STORED_AB) && Store(STORED_AB, 'c').state == STORED_ABC
    ensures Consistent(STORED_ABC) && ConsumeNext(STORED_ABC).state == LEFT_BC
    ensures Consistent(LEFT_BC) && ServiceOrder(LEFT_BC) == ['b', 'c']
    ensures ServiceOrder(Store(LEFT_BC, 'd').state) == ['d', 'b', 'c']
  {
    FreshIsConsistent<char>(3);
    StoreLeads(Fresh<char>(3), 'a', 0);
    StoreAdds(Fresh<char>(3), 'a');
    StoreLeads(STORED_A, 'b', 1);
    StoreAdds(STORED_A, 'b');
    StoreLeads(STORED_AB, 'c', 2);
    StoreAdds(STORED_AB, 'c');
    ConsumeTakes(STORED_ABC);
    StoreLeads(LEFT_BC, 'd', 0);
    OrderOfThree(None, Some('b'), Some('c'), LEFT_BC);
    OrderOfThree(Some('d'), Some('b'), Some('c'), Store(LEFT_BC, 'd').state);
  }

  lemma OrderOfThree(x: Option<char>, y: Option<char>, z: Option<char>, s: Slots<char>)
    requires s.pointers == [x, y, z] && s.consumer == 0
    ensures ServiceOrder(s) == Values([x]) + Values([y]) + Values([z])
  {
    assert Rotated(s.pointers, 0) == [x, y, z];
    assert [x] + [y] + [z] == [x, y, z];
    ValuesAround([x], [y], [z]);
  }
}
