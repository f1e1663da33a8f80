/** The slots, markers and counter shared by the pointer list and the pointer queue, as a value.

    An empty slot is `None`; the two markers are slot numbers; `held` is the 8-bit counter of
    stored pointers. `NextFrom` says where a marker search ends without following the search loop.
  */
module PointerArray {
  import opened Wrappers

  datatype Slots<P> = Slots(pointers: seq<Option<P>>, producer: nat, consumer: nat, held: nat)

  /** The largest value the 8-bit counter of held pointers can take. */
  const MAX_HELD: nat := 255

  function Fresh<P>(size: nat): Slots<P> {
    Slots(seq(size, _ => None), 0, 0, 0)
  }

  /** The increment of a std::atomic_uint8_t. */
  function Increment(counter: nat): nat {
    if counter >= MAX_HELD then 0 else counter + 1
  }

  predicate IsEmpty<P>(s: Slots<P>) {
    s.held == 0
  }

  predicate IsFull<P>(s: Slots<P>) {
    s.held == |s.pointers|
  }

  function One<P>(slot: Option<P>): multiset<P> {
    match slot
    case None => multiset{}
    case Some(p) => multiset{p}
  }

  /** The pointers held, with repetitions. */
  function Contents<P>(pointers: seq<Option<P>>): multiset<P> {
    if pointers == [] then multiset{} else One(pointers[0]) + Contents(pointers[1..])
  }

  /** How many slots are occupied. */
  function Count<P>(pointers: seq<Option<P>>): nat {
    if pointers == [] then 0 else (if pointers[0].Some? then 1 else 0) + Count(pointers[1..])
  }

  ghost predicate InRange(size: nat, marker: nat) {
    if size == 0 then marker == 0 else marker < size
  }

  /** The counter is right and both markers designate a slot. */
  ghost predicate Consistent<P>(s: Slots<P>) {
    && |s.pointers| <= MAX_HELD
    && InRange(|s.pointers|, s.producer)
    && InRange(|s.pointers|, s.consumer)
    && s.held == Count(s.pointers)
  }

  /** One step of a marker, wrapping at the end. */
  function Advance(size: nat, marker: nat): (next: nat)
    requires marker < size
    ensures next < size
  {
    if marker + 1 == size then 0 else marker + 1
  }

  /** How many steps lead from one slot to another. */
  function Distance(size: nat, from: nat, to: nat): (steps: nat)
    requires from < size && to < size
    ensures steps < size
  {
    if from <= to then to - from else size - from + to
  }

  /** The first slot of [lo, hi) whose occupation is the wanted one, or hi. */
  function FirstIn<P>(pointers: seq<Option<P>>, lo: nat, hi: nat, occupied: bool): (k: nat)
    requires lo <= hi <= |pointers|
    ensures lo <= k <= hi
    ensures k < hi ==> pointers[k].Some? == occupied
    ensures forall j :: lo <= j < k ==> pointers[j].Some? != occupied
    decreases hi - lo
  {
    if lo == hi then hi
    else if pointers[lo].Some? == occupied then lo
    else FirstIn(pointers, lo + 1, hi, occupied)
  }

  ghost predicate Suitable<P>(pointers: seq<Option<P>>, k: nat, occupied: bool) {
    k < |pointers| && pointers[k].Some? == occupied
  }

  /** The first suitable slot at or after `from`, in circular order. */
  function NextFrom<P>(pointers: seq<Option<P>>, from: nat, occupied: bool): (k: nat)
    requires from < |pointers|
    requires exists j :: Suitable(pointers, j, occupied)
    ensures Suitable(pointers, k, occupied)
    ensures forall j :: Suitable(pointers, j, occupied) ==>
      Distance(|pointers|, from, k) <= Distance(|pointers|, from, j)
  {
    var k := FirstIn(pointers, from, |pointers|, occupied);
    if k < |pointers| then k else FirstIn(pointers, 0, from, occupied)
  }

  lemma {:induction false} ContentsUpdate<P>(pointers: seq<Option<P>>, k: nat, slot: Option<P>)
    requires k < |pointers|
    ensures One(pointers[k]) <= Contents(pointers)
    ensures Contents(pointers[k := slot]) == Contents(pointers) - One(pointers[k]) + One(slot)
    ensures |Contents(pointers[k := slot])| == |Contents(pointers)| - |One(pointers[k])| + |One(slot)|
  {
    var updated := pointers[k := slot];
    if k == 0 {
      assert updated[1..] == pointers[1..];
      Exchange(multiset{}, One(pointers[0]), One(slot), Contents(pointers[1..]) + One(pointers[0]));
    } else {
      ContentsUpdate(pointers[1..], k - 1, slot);
      assert updated[1..] == pointers[1..][k - 1 := slot];
      Exchange(One(pointers[0]), One(pointers[k]), One(slot), Contents(pointers[1..]));
    }
  }

  lemma Exchange<P>(kept: multiset<P>, gone: multiset<P>, new_: multiset<P>, all: multiset<P>)
    requires gone <= all
    ensures kept + (all - gone + new_) == kept + all - gone + new_
  {
  }

  lemma FillSlot<P>(pointers: seq<Option<P>>, k: nat, p: P)
    requires k < |pointers| && pointers[k] == None
    ensures Contents(pointers[k := Some(p)]) == Contents(pointers) + multiset{p}
    ensures Count(pointers[k := Some(p)]) == Count(pointers) + 1
  {
    ContentsUpdate(pointers, k, Some(p));
    ContentsCount(pointers);
    ContentsCount(pointers[k := Some(p)]);
  }

  lemma EmptySlot<P>(pointers: seq<Option<P>>, k: nat)
    requires k < |pointers| && pointers[k].Some?
    ensures pointers[k].value in Contents(pointers)
    ensures Contents(pointers[k := None]) == Contents(pointers) - multiset{pointers[k].value}
    ensures Count(pointers[k := None]) == Count(pointers) - 1
  {
    ContentsUpdate(pointers, k, None);
    ContentsCount(pointers);
    ContentsCount(pointers[k := None]);
  }

  /** A pointer is held exactly when some slot contains it. */
  lemma {:induction false} ContentsMembers<P>(pointers: seq<Option<P>>, p: P)
    ensures p in Contents(pointers) <==> Some(p) in pointers
  {
    if pointers != [] {
      ContentsMembers(pointers[1..], p);
      assert pointers == [pointers[0]] + pointers[1..];
    }
  }

  /** The number of held pointers tells whether a free or an occupied slot exists. */
  lemma {:induction false} ContentsCount<P>(pointers: seq<Option<P>>)
    ensures Count(pointers) == |Contents(pointers)| <= |pointers|
    ensures Count(pointers) < |pointers| <==> exists j :: Suitable(pointers, j, false)
    ensures Count(pointers) > 0 <==> exists j :: Suitable(pointers, j, true)
  {
    if pointers != [] {
      var rest := pointers[1..];
      ContentsCount(rest);
      forall j: nat, occupied | Suitable(rest, j, occupied) ensures Suitable(pointers, j + 1, occupied) {}
      forall j: nat, occupied | j > 0 && Suitable(pointers, j, occupied) ensures Suitable(rest, j - 1, occupied) {}
      assert Suitable(pointers, 0, pointers[0].Some?);
    }
  }

  lemma FreshIsConsistent<P>(size: nat)
    requires size <= MAX_HELD
    ensures Consistent(Fresh<P>(size)) && Contents(Fresh<P>(size).pointers) == multiset{}
  {
    var s := Fresh<P>(size);
    ContentsCount(s.pointers);
    forall j ensures !Suitable(s.pointers, j, true) {}
  }

  /** What the 8-bit counter shows once `stored` pointers are held. */
  function Counter(stored: nat): nat {
    stored % 256
  }

  lemma IncrementCounts(stored: nat)
    ensures Increment(Counter(stored)) == Counter(stored + 1)
  {
  }

  /** The fullness test tells a full array from every other one exactly when the capacity fits the
      8-bit counter; with 256 slots or more it never reports a full array. */
  lemma CounterTellsFullness(size: nat)
    ensures (forall stored: nat :: stored <= size ==> (Counter(stored) == size <==> stored == size))
            <==> size <= 255
  {
    if size > 255 {
      assert Counter(size) != size;
    }
  }

  /** A search ends where it starts, or one step further, when that slot is the first suitable one. */
  lemma NextIs<P>(pointers: seq<Option<P>>, from: nat, occupied: bool, k: nat)
    requires from < |pointers| && Suitable(pointers, k, occupied)
    requires k == if pointers[from].Some? == occupied then from else Advance(|pointers|, from)
    ensures NextFrom(pointers, from, occupied) == k
  {
    assert Distance(|pointers|, from, k) <= 1;
    assert pointers[from].Some? == occupied ==> Suitable(pointers, from, occupied);
  }

  /** A marker standing on an unsuitable slot can be moved one step without changing where the search ends. */
  lemma SearchStep<P>(pointers: seq<Option<P>>, marker: nat, occupied: bool)
    requires marker < |pointers| && pointers[marker].Some? != occupied
    requires exists j :: Suitable(pointers, j, occupied)
    ensures var next := Advance(|pointers|, marker);
      var target := NextFrom(pointers, marker, occupied);
      && NextFrom(pointers, next, occupied) == target
      && Distance(|pointers|, next, target) + 1 == Distance(|pointers|, marker, target)
  {
  }
}
