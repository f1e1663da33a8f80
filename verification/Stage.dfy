/** One scheduler with the buffers linked to it, seen from outside: what was written to each buffer, what the
    sink was handed, and whether the termination order was given.
  */
module Stage {
  import opened Wrappers
  import opened Engine
  import RingSpec
  import S = SchedulerSpec
  import PointerArray

  /** The only scheduler of a stage, and the only buffer of most stages. */
  datatype Only = Only

  type Stage<T, B> = Engine<T, B, Only>

  /** A stage in a state that can be reached once its buffers are linked. */
  ghost predicate Linked<T, B>(e: Stage<T, B>, buffers: set<B>, default: T) {
    && Invariant(e, default)
    && e.rings.Keys == buffers && Only in e.schedulers
    && forall b | b in buffers :: b in S.Linked(e.schedulers[Only])
  }

  ghost function Written<T, B>(e: Stage<T, B>, b: B): seq<T> {
    if b in e.written then e.written[b] else []
  }

  /** What the sink was handed from one buffer. */
  ghost function Taken<T, B>(e: Stage<T, B>, b: B): seq<T> {
    if Only in e.delivered then Stream(e, Only, b) else []
  }

  ghost predicate Stopped<T, B>(e: Stage<T, B>) {
    Only in e.schedulers && e.schedulers[Only].terminated
  }

  ghost predicate HasInput<T, B>(e: Stage<T, B>) {
    Only in e.schedulers && !PointerArray.IsEmpty(e.schedulers[Only].ready)
  }

  ghost predicate MayExit<T, B>(e: Stage<T, B>) {
    Only in e.schedulers && !S.CannotExitSafely(e.schedulers[Only])
  }

  ghost predicate MayWrite<T, B>(e: Stage<T, B>, b: B, data: T) {
    Allowed(e, Write(b, data))
  }

  lemma WriteLeaves<T, B>(e: Stage<T, B>, b: B, data: T)
    requires Shaped(e) && b in e.rings && Only in e.schedulers
    ensures var e' := WriteStep(e, b, data);
      && e'.rings.Keys == e.rings.Keys && Only in e'.schedulers
      && S.Linked(e'.schedulers[Only]) == S.Linked(e.schedulers[Only])
      && e'.schedulers[Only].terminated == e.schedulers[Only].terminated
  {
    NotifiedKeepsPartition(RingSpec.Write(e.rings[b], data), b, Only, e.schedulers[Only]);
  }

  lemma Writes<T, B>(e: Stage<T, B>, buffers: set<B>, default: T, b: B, data: T)
    requires Linked(e, buffers, default) && MayWrite(e, b, data)
    ensures var e' := WriteStep(e, b, data);
      && Linked(e', buffers, default)
      && b in e.written && e'.written == e.written[b := e.written[b] + [data]]
      && e'.delivered == e.delivered
      && (Stopped(e') <==> Stopped(e))
  {
    WriteKeeps(e, b, data, default);
    WriteLeaves(e, b, data);
  }

  /** A turn of the scheduler's loop now hands this datum of this buffer to the sink. */
  ghost predicate Hands<T, B>(e: Stage<T, B>, b: B, data: T) {
    && Shaped(e) && HasInput(e)
    && ServeStep(e, Only).delivered[Only] == e.delivered[Only] + [(b, data)]
  }

  /** A scheduler with input can always take a turn. */
  lemma HandsSomething<T, B>(e: Stage<T, B>, buffers: set<B>, default: T) returns (b: B, data: T)
    requires Linked(e, buffers, default) && HasInput(e)
    ensures Hands(e, b, data)
  {
    ReadyIsInput(e, buffers, default);
    b := ServeHandsOver(e, Only, default);
    data := RingSpec.Consume(e.rings[b], Only).1;
  }

  lemma Serves<T, B>(e: Stage<T, B>, buffers: set<B>, default: T, b: B, data: T)
    requires Linked(e, buffers, default) && Hands(e, b, data)
    ensures b in buffers && |Taken(e, b)| < |Written(e, b)| && data == Written(e, b)[|Taken(e, b)|]
    ensures var e' := ServeStep(e, Only);
      && Linked(e', buffers, default)
      && e'.written == e.written
      && Taken(e', b) == Taken(e, b) + [data]
      && (forall c | c in buffers && c != b :: Taken(e', c) == Taken(e, c))
      && (Stopped(e') <==> Stopped(e))
  {
    ReadyIsInput(e, buffers, default);
    ServeKeeps(e, Only, default);
    var served := ServeHandsOver(e, Only, default);
    var (ring, next) := RingSpec.Consume(e.rings[served], Only);
    assert (e.delivered[Only] + [(served, next)])[|e.delivered[Only]|] == (b, data);
    S.NextInputKeepsPartition(e.schedulers[Only]);
    ServedKeepsPartition(S.NextInput(e.schedulers[Only]).state, Only, b, ring);
    forall c ensures Taken(ServeStep(e, Only), c) == Taken(e, c) + (if b == c then [data] else []) {
      FromAppend(e.delivered[Only], (b, data), c);
    }
  }

  /** Neither a write nor a turn gives the termination order. */
  lemma WriteStopsNobody<T, B>(e: Stage<T, B>, b: B, data: T)
    requires MayWrite(e, b, data)
    ensures Stopped(WriteStep(e, b, data)) <==> Stopped(e)
    ensures Only in WriteStep(e, b, data).schedulers <==> Only in e.schedulers
  {
    if Only in e.schedulers { WriteLeaves(e, b, data); }
  }

  lemma ServeStopsNobody<T, B>(e: Stage<T, B>, b: B, data: T)
    requires Hands(e, b, data)
    ensures Stopped(ServeStep(e, Only)) <==> Stopped(e)
    ensures Only in ServeStep(e, Only).schedulers <==> Only in e.schedulers
  {
    var next := S.NextInput(e.schedulers[Only]);
    S.NextInputKeepsPartition(e.schedulers[Only]);
    if next.outcome.Returned? && next.outcome.value in e.rings {
      var c := next.outcome.value;
      ServedKeepsPartition(next.state, Only, c, RingSpec.Consume(e.rings[c], Only).0);
    }
  }

  lemma ReadyIsInput<T, B>(e: Stage<T, B>, buffers: set<B>, default: T)
    requires Linked(e, buffers, default)
    ensures HasInput(e) <==> S.Ready(e.schedulers[Only]) != multiset{}
  {
    PointerArray.ContentsCount(e.schedulers[Only].ready.pointers);
  }

  lemma Stops<T, B>(e: Stage<T, B>, buffers: set<B>, default: T)
    requires Linked(e, buffers, default)
    ensures var e' := TerminateStep(e, Only);
      && Linked(e', buffers, default)
      && e'.written == e.written && e'.delivered == e.delivered && Stopped(e')
  {
    TerminateKeeps(e, Only, default);
    S.TerminateKeepsPartition(e.schedulers[Only]);
  }

  /** A scheduler whose loop ends was stopped, and has handed over all that was written to its buffers. */
  lemma Exits<T, B>(e: Stage<T, B>, buffers: set<B>, default: T, b: B)
    requires Linked(e, buffers, default) && MayExit(e) && b in buffers
    ensures Stopped(e) && Taken(e, b) == Written(e, b)
  {
    ExitLosesNothing(e, default, Only, b);
  }

  lemma RoomMeansWrite<T, B>(e: Stage<T, B>, b: B, data: T)
    requires Shaped(e) && b in e.rings && Only in e.schedulers && |Written(e, b)| - |Taken(e, b)| <= 254
    ensures MayWrite(e, b, data)
  {
    assert forall s | s in e.schedulers :: s == Only;
  }

  /** Where a write has to wait, there is something to take. */
  lemma WaitingMeansInput<T, B>(e: Stage<T, B>, buffers: set<B>, default: T, b: B, data: T)
    requires Linked(e, buffers, default) && b in buffers && !MayWrite(e, b, data)
    ensures HasInput(e)
  {
    if |Written(e, b)| - |Taken(e, b)| <= 254 {
      RoomMeansWrite(e, b, data);
    } else {
      UnreadMeansInput(e, buffers, default, b);
    }
  }

  lemma UnreadMeansInput<T, B>(e: Stage<T, B>, buffers: set<B>, default: T, b: B)
    requires Linked(e, buffers, default) && b in buffers && |Written(e, b)| > |Taken(e, b)|
    ensures HasInput(e)
  {
    FitsInFull(e, default, Only, b);
    ReadyIsInput(e, buffers, default);
  }

  // ---------------------------------------------------------------------------------------------
  // Linking

  /** A stage whose buffers are being linked: these ones are, and there is room for more. */
  ghost predicate Linking<T, B>(e: Stage<T, B>, buffers: set<B>, linked: multiset<B>, inputs: nat, default: T) {
    && Invariant(e, default)
    && e.rings.Keys == buffers && Only in e.schedulers
    && (forall b | b in e.written :: e.written[b] == []) && (forall s | s in e.delivered :: e.delivered[s] == [])
    && (var s := e.schedulers[Only]; S.Linked(s) == linked && !s.terminated && S.Capacity(s) == inputs)
  }

  lemma StartIsLinking<T, B>(buffers: set<B>, inputs: nat, default: T)
    requires inputs <= PointerArray.MAX_HELD
    ensures Linking(Start(buffers, map[Only := inputs], default), buffers, multiset{}, inputs, default)
  {
    StartInvariant(buffers, map[Only := inputs], default);
    S.NewIsPartition<B>(inputs);
  }

  lemma LinkLeaves<T, B>(e: Stage<T, B>, linked: multiset<B>, inputs: nat, b: B)
    requires Shaped(e) && Only in e.schedulers && b in e.rings
    requires var s := e.schedulers[Only]; S.Linked(s) == linked && !s.terminated && S.Capacity(s) == inputs
    requires b !in linked && |linked| < inputs
    ensures var e' := LinkStep(e, Only, b);
      && e'.rings.Keys == e.rings.Keys && Only in e'.schedulers
      && e'.written == e.written && e'.delivered == e.delivered
      && var s := e'.schedulers[Only]; S.Linked(s) == linked + multiset{b} && !s.terminated && S.Capacity(s) == inputs
  {
    SchedulerLinks(e.schedulers[Only], b);
    LinkStepIs(e, Only, b);
  }

  lemma SchedulerLinks<B>(s: S.Scheduler<B>, b: B)
    requires S.Partition(s) && b !in S.Linked(s) && !s.terminated && |S.Linked(s)| < S.Capacity(s)
    ensures var r := S.LinkWith(s, b);
      && r.outcome.Returned? && S.Linked(r.state) == S.Linked(s) + multiset{b}
      && !r.state.terminated && S.Capacity(r.state) == S.Capacity(s)
  {
    S.LinkKeepsPartition(s, b);
  }

  lemma Links<T, B>(e: Stage<T, B>, buffers: set<B>, linked: multiset<B>, inputs: nat, default: T, b: B)
    requires Linking(e, buffers, linked, inputs, default)
    requires b in buffers && b !in linked && |linked| < inputs
    ensures Linking(LinkStep(e, Only, b), buffers, linked + multiset{b}, inputs, default)
  {
    LinkKeeps(e, Only, b, default);
    LinkLeaves(e, linked, inputs, b);
  }

  ghost function Unlinked<T, B>(buffers: set<B>, inputs: nat, default: T): (e: Stage<T, B>)
    requires inputs <= PointerArray.MAX_HELD
    ensures Linking(e, buffers, multiset{}, inputs, default)
  {
    StartIsLinking(buffers, inputs, default);
    Start(buffers, map[Only := inputs], default)
  }

  ghost function LinkOne<T, B>(
      e: Stage<T, B>, buffers: set<B>, linked: multiset<B>, inputs: nat, default: T, b: B): (e': Stage<T, B>)
    requires Linking(e, buffers, linked, inputs, default)
    requires b in buffers && b !in linked && |linked| < inputs
    ensures Linking(e', buffers, linked + multiset{b}, inputs, default)
  {
    Links(e, buffers, linked, inputs, default, b);
    LinkStep(e, Only, b)
  }

  lemma LastApart<B>(bs: seq<B>)
    requires bs != [] && forall i, j :: 0 <= i < j < |bs| ==> bs[i] != bs[j]
    ensures multiset(bs) == multiset(bs[..|bs| - 1]) + multiset{bs[|bs| - 1]} && bs[|bs| - 1] !in bs[..|bs| - 1]
  {
    assert bs == bs[..|bs| - 1] + [bs[|bs| - 1]];
  }

  /** A scheduler for `inputs` buffers, linked to these, one after the other. */
  ghost function LinkAll<T, B>(buffers: set<B>, bs: seq<B>, inputs: nat, default: T): (e: Stage<T, B>)
    requires |bs| <= inputs <= PointerArray.MAX_HELD
    requires forall i :: 0 <= i < |bs| ==> bs[i] in buffers
    requires forall i, j :: 0 <= i < j < |bs| ==> bs[i] != bs[j]
    ensures Linking(e, buffers, multiset(bs), inputs, default)
    decreases |bs|
  {
    if bs == [] then Unlinked(buffers, inputs, default)
    else
      LastApart(bs);
      var e := LinkAll(buffers, bs[..|bs| - 1], inputs, default);
      LinkOne(e, buffers, multiset(bs[..|bs| - 1]), inputs, default, bs[|bs| - 1])
  }

  /** A stage whose buffers are linked and nothing else has happened to. */
  ghost predicate Untouched<T, B>(e: Stage<T, B>, buffers: set<B>, default: T) {
    Linked(e, buffers, default) && !Stopped(e) && forall b | b in buffers :: Written(e, b) == [] && Taken(e, b) == []
  }

  lemma LinkingEnds<T, B>(e: Stage<T, B>, buffers: set<B>, linked: multiset<B>, inputs: nat, default: T)
    requires Linking(e, buffers, linked, inputs, default) && forall b | b in buffers :: b in linked
    ensures Untouched(e, buffers, default)
  {
  }

  /** A scheduler of one buffer. */
  ghost function NewStage<T>(default: T): (e: Stage<T, Only>)
    ensures Untouched(e, {Only}, default)
  {
    var e := LinkAll({Only}, [Only], 1, default);
    LinkingEnds(e, {Only}, multiset([Only]), 1, default);
    e
  }

  lemma TakenIsPrefix<T>(e: Stage<T, Only>, default: T)
    requires Linked(e, {Only}, default)
    ensures Taken(e, Only) <= Written(e, Only)
  {
    FitsInFull(e, default, Only, Only);
  }
}
