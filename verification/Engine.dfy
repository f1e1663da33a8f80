/** Ring buffers and schedulers running together.

    A state holds any number of buffers and schedulers, each buffer read by any number of schedulers and
    each scheduler reading any number of buffers. One step is a link, a write with its notification, one
    turn of a scheduler's loop, or a termination order. Two logs record what was written to each buffer
    and what each scheduler handed to its sink.
  */
module Engine {
  import opened Wrappers
  import opened RingSpec
  import S = SchedulerSpec
  import opened PointerArray

  datatype Engine<T, B, I> = Engine(
    rings: map<B, Ring<T, I>>,
    schedulers: map<I, S.Scheduler<B>>,
    written: map<B, seq<T>>,
    delivered: map<I, seq<(B, T)>>)

  datatype Step<T, B, I> = Link(s: I, b: B) | Write(b: B, data: T) | Serve(s: I) | Terminate(s: I)

  /** The data of one buffer in a scheduler's deliveries. */
  function From<T, B(==)>(delivered: seq<(B, T)>, b: B): seq<T> {
    if delivered == [] then []
    else (if delivered[0].0 == b then [delivered[0].1] else []) + From(delivered[1..], b)
  }

  lemma {:induction false} FromAppend<T, B>(delivered: seq<(B, T)>, x: (B, T), b: B)
    ensures From(delivered + [x], b) == From(delivered, b) + (if x.0 == b then [x.1] else [])
  {
    if delivered == [] {
      assert [] + [x] == [x];
    } else {
      FromAppend(delivered[1..], x, b);
      assert (delivered + [x])[1..] == delivered[1..] + [x];
    }
  }

  /** The data of all buffers in a scheduler's deliveries, as the sink gets them. */
  function Data<T, B>(delivered: seq<(B, T)>): seq<T> {
    seq(|delivered|, i requires 0 <= i < |delivered| => delivered[i].1)
  }

  lemma DataAppend<T, B>(earlier: seq<T>, delivered: seq<(B, T)>, x: (B, T))
    ensures earlier + Data(delivered + [x]) == earlier + Data(delivered) + [x.1]
  {
    assert Data(delivered + [x]) == Data(delivered) + [x.1];
  }

  // ---------------------------------------------------------------------------------------------
  // One buffer and one of its schedulers

  ghost predicate RingFits<T, I>(ring: Ring<T, I>, written: seq<T>, default: T) {
    && WellFormed(ring)
    && ring.writer == |written| % 256
    && forall j :: 0 <= j < RING_BUFFER_SIZE ==> ring.pads[j] == Latest(written, j, default)
  }

  /** The consumer was handed a prefix of the history, lags at most 255 behind it, and is ready for the
      buffer exactly when something is left to read. */
  ghost predicate ChannelFits<T, I>(ring: Ring<T, I>, written: seq<T>, c: I, stream: seq<T>, ready: bool) {
    && c in ring.cursors
    && ring.cursors[c] == |stream| % 256
    && |stream| <= |written| <= |stream| + 255
    && stream == written[..|stream|]
    && (ready <==> |stream| < |written|)
  }

  lemma WriteFits<T, I>(ring: Ring<T, I>, written: seq<T>, data: T, default: T)
    requires RingFits(ring, written, default)
    ensures RingFits(RingSpec.Write(ring, data), written + [data], default)
  {
    var ring' := RingSpec.Write(ring, data);
    forall j | 0 <= j < RING_BUFFER_SIZE ensures ring'.pads[j] == Latest(written + [data], j, default) {
      LatestAfterWrite(written, data, j, default);
    }
  }

  lemma PendingIsLag<T, I>(ring: Ring<T, I>, written: seq<T>, c: I, stream: seq<T>, ready: bool, default: T)
    requires RingFits(ring, written, default) && ChannelFits(ring, written, c, stream, ready)
    ensures Lags(ring, c) <==> |stream| < |written|
  {
    if |stream| < |written| { SamePad(|stream|, |written| - |stream|); }
  }

  lemma WriteFitsChannel<T, I>(ring: Ring<T, I>, written: seq<T>, c: I, stream: seq<T>, ready: bool, data: T,
      default: T)
    requires RingFits(ring, written, default) && ChannelFits(ring, written, c, stream, ready)
    requires |written| - |stream| <= 254
    ensures Lags(RingSpec.Write(ring, data), c)
    ensures ChannelFits(RingSpec.Write(ring, data), written + [data], c, stream, true)
  {
    SamePad(|stream|, |written| + 1 - |stream|);
  }

  lemma ReadsNext<T, I>(ring: Ring<T, I>, written: seq<T>, c: I, stream: seq<T>, default: T)
    requires RingFits(ring, written, default) && ChannelFits(ring, written, c, stream, true)
    ensures Lags(ring, c) && Read(ring, c) == written[|stream|]
  {
    PendingIsLag(ring, written, c, stream, true, default);
    LatestOfRecent(written, |stream|, default);
  }

  lemma AdvanceKeepsRing<T, I>(ring: Ring<T, I>, written: seq<T>, c: I, default: T)
    requires RingFits(ring, written, default) && Lags(ring, c)
    ensures RingFits(Advanced(ring, c), written, default)
  {
  }

  lemma AdvanceFits<T, I>(ring: Ring<T, I>, written: seq<T>, c: I, stream: seq<T>, default: T)
    requires RingFits(ring, written, default) && ChannelFits(ring, written, c, stream, true) && Lags(ring, c)
    ensures var ring' := Advanced(ring, c);
      && RingFits(ring', written, default)
      && ChannelFits(ring', written, c, stream + [written[|stream|]], Lags(ring', c))
  {
    AdvanceKeepsRing(ring, written, c, default);
    AdvanceCounts(ring, c, |stream|);
    assert written[..|stream|] + [written[|stream|]] == written[..|stream| + 1];
    if |stream| + 1 < |written| {
      SamePad(|stream| + 1, |written| - |stream| - 1);
    }
  }

  /** A consumption by a ready consumer hands over the next write and readies it again exactly when it lags. */
  lemma ConsumeFitsChannel<T, I>(ring: Ring<T, I>, written: seq<T>, c: I, stream: seq<T>, default: T)
    requires RingFits(ring, written, default) && ChannelFits(ring, written, c, stream, true)
    ensures var (ring', data) := Consume(ring, c);
      && data == written[|stream|]
      && RingFits(ring', written, default)
      && ChannelFits(ring', written, c, stream + [data], Lags(ring', c))
  {
    ReadsNext(ring, written, c, stream, default);
    AdvanceFits(ring, written, c, stream, default);
  }

  /** What the notification that follows a write makes of one scheduler. */
  function Notified<T, B(==), I(==)>(ring: Ring<T, I>, b: B, s: I, scheduler: S.Scheduler<B>): S.Scheduler<B>
    requires S.Consistent(scheduler)
  {
    if Lags(ring, s) then S.ActivateFor(scheduler, b).state else scheduler
  }

  /** The scheduler and the buffer know of each other or neither does; if they do, the channel fits. */
  ghost predicate PairFits<T, B, I>(s: I, b: B, ring: Ring<T, I>, written: seq<T>, scheduler: S.Scheduler<B>,
                                    delivered: seq<(B, T)>)
  {
    && (s in ring.cursors <==> b in S.Linked(scheduler))
    && (if b in S.Linked(scheduler)
        then ChannelFits(ring, written, s, From(delivered, b), b in S.Ready(scheduler))
        else From(delivered, b) == [])
  }

  /** Changes that do not concern the pair. */
  ghost predicate SameInScheduler<B>(c: B, before: S.Scheduler<B>, after: S.Scheduler<B>) {
    && (c in S.Linked(after) <==> c in S.Linked(before))
    && (c in S.Ready(after) <==> c in S.Ready(before))
  }

  ghost predicate SameInRing<T, I>(t: I, before: Ring<T, I>, after: Ring<T, I>) {
    && (t in after.cursors <==> t in before.cursors)
    && (t in before.cursors && t in after.cursors ==> after.cursors[t] == before.cursors[t])
  }

  /** A new ring and a new scheduler that differ from the old ones only in what concerns s and b. */
  ghost predicate Local<T, B, I>(s: I, b: B, ring: Ring<T, I>, ring': Ring<T, I>,
                                 scheduler: S.Scheduler<B>, scheduler': S.Scheduler<B>)
  {
    && ring'.cursors.Keys <= ring.cursors.Keys + {s}
    && (forall t | t in ring.cursors.Keys + ring'.cursors.Keys && t != s :: SameInRing(t, ring, ring'))
    && (forall c | c in S.Linked(scheduler) + S.Linked(scheduler')
      && c != b :: SameInScheduler(c, scheduler, scheduler'))
  }

  lemma SamePairFits<T, B, I>(t: I, c: B, ring: Ring<T, I>, ring': Ring<T, I>, written: seq<T>,
                              scheduler: S.Scheduler<B>, scheduler': S.Scheduler<B>,
                              delivered: seq<(B, T)>, delivered': seq<(B, T)>)
    requires PairFits(t, c, ring, written, scheduler, delivered)
    requires SameInScheduler(c, scheduler, scheduler') && SameInRing(t, ring, ring')
    requires From(delivered', c) == From(delivered, c)
    ensures PairFits(t, c, ring', written, scheduler', delivered')
  {
  }

  /** The scheduler with b added to the buffers without data. */
  ghost predicate WithLink<B>(before: S.Scheduler<B>, b: B, after: S.Scheduler<B>) {
    && S.Partition(after) && S.Ready(after) == S.Ready(before)
    && S.NotReady(after) == S.NotReady(before) + multiset{b}
  }

  lemma LinkPair<T, B, I>(s: I, b: B, ring: Ring<T, I>, scheduler: S.Scheduler<B>, scheduler': S.Scheduler<B>,
                          delivered: seq<(B, T)>, default: T)
    requires RingFits(ring, [], default) && PairFits(s, b, ring, [], scheduler, delivered)
    requires b !in S.Linked(scheduler) && WithLink(scheduler, b, scheduler')
    ensures var ring' := RingSpec.Link(ring, s);
      && RingFits(ring', [], default)
      && PairFits(s, b, ring', [], scheduler', delivered)
      && Local(s, b, ring, ring', scheduler, scheduler')
  {
    LinkedWith(scheduler, b, scheduler');
    LinkStarts(ring, s, From(delivered, b));
    forall c | c in S.Linked(scheduler) + S.Linked(scheduler') && c != b
      ensures SameInScheduler(c, scheduler, scheduler') {
    }
  }

  lemma LinkedWith<B>(scheduler: S.Scheduler<B>, b: B, scheduler': S.Scheduler<B>)
    requires WithLink(scheduler, b, scheduler') && b !in S.Linked(scheduler)
    ensures S.Linked(scheduler') == S.Linked(scheduler) + multiset{b}
    ensures b in S.Linked(scheduler') && b !in S.Ready(scheduler')
  {
  }

  /** A consumer linked before the first write stands where the writer stands. */
  lemma LinkStarts<T, I>(ring: Ring<T, I>, s: I, stream: seq<T>)
    requires WellFormed(ring) && ring.writer == 0 && s !in ring.cursors && stream == []
    ensures ChannelFits(RingSpec.Link(ring, s), [], s, stream, false)
  {
  }

  lemma NotifiedKeepsPartition<T, B, I>(ring: Ring<T, I>, b: B, s: I, scheduler: S.Scheduler<B>)
    requires S.Partition(scheduler)
    ensures var after := Notified(ring, b, s, scheduler);
      && S.Partition(after) && S.Linked(after) == S.Linked(scheduler) && S.Capacity(after) == S.Capacity(scheduler)
      && after.terminated == scheduler.terminated
      && S.Ready(after) == S.Ready(scheduler)
                           + (if Lags(ring, s) && b in S.NotReady(scheduler) then multiset{b} else multiset{})
  {
    S.ActivateKeepsPartition(scheduler, b);
  }

  lemma WritePair<T, B, I>(s: I, b: B, ring: Ring<T, I>, written: seq<T>, scheduler: S.Scheduler<B>,
                           delivered: seq<(B, T)>, data: T, default: T)
    requires RingFits(ring, written, default) && PairFits(s, b, ring, written, scheduler, delivered)
    requires S.Partition(scheduler)
    requires b in S.Linked(scheduler) ==> |written| - |From(delivered, b)| <= 254
    ensures var ring' := RingSpec.Write(ring, data);
      PairFits(s, b, ring', written + [data], Notified(ring', b, s, scheduler), delivered)
  {
    NotifiedKeepsPartition(RingSpec.Write(ring, data), b, s, scheduler);
    if b in S.Linked(scheduler) {
      WriteFitsChannel(ring, written, s, From(delivered, b), b in S.Ready(scheduler), data, default);
    }
  }

  /** What serving b makes of the scheduler that read `ring` for it. */
  function Served<T, B(==), I(==)>(scheduler: S.Scheduler<B>, s: I, b: B, ring: Ring<T, I>): S.Scheduler<B>
    requires S.Consistent(scheduler)
  {
    if Lags(ring, s) then scheduler else S.DeactivateFor(scheduler, b).state
  }

  lemma ServedKeepsPartition<T, B, I>(scheduler: S.Scheduler<B>, s: I, b: B, ring: Ring<T, I>)
    requires S.Partition(scheduler) && b in S.Ready(scheduler)
    ensures var after := Served(scheduler, s, b, ring);
      && S.Partition(after) && S.Linked(after) == S.Linked(scheduler) && S.Capacity(after) == S.Capacity(scheduler)
      && after.terminated == scheduler.terminated
      && (b in S.Ready(after) <==> Lags(ring, s))
      && (forall c | c in S.Ready(after) :: c in S.Ready(scheduler))
      && (forall c | c in S.Ready(scheduler) && c != b :: c in S.Ready(after))
  {
    S.DeactivateKeepsPartition(scheduler, b);
    S.PartitionIsExclusive(scheduler, b);
  }

  /** A turn either keeps serving the same buffer or takes it out of the ready ones. */
  lemma TurnProgress<T, B, I>(scheduler: S.Scheduler<B>, s: I, b: B, ring: Ring<T, I>)
    requires S.Partition(scheduler) && S.NextInput(scheduler).outcome == Returned(b)
    ensures var after := Served(S.NextInput(scheduler).state, s, b, ring);
      && S.Partition(after) && S.Linked(after) == S.Linked(scheduler) && after.terminated == scheduler.terminated
      && b in S.Ready(scheduler)
      && (Lags(ring, s) ==> S.Ready(after) == S.Ready(scheduler) && S.NextInput(after).outcome == Returned(b))
      && (!Lags(ring, s) ==> S.Ready(after) == S.Ready(scheduler) - multiset{b})
      && (b in S.Ready(after) <==> Lags(ring, s))
    ensures forall c | c in S.Ready(Served(S.NextInput(scheduler).state, s, b, ring)) :: c in S.Ready(scheduler)
    ensures forall c | c in S.Ready(scheduler)
      && c != b :: c in S.Ready(Served(S.NextInput(scheduler).state, s, b, ring))
  {
    var peeked := S.NextInput(scheduler).state;
    S.NextInputKeepsPartition(scheduler);
    S.PartitionIsExclusive(peeked, b);
    if Lags(ring, s) {
      S.PeekStartsService(scheduler);
      S.ServedAgain(peeked.ready, b);
    } else {
      S.DeactivateKeepsPartition(peeked, b);
    }
  }

  lemma ServePair<T, B, I>(s: I, b: B, ring: Ring<T, I>, written: seq<T>, scheduler: S.Scheduler<B>,
                           scheduler': S.Scheduler<B>, delivered: seq<(B, T)>, default: T)
    requires RingFits(ring, written, default) && PairFits(s, b, ring, written, scheduler, delivered)
    requires b in S.Ready(scheduler) && S.Linked(scheduler') == S.Linked(scheduler)
    requires b in S.Ready(scheduler') <==> Lags(Consume(ring, s).0, s)
    requires forall c | c in S.Linked(scheduler) && c != b :: c in S.Ready(scheduler') <==> c in S.Ready(scheduler)
    ensures var (ring', data) := Consume(ring, s);
      && RingFits(ring', written, default)
      && PairFits(s, b, ring', written, scheduler', delivered + [(b, data)])
      && Local(s, b, ring, ring', scheduler, scheduler')
  {
    FromAppend(delivered, (b, Consume(ring, s).1), b);
    ConsumeFitsChannel(ring, written, s, From(delivered, b), default);
  }

  // ---------------------------------------------------------------------------------------------
  // The steps

  ghost predicate Keyed<T, B, I>(e: Engine<T, B, I>) {
    e.rings.Keys == e.written.Keys && e.schedulers.Keys == e.delivered.Keys
  }

  ghost predicate Shaped<T, B, I>(e: Engine<T, B, I>) {
    && Keyed(e)
    && (forall b | b in e.rings :: WellFormed(e.rings[b]))
    && (forall s {:trigger e.schedulers[s]} | s in e.schedulers :: S.Partition(e.schedulers[s]))
  }

  /** linkWith: the scheduler's bookkeeping first, then the buffer's. */
  function LinkStep<T, B(==), I(==)>(e: Engine<T, B, I>, s: I, b: B): Engine<T, B, I>
    requires Shaped(e) && s in e.schedulers && b in e.rings
  {
    var r := S.LinkWith(e.schedulers[s], b);
    if r.outcome.Thrown? then e
    else e.(schedulers := e.schedulers[s := r.state], rings := e.rings[b := RingSpec.Link(e.rings[b], s)])
  }

  function WriteStep<T, B(==), I(==)>(e: Engine<T, B, I>, b: B, data: T): Engine<T, B, I>
    requires Shaped(e) && b in e.rings
  {
    var ring := RingSpec.Write(e.rings[b], data);
    e.(rings := e.rings[b := ring],
       written := e.written[b := e.written[b] + [data]],
       schedulers := map s | s in e.schedulers :: Notified(ring, b, s, e.schedulers[s]))
  }

  /** One turn of the drain loop: peek at the next ready buffer, consume from it, hand the datum to the
      sink; a buffer without further data goes back to the other list. */
  function ServeStep<T, B(==), I(==)>(e: Engine<T, B, I>, s: I): Engine<T, B, I>
    requires Shaped(e) && s in e.schedulers
  {
    var next := S.NextInput(e.schedulers[s]);
    if next.outcome.Thrown? || next.outcome.value !in e.rings then e
    else
      S.NextInputKeepsPartition(e.schedulers[s]);
      var b := next.outcome.value;
      var (ring, data) := Consume(e.rings[b], s);
      Engine(e.rings[b := ring], e.schedulers[s := Served(next.state, s, b, ring)], e.written,
             e.delivered[s := e.delivered[s] + [(b, data)]])
  }


  function TerminateStep<T, B, I(==)>(e: Engine<T, B, I>, s: I): Engine<T, B, I>
    requires s in e.schedulers
  {
    e.(schedulers := e.schedulers[s := S.Terminate(e.schedulers[s])])
  }

  ghost predicate Exists<T, B, I>(e: Engine<T, B, I>, step: Step<T, B, I>) {
    match step
    case Link(s, b) => s in e.schedulers && b in e.rings
    case Write(b, _) => b in e.rings
    case Serve(s) => s in e.schedulers
    case Terminate(s) => s in e.schedulers
  }

  function Apply<T, B(==), I(==)>(e: Engine<T, B, I>, step: Step<T, B, I>): Engine<T, B, I>
    requires Shaped(e) && Exists(e, step)
  {
    match step
    case Link(s, b) => LinkStep(e, s, b)
    case Write(b, data) => WriteStep(e, b, data)
    case Serve(s) => ServeStep(e, s)
    case Terminate(s) => TerminateStep(e, s)
  }

  // ---------------------------------------------------------------------------------------------
  // The invariant

  ghost function Stream<T, B, I>(e: Engine<T, B, I>, s: I, b: B): seq<T>
    requires s in e.delivered
  {
    From(e.delivered[s], b)
  }

  ghost predicate Fits<T, B, I>(e: Engine<T, B, I>, s: I, b: B)
    requires Keyed(e) && s in e.schedulers && b in e.rings
  {
    PairFits(s, b, e.rings[b], e.written[b], e.schedulers[s], e.delivered[s])
  }

  /** Buffers and schedulers know no others than those of the state. */
  ghost predicate Closed<T, B, I>(e: Engine<T, B, I>) {
    && (forall b | b in e.rings :: e.rings[b].cursors.Keys <= e.schedulers.Keys)
    && (forall s, b | s in e.schedulers && b in S.Linked(e.schedulers[s]) :: b in e.rings)
  }

  ghost predicate RingsFit<T, B, I>(e: Engine<T, B, I>, default: T)
    requires Keyed(e)
  {
    forall b | b in e.rings :: RingFits(e.rings[b], e.written[b], default)
  }

  ghost predicate Invariant<T, B, I>(e: Engine<T, B, I>, default: T) {
    && Shaped(e)
    && Closed(e)
    && RingsFit(e, default)
    && AllFit(e)
  }

  ghost predicate AllFit<T, B, I>(e: Engine<T, B, I>)
    requires Keyed(e)
  {
    forall s, b {:trigger Fits(e, s, b)} | s in e.schedulers && b in e.rings :: Fits(e, s, b)
  }

  /** The runs considered: buffers are linked before their first write, and no write finds a scheduler of
      the buffer more than 254 writes behind. */
  ghost predicate Allowed<T, B, I>(e: Engine<T, B, I>, step: Step<T, B, I>) {
    && Exists(e, step)
    && Shaped(e)
    && match step
       case Link(_, b) => e.written[b] == []
       case Write(b, _) =>
         forall s | s in e.schedulers && b in S.Linked(e.schedulers[s]) :: |e.written[b]| - |Stream(e, s, b)| <= 254
       case Serve(_) => true
       case Terminate(_) => true
  }

  // The same engine with one scheduler, its deliveries and one ring replaced.

  lemma ReplacedShape<T, B, I>(e: Engine<T, B, I>, s: I, b: B, ring: Ring<T, I>, scheduler: S.Scheduler<B>,
                               delivered: seq<(B, T)>, default: T, e': Engine<T, B, I>)
    requires Shaped(e) && Closed(e) && RingsFit(e, default) && s in e.schedulers && b in e.rings
    requires e' == Engine(e.rings[b := ring], e.schedulers[s := scheduler], e.written, e.delivered[s := delivered])
    requires S.Partition(scheduler) && RingFits(ring, e.written[b], default)
    requires Local(s, b, e.rings[b], ring, e.schedulers[s], scheduler)
    ensures Shaped(e') && Closed(e') && RingsFit(e', default)
  {
    assert Keyed(e');
    forall t | t in e'.schedulers ensures S.Partition(e'.schedulers[t]) {
      assert t != s ==> e'.schedulers[t] == e.schedulers[t];
    }
    forall c | c in e'.rings
      ensures RingFits(e'.rings[c], e'.written[c], default)
      ensures e'.rings[c].cursors.Keys <= e'.schedulers.Keys
    {
      assert c != b ==> e'.rings[c] == e.rings[c];
    }
    forall t, c | t in e'.schedulers && c in S.Linked(e'.schedulers[t]) ensures c in e'.rings {
      if t != s {
        assert e'.schedulers[t] == e.schedulers[t];
      } else if c != b {
        assert SameInScheduler(c, e.schedulers[s], scheduler);
      }
    }
  }

  lemma ReplacedFits<T, B, I>(e: Engine<T, B, I>, s: I, b: B, ring: Ring<T, I>, scheduler: S.Scheduler<B>,
                              delivered: seq<(B, T)>, e': Engine<T, B, I>)
    requires Keyed(e) && AllFit(e) && s in e.schedulers && b in e.rings
    requires e' == Engine(e.rings[b := ring], e.schedulers[s := scheduler], e.written, e.delivered[s := delivered])
    requires Keyed(e')
    requires Local(s, b, e.rings[b], ring, e.schedulers[s], scheduler)
    requires forall c | c in e.rings && c != b :: From(delivered, c) == From(e.delivered[s], c)
    requires PairFits(s, b, ring, e.written[b], scheduler, delivered)
    ensures AllFit(e')
  {
    forall t, c | t in e'.schedulers && c in e'.rings ensures Fits(e', t, c) {
      assert Fits(e, t, c);
      if t != s || c != b {
        assert c == b ==> SameInRing(t, e.rings[b], ring);
        assert t == s ==> SameInScheduler(c, e.schedulers[s], scheduler);
        SamePairFits(t, c, e.rings[c], e'.rings[c], e.written[c], e.schedulers[t], e'.schedulers[t],
                     e.delivered[t], e'.delivered[t]);
      }
    }
  }

  lemma ReplacedKeeps<T, B, I>(e: Engine<T, B, I>, s: I, b: B, ring: Ring<T, I>, scheduler: S.Scheduler<B>,
                               delivered: seq<(B, T)>, default: T, e': Engine<T, B, I>)
    requires Invariant(e, default) && s in e.schedulers && b in e.rings
    requires e' == Engine(e.rings[b := ring], e.schedulers[s := scheduler], e.written, e.delivered[s := delivered])
    requires S.Partition(scheduler) && RingFits(ring, e.written[b], default)
    requires Local(s, b, e.rings[b], ring, e.schedulers[s], scheduler)
    requires forall c | c in e.rings && c != b :: From(delivered, c) == From(e.delivered[s], c)
    requires PairFits(s, b, ring, e.written[b], scheduler, delivered)
    ensures Invariant(e', default)
  {
    ReplacedShape(e, s, b, ring, scheduler, delivered, default, e');
    ReplacedFits(e, s, b, ring, scheduler, delivered, e');
  }

  lemma LinkStepIs<T, B, I>(e: Engine<T, B, I>, s: I, b: B)
    requires Shaped(e) && s in e.schedulers && b in e.rings && S.LinkWith(e.schedulers[s], b).outcome.Returned?
    ensures e.delivered[s := e.delivered[s]] == e.delivered
    ensures LinkStep(e, s, b)
            == Engine(e.rings[b := RingSpec.Link(e.rings[b], s)],
                      e.schedulers[s := S.LinkWith(e.schedulers[s], b).state], e.written, e.delivered)
  {
  }

  lemma LinkKeeps<T, B, I>(e: Engine<T, B, I>, s: I, b: B, default: T)
    requires Invariant(e, default) && Allowed(e, Link(s, b))
    ensures Invariant(LinkStep(e, s, b), default)
  {
    S.LinkKeepsPartition(e.schedulers[s], b);
    var r := S.LinkWith(e.schedulers[s], b);
    if r.outcome.Returned? {
      assert Fits(e, s, b);
      LinkPair(s, b, e.rings[b], e.schedulers[s], r.state, e.delivered[s], default);
      LinkStepIs(e, s, b);
      ReplacedKeeps(e, s, b, RingSpec.Link(e.rings[b], s), r.state, e.delivered[s], default, LinkStep(e, s, b));
    } else {
      assert LinkStep(e, s, b) == e;
    }
  }

  lemma TerminateKeepsShape<T, B, I>(e: Engine<T, B, I>, s: I, default: T)
    requires Shaped(e) && Closed(e) && RingsFit(e, default) && s in e.schedulers
    ensures var e' := TerminateStep(e, s); Shaped(e') && Closed(e') && RingsFit(e', default)
  {
    var e' := TerminateStep(e, s);
    assert Keyed(e') && e'.rings == e.rings && e'.written == e.written && e'.schedulers.Keys == e.schedulers.Keys;
    forall t | t in e'.schedulers
      ensures S.Partition(e'.schedulers[t])
      ensures S.Linked(e'.schedulers[t]) == S.Linked(e.schedulers[t])
    {
      assert t != s ==> e'.schedulers[t] == e.schedulers[t];
      S.TerminateKeepsPartition(e.schedulers[t]);
    }
    forall t, c | t in e'.schedulers && c in S.Linked(e'.schedulers[t]) ensures c in e'.rings {
      assert c in S.Linked(e.schedulers[t]);
    }
  }

  lemma TerminateKeeps<T, B, I>(e: Engine<T, B, I>, s: I, default: T)
    requires Invariant(e, default) && s in e.schedulers
    ensures Invariant(TerminateStep(e, s), default)
  {
    var e' := TerminateStep(e, s);
    TerminateKeepsShape(e, s, default);
    forall t, b | t in e'.schedulers && b in e'.rings ensures Fits(e', t, b) {
      assert Fits(e, t, b);
      SamePairFits(t, b, e.rings[b], e.rings[b], e.written[b], e.schedulers[t], e'.schedulers[t],
                   e.delivered[t], e.delivered[t]);
    }
  }

  lemma WriteKeepsShape<T, B, I>(e: Engine<T, B, I>, b: B, data: T, default: T)
    requires Shaped(e) && Closed(e) && RingsFit(e, default) && b in e.rings
    ensures var e' := WriteStep(e, b, data);
      Shaped(e') && Closed(e') && RingsFit(e', default)
  {
    var ring, e' := RingSpec.Write(e.rings[b], data), WriteStep(e, b, data);
    WriteFits(e.rings[b], e.written[b], data, default);
    assert Keyed(e');
    forall s | s in e'.schedulers
      ensures S.Partition(e'.schedulers[s]) && S.Linked(e'.schedulers[s]) == S.Linked(e.schedulers[s])
    {
      NotifiedKeepsPartition(ring, b, s, e.schedulers[s]);
    }
    forall c | c in e'.rings ensures RingFits(e'.rings[c], e'.written[c], default) {
      assert c != b ==> e'.rings[c] == e.rings[c] && e'.written[c] == e.written[c];
    }
  }

  lemma WriteKeepsFit<T, B, I>(e: Engine<T, B, I>, b: B, data: T, default: T, s: I, c: B)
    requires Invariant(e, default) && Allowed(e, Write(b, data)) && s in e.schedulers && c in e.rings
    requires Keyed(WriteStep(e, b, data))
    ensures Fits(WriteStep(e, b, data), s, c)
  {
    var ring, e' := RingSpec.Write(e.rings[b], data), WriteStep(e, b, data);
    assert Fits(e, s, c);
    if c == b {
      WritePair(s, b, e.rings[b], e.written[b], e.schedulers[s], e.delivered[s], data, default);
    } else {
      NotifiedKeepsPartition(ring, b, s, e.schedulers[s]);
      SamePairFits(s, c, e.rings[c], e.rings[c], e.written[c], e.schedulers[s], e'.schedulers[s],
                   e.delivered[s], e.delivered[s]);
    }
  }

  lemma WriteKeeps<T, B, I>(e: Engine<T, B, I>, b: B, data: T, default: T)
    requires Invariant(e, default) && Allowed(e, Write(b, data))
    ensures Invariant(WriteStep(e, b, data), default)
  {
    WriteKeepsShape(e, b, data, default);
    var e' := WriteStep(e, b, data);
    forall s, c | s in e'.schedulers && c in e'.rings ensures Fits(e', s, c) {
      WriteKeepsFit(e, b, data, default, s, c);
    }
  }

  /** One turn of the loop with a ready buffer: the buffer served and the datum handed over, which is the
      next one of that buffer's history that the scheduler had not been handed. */
  lemma ServeHandsOver<T, B, I>(e: Engine<T, B, I>, s: I, default: T) returns (b: B)
    requires Invariant(e, default) && s in e.schedulers && S.Ready(e.schedulers[s]) != multiset{}
    ensures b in S.Ready(e.schedulers[s]) && b in e.rings
    ensures S.NextInput(e.schedulers[s]).outcome == Returned(b)
    ensures var (ring, data) := Consume(e.rings[b], s);
      && |Stream(e, s, b)| < |e.written[b]| && data == e.written[b][|Stream(e, s, b)|]
      && ServeStep(e, s) == Engine(e.rings[b := ring],
           e.schedulers[s := Served(S.NextInput(e.schedulers[s]).state, s, b, ring)], e.written,
           e.delivered[s := e.delivered[s] + [(b, data)]])
  {
    S.NextInputKeepsPartition(e.schedulers[s]);
    b := S.NextInput(e.schedulers[s]).outcome.value;
    assert b in S.Linked(e.schedulers[s]);
    assert Fits(e, s, b);
    ReadsNext(e.rings[b], e.written[b], s, Stream(e, s, b), default);
  }

  lemma ServeKeeps<T, B, I>(e: Engine<T, B, I>, s: I, default: T)
    requires Invariant(e, default) && s in e.schedulers
    ensures Invariant(ServeStep(e, s), default)
  {
    S.NextInputKeepsPartition(e.schedulers[s]);
    if S.Ready(e.schedulers[s]) != multiset{} {
      var b := ServeHandsOver(e, s, default);
      var (ring, data) := Consume(e.rings[b], s);
      var peeked := S.NextInput(e.schedulers[s]).state;
      var delivered := e.delivered[s] + [(b, data)];
      assert Fits(e, s, b);
      ServedKeepsPartition(peeked, s, b, ring);
      ServePair(s, b, e.rings[b], e.written[b], e.schedulers[s], Served(peeked, s, b, ring), e.delivered[s], default);
      forall c | c != b ensures From(delivered, c) == From(e.delivered[s], c) {
        FromAppend(e.delivered[s], (b, data), c);
      }
      ReplacedKeeps(e, s, b, ring, Served(peeked, s, b, ring), delivered, default, ServeStep(e, s));
    } else {
      assert ServeStep(e, s) == e;
    }
  }

  lemma ApplyKeeps<T, B, I>(e: Engine<T, B, I>, step: Step<T, B, I>, default: T)
    requires Invariant(e, default) && Allowed(e, step)
    ensures Invariant(Apply(e, step), default)
  {
    match step
    case Link(s, b) => LinkKeeps(e, s, b, default);
    case Write(b, data) => WriteKeeps(e, b, data, default);
    case Serve(s) => ServeKeeps(e, s, default);
    case Terminate(s) => TerminateKeeps(e, s, default);
  }

  // ---------------------------------------------------------------------------------------------
  // Whole runs

  /** Buffers and schedulers before any link. */
  function Start<T, B(==), I(==)>(buffers: set<B>, inputs: map<I, nat>, default: T): Engine<T, B, I> {
    Engine(map b | b in buffers :: RingSpec.New(default),
           map s | s in inputs :: S.New(inputs[s]),
           map b | b in buffers :: [],
           map s | s in inputs :: [])
  }

  lemma StartInvariant<T, B, I>(buffers: set<B>, inputs: map<I, nat>, default: T)
    requires forall s | s in inputs :: inputs[s] <= MAX_HELD
    ensures Invariant(Start(buffers, inputs, default), default)
  {
    var e: Engine<T, B, I> := Start(buffers, inputs, default);
    forall s | s in e.schedulers ensures S.Partition(e.schedulers[s]) && S.Linked(e.schedulers[s]) == multiset{} {
      S.NewIsPartition<B>(inputs[s]);
    }
    forall s, b | s in e.schedulers && b in e.rings ensures Fits(e, s, b) {
      assert S.Linked(e.schedulers[s]) == multiset{};
    }
  }

  /** Every step of the run is allowed where it happens. */
  ghost predicate AllowedRun<T, B, I>(e: Engine<T, B, I>, steps: seq<Step<T, B, I>>)
    decreases |steps|
  {
    steps != [] ==> Allowed(e, steps[0]) && AllowedRun(Apply(e, steps[0]), steps[1..])
  }

  ghost function Run<T, B, I>(e: Engine<T, B, I>, steps: seq<Step<T, B, I>>): Engine<T, B, I>
    requires AllowedRun(e, steps)
    decreases |steps|
  {
    if steps == [] then e else Run(Apply(e, steps[0]), steps[1..])
  }

  lemma {:induction false} RunKeeps<T, B, I>(e: Engine<T, B, I>, steps: seq<Step<T, B, I>>, default: T)
    requires Invariant(e, default) && AllowedRun(e, steps)
    ensures Invariant(Run(e, steps), default)
    decreases |steps|
  {
    if steps != [] {
      ApplyKeeps(e, steps[0], default);
      RunKeeps(Apply(e, steps[0]), steps[1..], default);
    }
  }

  /** The data that the steps write to a buffer, in order. */
  function WrittenTo<T, B(==), I>(steps: seq<Step<T, B, I>>, b: B): seq<T> {
    if steps == [] then []
    else (if steps[0].Write? && steps[0].b == b then [steps[0].data] else []) + WrittenTo(steps[1..], b)
  }

  lemma {:induction false} HistoryIsWhatWasWritten<T, B, I>(e: Engine<T, B, I>, steps: seq<Step<T, B, I>>, b: B)
    requires AllowedRun(e, steps)
    ensures b in Run(e, steps).written <==> b in e.written
    ensures b in e.written ==> Run(e, steps).written[b] == e.written[b] + WrittenTo(steps, b)
    decreases |steps|
  {
    if steps != [] {
      StepWrites(e, steps[0], b);
      HistoryIsWhatWasWritten(Apply(e, steps[0]), steps[1..], b);
      if b in e.written {
        Associate(e.written[b], if steps[0].Write? && steps[0].b == b then [steps[0].data] else [],
          WrittenTo(steps[1..], b));
      }
    }
  }

  lemma LinkWritesNothing<T, B, I>(e: Engine<T, B, I>, s: I, b: B)
    requires Shaped(e) && s in e.schedulers && b in e.rings
    ensures LinkStep(e, s, b).written == e.written
  {
  }

  lemma ServeWritesNothing<T, B, I>(e: Engine<T, B, I>, s: I)
    requires Shaped(e) && s in e.schedulers
    ensures ServeStep(e, s).written == e.written
  {
  }

  lemma StepWrites<T, B, I>(e: Engine<T, B, I>, step: Step<T, B, I>, b: B)
    requires Shaped(e) && Exists(e, step)
    ensures b in Apply(e, step).written <==> b in e.written
    ensures b in e.written ==>
      Apply(e, step).written[b] == e.written[b] + (if step.Write? && step.b == b then [step.data] else [])
  {
    match step
    case Link(s, c) => LinkWritesNothing(e, s, c);
    case Write(c, data) =>
    case Serve(s) => ServeWritesNothing(e, s);
    case Terminate(s) =>
  }

  /** At every point of every allowed run, for every scheduler and every buffer linked to it: the buffer is
      in the ready list if and only if the scheduler's cursor is elsewhere than the writer, that is if and
      only if something written was not delivered; what was delivered is the beginning of what was written;
      and no more than 255 data are pending. */
  lemma ReadyExactlyWhenPending<T, B, I>(
    buffers: set<B>, inputs: map<I, nat>, default: T, steps: seq<Step<T, B, I>>, s: I, b: B)
    requires forall i | i in inputs :: inputs[i] <= MAX_HELD
    requires AllowedRun(Start(buffers, inputs, default), steps)
    requires IsLinked(Run(Start(buffers, inputs, default), steps), s, b)
    ensures var e := Run(Start(buffers, inputs, default), steps);
      && b in e.rings && s in e.delivered && s in e.rings[b].cursors
      && (b in S.Ready(e.schedulers[s]) <==> e.rings[b].cursors[s] != e.rings[b].writer)
      && (b in S.Ready(e.schedulers[s]) <==> |Stream(e, s, b)| < |WrittenTo(steps, b)|)
      && Stream(e, s, b) <= WrittenTo(steps, b)
      && |WrittenTo(steps, b)| - |Stream(e, s, b)| <= 255
  {
    StartInvariant(buffers, inputs, default);
    RunKeeps(Start(buffers, inputs, default), steps, default);
    FitsInFull(Run(Start(buffers, inputs, default), steps), default, s, b);
    HistoryIsWhatWasWritten(Start(buffers, inputs, default), steps, b);
    assert [] + WrittenTo(steps, b) == WrittenTo(steps, b);
  }

  ghost predicate IsLinked<T, B, I>(e: Engine<T, B, I>, s: I, b: B) {
    s in e.schedulers && b in S.Linked(e.schedulers[s])
  }

  lemma FitsInFull<T, B, I>(e: Engine<T, B, I>, default: T, s: I, b: B)
    requires Invariant(e, default) && IsLinked(e, s, b)
    ensures b in e.rings && s in e.rings[b].cursors
    ensures b in S.Ready(e.schedulers[s]) <==> Lags(e.rings[b], s)
    ensures b in S.Ready(e.schedulers[s]) <==> |Stream(e, s, b)| < |e.written[b]|
    ensures Stream(e, s, b) <= e.written[b] && |e.written[b]| - |Stream(e, s, b)| <= 255
  {
    assert Fits(e, s, b);
    PendingIsLag(e.rings[b], e.written[b], s, Stream(e, s, b), b in S.Ready(e.schedulers[s]), default);
  }

  /** A scheduler that can exit safely has been handed everything its buffers were ever given. */
  lemma ExitLosesNothing<T, B, I>(e: Engine<T, B, I>, default: T, s: I, b: B)
    requires Invariant(e, default) && IsLinked(e, s, b)
    requires !S.CannotExitSafely(e.schedulers[s])
    ensures b in e.written && Stream(e, s, b) == e.written[b] && e.schedulers[s].terminated
  {
    S.EmptyMeansNoneReady(e.schedulers[s]);
    FitsInFull(e, default, s, b);
  }

  /** Linking a buffer that has already been written to is refused by nobody, but leaves list and cursor in
      agreement if and only if the number of writes is a multiple of 256. */
  lemma LateLinkAgreement<T, B, I>(e: Engine<T, B, I>, s: I, b: B, default: T)
    requires Invariant(e, default) && s in e.schedulers && b in e.rings
    requires S.LinkWith(e.schedulers[s], b).outcome.Returned?
    ensures var e' := LinkStep(e, s, b);
      && b in S.NotReady(e'.schedulers[s])
      && ((b in S.Ready(e'.schedulers[s]) <==> Lags(e'.rings[b], s)) <==> |e.written[b]| % 256 == 0)
  {
    S.LinkKeepsPartition(e.schedulers[s], b);
    assert Fits(e, s, b);
    LateLinkPair(s, b, e.rings[b], e.written[b], e.schedulers[s], S.LinkWith(e.schedulers[s], b).state, default);
    LinkStepIs(e, s, b);
  }

  lemma LateLinkPair<T, B, I>(s: I, b: B, ring: Ring<T, I>, written: seq<T>, before: S.Scheduler<B>,
      after: S.Scheduler<B>,
                              default: T)
    requires RingFits(ring, written, default) && s !in ring.cursors
    requires b !in S.Linked(before) && WithLink(before, b, after)
    ensures b in S.NotReady(after) && b !in S.Ready(after)
    ensures Lags(RingSpec.Link(ring, s), s) <==> |written| % 256 != 0
  {
    LinkedWith(before, b, after);
    assert b in multiset{b};
  }
}
