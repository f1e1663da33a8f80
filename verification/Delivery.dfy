/** A ring, a scheduler and a sink put together: what is written to the ring is what the sink consumes.

    The hypotheses of the methods of DataFlow are met one after the other by those methods themselves.
  */
module Delivery {
  import opened Wrappers
  import opened RingSpec
  import opened DataFlow
  import S = SchedulerSpec
  import E = Engine

  /** A ring read by one scheduler that has no other input: everything written to it is still to be read. */
  ghost predicate Fed<T, B, C>(ring: Ring<T, C>, scheduler: S.Scheduler<B>, b: B, c: C, data: seq<T>, default: T) {
    && E.RingFits(ring, data, default)
    && S.Partition(scheduler) && S.Linked(scheduler) == multiset{b}
    && E.ChannelFits(ring, data, c, [], b in S.Ready(scheduler))
  }

  lemma FedByLink<T, B, C>(b: B, c: C, default: T)
    ensures S.Consistent(S.New<B>(1))
    ensures var r := S.LinkWith(S.New<B>(1), b);
      r.outcome == Returned(()) && !r.state.terminated
      && Fed(Link(New(default), c), r.state, b, c, [], default)
  {
    S.NewIsPartition<B>(1);
    S.LinkKeepsPartition(S.New<B>(1), b);
    E.LinkStarts(New<T, C>(default), c, []);
  }

  lemma FedIsNotRefused<T, B, C>(ring: Ring<T, C>, scheduler: S.Scheduler<B>, b: B, c: C, data: seq<T>, default: T)
    requires Fed(ring, scheduler, b, c, data, default)
    ensures S.Consistent(scheduler) && S.ActivateFor(scheduler, b).outcome.Returned?
  {
    S.ActivateKeepsPartition(scheduler, b);
    assert b in S.Linked(scheduler);
  }

  /** A write that finds at most 254 data unread leaves them and the new one to be read. */
  lemma FedByWrite<T, B, C>(ring: Ring<T, C>, scheduler: S.Scheduler<B>, ring': Ring<T, C>, scheduler': S.Scheduler<B>,
                            b: B, c: C, data: seq<T>, default: T, d: T)
    requires Fed(ring, scheduler, b, c, data, default) && |data| <= 254
    requires ring' == Write(ring, d) && scheduler' == E.Notified(ring', b, c, scheduler)
    ensures Fed(ring', scheduler', b, c, data + [d], default)
  {
    E.WriteFits(ring, data, d, default);
    E.WriteFitsChannel(ring, data, c, [], b in S.Ready(scheduler), d, default);
    E.NotifiedKeepsPartition(ring', b, c, scheduler);
    assert b in S.Linked(scheduler);
  }

  /** What is pending is what was written. */
  lemma FedPending<T, B, C>(ring: Ring<T, C>, scheduler: S.Scheduler<B>, b: B, c: C, data: seq<T>, default: T)
    requires Fed(ring, scheduler, b, c, data, default)
    ensures WellFormed(ring) && c in ring.cursors && Pending(ring, c) == data
    ensures b in S.Ready(scheduler) <==> Lags(ring, c)
    ensures forall x | x in S.Ready(scheduler) :: x == b
  {
    E.PendingIsLag(ring, data, c, [], b in S.Ready(scheduler), default);
    BetweenIsLast(ring.pads, data, default, |data|);
    assert data[0..] == data;
    forall x | x in S.Ready(scheduler) ensures x == b {
      assert x in S.Linked(scheduler);
    }
  }

  /** When only one buffer was served, its data are all the data. */
  lemma {:induction false} OnlyFrom<T, B>(served: seq<(B, T)>, b: B)
    requires Among(served, {b})
    ensures E.From(served, b) == E.Data(served)
  {
    if served != [] {
      assert served[0].0 in {b};
      assert Among(served[1..], {b}) by {
        forall i | 0 <= i < |served[1..]| ensures served[1..][i].0 in {b} { assert served[1..][i] == served[i + 1]; }
      }
      OnlyFrom(served[1..], b);
      assert E.Data(served) == [served[0].1] + E.Data(served[1..]);
    }
  }

  /** The scheduler is the ring's only consumer, and the objects are sound. */
  ghost predicate Connected<T>(ring: RingBuffer<T>, scheduler: DataProcessingScheduler<T>)
    reads ring, ring.buffer, ring.storage
  {
    && ring.Valid() && ring.ConsumersValid()
    && ring.Registered() == Registry({scheduler}, scheduler.footprint)
    && ring.Apart(scheduler) && scheduler.dataSink !in scheduler.footprint
  }

  /** Connected, and the data are still to be read. */
  ghost predicate Holding<T>(ring: RingBuffer<T>, scheduler: DataProcessingScheduler<T>, data: seq<T>, default: T)
    reads ring, ring.buffer, ring.storage, scheduler, scheduler.footprint
  {
    Connected(ring, scheduler) && Fed(ring.model, scheduler.Model(), ring, scheduler, data, default)
  }

  method LinkUp<T>(ring: RingBuffer<T>, scheduler: DataProcessingScheduler<T>, ghost default: T)
    requires ring.Valid() && ring.ConsumersValid() && ring.Registered() == Registry({}, {})
    requires scheduler.Valid() && ring.Apart(scheduler) && scheduler.dataSink !in scheduler.footprint
    requires ring.model == New(default) && scheduler.Model() == S.New(1)
    modifies ring, scheduler, scheduler.footprint
    ensures Holding(ring, scheduler, [], default)
  {
    FedByLink(ring, scheduler, default);
    var linked := scheduler.LinkWith(ring);
  }

  method Connect<T>(default: T) returns (ring: RingBuffer<T>, scheduler: DataProcessingScheduler<T>)
    ensures fresh(ring) && fresh(ring.buffer) && fresh(scheduler) && fresh(scheduler.footprint)
    ensures fresh(scheduler.dataSink) && scheduler.dataSink.consumed == []
    ensures Holding(ring, scheduler, [], default)
  {
    var sink := new DataSink();
    ring := new RingBuffer(default);
    scheduler := new DataProcessingScheduler(1, sink);
    LinkUp(ring, scheduler, default);
  }

  method WriteOne<T>(ring: RingBuffer<T>, scheduler: DataProcessingScheduler<T>, data: seq<T>, i: nat,
                     ghost default: T)
    requires i < |data| <= 255 && Holding(ring, scheduler, data[..i], default)
    modifies ring, ring.buffer, scheduler.footprint
    ensures Holding(ring, scheduler, data[..i + 1], default)
  {
    ghost var before, model := ring.model, scheduler.Model();
    FedIsNotRefused(before, model, ring, scheduler, data[..i], default);
    WriteUnrefused(ring, scheduler, data[i]);
    FedByWrite(before, model, ring.model, scheduler.Model(), ring, scheduler, data[..i], default, data[i]);
    PrefixGrows(data, i);
  }

  lemma PrefixGrows<T>(data: seq<T>, i: nat)
    requires i < |data|
    ensures data[..i + 1] == data[..i] + [data[i]]
  {
  }

  method WriteUnrefused<T>(ring: RingBuffer<T>, scheduler: DataProcessingScheduler<T>, d: T)
    requires Connected(ring, scheduler)
    requires S.Consistent(scheduler.Model()) && S.ActivateFor(scheduler.Model(), ring).outcome.Returned?
    modifies ring, ring.buffer, scheduler.footprint
    ensures Connected(ring, scheduler) && ring.model == Write(old(ring.model), d)
    ensures scheduler.Model() == E.Notified(ring.model, ring, scheduler, old(scheduler.Model()))
  {
    var refusedBy := ring.Write(d);
    assert scheduler in ring.consumerLocations;
    assert refusedBy.None?;
  }

  method WriteAll<T>(ring: RingBuffer<T>, scheduler: DataProcessingScheduler<T>, data: seq<T>, ghost default: T)
    requires Holding(ring, scheduler, [], default) && |data| <= 255
    modifies ring, ring.buffer, scheduler.footprint
    ensures Holding(ring, scheduler, data, default)
  {
    var i := 0;
    assert data[..i] == [];
    while i < |data|
      invariant i <= |data|
      invariant Holding(ring, scheduler, data[..i], default)
    {
      WriteOne(ring, scheduler, data, i, default);
      i := i + 1;
    }
    assert data[..i] == data;
  }

  ghost function LayoutOf<T>(ring: RingBuffer<T>): Layout<T>
    reads ring
  {
    Layout(set p | p in ring.buffer, map[ring := ring.Registered()], {})
  }

  lemma SoundAlone<T>(ring: RingBuffer<T>, scheduler: DataProcessingScheduler<T>)
    requires Connected(ring, scheduler)
    ensures scheduler.Sound({ring}, LayoutOf(ring)) && scheduler.Housing({ring}, LayoutOf(ring))
  {
  }

  method Drain<T>(ring: RingBuffer<T>, scheduler: DataProcessingScheduler<T>, ghost data: seq<T>, ghost default: T)
    requires Connected(ring, scheduler)
    requires Fed(ring.model, scheduler.Model(), ring, scheduler, data, default)
    modifies scheduler, scheduler.footprint, ring, scheduler.dataSink
    ensures Connected(ring, scheduler)
    ensures scheduler.dataSink.consumed == old(scheduler.dataSink.consumed) + data
  {
    FedPending(ring.model, scheduler.Model(), ring, scheduler, data, default);
    S.TerminateKeepsPartition(scheduler.Model());
    scheduler.OrderTermination();
    DrainAlone(ring, scheduler, data);
  }

  method DrainAlone<T>(ring: RingBuffer<T>, scheduler: DataProcessingScheduler<T>, ghost data: seq<T>)
    requires Connected(ring, scheduler) && scheduler.terminateOrderReceived
    requires S.Partition(scheduler.Model()) && forall b | b in S.Ready(scheduler.Model()) :: b == ring
    requires ring in S.Ready(scheduler.Model()) <==> Lags(ring.model, scheduler)
    requires WellFormed(ring.model) && scheduler in ring.model.cursors && Pending(ring.model, scheduler) == data
    modifies scheduler.footprint, ring, scheduler.dataSink
    ensures Connected(ring, scheduler)
    ensures scheduler.dataSink.consumed == old(scheduler.dataSink.consumed) + data
  {
    SoundAlone(ring, scheduler);
    ghost var layout, atStart := LayoutOf(ring), scheduler.Models({ring});
    scheduler.ModelsAreSound({ring}, layout);
    ghost var served := scheduler.Start({ring}, layout);
    AllServed(atStart, scheduler.Models({ring}), ring, scheduler, served);
    StillConnected(ring, scheduler, layout);
  }

  lemma StillConnected<T>(ring: RingBuffer<T>, scheduler: DataProcessingScheduler<T>, layout: Layout<T>)
    requires scheduler.Sound({ring}, layout) && scheduler.ConsumersValid({ring})
    requires ring in layout.registries && layout.registries[ring] == Registry({scheduler}, scheduler.footprint)
    ensures Connected(ring, scheduler)
  {
    assert ring in {ring};
  }

  lemma AllServed<T, B, C>(atStart: map<B, Ring<T, C>>, rings: map<B, Ring<T, C>>, b: B, c: C, served: seq<(B, T)>)
    requires Emptied(atStart, rings, c, served) && atStart.Keys == {b}
    ensures b in rings && WellFormed(atStart[b]) && c in atStart[b].cursors
    ensures E.Data(served) == Pending(atStart[b], c)
  {
    assert b in rings;
    OnlyFrom(served, b);
  }

  /** Whatever is written to a ring, up to 255 data, is what its scheduler hands to its sink before it stops. */
  method WriteThenDrain<T>(default: T, data: seq<T>) returns (sink: DataSink<T>)
    requires |data| <= 255
    ensures sink.consumed == data
  {
    var ring, scheduler := Connect(default);
    WriteAll(ring, scheduler, data, default);
    Drain(ring, scheduler, data, default);
    sink := scheduler.dataSink;
  }
}
