/** The data-flow objects: pads chained into a ring, the ring buffer with its consumers' locations, and the
    scheduler that drains its input buffers into a sink. They refer to each other, so they share a module.

    Every method is proved to act as its function in RingSpec or SchedulerSpec.
  */
module DataFlow {
  import opened Wrappers
  import opened PointerArray
  import opened PointerList
  import opened RingSpec
  import List = PointerListSpec
  import S = SchedulerSpec
  import E = Engine

  class RingBufferPad<T> {
    var nextPadSet: bool
    var currentData: T
    var nextPad: RingBufferPad<T>

    constructor (default: T)
      ensures !nextPadSet && currentData == default && nextPad == this
    {
      nextPadSet := false;
      currentData := default;
      nextPad := this;
    }

    /** Only the first call sets the next pad. */
    method SetNext(nextBufferPad: RingBufferPad<T>)
      modifies this`nextPad, this`nextPadSet
      ensures nextPadSet
      ensures nextPad == if old(nextPadSet) then old(nextPad) else nextBufferPad
    {
      if !nextPadSet {
        nextPad := nextBufferPad;
        nextPadSet := !nextPadSet;
      }
    }

    method Write(dataToWrite: T)
      modifies this`currentData
      ensures currentData == dataToWrite
    {
      currentData := dataToWrite;
    }
  }

  /** The consumers linked to a ring, and the storage of their lists. */
  datatype Registry<T> = Registry(consumers: set<DataProcessingScheduler<T>>, storage: set<object>)

  /** Where the inputs of a scheduler store their data, who is linked to them, and which other schedulers are. */
  datatype Layout<T> = Layout(pads: set<RingBufferPad<T>>, registries: map<RingBuffer<T>, Registry<T>>,
                            others: set<DataProcessingScheduler<T>>)

  ghost function With<T>(r: Registry<T>, consumer: DataProcessingScheduler<T>): Registry<T> {
    if consumer in r.consumers then r else Registry(r.consumers + {consumer}, r.storage + consumer.footprint)
  }

  ghost function Without<T>(r: Registry<T>, consumer: DataProcessingScheduler<T>): Registry<T> {
    Registry(r.consumers - {consumer}, r.storage - consumer.footprint)
  }

  class RingBuffer<T> {
    const buffer: seq<RingBufferPad<T>>
    var writerLocation: RingBufferPad<T>
    var consumerLocations: map<DataProcessingScheduler<T>, RingBufferPad<T>>
    ghost var model: Ring<T, DataProcessingScheduler<T>>
    ghost var storage: set<object>  // the storage of the consumers' lists

    /** The pads form one cycle from the first one. */
    ghost predicate Chained()
      reads buffer
    {
      && |buffer| == RING_BUFFER_SIZE
      && (forall i, j :: 0 <= i < j < |buffer| ==> buffer[i] != buffer[j])
      && (forall i {:trigger buffer[i].nextPad} :: 0 <= i < |buffer| ==> buffer[i].nextPad == buffer[Next(i)])
    }

    /** The consumers stand on the pads that these numbers name. */
    ghost predicate Located(locations: map<DataProcessingScheduler<T>, RingBufferPad<T>>,
                            cursors: map<DataProcessingScheduler<T>, nat>)
    {
      && locations.Keys == cursors.Keys
      && (forall c | c in locations :: cursors[c] < |buffer| && locations[c] == buffer[cursors[c]])
    }

    lemma LocatedAt(locations: map<DataProcessingScheduler<T>, RingBufferPad<T>>,
                    cursors: map<DataProcessingScheduler<T>, nat>, consumer: DataProcessingScheduler<T>, pad: nat)
      requires Located(locations, cursors) && pad < |buffer|
      ensures Located(locations[consumer := buffer[pad]], cursors[consumer := pad])
      ensures locations[consumer := buffer[pad]].Keys == locations.Keys + {consumer}
    {
    }

    ghost predicate Valid()
      reads this, buffer
    {
      && Chained()
      && WellFormed(model)
      && (forall i {:trigger buffer[i].currentData} :: 0 <= i < |buffer| ==> buffer[i].currentData == model.pads[i])
      && writerLocation == buffer[model.writer]
      && Located(consumerLocations, model.cursors)
    }

    constructor (default: T)
      ensures Valid() && model == New(default)
      ensures fresh(buffer)
      ensures ConsumersValid() && consumerLocations == map[] && storage == {}
    {
      var pads: seq<RingBufferPad<T>> := [];
      while |pads| < RING_BUFFER_SIZE
        invariant |pads| <= RING_BUFFER_SIZE
        invariant fresh(pads)
        invariant forall i, j :: 0 <= i < j < |pads| ==> pads[i] != pads[j]
        invariant forall i :: 0 <= i < |pads| ==> !pads[i].nextPadSet && pads[i].currentData == default
      {
        var pad := new RingBufferPad(default);
        pads := pads + [pad];
      }
      buffer := pads;
      writerLocation := pads[0];
      consumerLocations := map[];
      model := New(default);
      storage := {};
      new;
      ChainPadsInBuffer();
    }

    method ChainPadsInBuffer()
      requires |buffer| == RING_BUFFER_SIZE
      requires forall i, j :: 0 <= i < j < |buffer| ==> buffer[i] != buffer[j]
      requires forall i :: 0 <= i < |buffer| ==> !buffer[i].nextPadSet
      modifies buffer
      ensures Chained()
      ensures forall i :: 0 <= i < |buffer| ==> buffer[i].currentData == old(buffer[i].currentData)
    {
      var currentPad := buffer[0];
      for i := 1 to RING_BUFFER_SIZE
        invariant currentPad == buffer[i - 1]
        invariant forall k :: 0 <= k < i - 1 ==> buffer[k].nextPad == buffer[k + 1]
        invariant forall k :: i - 1 <= k < |buffer| ==> !buffer[k].nextPadSet
        invariant forall k :: 0 <= k < |buffer| ==> buffer[k].currentData == old(buffer[k].currentData)
      {
        var nextPad := buffer[i];
        currentPad.SetNext(nextPad);
        currentPad := nextPad;
      }
      buffer[RING_BUFFER_SIZE - 1].SetNext(buffer[0]);
    }

    /** The consumer stores nothing in itself, in the ring or in the ring's pads. */
    ghost predicate Apart(consumer: DataProcessingScheduler<T>) {
      && this !in consumer.footprint && consumer !in consumer.footprint
      && (forall i :: 0 <= i < |buffer| ==> buffer[i] !in consumer.footprint)
    }

    /** Who is linked, and where those store their lists. */
    ghost function Registered(): Registry<T>
      reads this
    {
      Registry(consumerLocations.Keys, storage)
    }

    /** The consumers share no storage with each other or the ring. */
    ghost predicate Housed(r: Registry<T>) {
      && this !in r.storage
      && (forall i :: 0 <= i < |buffer| ==> buffer[i] !in r.storage)
      && (forall c | c in r.consumers :: c !in r.storage && c.footprint <= r.storage)
      && (forall c, d | c in r.consumers && d in r.consumers && c != d :: c.footprint !! d.footprint)
    }

    ghost predicate AllValid(r: Registry<T>)
      reads r.storage
    {
      Housed(r) && forall c | c in r.consumers :: c.Valid()
    }

    /** The consumers are sound and share no storage. */
    ghost predicate ConsumersValid()
      reads this, storage
    {
      AllValid(Registered())
    }

    /** The consumer is known, or has all its storage to itself. */
    ghost predicate Separate(consumer: DataProcessingScheduler<T>, r: Registry<T>) {
      || consumer in r.consumers
      || (&& Apart(consumer) && consumer !in r.storage && consumer.footprint !! r.storage
          && forall c | c in r.consumers :: c !in consumer.footprint)
    }

    /** A consumer that can be linked. */
    ghost predicate Welcome(consumer: DataProcessingScheduler<T>)
      reads this, consumer.footprint
    {
      consumer.Valid() && Separate(consumer, Registered())
    }

    /** The other consumers are sound, whatever becomes of this one's storage. */
    lemma OthersAside(consumer: DataProcessingScheduler<T>, r: Registry<T>)
      ensures AllValid(r) && Separate(consumer, r) ==> AllValid(Without(r, consumer))
    {
    }

    lemma HousedWith(consumer: DataProcessingScheduler<T>, r: Registry<T>)
      requires Housed(r) && Separate(consumer, r)
      ensures Housed(With(r, consumer))
    {
    }

    lemma ValidWith(consumer: DataProcessingScheduler<T>, r: Registry<T>)
      ensures Housed(r) && Separate(consumer, r) && consumer.Valid() && AllValid(Without(r, consumer)) ==>
        AllValid(r) && AllValid(With(r, consumer))
    {
      if Housed(r) && Separate(consumer, r) && consumer.Valid() && AllValid(Without(r, consumer)) {
        HousedWith(consumer, r);
        forall c | c in With(r, consumer).consumers ensures c.Valid() == true {
          assert c != consumer ==> c in Without(r, consumer).consumers;
        }
      }
    }

    /** The ring is as it was when the ring and its pads are. */
    twostate lemma Unaffected()
      requires old(Valid()) && unchanged(this) && unchanged(buffer)
      ensures Valid()
    {
    }

    /** Stores the datum, moves the writer, notifies. Only a consumer that lags without being linked makes
        the notification throw, part-way: the consumers are visited in no particular order. */
    method Write(data: T) returns (refusedBy: Option<DataProcessingScheduler<T>>)
      requires Valid() && ConsumersValid()
      modifies this`writerLocation, this`model, buffer, storage
      ensures Valid() && ConsumersValid()
      ensures model == RingSpec.Write(old(model), data)
      ensures match refusedBy
              case None => forall c | c in consumerLocations ::
                S.Consistent(old(c.Model())) && c.Model() == E.Notified(model, this, c, old(c.Model()))
              case Some(consumer) =>
                && consumer in consumerLocations && S.Consistent(old(consumer.Model()))
                && Lags(model, consumer) && S.ActivateFor(old(consumer.Model()), this).outcome.Thrown?
    {
      ghost var before := map c | c in consumerLocations :: c.Model();
      StoreAndMove(data);
      refusedBy := NotifyConsumersIfAnyDataIsPresent(before);
    }

    method StoreAndMove(data: T)
      requires Valid() && ConsumersValid()
      modifies this`writerLocation, this`model, buffer
      ensures Valid() && ConsumersValid()
      ensures model == RingSpec.Write(old(model), data)
      ensures forall c | c in consumerLocations :: c.Model() == old(c.Model())
    {
      writerLocation.Write(data);
      writerLocation := writerLocation.nextPad;
      model := RingSpec.Write(model, data);
      forall c | c in consumerLocations ensures c.Valid() && c.Model() == old(c.Model()) {
        c.Unaffected();
      }
    }

    method NotifyConsumersIfAnyDataIsPresent(ghost before: map<DataProcessingScheduler<T>, S.Scheduler<RingBuffer<T>>>)
      returns (refusedBy: Option<DataProcessingScheduler<T>>)
      requires Valid() && ConsumersValid()
      requires before.Keys == consumerLocations.Keys
      requires forall c | c in consumerLocations :: S.Consistent(before[c]) && c.Model() == before[c]
      modifies storage
      ensures unchanged(this) && Valid() && ConsumersValid()
      ensures match refusedBy
              case None => forall c | c in consumerLocations :: c.Model() == E.Notified(model, this, c, before[c])
              case Some(consumer) =>
                && consumer in consumerLocations
                && Lags(model, consumer) && S.ActivateFor(before[consumer], this).outcome.Thrown?
    {
      ghost var after := map c | c in consumerLocations :: E.Notified(model, this, c, before[c]);
      var waiting: set<DataProcessingScheduler<T>> := consumerLocations.Keys;
      while waiting != {}
        invariant waiting <= consumerLocations.Keys
        invariant unchanged(this) && Valid() && ConsumersValid()
        invariant forall c | c in consumerLocations :: c.Model() == if c in waiting then before[c] else after[c]
        decreases waiting
      {
        var consumer: DataProcessingScheduler<T> :| consumer in waiting;
        label Before:
        var outcome := NotifyConsumer(consumer, after[consumer]);
        waiting := set c | c in waiting && c != consumer;
        forall c | c in consumerLocations ensures c.Model() == if c in waiting then before[c] else after[c] {
          assert c != consumer ==> c.Model() == old@Before(c.Model());
        }
        if outcome.Thrown? {
          return Some(consumer);
        }
      }
      return None;
    }

    method NotifyConsumer(consumer: DataProcessingScheduler<T>, ghost after: S.Scheduler<RingBuffer<T>>)
      returns (outcome: Outcome<()>)
      requires Valid() && ConsumersValid() && consumer in consumerLocations
      requires after == E.Notified(model, this, consumer, consumer.Model())
      modifies consumer.footprint
      ensures unchanged(this) && Valid() && ConsumersValid()
      ensures consumer.Model() == after
      ensures forall c | c in consumerLocations && c != consumer :: c.Model() == old(c.Model())
      ensures outcome.Thrown? <==>
        Lags(model, consumer) && S.ActivateFor(old(consumer.Model()), this).outcome.Thrown?
    {
      outcome := Returned(());
      if consumerLocations[consumer] != writerLocation {
        outcome := consumer.ActivateFor(this);
        Unaffected();
        forall c | c in consumerLocations && c != consumer ensures c.Valid() && c.Model() == old(c.Model()) {
          assert c.footprint !! consumer.footprint;
          c.Unaffected();
        }
      }
    }

    method LinkWith(consumer: DataProcessingScheduler<T>)
      requires Valid()
      modifies this`consumerLocations, this`model, this`storage
      ensures Valid()
      ensures model == Link(old(model), consumer)
      ensures Registered() == With(old(Registered()), consumer)
      ensures old(ConsumersValid() && Welcome(consumer)) ==> ConsumersValid()
    {
      ghost var before := Registered();
      OthersAside(consumer, before);
      AddLinkIfNoneExists(consumer);
      ValidWith(consumer, before);
    }

    method AddLinkIfNoneExists(consumer: DataProcessingScheduler<T>)
      requires Valid()
      modifies this`consumerLocations, this`model, this`storage
      ensures Valid()
      ensures model == Link(old(model), consumer)
      ensures Registered() == With(old(Registered()), consumer)
    {
      if consumer !in consumerLocations {
        LocatedAt(consumerLocations, model.cursors, consumer, 0);
        consumerLocations := consumerLocations[consumer := buffer[0]];
        model := Link(model, consumer);
        storage := storage + consumer.footprint;
      }
    }

    /** Links an unknown consumer, reads at its location, advances it unless it stands at the writer, and
        deactivates it when nothing is left for it. */
    method ConsumeNextDataFor(consumer: DataProcessingScheduler<T>) returns (data: T, outcome: Outcome<()>)
      requires Valid() && consumer.Valid() && Apart(consumer)
      modifies this`consumerLocations, this`model, this`storage, consumer.footprint
      ensures Valid() && consumer.Valid()
      ensures TookFrom(old(consumer.Model()), consumer.Model(), old(model), model, consumer, this, data)
      ensures Registered() == With(old(Registered()), consumer)
      ensures old(ConsumersValid() && Welcome(consumer)) ==> ConsumersValid()
      ensures outcome == if Lags(model, consumer) then Returned(())
                         else S.DeactivateFor(old(consumer.Model()), this).outcome
    {
      ghost var before := Registered();
      OthersAside(consumer, before);
      ghost var othersValid := AllValid(Without(before, consumer));
      data, outcome := ConsumeFor(consumer);
      assert this !in before.storage ==> AllValid(Without(before, consumer)) == othersValid;
      ValidWith(consumer, before);
    }

    method ConsumeFor(consumer: DataProcessingScheduler<T>) returns (data: T, outcome: Outcome<()>)
      requires Valid() && consumer.Valid() && Apart(consumer)
      modifies this`consumerLocations, this`model, this`storage, consumer.footprint
      ensures Valid() && consumer.Valid()
      ensures TookFrom(old(consumer.Model()), consumer.Model(), old(model), model, consumer, this, data)
      ensures Registered() == With(old(Registered()), consumer)
      ensures outcome == if Lags(model, consumer) then Returned(())
                         else S.DeactivateFor(old(consumer.Model()), this).outcome
    {
      data := ReadAndAdvance(consumer);
      consumer.Unaffected();
      outcome := Returned(());
      if consumerLocations[consumer] == writerLocation {
        label Advanced:
        outcome := consumer.DeactivateFor(this);
        Unaffected@Advanced();
      }
    }

    method ReadAndAdvance(consumer: DataProcessingScheduler<T>) returns (data: T)
      requires Valid()
      modifies this`consumerLocations, this`model, this`storage
      ensures Valid() && consumer in consumerLocations
      ensures (model, data) == Consume(old(model), consumer)
      ensures Registered() == With(old(Registered()), consumer)
    {
      AddLinkIfNoneExists(consumer);
      data := consumerLocations[consumer].currentData;
      Advance(consumer);
    }

    method Advance(consumer: DataProcessingScheduler<T>)
      requires Valid() && consumer in consumerLocations
      modifies this`consumerLocations, this`model
      ensures Valid() && model == Advanced(old(model), consumer)
      ensures consumerLocations.Keys == old(consumerLocations.Keys)
    {
      if consumerLocations[consumer] != writerLocation {
        MoveTo(consumer, consumerLocations[consumer].nextPad, Next(model.cursors[consumer]));
      }
    }

    method MoveTo(consumer: DataProcessingScheduler<T>, pad: RingBufferPad<T>, ghost number: nat)
      requires Valid() && consumer in consumerLocations && number < |buffer| && pad == buffer[number]
      modifies this`consumerLocations, this`model
      ensures Valid() && model == old(model).(cursors := old(model).cursors[consumer := number])
      ensures consumerLocations.Keys == old(consumerLocations.Keys)
    {
      LocatedAt(consumerLocations, model.cursors, consumer, number);
      consumerLocations := consumerLocations[consumer := pad];
      model := model.(cursors := model.cursors[consumer := number]);
    }
  }

  /** What a scheduler hands its data to; it keeps them in the order they come. */
  class DataSink<T> {
    var consumed: seq<T>

    constructor ()
      ensures consumed == []
    {
      consumed := [];
    }

    method Consume(data: T)
      modifies this
      ensures consumed == old(consumed) + [data]
    {
      consumed := consumed + [data];
    }
  }

  class DataProcessingScheduler<T> {
    const readyToConsumeInputBuffers: ConstantSizedPointerList<RingBuffer<T>>
    const notReadyToConsumeInputBuffers: ConstantSizedPointerList<RingBuffer<T>>
    var numberOfLinkedBuffers: nat
    var terminateOrderReceived: bool
    const dataSink: DataSink<T>

    ghost const footprint: set<object>  // the storage of the two lists

    ghost predicate Valid()
      reads footprint
    {
      && readyToConsumeInputBuffers in footprint && readyToConsumeInputBuffers.pointers in footprint
      && notReadyToConsumeInputBuffers in footprint && notReadyToConsumeInputBuffers.pointers in footprint
      && readyToConsumeInputBuffers != notReadyToConsumeInputBuffers
      && readyToConsumeInputBuffers.pointers != notReadyToConsumeInputBuffers.pointers
      && readyToConsumeInputBuffers.Valid()
      && notReadyToConsumeInputBuffers.Valid()
    }

    ghost function Model(): S.Scheduler<RingBuffer<T>>
      reads this, readyToConsumeInputBuffers, readyToConsumeInputBuffers.pointers,
        notReadyToConsumeInputBuffers, notReadyToConsumeInputBuffers.pointers
    {
      S.Scheduler(readyToConsumeInputBuffers.Model(), notReadyToConsumeInputBuffers.Model(),
                  numberOfLinkedBuffers, terminateOrderReceived)
    }

    /** A scheduler is as it was when its storage and itself are. */
    twostate lemma Unaffected()
      requires old(Valid()) && unchanged(this)
      requires unchanged(readyToConsumeInputBuffers) && unchanged(readyToConsumeInputBuffers.pointers)
      requires unchanged(notReadyToConsumeInputBuffers) && unchanged(notReadyToConsumeInputBuffers.pointers)
      ensures Valid() && Model() == old(Model())
    {
    }

    constructor (numberOfConcurrentInputs: nat, dataSink: DataSink<T>)
      requires numberOfConcurrentInputs <= MAX_HELD
      ensures Valid() && fresh(footprint) && this !in footprint
      ensures Model() == S.New(numberOfConcurrentInputs) && this.dataSink == dataSink
    {
      var ready := new ConstantSizedPointerList<RingBuffer<T>>(numberOfConcurrentInputs);
      var notReady := new ConstantSizedPointerList<RingBuffer<T>>(numberOfConcurrentInputs);
      readyToConsumeInputBuffers := ready;
      notReadyToConsumeInputBuffers := notReady;
      numberOfLinkedBuffers := 0;
      terminateOrderReceived := false;
      this.dataSink := dataSink;
      footprint := {ready, ready.pointers, notReady, notReady.pointers};
    }

    method LinkWith(inputBuffer: RingBuffer<T>) returns (outcome: Outcome<()>)
      requires Valid() && inputBuffer.Valid() && inputBuffer.Apart(this)
      modifies this`numberOfLinkedBuffers, footprint, inputBuffer`consumerLocations, inputBuffer`model,
        inputBuffer`storage
      ensures Valid() && inputBuffer.Valid()
      ensures Reply(Model(), outcome) == S.LinkWith(old(Model()), inputBuffer)
      ensures Joined(inputBuffer, outcome.Returned?)
      ensures old(inputBuffer.ConsumersValid() && inputBuffer.Welcome(this)) ==> inputBuffer.ConsumersValid()
    {
      ghost var before := inputBuffer.Registered();
      inputBuffer.OthersAside(this, before);
      ghost var othersValid := inputBuffer.AllValid(Without(before, this));
      outcome := TryLink(inputBuffer);
      assert inputBuffer !in before.storage && this !in before.storage ==>
        inputBuffer.AllValid(Without(before, this)) == othersValid;
      inputBuffer.ValidWith(this, before);
    }

    /** The buffer's side of a link, if it was accepted. */
    twostate predicate Joined(inputBuffer: RingBuffer<T>, accepted: bool)
      reads inputBuffer
    {
      && inputBuffer.model == (if accepted then Link(old(inputBuffer.model), this) else old(inputBuffer.model))
      && inputBuffer.Registered()
         == if accepted then With(old(inputBuffer.Registered()), this) else old(inputBuffer.Registered())
    }

    method TryLink(inputBuffer: RingBuffer<T>) returns (outcome: Outcome<()>)
      requires Valid() && inputBuffer.Valid() && inputBuffer.Apart(this)
      modifies this`numberOfLinkedBuffers, footprint, inputBuffer`consumerLocations, inputBuffer`model,
        inputBuffer`storage
      ensures Valid() && inputBuffer.Valid()
      ensures Reply(Model(), outcome) == S.LinkWith(old(Model()), inputBuffer)
      ensures Joined(inputBuffer, outcome.Returned?)
    {
      var linked := IsInputBufferLinked(inputBuffer);
      if linked {
        return Thrown(AlreadyLinked);
      }
      if terminateOrderReceived {
        return Thrown(SchedulerStopped);
      }
      if numberOfLinkedBuffers == notReadyToConsumeInputBuffers.pointers.Length {
        return Thrown(TooManyInputs);
      }
      outcome := AddToNotReady(inputBuffer);
      if outcome.Returned? {
        label Added:
        inputBuffer.LinkWith(this);
        Unaffected@Added();
      }
    }

    method AddToNotReady(inputBuffer: RingBuffer<T>) returns (outcome: Outcome<()>)
      requires Valid() && inputBuffer.Valid() && inputBuffer.Apart(this)
      modifies this`numberOfLinkedBuffers, footprint
      ensures Valid() && inputBuffer.Valid() && inputBuffer.model == old(inputBuffer.model)
      ensures var stored := List.Store(old(Model()).notReady, inputBuffer);
        && outcome == stored.outcome
        && Model() == old(Model()).(linked := Increment(old(Model()).linked), notReady := stored.state)
    {
      numberOfLinkedBuffers := Increment(numberOfLinkedBuffers);
      outcome := notReadyToConsumeInputBuffers.Store(inputBuffer);
      inputBuffer.Unaffected();
    }

    method IsInputBufferLinked(inputBuffer: RingBuffer<T>) returns (linked: bool)
      requires Valid()
      ensures linked == S.IsLinked(Model(), inputBuffer)
    {
      linked := notReadyToConsumeInputBuffers.Contains(inputBuffer);
      if !linked {
        linked := readyToConsumeInputBuffers.Contains(inputBuffer);
      }
    }

    method ActivateFor(inputBuffer: RingBuffer<T>) returns (outcome: Outcome<()>)
      requires Valid()
      modifies footprint
      ensures Valid()
      ensures Reply(Model(), outcome) == S.ActivateFor(old(Model()), inputBuffer)
    {
      var linked := IsInputBufferLinked(inputBuffer);
      if !linked {
        return Thrown(IllegalActivation);
      }
      outcome := Returned(());
      var idle := notReadyToConsumeInputBuffers.Contains(inputBuffer);
      if idle {
        var removed := notReadyToConsumeInputBuffers.Remove(inputBuffer);
        outcome := readyToConsumeInputBuffers.Store(inputBuffer);
      }
    }

    method DeactivateFor(inputBuffer: RingBuffer<T>) returns (outcome: Outcome<()>)
      requires Valid()
      modifies footprint
      ensures Valid()
      ensures Reply(Model(), outcome) == S.DeactivateFor(old(Model()), inputBuffer)
    {
      var linked := IsInputBufferLinked(inputBuffer);
      if !linked {
        return Thrown(IllegalDeactivation);
      }
      outcome := Returned(());
      var active := readyToConsumeInputBuffers.Contains(inputBuffer);
      if active {
        var removed := readyToConsumeInputBuffers.Remove(inputBuffer);
        outcome := notReadyToConsumeInputBuffers.Store(inputBuffer);
      }
    }

    method OrderTermination()
      modifies this`terminateOrderReceived
      ensures Model() == S.Terminate(old(Model()))
    {
      if !terminateOrderReceived {
        terminateOrderReceived := true;
      }
    }

    method CannotExitSafely() returns (cannot: bool)
      requires Valid()
      ensures cannot == S.CannotExitSafely(Model())
      ensures terminateOrderReceived ==> (cannot <==> S.Ready(Model()) != multiset{})
    {
      var empty := readyToConsumeInputBuffers.IsEmpty();
      PointerArray.ContentsCount(readyToConsumeInputBuffers.Model().pointers);
      cannot := !(empty && terminateOrderReceived);
    }

    // -------------------------------------------------------------------------------------------
    // The drain loop

    /** The pads of the buffers, and that they are nobody else's. */
    ghost predicate PadsOf(inputs: set<RingBuffer<T>>, pads: set<RingBufferPad<T>>) {
      && (forall b, i | b in inputs && 0 <= i < |b.buffer| :: b.buffer[i] in pads)
      && (forall p | p in pads :: p !in footprint)
      && this !in footprint && dataSink !in footprint
      && (forall b | b in inputs :: b.Apart(this))
    }

    ghost predicate SoundInput(b: RingBuffer<T>, layout: Layout<T>)
      reads b, b.buffer
    {
      && b.Valid() && this in b.consumerLocations
      && b in layout.registries && b.Registered() == layout.registries[b]
    }

    ghost predicate SoundInputs(inputs: set<RingBuffer<T>>, layout: Layout<T>)
      reads inputs, layout.pads
    {
      && PadsOf(inputs, layout.pads)
      && forall b | b in inputs :: SoundInput(b, layout)
    }

    /** The scheduler and the buffers it is linked to. */
    ghost predicate Sound(inputs: set<RingBuffer<T>>, layout: Layout<T>)
      reads footprint, inputs, layout.pads
    {
      Valid() && SoundInputs(inputs, layout)
    }

    /** The inputs are sound and as these rings say. */
    ghost predicate Holding(inputs: set<RingBuffer<T>>, layout: Layout<T>,
                            rings: map<RingBuffer<T>, Ring<T, DataProcessingScheduler<T>>>)
      reads inputs, layout.pads
    {
      SoundInputs(inputs, layout) && forall b | b in inputs :: b in rings && b.model == rings[b]
    }

    lemma OneAside(inputBuffer: RingBuffer<T>, inputs: set<RingBuffer<T>>, layout: Layout<T>)
      ensures SoundInputs(inputs, layout) ==> Holding(inputs - {inputBuffer}, layout, Models(inputs))
    {
    }

    lemma OneBack(inputBuffer: RingBuffer<T>, inputs: set<RingBuffer<T>>, layout: Layout<T>,
                  rings: map<RingBuffer<T>, Ring<T, DataProcessingScheduler<T>>>)
      requires PadsOf(inputs, layout.pads) && SoundInput(inputBuffer, layout)
      requires Holding(inputs - {inputBuffer}, layout, rings)
      ensures SoundInputs(inputs, layout)
      ensures forall b | b in inputs && b != inputBuffer :: b in rings && Models(inputs)[b] == rings[b]
    {
      forall b | b in inputs && b != inputBuffer
        ensures SoundInput(b, layout) == true && b in rings && b.model == rings[b]
      {
        assert b in inputs - {inputBuffer};
      }
    }

    /** The inputs' consumers share no storage, and are this scheduler and the others. */
    ghost predicate Housing(inputs: set<RingBuffer<T>>, layout: Layout<T>) {
      forall b | b in inputs :: b in layout.registries && b.Housed(layout.registries[b])
        && layout.registries[b].consumers <= layout.others + {this}
    }

    ghost predicate OthersValid(others: set<DataProcessingScheduler<T>>)
      reads set c, o | c in others && o in c.footprint :: o
    {
      forall c | c in others :: c.Valid()
    }

    ghost predicate ConsumersValid(inputs: set<RingBuffer<T>>)
      reads inputs, set b, o | b in inputs && o in b.storage :: o
    {
      forall b | b in inputs :: b.ConsumersValid()
    }

    lemma ConsumersAreValid(inputs: set<RingBuffer<T>>, layout: Layout<T>)
      ensures Sound(inputs, layout) && Housing(inputs, layout) && OthersValid(layout.others) ==> ConsumersValid(inputs)
    {
    }

    /** One turn of the loop: takes the next pending datum of the next ready buffer and hands it to the sink.
        Nobody's link changes, so the buffers' consumers are sound as long as the other schedulers are, which
        store nothing where this one writes. */
    method Turn(ghost inputs: set<RingBuffer<T>>, ghost layout: Layout<T>)
      returns (inputBuffer: RingBuffer<T>, data: T)
      requires Sound(inputs, layout) && NextIsIn(Model(), inputs)
      modifies footprint, inputs, dataSink
      ensures unchanged(this) && Sound(inputs, layout)
      ensures dataSink.consumed == old(dataSink.consumed) + [data]
      ensures Turned(old(Model()), Model(), old(Models(inputs)), Models(inputs), this, inputBuffer, data)
      ensures Housing(inputs, layout) && OthersValid(layout.others) ==> ConsumersValid(inputs)
    {
      inputBuffer, data := TakeFromNext(inputs, layout);
      HandOver(data, inputs, layout);
      ConsumersAreValid(inputs, layout);
    }

    method TakeFromNext(ghost inputs: set<RingBuffer<T>>, ghost layout: Layout<T>)
      returns (inputBuffer: RingBuffer<T>, data: T)
      requires Sound(inputs, layout) && NextIsIn(Model(), inputs)
      modifies footprint, inputs
      ensures unchanged(this) && unchanged(dataSink) && Sound(inputs, layout)
      ensures Turned(old(Model()), Model(), old(Models(inputs)), Models(inputs), this, inputBuffer, data)
    {
      ghost var before, rings := Model(), Models(inputs);
      inputBuffer := Peek(inputs, layout);
      ghost var peeked := Model();
      data := TakeFrom(inputBuffer, inputs, layout);
      TurnMade(before, peeked, Model(), rings, Models(inputs), this, inputBuffer, data);
    }

    ghost function Models(inputs: set<RingBuffer<T>>): map<RingBuffer<T>, Ring<T, DataProcessingScheduler<T>>>
      reads inputs
    {
      map b | b in inputs :: b.model
    }

    lemma ModelsAreSound(inputs: set<RingBuffer<T>>, layout: Layout<T>)
      requires Sound(inputs, layout)
      ensures Models(inputs).Keys == inputs
      ensures forall b | b in inputs ::
        Models(inputs)[b] == b.model && WellFormed(b.model) && this in b.model.cursors
    {
    }

    method HandOver(data: T, ghost inputs: set<RingBuffer<T>>, ghost layout: Layout<T>)
      requires Sound(inputs, layout)
      modifies dataSink
      ensures unchanged(this) && Sound(inputs, layout)
      ensures Model() == old(Model()) && Models(inputs) == old(Models(inputs))
      ensures dataSink.consumed == old(dataSink.consumed) + [data]
    {
      dataSink.Consume(data);
      Unaffected();
      forall b | b in inputs ensures b.Valid() && b.model == old(b.model) {
        b.Unaffected();
      }
    }

    method Peek(ghost inputs: set<RingBuffer<T>>, ghost layout: Layout<T>)
      returns (inputBuffer: RingBuffer<T>)
      requires Sound(inputs, layout) && NextIsIn(Model(), inputs)
      modifies footprint
      ensures Sound(inputs, layout) && Models(inputs) == old(Models(inputs)) && inputBuffer in inputs
      ensures Peeked(old(Model()), Model(), inputBuffer)
    {
      S.NextInputKeepsConsistent(Model());
      var peeked := readyToConsumeInputBuffers.ReadNextPointerToConsume();
      inputBuffer := peeked.value;
      forall b | b in inputs ensures b.Valid() && b.model == old(b.model) {
        b.Unaffected();
      }
    }

    method TakeFrom(inputBuffer: RingBuffer<T>, ghost inputs: set<RingBuffer<T>>, ghost layout: Layout<T>)
      returns (data: T)
      requires Sound(inputs, layout) && inputBuffer in inputs
      modifies footprint, inputBuffer
      ensures Sound(inputs, layout)
      ensures Took(old(Model()), Model(), old(Models(inputs)), Models(inputs), this, inputBuffer, data)
    {
      ghost var before, rings := Model(), Models(inputs);
      OneAside(inputBuffer, inputs, layout);
      data := TakeAside(inputBuffer, inputs - {inputBuffer}, layout, rings);
      OneBack(inputBuffer, inputs, layout, rings);
      TookOne(before, Model(), rings, Models(inputs), this, inputBuffer, data);
    }

    method TakeAside(inputBuffer: RingBuffer<T>, ghost others: set<RingBuffer<T>>, ghost layout: Layout<T>,
                     ghost rings: map<RingBuffer<T>, Ring<T, DataProcessingScheduler<T>>>)
      returns (data: T)
      requires Valid() && SoundInput(inputBuffer, layout) && inputBuffer.Apart(this)
      requires inputBuffer !in others && PadsOf(others, layout.pads)
      modifies footprint, inputBuffer
      ensures SoundInput(inputBuffer, layout) && Valid()
      ensures forall b | b in others :: SoundInput(b, layout) == old(SoundInput(b, layout)) && b.model == old(b.model)
      ensures TookFrom(old(Model()), Model(), old(inputBuffer.model), inputBuffer.model, this, inputBuffer, data)
    {
      data := TakeNext(inputBuffer, layout);
      forall b | b in others
        ensures SoundInput(b, layout) == old(SoundInput(b, layout)) && b.model == old(b.model)
      {
        assert unchanged(b) && unchanged(b.buffer);
      }
    }

    method TakeNext(inputBuffer: RingBuffer<T>, ghost layout: Layout<T>) returns (data: T)
      requires Valid() && SoundInput(inputBuffer, layout) && inputBuffer.Apart(this)
      modifies footprint, inputBuffer
      ensures SoundInput(inputBuffer, layout) && Valid()
      ensures TookFrom(old(Model()), Model(), old(inputBuffer.model), inputBuffer.model, this, inputBuffer, data)
    {
      var outcome;
      data, outcome := inputBuffer.ConsumeNextDataFor(this);
    }

    /** The loop's bookkeeping: which of the inputs are ready, and what is left of what was pending. */
    ghost predicate Draining(inputs: set<RingBuffer<T>>,
                             atStart: map<RingBuffer<T>, Ring<T, DataProcessingScheduler<T>>>,
                             served: seq<(RingBuffer<T>, T)>)
      reads this, inputs, readyToConsumeInputBuffers, readyToConsumeInputBuffers.pointers,
        notReadyToConsumeInputBuffers, notReadyToConsumeInputBuffers.pointers
    {
      DrainState(atStart, Models(inputs), Model(), this, served)
    }

    /** The loop run to its end after the termination order, with no more writes: it stops, having handed
        the sink everything its buffers had for it, each buffer's data in order, and nothing else. */
    method Start(ghost inputs: set<RingBuffer<T>>, ghost layout: Layout<T>)
      returns (ghost served: seq<(RingBuffer<T>, T)>)
      requires Sound(inputs, layout) && terminateOrderReceived
      requires S.Partition(Model()) && forall b | b in S.Ready(Model()) :: b in inputs
      requires forall b | b in inputs :: b in S.Ready(Model()) <==> Lags(b.model, this)
      modifies footprint, inputs, dataSink
      ensures Sound(inputs, layout)
      ensures S.Ready(Model()) == multiset{}
      ensures Emptied(old(Models(inputs)), Models(inputs), this, served)
      ensures dataSink.consumed == old(dataSink.consumed) + E.Data(served)
      ensures Housing(inputs, layout) && OthersValid(layout.others) ==> ConsumersValid(inputs)
    {
      ghost var atStart := Models(inputs);
      ModelsAreSound(inputs, layout);
      DrainStarts(atStart, Model(), this);
      served := Drain(inputs, layout, atStart);
      DrainEnds(atStart, Models(inputs), Model(), this, served);
      ConsumersAreValid(inputs, layout);
    }

    method Drain(ghost inputs: set<RingBuffer<T>>, ghost layout: Layout<T>,
                 ghost atStart: map<RingBuffer<T>, Ring<T, DataProcessingScheduler<T>>>)
      returns (ghost served: seq<(RingBuffer<T>, T)>)
      requires Sound(inputs, layout)
      requires Draining(inputs, atStart, []) && terminateOrderReceived
      modifies footprint, inputs, dataSink
      ensures Sound(inputs, layout)
      ensures Draining(inputs, atStart, served) && S.Ready(Model()) == multiset{}
      ensures dataSink.consumed == old(dataSink.consumed) + E.Data(served)
    {
      ghost var earlier := dataSink.consumed;
      served := [];
      assert earlier + E.Data(served) == earlier;
      var running := CannotExitSafely();
      while running
        invariant terminateOrderReceived && Sound(inputs, layout)
        invariant Draining(inputs, atStart, served)
        invariant dataSink.consumed == earlier + E.Data(served)
        invariant running <==> S.Ready(Model()) != multiset{}
        decreases |S.Ready(Model())|, Left(Model(), Models(inputs), this)
      {
        running, served := TurnAndTest(inputs, layout, atStart, earlier, served);
      }
    }

    method TurnAndTest(ghost inputs: set<RingBuffer<T>>, ghost layout: Layout<T>,
                       ghost atStart: map<RingBuffer<T>, Ring<T, DataProcessingScheduler<T>>>,
                       ghost earlier: seq<T>, ghost served: seq<(RingBuffer<T>, T)>)
      returns (running: bool, ghost servedNow: seq<(RingBuffer<T>, T)>)
      requires Sound(inputs, layout) && dataSink.consumed == earlier + E.Data(served)
      requires Draining(inputs, atStart, served) && S.Ready(Model()) != multiset{} && terminateOrderReceived
      modifies footprint, inputs, dataSink
      ensures unchanged(this) && Sound(inputs, layout)
      ensures Draining(inputs, atStart, servedNow)
      ensures dataSink.consumed == earlier + E.Data(servedNow)
      ensures running <==> S.Ready(Model()) != multiset{}
      ensures Closer(Model(), Models(inputs), old(Model()), old(Models(inputs)), this)
    {
      var inputBuffer, data := DrainingTurn(inputs, layout, atStart, served);
      servedNow := served + [(inputBuffer, data)];
      E.DataAppend(earlier, served, (inputBuffer, data));
      running := !(readyToConsumeInputBuffers.numberOfPointersHeld == 0 && terminateOrderReceived);
      S.EmptyMeansNoneReady(Model());
    }

    method DrainingTurn(ghost inputs: set<RingBuffer<T>>, ghost layout: Layout<T>,
                        ghost atStart: map<RingBuffer<T>, Ring<T, DataProcessingScheduler<T>>>,
                        ghost served: seq<(RingBuffer<T>, T)>)
      returns (inputBuffer: RingBuffer<T>, data: T)
      requires Sound(inputs, layout)
      requires Draining(inputs, atStart, served) && S.Ready(Model()) != multiset{}
      modifies footprint, inputs, dataSink
      ensures unchanged(this) && Sound(inputs, layout)
      ensures Draining(inputs, atStart, served + [(inputBuffer, data)])
      ensures dataSink.consumed == old(dataSink.consumed) + [data]
      ensures Closer(Model(), Models(inputs), old(Model()), old(Models(inputs)), this)
    {
      ghost var before, rings := Model(), Models(inputs);
      NextIsDraining(atStart, rings, before, this, served);
      inputBuffer, data := Turn(inputs, layout);
      DrainAdvances(atStart, rings, Models(inputs), before, Model(), this, served, inputBuffer, data);
    }
  }

  // ---------------------------------------------------------------------------------------------
  // The bookkeeping of a drain, on values

  ghost predicate DrainState<T, B, C>(atStart: map<B, Ring<T, C>>, rings: map<B, Ring<T, C>>, scheduler: S.Scheduler<B>,
                                      c: C, served: seq<(B, T)>)
  {
    && rings.Keys == atStart.Keys
    && S.Partition(scheduler)
    && (forall b | b in S.Ready(scheduler) :: b in rings)
    && (forall b | b in rings :: DrainRing(atStart[b], rings[b], c, E.From(served, b), b in S.Ready(scheduler)))
    && Among(served, rings.Keys)
  }

  ghost predicate Among<T, B>(served: seq<(B, T)>, inputs: set<B>) {
    forall i :: 0 <= i < |served| ==> served[i].0 in inputs
  }

  lemma AmongAppend<T, B>(served: seq<(B, T)>, inputs: set<B>, b: B, data: T)
    requires Among(served, inputs) && b in inputs
    ensures Among(served + [(b, data)], inputs)
  {
  }

  /** Nothing is pending any more on these rings, and each has been served what was pending on it, in order;
      nothing else has been served. */
  ghost predicate Emptied<T, B, C>(atStart: map<B, Ring<T, C>>, rings: map<B, Ring<T, C>>, c: C, served: seq<(B, T)>) {
    && rings.Keys == atStart.Keys
    && (forall b | b in rings ::
          && WellFormed(atStart[b]) && c in atStart[b].cursors
          && !Lags(rings[b], c) && rings[b].writer == atStart[b].writer
          && E.From(served, b) == Pending(atStart[b], c))
    && Among(served, rings.Keys)
  }

  ghost predicate DrainRing<T, C>(atStart: Ring<T, C>, ring: Ring<T, C>, c: C, served: seq<T>, ready: bool) {
    && WellFormed(atStart) && WellFormed(ring) && c in atStart.cursors && c in ring.cursors
    && ring.pads == atStart.pads && ring.writer == atStart.writer
    && (ready <==> Lags(ring, c))
    && Pending(atStart, c) == served + Pending(ring, c)
  }

  lemma DrainStarts<T, B, C>(rings: map<B, Ring<T, C>>, scheduler: S.Scheduler<B>, c: C)
    requires S.Partition(scheduler) && forall b | b in S.Ready(scheduler) :: b in rings
    requires forall b | b in rings ::
      WellFormed(rings[b]) && c in rings[b].cursors && (b in S.Ready(scheduler) <==> Lags(rings[b], c))
    ensures DrainState(rings, rings, scheduler, c, [])
  {
    forall b | b in rings
      ensures DrainRing(rings[b], rings[b], c, E.From<T, B>([], b), b in S.Ready(scheduler))
    {
      NothingServed(rings[b], c, b);
    }
  }

  lemma DrainEnds<T, B, C>(atStart: map<B, Ring<T, C>>, rings: map<B, Ring<T, C>>, scheduler: S.Scheduler<B>,
                           c: C, served: seq<(B, T)>)
    requires DrainState(atStart, rings, scheduler, c, served) && S.Ready(scheduler) == multiset{}
    ensures Emptied(atStart, rings, c, served)
  {
    forall b | b in rings
      ensures WellFormed(atStart[b]) && c in atStart[b].cursors && !Lags(rings[b], c)
      ensures rings[b].writer == atStart[b].writer && E.From(served, b) == Pending(atStart[b], c)
    {
      assert DrainRing(atStart[b], rings[b], c, E.From(served, b), false);
      assert E.From(served, b) + [] == E.From(served, b);
    }
  }

  lemma DrainRingTurns<T, C>(atStart: Ring<T, C>, ring: Ring<T, C>, c: C, served: seq<T>)
    requires DrainRing(atStart, ring, c, served, true)
    ensures var (ring', data) := Consume(ring, c);
      DrainRing(atStart, ring', c, served + [data], Lags(ring', c)) && |Pending(ring', c)| < |Pending(ring, c)|
  {
    ConsumeTakesPending(ring, c);
    var (ring', data) := Consume(ring, c);
    assert served + ([data] + Pending(ring', c)) == served + [data] + Pending(ring', c);
  }

  /** One turn takes the head of what is pending on the buffer served and leaves the others alone. */
  lemma DrainTurns<T, B, C>(atStart: map<B, Ring<T, C>>, rings: map<B, Ring<T, C>>, rings': map<B, Ring<T, C>>,
                            scheduler: S.Scheduler<B>, after: S.Scheduler<B>, c: C, served: seq<(B, T)>, b: B, data: T)
    requires DrainState(atStart, rings, scheduler, c, served) && b in rings && b in S.Ready(scheduler)
    requires S.Partition(after)
    requires forall x | x in S.Ready(after) :: x in S.Ready(scheduler)
    requires forall x | x in S.Ready(scheduler) && x != b :: x in S.Ready(after)
    requires rings'.Keys == rings.Keys && (rings'[b], data) == Consume(rings[b], c)
    requires forall x | x in rings && x != b :: rings'[x] == rings[x]
    requires b in S.Ready(after) <==> Lags(rings'[b], c)
    ensures DrainState(atStart, rings', after, c, served + [(b, data)])
  {
    AmongAppend(served, rings.Keys, b, data);
    forall x | x in rings'
      ensures DrainRing(atStart[x], rings'[x], c, E.From(served + [(b, data)], x), x in S.Ready(after))
    {
      assert x in S.Ready(after) <==> if x == b then Lags(rings'[b], c) else x in S.Ready(scheduler);
      DrainTurnsAt(atStart[x], rings[x], rings'[x], x in S.Ready(scheduler), c, served, b, data, x);
    }
  }

  lemma NextIsDraining<T, B, C>(atStart: map<B, Ring<T, C>>, rings: map<B, Ring<T, C>>, scheduler: S.Scheduler<B>, c: C,
                                served: seq<(B, T)>)
    requires DrainState(atStart, rings, scheduler, c, served) && S.Ready(scheduler) != multiset{}
    ensures NextIsIn(scheduler, rings.Keys)
  {
    S.NextInputKeepsPartition(scheduler);
  }

  /** The next buffer to serve is one of these. */
  ghost predicate NextIsIn<B>(scheduler: S.Scheduler<B>, inputs: set<B>) {
    S.Consistent(scheduler) && S.NextInput(scheduler).outcome.Returned?
      && S.NextInput(scheduler).outcome.value in inputs
  }

  ghost predicate Peeked<B>(before: S.Scheduler<B>, after: S.Scheduler<B>, b: B) {
    S.Consistent(before) && S.Consistent(after) && S.NextInput(before) == Reply(after, Returned(b))
  }

  /** A consumption, with the deactivation that may follow. */
  ghost predicate TookFrom<T, B, C>(before: S.Scheduler<B>, after: S.Scheduler<B>, ring: Ring<T, C>, ring': Ring<T, C>,
                                    c: C, b: B, data: T)
  {
    && WellFormed(ring) && (ring', data) == Consume(ring, c)
    && S.Consistent(before) && after == E.Served(before, c, b, ring')
  }

  ghost predicate Took<T, B, C>(before: S.Scheduler<B>, after: S.Scheduler<B>, rings: map<B, Ring<T, C>>,
                                rings': map<B, Ring<T, C>>, c: C, b: B, data: T)
  {
    && rings'.Keys == rings.Keys && b in rings
    && TookFrom(before, after, rings[b], rings'[b], c, b, data)
    && forall x | x in rings && x != b :: rings'[x] == rings[x]
  }

  lemma TookOne<T, B, C>(before: S.Scheduler<B>, after: S.Scheduler<B>, rings: map<B, Ring<T, C>>,
                         rings': map<B, Ring<T, C>>, c: C, b: B, data: T)
    requires rings'.Keys == rings.Keys && b in rings && TookFrom(before, after, rings[b], rings'[b], c, b, data)
    requires forall x | x in rings && x != b :: rings'[x] == rings[x]
    ensures Took(before, after, rings, rings', c, b, data)
  {
  }

  /** What a turn of the loop makes of the scheduler and of its buffers. */
  ghost predicate Turned<T, B, C>(before: S.Scheduler<B>, after: S.Scheduler<B>, rings: map<B, Ring<T, C>>,
                                  rings': map<B, Ring<T, C>>, c: C, b: B, data: T)
  {
    && S.Consistent(before)
    && (var peeked := S.NextInput(before).state;
        Peeked(before, peeked, b) && Took(peeked, after, rings, rings', c, b, data))
  }

  lemma TurnMade<T, B, C>(before: S.Scheduler<B>, peeked: S.Scheduler<B>, after: S.Scheduler<B>,
      rings: map<B, Ring<T, C>>,
                          rings': map<B, Ring<T, C>>, c: C, b: B, data: T)
    requires Peeked(before, peeked, b) && Took(peeked, after, rings, rings', c, b, data)
    ensures Turned(before, after, rings, rings', c, b, data)
  {
  }

  lemma DrainAdvances<T, B, C>(atStart: map<B, Ring<T, C>>, rings: map<B, Ring<T, C>>, rings': map<B, Ring<T, C>>,
                               before: S.Scheduler<B>, after: S.Scheduler<B>, c: C, served: seq<(B, T)>, b: B, data: T)
    requires DrainState(atStart, rings, before, c, served) && Turned(before, after, rings, rings', c, b, data)
    ensures DrainState(atStart, rings', after, c, served + [(b, data)]) && Closer(after, rings', before, rings, c)
  {
    E.TurnProgress(before, c, b, rings'[b]);
    assert DrainRing(atStart[b], rings[b], c, E.From(served, b), true);
    DrainTurns(atStart, rings, rings', before, after, c, served, b, data);
    DrainComesCloser(rings[b], before, rings, rings', c, b);
  }

  /** What is pending on the buffer the loop turns to next. */
  ghost function Left<T, B, C>(scheduler: S.Scheduler<B>, rings: map<B, Ring<T, C>>, c: C): nat {
    if S.Consistent(scheduler) && S.NextInput(scheduler).outcome.Returned? then
      var b := S.NextInput(scheduler).outcome.value;
      if b in rings && WellFormed(rings[b]) && c in rings[b].cursors then |Pending(rings[b], c)| else 0
    else 0
  }

  /** Fewer ready buffers, or as many and less pending on the next one. */
  ghost predicate Closer<T, B, C>(after: S.Scheduler<B>, rings': map<B, Ring<T, C>>,
                                  before: S.Scheduler<B>, rings: map<B, Ring<T, C>>, c: C)
  {
    || |S.Ready(after)| < |S.Ready(before)|
    || (|S.Ready(after)| == |S.Ready(before)| && Left(after, rings', c) < Left(before, rings, c))
  }

  lemma DrainComesCloser<T, B, C>(ring: Ring<T, C>, before: S.Scheduler<B>, rings: map<B, Ring<T, C>>,
                                  rings': map<B, Ring<T, C>>, c: C, b: B)
    requires S.Partition(before) && S.NextInput(before).outcome == Returned(b) && b in rings && b in rings'
    requires ring == rings[b] && WellFormed(ring) && c in ring.cursors && Lags(ring, c)
    requires rings'[b] == Consume(ring, c).0
    ensures Closer(E.Served(S.NextInput(before).state, c, b, rings'[b]), rings', before, rings, c)
  {
    S.NextInputKeepsPartition(before);
    E.TurnProgress(before, c, b, rings'[b]);
    ConsumeTakesPending(ring, c);
  }

  lemma DrainTurnsAt<T, B, C>(atStart: Ring<T, C>, ring: Ring<T, C>, ring': Ring<T, C>, ready: bool, c: C,
                              served: seq<(B, T)>, b: B, data: T, x: B)
    requires DrainRing(atStart, ring, c, E.From(served, x), ready)
    requires if x == b then ready && (ring', data) == Consume(ring, c) else ring' == ring
    ensures DrainRing(atStart, ring', c, E.From(served + [(b, data)], x), if x == b then Lags(ring', c) else ready)
  {
    E.FromAppend(served, (b, data), x);
    if x == b {
      DrainRingTurns(atStart, ring, c, E.From(served, b));
    }
  }

  lemma NothingServed<T, B, C>(ring: Ring<T, C>, c: C, b: B)
    requires WellFormed(ring) && c in ring.cursors
    ensures Pending(ring, c) == E.From<T, B>([], b) + Pending(ring, c)
  {
  }
}
