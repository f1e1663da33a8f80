/** What every step of the pipeline keeps, and what has been handed over once all the orders are carried out.
  */
module PipelineDrain {
  import opened Wrappers
  import opened Stage
  import opened Pipeline
  import SC = SensorCommunicator
  import Engine

  // ---------------------------------------------------------------------------------------------
  // What should come out

  /** The translation of some messages: where it leaves the strategy, and the frames it produced. */
  ghost function Translated<M, R, F, G, E, X>(strategy: Strategy<M, R, F, G, E, X>, messages: seq<M>): (X, seq<F>) {
    if messages == [] then (strategy.start, [])
    else
      var (x, frames) := Translated(strategy, messages[..|messages| - 1]);
      var (x', more, _) := strategy.translate(x, messages[|messages| - 1]);
      (x', frames + more)
  }

  ghost function TranslatedRawData<M, R, F, G, E, X>(strategy: Strategy<M, R, F, G, E, X>, data: seq<R>): seq<G> {
    if data == [] then []
    else TranslatedRawData(strategy, data[..|data| - 1]) + strategy.translateRawData(data[|data| - 1]).0
  }

  /** The errors of one thread among some. */
  ghost function By<E>(errors: seq<Raised<E>>, t: Thread): seq<E> {
    if errors == [] then []
    else By(errors[..|errors| - 1], t) + (if errors[|errors| - 1].thread == t then [errors[|errors| - 1].error] else [])
  }

  lemma TranslatedGrows<M, R, F, G, E, X>(strategy: Strategy<M, R, F, G, E, X>, messages: seq<M>, m: M)
    ensures var (x, frames) := Translated(strategy, messages);
      var (x', more, _) := strategy.translate(x, m);
      Translated(strategy, messages + [m]) == (x', frames + more)
  {
    assert (messages + [m])[..|messages|] == messages;
  }

  lemma TranslatedRawDataGrows<M, R, F, G, E, X>(strategy: Strategy<M, R, F, G, E, X>, data: seq<R>, r: R)
    ensures TranslatedRawData(strategy, data + [r]) ==
      TranslatedRawData(strategy, data) + strategy.translateRawData(r).0
  {
    assert (data + [r])[..|data|] == data;
  }

  lemma ByGrows<E>(errors: seq<Raised<E>>, e: Raised<E>, t: Thread)
    ensures By(errors + [e], t) == By(errors, t) + (if e.thread == t then [e.error] else [])
  {
    assert (errors + [e])[..|errors|] == errors;
  }

  // ---------------------------------------------------------------------------------------------
  // The invariant, part by part

  /** What a thread made for a stage has been written to its buffer or waits to be. */
  ghost predicate Fed<T>(stage: Stage<T, Only>, made: seq<T>, waiting: seq<T>, default: T) {
    Linked(stage, {Only.Only}, default) && made == Written(stage, Only.Only) + waiting
  }

  /** What a thread raised for a source has been written or waits to be. */
  ghost predicate Published<E>(written: seq<Raised<E>>, waiting: seq<E>, raised: seq<E>, t: Thread) {
    By(written, t) + waiting == raised
  }

  ghost predicate AllPublished<E>(written: map<Source, seq<Raised<E>>>, complaints: map<(Thread, Source), seq<E>>,
                                  raised: map<(Thread, Source), seq<E>>)
  {
    && written.Keys == SOURCES
    && forall t, b {:trigger At(complaints, t, b)} | b in SOURCES ::
         Published(written[b], At(complaints, t, b), At(raised, t, b), t)
  }

  /** The thread of a scheduler ends after it was told to stop, drained and silent; whoever joined it waited for
      that. */
  ghost predicate Drains<T, B>(stage: Stage<T, B>, buffers: set<B>, stop: int, orders: int, ended: bool, idle: bool) {
    && Only.Only in stage.schedulers && (Stopped(stage) <==> orders > stop)
    && (orders > stop + 1 ==> ended)
    && (ended ==> Stopped(stage) && idle && forall b | b in buffers :: Taken(stage, b) == Written(stage, b))
  }

  /** The sensor's thread ends after it was told to, with nothing left to write. */
  ghost predicate SensorEnds(orders: int, ended: bool, idle: bool) {
    && (orders > Place(JoinSensor) ==> ended)
    && (ended ==> orders > Place(OrderSensor) && idle)
  }

  ghost predicate Invariant<M, R, F, G, E, X>(
      strategy: Strategy<M, R, F, G, E, X>, d: Defaults<M, R, F, G, E>, p: Pipeline<M, R, F, G, E, X>)
  {
    && Data(strategy, d, p)
    && Shutdown(p)
  }

  ghost predicate Data<M, R, F, G, E, X>(
      strategy: Strategy<M, R, F, G, E, X>, d: Defaults<M, R, F, G, E>, p: Pipeline<M, R, F, G, E, X>)
  {
    && Fed(p.sensorMessages, SC.NonDefault(p.fetchedMessages, d.message), p.messages, d.message)
    && Fed(p.sensorRawData, SC.NonDefault(p.fetchedRawData, d.rawData), p.rawData, d.rawData)
    && p.translation == Translated(strategy, Taken(p.sensorMessages, Only.Only)).0
    && Fed(p.serverMessages, Translated(strategy, Taken(p.sensorMessages, Only.Only)).1, p.frames, d.frame)
    && Fed(p.serverRawData, TranslatedRawData(strategy, Taken(p.sensorRawData, Only.Only)), p.rawFrames, d.rawFrame)
    && Linked(p.errors, SOURCES, d.error) && AllPublished(p.errors.written, p.complaints, p.raised)
  }

  ghost predicate Shutdown<M, R, F, G, E, X>(p: Pipeline<M, R, F, G, E, X>) {
    && SensorEnds(p.orders, Sensor in p.ended, Idle(p, Sensor))
    && Ends(p, MessageTranslator, p.sensorMessages)
    && Ends(p, RawDataTranslator, p.sensorRawData)
    && Ends(p, MessageServer, p.serverMessages)
    && Ends(p, RawDataServer, p.serverRawData)
    && Drains(p.errors, SOURCES, PlaceOfStop(ErrorHandler), p.orders, ErrorHandler in p.ended,
      Silent(p.complaints, ErrorHandler))
    && (p.orders > PlaceOfStop(ErrorHandler) ==> Silent(p.complaints, Main))
    && Main !in p.ended
    && p.orders >= 0
    && Silent(p.complaints, ErrorHandler)
  }

  ghost predicate Ends<M, R, F, G, E, X, T>(p: Pipeline<M, R, F, G, E, X>, t: Thread, stage: Stage<T, Only>) {
    Drains(stage, {Only.Only}, PlaceOfStop(t), p.orders, t in p.ended, Idle(p, t))
  }

  // ---------------------------------------------------------------------------------------------
  // One stage at a time

  lemma FirstMoves<T>(written: seq<T>, waiting: seq<T>)
    requires waiting != []
    ensures written + [waiting[0]] + waiting[1..] == written + waiting
  {
  }

  lemma FedEmits<T>(stage: Stage<T, Only>, made: seq<T>, waiting: seq<T>, default: T)
    requires Fed(stage, made, waiting, default) && waiting != [] && MayWrite(stage, Only.Only, waiting[0])
    ensures var stage' := Engine.WriteStep(stage, Only.Only, waiting[0]);
      && Fed(stage', made, waiting[1..], default)
      && stage'.delivered == stage.delivered && (Stopped(stage') <==> Stopped(stage))
  {
    Writes(stage, {Only.Only}, default, Only.Only, waiting[0]);
    FirstMoves(Written(stage, Only.Only), waiting);
  }

  lemma FedServes<T>(stage: Stage<T, Only>, made: seq<T>, waiting: seq<T>, default: T, data: T)
    requires Fed(stage, made, waiting, default) && Hands(stage, Only.Only, data)
    ensures var stage' := Engine.ServeStep(stage, Only.Only);
      && Fed(stage', made, waiting, default)
      && Taken(stage', Only.Only) == Taken(stage, Only.Only) + [data]
      && (Stopped(stage') <==> Stopped(stage))
  {
    Serves(stage, {Only.Only}, default, Only.Only, data);
  }

  lemma FedStops<T>(stage: Stage<T, Only>, made: seq<T>, waiting: seq<T>, default: T, order: bool)
    requires Fed(stage, made, waiting, default)
    ensures Fed(StoppedIf(stage, order), made, waiting, default)
    ensures Taken(StoppedIf(stage, order), Only.Only) == Taken(stage, Only.Only)
  {
    Stops(stage, {Only.Only}, default);
  }

  lemma ErrorsStop<E>(errors: Stage<Raised<E>, Source>, default: Raised<E>, order: bool)
    requires Linked(errors, SOURCES, default)
    ensures Linked(StoppedIf(errors, order), SOURCES, default) && StoppedIf(errors, order).written == errors.written
  {
    Stops(errors, SOURCES, default);
  }

  lemma FedMore<T>(stage: Stage<T, Only>, made: seq<T>, waiting: seq<T>, more: seq<T>, default: T)
    requires Fed(stage, made, waiting, default) && waiting == []
    ensures Fed(stage, made + more, more, default)
  {
  }

  // ---------------------------------------------------------------------------------------------
  // The errors

  lemma RaisePublishes<E>(written: map<Source, seq<Raised<E>>>, complaints: map<(Thread, Source), seq<E>>,
                          raised: map<(Thread, Source), seq<E>>, t: Thread, b: Source, caught: seq<E>)
    requires AllPublished(written, complaints, raised)
    ensures AllPublished(written, complaints[(t, b) := At(complaints, t, b) + caught],
                         raised[(t, b) := At(raised, t, b) + caught])
  {
    var complaints' := complaints[(t, b) := At(complaints, t, b) + caught];
    var raised' := raised[(t, b) := At(raised, t, b) + caught];
    forall u, c | c in SOURCES ensures Published(written[c], At(complaints', u, c), At(raised', u, c), u) {
      assert Published(written[c], At(complaints, u, c), At(raised, u, c), u);
      if u == t && c == b {
        Associate(By(written[b], t), At(complaints, t, b), caught);
      }
    }
  }

  /** The first error that waits is written: for its thread it moves from one list to the other. */
  lemma PublishesOne<E>(written: seq<Raised<E>>, waiting: seq<E>, raised: seq<E>, t: Thread, u: Thread, others: seq<E>)
    requires waiting != [] && Published(written, if u == t then waiting else others, raised, u)
    ensures Published(written + [Raised(t, waiting[0])], if u == t then waiting[1..] else others, raised, u)
  {
    ByGrows(written, Raised(t, waiting[0]), u);
    if u == t {
      FirstMoves(By(written, t), waiting);
    } else {
      assert By(written, u) + [] == By(written, u);
    }
  }

  lemma EmitPublishes<E>(written: map<Source, seq<Raised<E>>>, complaints: map<(Thread, Source), seq<E>>,
                         raised: map<(Thread, Source), seq<E>>, t: Thread, b: Source)
    requires AllPublished(written, complaints, raised) && At(complaints, t, b) != [] && b in SOURCES
    ensures var waiting := At(complaints, t, b);
      AllPublished(written[b := written[b] + [Raised(t, waiting[0])]], complaints[(t, b) := waiting[1..]], raised)
  {
    var waiting := At(complaints, t, b);
    var written' := written[b := written[b] + [Raised(t, waiting[0])]];
    var complaints' := complaints[(t, b) := waiting[1..]];
    assert written'.Keys == SOURCES;
    forall u, c | c in SOURCES ensures Published(written'[c], At(complaints', u, c), At(raised, u, c), u) {
      assert Published(written[c], At(complaints, u, c), At(raised, u, c), u);
      if c == b {
        PublishesOne(written[b], waiting, At(raised, u, b), t, u, At(complaints, u, b));
      }
    }
  }

  /** Raising an error makes no other thread speak. */
  lemma OthersStaySilent<E>(complaints: map<(Thread, Source), seq<E>>, t: Thread, b: Source, waiting: seq<E>, u: Thread)
    requires u != t
    ensures Silent(complaints[(t, b) := waiting], u) <==> Silent(complaints, u)
  {
    var complaints' := complaints[(t, b) := waiting];
    forall c ensures At(complaints', u, c) == At(complaints, u, c) {}
  }

  // ---------------------------------------------------------------------------------------------
  // The data, step by step

  lemma RaisingKeepsData<M, R, F, G, E, X>(
      strategy: Strategy<M, R, F, G, E, X>, d: Defaults<M, R, F, G, E>, p: Pipeline<M, R, F, G, E, X>,
      t: Thread, b: Source, caught: seq<E>)
    requires Data(strategy, d, p)
    ensures Data(strategy, d, Raise(p, t, b, caught))
  {
    RaisePublishes(p.errors.written, p.complaints, p.raised, t, b, caught);
  }

  lemma FetchingKeepsData<M, R, F, G, E, X>(
      strategy: Strategy<M, R, F, G, E, X>, d: Defaults<M, R, F, G, E>, p: Pipeline<M, R, F, G, E, X>,
      step: Step<M, R, F, G, E>)
    requires Data(strategy, d, p) && Enabled(p, step) && (step.FetchMessages? || step.FetchRawData?)
    ensures Data(strategy, d, Apply(strategy, d, p, step))
  {
    RaisingKeepsData(strategy, d, p, Sensor, FromSensor, step.caught);
    if step.FetchMessages? {
      SC.NonDefaultConcat(p.fetchedMessages, step.batch, d.message);
      FedMore(p.sensorMessages, SC.NonDefault(p.fetchedMessages, d.message), p.messages,
        SC.NonDefault(step.batch, d.message), d.message);
    } else {
      SC.NonDefaultConcat(p.fetchedRawData, step.cycles, d.rawData);
      FedMore(p.sensorRawData, SC.NonDefault(p.fetchedRawData, d.rawData), p.rawData,
        SC.NonDefault(step.cycles, d.rawData), d.rawData);
    }
  }

  lemma TranslatingKeepsData<M, R, F, G, E, X>(
      strategy: Strategy<M, R, F, G, E, X>, d: Defaults<M, R, F, G, E>, p: Pipeline<M, R, F, G, E, X>,
      step: Step<M, R, F, G, E>)
    requires Data(strategy, d, p) && Enabled(p, step) && step.Translate?
    ensures Data(strategy, d, Apply(strategy, d, p, step))
  {
    var taken := Taken(p.sensorMessages, Only.Only);
    var (x, frames, caught) := strategy.translate(p.translation, step.message);
    RaisingKeepsData(strategy, d, p, MessageTranslator, FromTranslator, caught);
    FedServes(p.sensorMessages, SC.NonDefault(p.fetchedMessages, d.message), p.messages, d.message, step.message);
    TranslatedGrows(strategy, taken, step.message);
    FedMore(p.serverMessages, Translated(strategy, taken).1, p.frames, frames, d.frame);
  }

  lemma TranslatingRawKeepsData<M, R, F, G, E, X>(
      strategy: Strategy<M, R, F, G, E, X>, d: Defaults<M, R, F, G, E>, p: Pipeline<M, R, F, G, E, X>,
      step: Step<M, R, F, G, E>)
    requires Data(strategy, d, p) && Enabled(p, step) && step.TranslateRawData?
    ensures Data(strategy, d, Apply(strategy, d, p, step))
  {
    var taken := Taken(p.sensorRawData, Only.Only);
    var (rawFrames, caught) := strategy.translateRawData(step.data);
    RaisingKeepsData(strategy, d, p, RawDataTranslator, FromTranslator, caught);
    FedServes(p.sensorRawData, SC.NonDefault(p.fetchedRawData, d.rawData), p.rawData, d.rawData, step.data);
    TranslatedRawDataGrows(strategy, taken, step.data);
    FedMore(p.serverRawData, TranslatedRawData(strategy, taken), p.rawFrames, rawFrames, d.rawFrame);
  }

  lemma SendingKeepsData<M, R, F, G, E, X>(
      strategy: Strategy<M, R, F, G, E, X>, d: Defaults<M, R, F, G, E>, p: Pipeline<M, R, F, G, E, X>,
      step: Step<M, R, F, G, E>)
    requires Data(strategy, d, p) && Enabled(p, step) && (step.Send? || step.SendRawData? || step.HandleError?)
    ensures Data(strategy, d, Apply(strategy, d, p, step))
  {
    match step
    case Send(frame, caught) =>
      RaisingKeepsData(strategy, d, p, MessageServer, FromServer, caught);
      FedServes(p.serverMessages, Translated(strategy, Taken(p.sensorMessages, Only.Only)).1, p.frames, d.frame, frame);
    case SendRawData(frame, caught) =>
      RaisingKeepsData(strategy, d, p, RawDataServer, FromServer, caught);
      FedServes(p.serverRawData, TranslatedRawData(strategy, Taken(p.sensorRawData, Only.Only)), p.rawFrames,
                d.rawFrame, frame);
    case HandleError(b, e) =>
      Serves(p.errors, SOURCES, d.error, b, e);
  }

  lemma EmittingKeepsData<M, R, F, G, E, X>(
      strategy: Strategy<M, R, F, G, E, X>, d: Defaults<M, R, F, G, E>, p: Pipeline<M, R, F, G, E, X>,
      step: Step<M, R, F, G, E>)
    requires Data(strategy, d, p) && Enabled(p, step)
    requires step.EmitMessage? || step.EmitRawData? || step.EmitFrame? || step.EmitRawFrame?
    ensures Data(strategy, d, Apply(strategy, d, p, step))
  {
    match step
    case EmitMessage =>
      FedEmits(p.sensorMessages, SC.NonDefault(p.fetchedMessages, d.message), p.messages, d.message);
    case EmitRawData =>
      FedEmits(p.sensorRawData, SC.NonDefault(p.fetchedRawData, d.rawData), p.rawData, d.rawData);
    case EmitFrame =>
      FedEmits(p.serverMessages, Translated(strategy, Taken(p.sensorMessages, Only.Only)).1, p.frames, d.frame);
    case EmitRawFrame =>
      FedEmits(p.serverRawData, TranslatedRawData(strategy, Taken(p.sensorRawData, Only.Only)), p.rawFrames,
        d.rawFrame);
  }

  lemma EmittingErrorKeepsData<M, R, F, G, E, X>(
      strategy: Strategy<M, R, F, G, E, X>, d: Defaults<M, R, F, G, E>, p: Pipeline<M, R, F, G, E, X>,
      step: Step<M, R, F, G, E>)
    requires Data(strategy, d, p) && Enabled(p, step) && step.EmitError?
    ensures Data(strategy, d, Apply(strategy, d, p, step))
  {
    var e := FirstError(p, step.thread, step.source);
    Writes(p.errors, SOURCES, d.error, step.source, e);
    EmitPublishes(p.errors.written, p.complaints, p.raised, step.thread, step.source);
  }

  lemma OrderingKeepsData<M, R, F, G, E, X>(
      strategy: Strategy<M, R, F, G, E, X>, d: Defaults<M, R, F, G, E>, p: Pipeline<M, R, F, G, E, X>, order: Order,
      caught: seq<E>)
    requires Data(strategy, d, p)
    ensures Data(strategy, d, Done(p, order, caught).(orders := p.orders + 1))
  {
    if Reports(order).Some? {
      RaisePublishes(p.errors.written, p.complaints, p.raised, Main, Reports(order).value, caught);
    }
    FedStops(p.sensorMessages, SC.NonDefault(p.fetchedMessages, d.message), p.messages, d.message,
      order == Stop(MessageTranslator));
    FedStops(p.sensorRawData, SC.NonDefault(p.fetchedRawData, d.rawData), p.rawData, d.rawData,
      order == Stop(RawDataTranslator));
    FedStops(p.serverMessages, Translated(strategy, Taken(p.sensorMessages, Only.Only)).1, p.frames, d.frame,
      order == Stop(MessageServer));
    FedStops(p.serverRawData, TranslatedRawData(strategy, Taken(p.sensorRawData, Only.Only)), p.rawFrames, d.rawFrame,
             order == Stop(RawDataServer));
    ErrorsStop(p.errors, d.error, order == Stop(ErrorHandler));
  }

  lemma KeepsData<M, R, F, G, E, X>(
      strategy: Strategy<M, R, F, G, E, X>, d: Defaults<M, R, F, G, E>, p: Pipeline<M, R, F, G, E, X>,
      step: Step<M, R, F, G, E>)
    requires Data(strategy, d, p) && Enabled(p, step)
    ensures Data(strategy, d, Apply(strategy, d, p, step))
  {
    match step
    case FetchMessages(_, _) => FetchingKeepsData(strategy, d, p, step);
    case FetchRawData(_, _) => FetchingKeepsData(strategy, d, p, step);
    case Translate(_) => TranslatingKeepsData(strategy, d, p, step);
    case TranslateRawData(_) => TranslatingRawKeepsData(strategy, d, p, step);
    case Send(_, _) => SendingKeepsData(strategy, d, p, step);
    case SendRawData(_, _) => SendingKeepsData(strategy, d, p, step);
    case HandleError(_, _) => SendingKeepsData(strategy, d, p, step);
    case EmitMessage => EmittingKeepsData(strategy, d, p, step);
    case EmitRawData => EmittingKeepsData(strategy, d, p, step);
    case EmitFrame => EmittingKeepsData(strategy, d, p, step);
    case EmitRawFrame => EmittingKeepsData(strategy, d, p, step);
    case EmitError(_, _) => EmittingErrorKeepsData(strategy, d, p, step);
    case End(_) =>
    case Do(order, caught) => OrderingKeepsData(strategy, d, p, order, caught);
  }

  // ---------------------------------------------------------------------------------------------
  // The shutdown, step by step

  /** A stage of a running thread may change, but not be stopped. */
  ghost predicate Moves<T, B>(stage: Stage<T, B>, stage': Stage<T, B>, ended: bool) {
    stage' == stage ||
    (!ended && (Stopped(stage') <==> Stopped(stage))
      && (Only.Only in stage.schedulers ==> Only.Only in stage'.schedulers))
  }

  /** A step of one thread, which has not ended: it ends nobody and makes nobody else busy. */
  ghost predicate StepOf<M, R, F, G, E, X>(p: Pipeline<M, R, F, G, E, X>, p': Pipeline<M, R, F, G, E, X>, u: Thread) {
    && p'.orders == p.orders && p'.ended == p.ended && u !in p.ended
    && Silent(p'.complaints, ErrorHandler)
    && (forall t | t != u && Idle(p, t) :: Idle(p', t))
    && (p.orders > PlaceOfStop(ErrorHandler) && Silent(p.complaints, Main) ==> Silent(p'.complaints, Main))
    && Moves(p.sensorMessages, p'.sensorMessages, MessageTranslator in p.ended)
    && Moves(p.sensorRawData, p'.sensorRawData, RawDataTranslator in p.ended)
    && Moves(p.serverMessages, p'.serverMessages, MessageServer in p.ended)
    && Moves(p.serverRawData, p'.serverRawData, RawDataServer in p.ended)
    && Moves(p.errors, p'.errors, ErrorHandler in p.ended)
  }

  lemma StepKeepsShutdown<M, R, F, G, E, X>(p: Pipeline<M, R, F, G, E, X>, p': Pipeline<M, R, F, G, E, X>, u: Thread)
    requires Shutdown(p) && StepOf(p, p', u)
    ensures Shutdown(p')
  {
  }

  lemma RaisingIsQuiet<M, R, F, G, E, X>(
      p: Pipeline<M, R, F, G, E, X>, t: Thread, b: Source, waiting: seq<E>)
    ensures var q := p.(complaints := p.complaints[(t, b) := waiting]);
      && (forall u | u != t && Idle(p, u) :: Idle(q, u))
      && (forall u | u != t :: Silent(q.complaints, u) <==> Silent(p.complaints, u))
  {
    forall u | u != t ensures Silent(p.complaints[(t, b) := waiting], u) <==> Silent(p.complaints, u) {
      OthersStaySilent(p.complaints, t, b, waiting, u);
    }
  }

  /** While a thread is busy, or may still get busy, the one that reads what it writes has not ended. */
  lemma ReadersRun<M, R, F, G, E, X>(p: Pipeline<M, R, F, G, E, X>)
    requires Shutdown(p)
    ensures MessageTranslator in p.ended || RawDataTranslator in p.ended ==> Sensor in p.ended && Idle(p, Sensor)
    ensures MessageServer in p.ended ==> MessageTranslator in p.ended && Idle(p, MessageTranslator)
    ensures RawDataServer in p.ended ==> RawDataTranslator in p.ended && Idle(p, RawDataTranslator)
    ensures ErrorHandler in p.ended ==> forall t :: Silent(p.complaints, t)
  {
    forall t | ErrorHandler in p.ended ensures Silent(p.complaints, t) {
      match t
      case Sensor => assert Idle(p, Sensor);
      case MessageTranslator => assert Idle(p, t);
      case RawDataTranslator => assert Idle(p, t);
      case MessageServer => assert Idle(p, t);
      case RawDataServer => assert Idle(p, t);
      case ErrorHandler =>
      case Main =>
    }
  }

  lemma FetchingMessagesKeepsShutdown<M, R, F, G, E, X>(p: Pipeline<M, R, F, G, E, X>, batch: seq<M>, caught: seq<E>,
      default: M)
    requires Shutdown(p) && Sensor !in p.ended
    ensures Shutdown(MessagesFetched(p, batch, caught, default))
  {
    RaisingIsQuiet(p, Sensor, FromSensor, At(p.complaints, Sensor, FromSensor) + caught);
    StepKeepsShutdown(p, MessagesFetched(p, batch, caught, default), Sensor);
  }

  lemma FetchingRawDataKeepsShutdown<M, R, F, G, E, X>(p: Pipeline<M, R, F, G, E, X>, cycles: seq<R>, caught: seq<E>,
      default: R)
    requires Shutdown(p) && Sensor !in p.ended
    ensures Shutdown(RawDataFetched(p, cycles, caught, default))
  {
    RaisingIsQuiet(p, Sensor, FromSensor, At(p.complaints, Sensor, FromSensor) + caught);
    StepKeepsShutdown(p, RawDataFetched(p, cycles, caught, default), Sensor);
  }

  lemma TranslatingKeepsShutdown<M, R, F, G, E, X>(p: Pipeline<M, R, F, G, E, X>, m: M, x: X, frames: seq<F>,
      caught: seq<E>)
    requires Shutdown(p) && MessageTranslator !in p.ended && Hands(p.sensorMessages, Only.Only, m)
    ensures Shutdown(MessageTranslated(p, m, x, frames, caught))
  {
    RaisingIsQuiet(p, MessageTranslator, FromTranslator, At(p.complaints, MessageTranslator, FromTranslator) + caught);
    ServeStopsNobody(p.sensorMessages, Only.Only, m);
    StepKeepsShutdown(p, MessageTranslated(p, m, x, frames, caught), MessageTranslator);
  }

  lemma TranslatingRawKeepsShutdown<M, R, F, G, E, X>(p: Pipeline<M, R, F, G, E, X>, r: R, rawFrames: seq<G>,
      caught: seq<E>)
    requires Shutdown(p) && RawDataTranslator !in p.ended && Hands(p.sensorRawData, Only.Only, r)
    ensures Shutdown(RawDataTranslated(p, r, rawFrames, caught))
  {
    RaisingIsQuiet(p, RawDataTranslator, FromTranslator, At(p.complaints, RawDataTranslator, FromTranslator) + caught);
    ServeStopsNobody(p.sensorRawData, Only.Only, r);
    StepKeepsShutdown(p, RawDataTranslated(p, r, rawFrames, caught), RawDataTranslator);
  }

  lemma SendingKeepsShutdown<M, R, F, G, E, X>(p: Pipeline<M, R, F, G, E, X>, f: F, caught: seq<E>)
    requires Shutdown(p) && MessageServer !in p.ended && Hands(p.serverMessages, Only.Only, f)
    ensures Shutdown(FrameSent(p, f, caught))
  {
    RaisingIsQuiet(p, MessageServer, FromServer, At(p.complaints, MessageServer, FromServer) + caught);
    ServeStopsNobody(p.serverMessages, Only.Only, f);
    StepKeepsShutdown(p, FrameSent(p, f, caught), MessageServer);
  }

  lemma SendingRawKeepsShutdown<M, R, F, G, E, X>(p: Pipeline<M, R, F, G, E, X>, g: G, caught: seq<E>)
    requires Shutdown(p) && RawDataServer !in p.ended && Hands(p.serverRawData, Only.Only, g)
    ensures Shutdown(RawFrameSent(p, g, caught))
  {
    RaisingIsQuiet(p, RawDataServer, FromServer, At(p.complaints, RawDataServer, FromServer) + caught);
    ServeStopsNobody(p.serverRawData, Only.Only, g);
    StepKeepsShutdown(p, RawFrameSent(p, g, caught), RawDataServer);
  }

  lemma HandlingKeepsShutdown<M, R, F, G, E, X>(p: Pipeline<M, R, F, G, E, X>, b: Source, e: Raised<E>)
    requires Shutdown(p) && ErrorHandler !in p.ended && Hands(p.errors, b, e)
    ensures Shutdown(ErrorHandled(p, b, e))
  {
    ServeStopsNobody(p.errors, b, e);
    StepKeepsShutdown(p, ErrorHandled(p, b, e), ErrorHandler);
  }

  lemma EmittingMessageIsAStep<M, R, F, G, E, X>(p: Pipeline<M, R, F, G, E, X>)
    requires p.messages != [] && MayWrite(p.sensorMessages, Only.Only, p.messages[0])
    requires Sensor !in p.ended && MessageTranslator !in p.ended && Silent(p.complaints, ErrorHandler)
    ensures StepOf(p, MessageEmitted(p), Sensor)
  {
    WriteStopsNobody(p.sensorMessages, Only.Only, p.messages[0]);
  }

  lemma EmittingMessageKeepsShutdown<M, R, F, G, E, X>(p: Pipeline<M, R, F, G, E, X>)
    requires Shutdown(p) && p.messages != [] && MayWrite(p.sensorMessages, Only.Only, p.messages[0])
    ensures Shutdown(MessageEmitted(p))
  {
    ReadersRun(p);
    assert !Idle(p, Sensor);
    EmittingMessageIsAStep(p);
    StepKeepsShutdown(p, MessageEmitted(p), Sensor);
  }

  lemma EmittingRawDataIsAStep<M, R, F, G, E, X>(p: Pipeline<M, R, F, G, E, X>)
    requires p.rawData != [] && MayWrite(p.sensorRawData, Only.Only, p.rawData[0])
    requires Sensor !in p.ended && RawDataTranslator !in p.ended && Silent(p.complaints, ErrorHandler)
    ensures StepOf(p, RawDataEmitted(p), Sensor)
  {
    WriteStopsNobody(p.sensorRawData, Only.Only, p.rawData[0]);
  }

  lemma EmittingRawDataKeepsShutdown<M, R, F, G, E, X>(p: Pipeline<M, R, F, G, E, X>)
    requires Shutdown(p) && p.rawData != [] && MayWrite(p.sensorRawData, Only.Only, p.rawData[0])
    ensures Shutdown(RawDataEmitted(p))
  {
    ReadersRun(p);
    assert !Idle(p, Sensor);
    EmittingRawDataIsAStep(p);
    StepKeepsShutdown(p, RawDataEmitted(p), Sensor);
  }

  lemma EmittingFrameIsAStep<M, R, F, G, E, X>(p: Pipeline<M, R, F, G, E, X>)
    requires p.frames != [] && MayWrite(p.serverMessages, Only.Only, p.frames[0])
    requires MessageTranslator !in p.ended && MessageServer !in p.ended && Silent(p.complaints, ErrorHandler)
    ensures StepOf(p, FrameEmitted(p), MessageTranslator)
  {
    WriteStopsNobody(p.serverMessages, Only.Only, p.frames[0]);
  }

  lemma EmittingFrameKeepsShutdown<M, R, F, G, E, X>(p: Pipeline<M, R, F, G, E, X>)
    requires Shutdown(p) && p.frames != [] && MayWrite(p.serverMessages, Only.Only, p.frames[0])
    ensures Shutdown(FrameEmitted(p))
  {
    ReadersRun(p);
    assert !Idle(p, MessageTranslator);
    EmittingFrameIsAStep(p);
    StepKeepsShutdown(p, FrameEmitted(p), MessageTranslator);
  }

  lemma EmittingRawFrameIsAStep<M, R, F, G, E, X>(p: Pipeline<M, R, F, G, E, X>)
    requires p.rawFrames != [] && MayWrite(p.serverRawData, Only.Only, p.rawFrames[0])
    requires RawDataTranslator !in p.ended && RawDataServer !in p.ended && Silent(p.complaints, ErrorHandler)
    ensures StepOf(p, RawFrameEmitted(p), RawDataTranslator)
  {
    WriteStopsNobody(p.serverRawData, Only.Only, p.rawFrames[0]);
  }

  lemma EmittingRawFrameKeepsShutdown<M, R, F, G, E, X>(p: Pipeline<M, R, F, G, E, X>)
    requires Shutdown(p) && p.rawFrames != [] && MayWrite(p.serverRawData, Only.Only, p.rawFrames[0])
    ensures Shutdown(RawFrameEmitted(p))
  {
    ReadersRun(p);
    assert !Idle(p, RawDataTranslator);
    EmittingRawFrameIsAStep(p);
    StepKeepsShutdown(p, RawFrameEmitted(p), RawDataTranslator);
  }

  lemma EmittingErrorIsAStep<M, R, F, G, E, X>(p: Pipeline<M, R, F, G, E, X>, t: Thread, b: Source)
    requires At(p.complaints, t, b) != [] && MayWrite(p.errors, b, FirstError(p, t, b))
    requires t !in p.ended && t != ErrorHandler && ErrorHandler !in p.ended && Silent(p.complaints, ErrorHandler)
    ensures StepOf(p, ErrorEmitted(p, t, b), t)
  {
    WriteStopsNobody(p.errors, b, FirstError(p, t, b));
    RaisingIsQuiet(p, t, b, At(p.complaints, t, b)[1..]);
  }

  lemma EmittingErrorKeepsShutdown<M, R, F, G, E, X>(p: Pipeline<M, R, F, G, E, X>, t: Thread, b: Source)
    requires Shutdown(p) && At(p.complaints, t, b) != [] && MayWrite(p.errors, b, FirstError(p, t, b))
    ensures Shutdown(ErrorEmitted(p, t, b))
  {
    ReadersRun(p);
    BusyRuns(p, t);
    EmittingErrorIsAStep(p, t, b);
    StepKeepsShutdown(p, ErrorEmitted(p, t, b), t);
  }

  /** A thread with something to say has not ended, and is not the error handler. */
  lemma BusyRuns<M, R, F, G, E, X>(p: Pipeline<M, R, F, G, E, X>, t: Thread)
    requires Shutdown(p) && !Silent(p.complaints, t)
    ensures t !in p.ended && t != ErrorHandler
  {
    match t
    case Sensor => assert !Idle(p, t);
    case MessageTranslator => assert !Idle(p, t);
    case RawDataTranslator => assert !Idle(p, t);
    case MessageServer => assert !Idle(p, t);
    case RawDataServer => assert !Idle(p, t);
    case ErrorHandler =>
    case Main =>
  }

  /** The thread has been told to end and has nothing left to do. */
  ghost predicate Drained<M, R, F, G, E, X>(p: Pipeline<M, R, F, G, E, X>, t: Thread) {
    match t
    case Sensor => p.orders > Place(OrderSensor)
    case MessageTranslator => Stopped(p.sensorMessages)
      && Taken(p.sensorMessages, Only.Only) == Written(p.sensorMessages, Only.Only)
    case RawDataTranslator => Stopped(p.sensorRawData)
      && Taken(p.sensorRawData, Only.Only) == Written(p.sensorRawData, Only.Only)
    case MessageServer => Stopped(p.serverMessages)
      && Taken(p.serverMessages, Only.Only) == Written(p.serverMessages, Only.Only)
    case RawDataServer => Stopped(p.serverRawData)
      && Taken(p.serverRawData, Only.Only) == Written(p.serverRawData, Only.Only)
    case ErrorHandler => Stopped(p.errors) && forall b | b in SOURCES :: Taken(p.errors, b) == Written(p.errors, b)
    case Main => false
  }

  lemma EndsDrained<M, R, F, G, E, X>(
      strategy: Strategy<M, R, F, G, E, X>, d: Defaults<M, R, F, G, E>, p: Pipeline<M, R, F, G, E, X>, t: Thread)
    requires Data(strategy, d, p) && MayEnd(p, t)
    ensures Drained(p, t)
  {
    match t
    case Sensor =>
    case MessageTranslator => Exits(p.sensorMessages, {Only.Only}, d.message, Only.Only);
    case RawDataTranslator => Exits(p.sensorRawData, {Only.Only}, d.rawData, Only.Only);
    case MessageServer => Exits(p.serverMessages, {Only.Only}, d.frame, Only.Only);
    case RawDataServer => Exits(p.serverRawData, {Only.Only}, d.rawFrame, Only.Only);
    case ErrorHandler =>
      Exits(p.errors, SOURCES, d.error, FromSensor);
      forall b | b in SOURCES ensures Taken(p.errors, b) == Written(p.errors, b) {
        Exits(p.errors, SOURCES, d.error, b);
      }
    case Main =>
  }

  lemma EndingKeepsShutdown<M, R, F, G, E, X>(p: Pipeline<M, R, F, G, E, X>, t: Thread)
    requires Shutdown(p) && Idle(p, t) && Drained(p, t) && t !in p.ended
    ensures Shutdown(p.(ended := p.ended + {t}))
  {
  }

  /** Carrying out an order makes nobody busy but the thread that gives it. */
  lemma OrderingIsQuiet<M, R, F, G, E, X>(p: Pipeline<M, R, F, G, E, X>, order: Order, caught: seq<E>, t: Thread)
    requires t != Main
    ensures Idle(Done(p, order, caught).(orders := p.orders + 1), t) <==> Idle(p, t)
  {
    if Reports(order).Some? {
      var b := Reports(order).value;
      OthersStaySilent(p.complaints, Main, b, At(p.complaints, Main, b) + caught, t);
    }
  }

  /** One stage while an order is carried out. */
  lemma OrderedAfter<T, B>(stage: Stage<T, B>, buffers: set<B>, t: Thread, order: Order, orders: int, ended: bool,
      idle: bool)
    requires Drains(stage, buffers, PlaceOfStop(t), orders, ended, idle) && 0 <= orders == Place(order)
    requires t !in {Sensor, Main} && (order == Join(t) ==> ended)
    ensures Drains(StoppedIf(stage, order == Stop(t)), buffers, PlaceOfStop(t), orders + 1, ended, idle)
  {
    assert orders == PlaceOfStop(t) + 1 ==> order == Join(t);
    assert orders == PlaceOfStop(t) ==> order == Stop(t);
  }

  ghost predicate AfterOrder<M, R, F, G, E, X>(p: Pipeline<M, R, F, G, E, X>, p': Pipeline<M, R, F, G, E, X>,
      order: Order) {
    && p'.orders == p.orders + 1 && p'.ended == p.ended
    && (forall t | t != Main :: Idle(p', t) <==> Idle(p, t))
    && (Reports(order).None? ==> p'.complaints == p.complaints)
    && p'.sensorMessages == StoppedIf(p.sensorMessages, order == Stop(MessageTranslator))
    && p'.sensorRawData == StoppedIf(p.sensorRawData, order == Stop(RawDataTranslator))
    && p'.serverMessages == StoppedIf(p.serverMessages, order == Stop(MessageServer))
    && p'.serverRawData == StoppedIf(p.serverRawData, order == Stop(RawDataServer))
    && p'.errors == StoppedIf(p.errors, order == Stop(ErrorHandler))
  }

  lemma AfterOrderEnds<M, R, F, G, E, X, T>(
      p: Pipeline<M, R, F, G, E, X>, p': Pipeline<M, R, F, G, E, X>, order: Order, t: Thread, stage: Stage<T, Only>)
    requires Ends(p, t, stage) && t !in {Sensor, Main} && 0 <= p.orders == Place(order)
      && (order == Join(t) ==> t in p.ended)
    requires p'.orders == p.orders + 1 && p'.ended == p.ended && (Idle(p', t) <==> Idle(p, t))
    ensures Ends(p', t, StoppedIf(stage, order == Stop(t)))
  {
    OrderedAfter(stage, {Only.Only}, t, order, p.orders, t in p.ended, Idle(p, t));
  }

  lemma AfterOrderRest<M, R, F, G, E, X>(p: Pipeline<M, R, F, G, E, X>, p': Pipeline<M, R, F, G, E, X>, order: Order)
    requires Shutdown(p) && p.orders == Place(order) && Silent(p.complaints, Main) && AfterOrder(p, p', order)
    requires order == Join(ErrorHandler) ==> ErrorHandler in p.ended
    requires order.JoinSensor? ==> Sensor in p.ended
    ensures SensorEnds(p'.orders, Sensor in p'.ended, Idle(p', Sensor))
    ensures Drains(p'.errors, SOURCES, PlaceOfStop(ErrorHandler), p'.orders, ErrorHandler in p'.ended,
                   Silent(p'.complaints, ErrorHandler))
    ensures p'.orders > PlaceOfStop(ErrorHandler) ==> Silent(p'.complaints, Main)
    ensures Silent(p'.complaints, ErrorHandler)
  {
    assert Idle(p, ErrorHandler) && Idle(p', ErrorHandler);
    OrderedAfter(p.errors, SOURCES, ErrorHandler, order, p.orders, ErrorHandler in p.ended,
      Silent(p.complaints, ErrorHandler));
    assert p'.orders > PlaceOfStop(ErrorHandler) ==> Reports(order).None?;
  }

  lemma AfterOrderShutdown<M, R, F, G, E, X>(p: Pipeline<M, R, F, G, E, X>, p': Pipeline<M, R, F, G, E, X>,
      order: Order)
    requires Shutdown(p) && p.orders == Place(order) && Silent(p.complaints, Main) && AfterOrder(p, p', order)
    requires (order.Join? ==> order.t in p.ended) && (order.JoinSensor? ==> Sensor in p.ended)
    ensures Shutdown(p')
  {
    AfterOrderEnds(p, p', order, MessageTranslator, p.sensorMessages);
    AfterOrderEnds(p, p', order, RawDataTranslator, p.sensorRawData);
    AfterOrderEnds(p, p', order, MessageServer, p.serverMessages);
    AfterOrderEnds(p, p', order, RawDataServer, p.serverRawData);
    AfterOrderRest(p, p', order);
  }

  lemma DoneIsAfterOrder<M, R, F, G, E, X>(p: Pipeline<M, R, F, G, E, X>, order: Order, caught: seq<E>)
    ensures AfterOrder(p, Done(p, order, caught).(orders := p.orders + 1), order)
  {
    forall t | t != Main ensures Idle(Done(p, order, caught).(orders := p.orders + 1), t) <==> Idle(p, t) {
      OrderingIsQuiet(p, order, caught, t);
    }
  }

  lemma OrderingKeepsShutdown<M, R, F, G, E, X>(p: Pipeline<M, R, F, G, E, X>, order: Order, caught: seq<E>)
    requires Shutdown(p) && p.orders == Place(order) && Silent(p.complaints, Main)
    requires (order.Join? ==> order.t in p.ended) && (order.JoinSensor? ==> Sensor in p.ended)
    ensures Shutdown(Done(p, order, caught).(orders := p.orders + 1))
  {
    DoneIsAfterOrder(p, order, caught);
    AfterOrderShutdown(p, Done(p, order, caught).(orders := p.orders + 1), order);
  }

  lemma OrderStepKeepsShutdown<M, R, F, G, E, X>(
      strategy: Strategy<M, R, F, G, E, X>, d: Defaults<M, R, F, G, E>, p: Pipeline<M, R, F, G, E, X>,
      step: Step<M, R, F, G, E>)
    requires Shutdown(p) && Enabled(p, step) && step.Do?
    ensures Shutdown(Apply(strategy, d, p, step))
  {
    OrderingKeepsShutdown(p, step.order, step.caught);
  }

  lemma FetchStepKeepsShutdown<M, R, F, G, E, X>(
      strategy: Strategy<M, R, F, G, E, X>, d: Defaults<M, R, F, G, E>, p: Pipeline<M, R, F, G, E, X>,
      step: Step<M, R, F, G, E>)
    requires Shutdown(p) && Enabled(p, step) && (step.FetchMessages? || step.FetchRawData?)
    ensures Shutdown(Apply(strategy, d, p, step))
  {
    match step
    case FetchMessages(batch, caught) => FetchingMessagesKeepsShutdown(p, batch, caught, d.message);
    case FetchRawData(cycles, caught) => FetchingRawDataKeepsShutdown(p, cycles, caught, d.rawData);
  }

  lemma TranslateStepKeepsShutdown<M, R, F, G, E, X>(
      strategy: Strategy<M, R, F, G, E, X>, d: Defaults<M, R, F, G, E>, p: Pipeline<M, R, F, G, E, X>,
      step: Step<M, R, F, G, E>)
    requires Shutdown(p) && Enabled(p, step) && (step.Translate? || step.TranslateRawData?)
    ensures Shutdown(Apply(strategy, d, p, step))
  {
    match step
    case Translate(m) =>
      var (x, frames, caught) := strategy.translate(p.translation, m);
      TranslatingKeepsShutdown(p, m, x, frames, caught);
    case TranslateRawData(r) =>
      var (rawFrames, caught) := strategy.translateRawData(r);
      TranslatingRawKeepsShutdown(p, r, rawFrames, caught);
  }

  lemma OutStepKeepsShutdown<M, R, F, G, E, X>(
      strategy: Strategy<M, R, F, G, E, X>, d: Defaults<M, R, F, G, E>, p: Pipeline<M, R, F, G, E, X>,
      step: Step<M, R, F, G, E>)
    requires Shutdown(p) && Enabled(p, step)
    requires step.Send? || step.SendRawData? || step.HandleError? || step.EmitError?
    ensures Shutdown(Apply(strategy, d, p, step))
  {
    match step
    case Send(f, caught) => SendingKeepsShutdown(p, f, caught);
    case SendRawData(g, caught) => SendingRawKeepsShutdown(p, g, caught);
    case HandleError(b, e) => HandlingKeepsShutdown(p, b, e);
    case EmitError(t, b) => EmittingErrorKeepsShutdown(p, t, b);
  }

  lemma EmitStepKeepsShutdown<M, R, F, G, E, X>(
      strategy: Strategy<M, R, F, G, E, X>, d: Defaults<M, R, F, G, E>, p: Pipeline<M, R, F, G, E, X>,
      step: Step<M, R, F, G, E>)
    requires Shutdown(p) && Enabled(p, step)
    requires step.EmitMessage? || step.EmitRawData? || step.EmitFrame? || step.EmitRawFrame?
    ensures Shutdown(Apply(strategy, d, p, step))
  {
    match step
    case EmitMessage => EmittingMessageKeepsShutdown(p);
    case EmitRawData => EmittingRawDataKeepsShutdown(p);
    case EmitFrame => EmittingFrameKeepsShutdown(p);
    case EmitRawFrame => EmittingRawFrameKeepsShutdown(p);
  }

  lemma KeepsShutdown<M, R, F, G, E, X>(
      strategy: Strategy<M, R, F, G, E, X>, d: Defaults<M, R, F, G, E>, p: Pipeline<M, R, F, G, E, X>,
      step: Step<M, R, F, G, E>)
    requires Invariant(strategy, d, p) && Enabled(p, step)
    ensures Shutdown(Apply(strategy, d, p, step))
  {
    match step
    case FetchMessages(_, _) => FetchStepKeepsShutdown(strategy, d, p, step);
    case FetchRawData(_, _) => FetchStepKeepsShutdown(strategy, d, p, step);
    case Translate(_) => TranslateStepKeepsShutdown(strategy, d, p, step);
    case TranslateRawData(_) => TranslateStepKeepsShutdown(strategy, d, p, step);
    case Send(_, _) => OutStepKeepsShutdown(strategy, d, p, step);
    case SendRawData(_, _) => OutStepKeepsShutdown(strategy, d, p, step);
    case HandleError(_, _) => OutStepKeepsShutdown(strategy, d, p, step);
    case EmitError(_, _) => OutStepKeepsShutdown(strategy, d, p, step);
    case EmitMessage => EmitStepKeepsShutdown(strategy, d, p, step);
    case EmitRawData => EmitStepKeepsShutdown(strategy, d, p, step);
    case EmitFrame => EmitStepKeepsShutdown(strategy, d, p, step);
    case EmitRawFrame => EmitStepKeepsShutdown(strategy, d, p, step);
    case End(t) =>
      EndsDrained(strategy, d, p, t);
      EndingKeepsShutdown(p, t);
    case Do(_, _) => OrderStepKeepsShutdown(strategy, d, p, step);
  }

  // ---------------------------------------------------------------------------------------------
  // Whole runs

  /** linkElements has linked every buffer to its scheduler; the schedulers' threads run, the others do not. */
  ghost function Start<M, R, F, G, E, X>(strategy: Strategy<M, R, F, G, E, X>, d: Defaults<M, R, F, G, E>):
      Pipeline<M, R, F, G, E, X> {
    StartWith(strategy, NewStage(d.message), NewStage(d.rawData), NewStage(d.frame), NewStage(d.rawFrame),
      NewErrors(d.error))
  }

  /** The three error buffers with their scheduler. */
  ghost function NewErrors<E>(default: Raised<E>): (e: Stage<Raised<E>, Source>)
    ensures Untouched(e, SOURCES, default)
  {
    var bs := [FromSensor, FromTranslator, FromServer];
    var e := LinkAll(SOURCES, bs, 3, default);
    LinkingEnds(e, SOURCES, multiset(bs), 3, default);
    e
  }

  ghost function StartWith<M, R, F, G, E, X>(
      strategy: Strategy<M, R, F, G, E, X>, sensorMessages: Stage<M, Only>, sensorRawData: Stage<R, Only>,
      serverMessages: Stage<F, Only>, serverRawData: Stage<G, Only>, errors: Stage<Raised<E>, Source>):
      Pipeline<M, R, F, G, E, X>
  {
    Pipeline(sensorMessages, sensorRawData, serverMessages, serverRawData, errors,
             strategy.start, true, [], [], [], [], map[], {}, 0, [], [], map[])
  }

  lemma StartHasData<M, R, F, G, E, X>(
      strategy: Strategy<M, R, F, G, E, X>, d: Defaults<M, R, F, G, E>, sensorMessages: Stage<M, Only>,
      sensorRawData: Stage<R, Only>,
      serverMessages: Stage<F, Only>, serverRawData: Stage<G, Only>, errors: Stage<Raised<E>, Source>)
    requires Untouched(sensorMessages, {Only.Only}, d.message) && Untouched(sensorRawData, {Only.Only}, d.rawData)
    requires Untouched(serverMessages, {Only.Only}, d.frame) && Untouched(serverRawData, {Only.Only}, d.rawFrame)
    requires Untouched(errors, SOURCES, d.error)
    ensures Data(strategy, d, StartWith(strategy, sensorMessages, sensorRawData, serverMessages, serverRawData, errors))
  {
    FedAtStart(sensorMessages, d.message);
    FedAtStart(sensorRawData, d.rawData);
    FedAtStart(serverMessages, d.frame);
    FedAtStart(serverRawData, d.rawFrame);
    NothingPublished(errors, d.error);
  }

  lemma FedAtStart<T>(stage: Stage<T, Only>, default: T)
    requires Untouched(stage, {Only.Only}, default)
    ensures Fed(stage, [], [], default) && Taken(stage, Only.Only) == []
  {
  }

  lemma NothingPublished<E>(errors: Stage<Raised<E>, Source>, default: Raised<E>)
    requires Untouched(errors, SOURCES, default)
    ensures AllPublished(errors.written, map[], map[])
  {
    var none: map<(Thread, Source), seq<E>> := map[];
    assert errors.written.Keys == SOURCES;
    forall t, b | b in SOURCES ensures Published(errors.written[b], At(none, t, b), At(none, t, b), t) {
      assert Written(errors, b) == [];
    }
  }

  ghost predicate Running<T, B>(stage: Stage<T, B>) {
    Only.Only in stage.schedulers && !Stopped(stage)
  }

  lemma StartShuts<M, R, F, G, E, X>(
      strategy: Strategy<M, R, F, G, E, X>, sensorMessages: Stage<M, Only>, sensorRawData: Stage<R, Only>,
      serverMessages: Stage<F, Only>, serverRawData: Stage<G, Only>, errors: Stage<Raised<E>, Source>)
    requires Running(sensorMessages) && Running(sensorRawData) && Running(serverMessages) && Running(serverRawData)
    requires Running(errors)
    ensures Shutdown(StartWith(strategy, sensorMessages, sensorRawData, serverMessages, serverRawData, errors))
  {
  }

  lemma StartHolds<M, R, F, G, E, X>(strategy: Strategy<M, R, F, G, E, X>, d: Defaults<M, R, F, G, E>)
    ensures Invariant(strategy, d, Start(strategy, d))
  {
    var p := Start(strategy, d);
    StartHasData(strategy, d, p.sensorMessages, p.sensorRawData, p.serverMessages, p.serverRawData, p.errors);
    StartShuts(strategy, p.sensorMessages, p.sensorRawData, p.serverMessages, p.serverRawData, p.errors);
  }

  ghost predicate EnabledRun<M, R, F, G, E, X>(
      strategy: Strategy<M, R, F, G, E, X>, d: Defaults<M, R, F, G, E>, p: Pipeline<M, R, F, G, E, X>,
      steps: seq<Step<M, R, F, G, E>>)
    decreases |steps|
  {
    steps != [] ==> Enabled(p, steps[0]) && EnabledRun(strategy, d, Apply(strategy, d, p, steps[0]), steps[1..])
  }

  ghost function Run<M, R, F, G, E, X>(
      strategy: Strategy<M, R, F, G, E, X>, d: Defaults<M, R, F, G, E>, p: Pipeline<M, R, F, G, E, X>,
      steps: seq<Step<M, R, F, G, E>>): Pipeline<M, R, F, G, E, X>
    requires EnabledRun(strategy, d, p, steps)
    decreases |steps|
  {
    if steps == [] then p else Run(strategy, d, Apply(strategy, d, p, steps[0]), steps[1..])
  }

  lemma {:induction false} RunKeeps<M, R, F, G, E, X>(
      strategy: Strategy<M, R, F, G, E, X>, d: Defaults<M, R, F, G, E>, p: Pipeline<M, R, F, G, E, X>,
      steps: seq<Step<M, R, F, G, E>>)
    requires Invariant(strategy, d, p) && EnabledRun(strategy, d, p, steps)
    ensures Invariant(strategy, d, Run(strategy, d, p, steps))
    decreases |steps|
  {
    if steps != [] {
      KeepsData(strategy, d, p, steps[0]);
      KeepsShutdown(strategy, d, p, steps[0]);
      RunKeeps(strategy, d, Apply(strategy, d, p, steps[0]), steps[1..]);
    }
  }

  lemma FedIsPrefix<T>(stage: Stage<T, Only>, made: seq<T>, waiting: seq<T>, default: T)
    requires Fed(stage, made, waiting, default)
    ensures Taken(stage, Only.Only) <= made
  {
    TakenIsPrefix(stage, default);
  }

  /** When all the orders have been carried out, every stage has handed over all that was made for it. */
  lemma Drain<M, R, F, G, E, X>(strategy: Strategy<M, R, F, G, E, X>, d: Defaults<M, R, F, G, E>,
      p: Pipeline<M, R, F, G, E, X>, t: Thread, b: Source)
    requires Invariant(strategy, d, p) && p.orders == DONE
    ensures Taken(p.sensorMessages, Only.Only) == SC.NonDefault(p.fetchedMessages, d.message)
    ensures Taken(p.sensorRawData, Only.Only) == SC.NonDefault(p.fetchedRawData, d.rawData)
    ensures Taken(p.serverMessages, Only.Only) == Translated(strategy, SC.NonDefault(p.fetchedMessages, d.message)).1
    ensures Taken(p.serverRawData, Only.Only) == TranslatedRawData(strategy, SC.NonDefault(p.fetchedRawData, d.rawData))
    ensures By(Taken(p.errors, b), t) == At(p.raised, t, b)
  {
    AllEnded(p);
    FedInFull(p.sensorMessages, SC.NonDefault(p.fetchedMessages, d.message), p.messages, d.message);
    FedInFull(p.sensorRawData, SC.NonDefault(p.fetchedRawData, d.rawData), p.rawData, d.rawData);
    FedInFull(p.serverMessages, Translated(strategy, Taken(p.sensorMessages, Only.Only)).1, p.frames, d.frame);
    FedInFull(p.serverRawData, TranslatedRawData(strategy, Taken(p.sensorRawData, Only.Only)), p.rawFrames, d.rawFrame);
    AllHandled(p.errors, p.complaints, p.raised, t, b);
  }

  lemma AllHandled<E>(errors: Stage<Raised<E>, Source>, complaints: map<(Thread, Source), seq<E>>,
                      raised: map<(Thread, Source), seq<E>>, t: Thread, b: Source)
    requires AllPublished(errors.written, complaints, raised) && Silent(complaints, t)
    requires forall c | c in SOURCES :: Taken(errors, c) == Written(errors, c)
    ensures By(Taken(errors, b), t) == At(raised, t, b)
  {
    assert b in SOURCES;
    assert Published(errors.written[b], At(complaints, t, b), At(raised, t, b), t);
  }

  lemma FedInFull<T>(stage: Stage<T, Only>, made: seq<T>, waiting: seq<T>, default: T)
    requires Fed(stage, made, waiting, default) && waiting == []
    ensures made == Written(stage, Only.Only)
  {
  }

  lemma AllEnded<M, R, F, G, E, X>(p: Pipeline<M, R, F, G, E, X>)
    requires Shutdown(p) && p.orders == DONE
    ensures p.messages == [] && p.rawData == [] && p.frames == [] && p.rawFrames == []
    ensures forall t :: Silent(p.complaints, t)
    ensures Taken(p.sensorMessages, Only.Only) == Written(p.sensorMessages, Only.Only)
    ensures Taken(p.sensorRawData, Only.Only) == Written(p.sensorRawData, Only.Only)
    ensures Taken(p.serverMessages, Only.Only) == Written(p.serverMessages, Only.Only)
    ensures Taken(p.serverRawData, Only.Only) == Written(p.serverRawData, Only.Only)
    ensures forall b | b in SOURCES :: Taken(p.errors, b) == Written(p.errors, b)
  {
    ReadersRun(p);
  }
}
