/** SensorAccessLink: the sensor communicator's thread, the two threads of the translator, the two of the
    server communicator, the error handler's thread and the thread that starts and terminates them.

    The threads interleave freely. A step is atomic as in Engine: one fetch, one datum taken by a scheduler,
    one write with its notification, one test of a loop's condition, one order of the terminating thread.
    A datum that a thread has produced but not written yet waits in the thread's list of things to emit.
  */
module Pipeline {
  import opened Wrappers
  import opened Stage
  import Engine
  import SC = SensorCommunicator

  datatype Thread = Sensor | MessageTranslator | RawDataTranslator | MessageServer | RawDataServer | ErrorHandler | Main
  datatype Source = FromSensor | FromTranslator | FromServer

  /** The errors carry the thread that raised them. The thread is there for the statements only: nothing
      depends on it. */
  datatype Raised<E> = Raised(thread: Thread, error: E)

  /** The orders of SensorAccessLink::start and terminateAndJoin, one after the other. */
  datatype Order =
    | OpenServer | OpenSensor | StartSensor
    | CloseSensor | OrderSensor | JoinSensor
    | Stop(t: Thread) | Join(t: Thread)
    | CloseServer

  function Place(order: Order): int {
    match order
    case OpenServer => 0
    case OpenSensor => 1
    case StartSensor => 2
    case CloseSensor => 3
    case OrderSensor => 4
    case JoinSensor => 5
    case Stop(t) => PlaceOfStop(t)
    case Join(t) => PlaceOfStop(t) + 1
    case CloseServer => 14
  }

  function PlaceOfStop(t: Thread): int {
    match t
    case MessageTranslator => 6
    case RawDataTranslator => 8
    case MessageServer => 10
    case RawDataServer => 12
    case ErrorHandler => 15
    case Sensor => -2
    case Main => -2
  }

  const DONE := 17

  /** The translation strategy, with its frame under construction as a state of its own: what a datum makes
      it produce, and the errors it raises. */
  datatype Strategy<!M, !R, +F, +G, +E, !X> = Strategy(
    start: X,
    translate: (X, M) -> (X, seq<F>, seq<E>),
    translateRawData: R -> (seq<G>, seq<E>))

  datatype Defaults<M, R, F, G, E> = Defaults(message: M, rawData: R, frame: F, rawFrame: G, error: Raised<E>)

  datatype Pipeline<M, R, F, G, E, X> = Pipeline(
    sensorMessages: Stage<M, Only>,
    sensorRawData: Stage<R, Only>,
    serverMessages: Stage<F, Only>,
    serverRawData: Stage<G, Only>,
    errors: Stage<Raised<E>, Source>,
    translation: X,
    atTop: bool,            // the sensor's thread is where its loop looks at the flag
    messages: seq<M>,       // fetched and not written yet
    rawData: seq<R>,        // fetched and not written yet
    frames: seq<F>,         // translated and not written yet
    rawFrames: seq<G>,      // translated and not written yet
    complaints: map<(Thread, Source), seq<E>>, // raised and not written yet
    ended: set<Thread>,
    orders: int,            // how many orders were carried out
    fetchedMessages: seq<M>,
    fetchedRawData: seq<R>,
    raised: map<(Thread, Source), seq<E>>)

  datatype Step<M, R, F, G, E> =
    | FetchMessages(batch: seq<M>, caught: seq<E>)
    | FetchRawData(cycles: seq<R>, caught: seq<E>)
    | Translate(message: M)
    | TranslateRawData(data: R)
    | Send(frame: F, caught: seq<E>)
    | SendRawData(rawFrame: G, caught: seq<E>)
    | HandleError(source: Source, error: Raised<E>)
    | EmitMessage | EmitRawData | EmitFrame | EmitRawFrame
    | EmitError(thread: Thread, source: Source)
    | End(thread: Thread)
    | Do(order: Order, caught: seq<E>)

  const SOURCES := {FromSensor, FromTranslator, FromServer}

  // ---------------------------------------------------------------------------------------------
  // What the steps do

  ghost function At<E>(errors: map<(Thread, Source), seq<E>>, t: Thread, b: Source): seq<E> {
    if (t, b) in errors then errors[(t, b)] else []
  }

  /** The thread has handed over all the errors it raised. */
  ghost predicate Silent<E>(complaints: map<(Thread, Source), seq<E>>, t: Thread) {
    forall b :: At(complaints, t, b) == []
  }

  /** The thread has nothing left to hand over, and goes on with its own loop. */
  ghost predicate Idle<M, R, F, G, E, X>(p: Pipeline<M, R, F, G, E, X>, t: Thread) {
    && Silent(p.complaints, t)
    && (t == Sensor ==> p.messages == [] && p.rawData == [])
    && (t == MessageTranslator ==> p.frames == [])
    && (t == RawDataTranslator ==> p.rawFrames == [])
  }

  ghost function Raise<M, R, F, G, E, X>(
      p: Pipeline<M, R, F, G, E, X>, t: Thread, b: Source, caught: seq<E>): Pipeline<M, R, F, G, E, X>
  {
    p.(complaints := p.complaints[(t, b) := At(p.complaints, t, b) + caught],
       raised := p.raised[(t, b) := At(p.raised, t, b) + caught])
  }

  /** The step can be taken. Writes are taken only while no reader of the buffer is 255 behind. */
  ghost predicate Enabled<M, R, F, G, E, X>(p: Pipeline<M, R, F, G, E, X>, step: Step<M, R, F, G, E>) {
    match step
    case FetchMessages(_, _) =>
      p.atTop && Place(StartSensor) < p.orders <= Place(OrderSensor) && Sensor !in p.ended && Idle(p, Sensor)
    case FetchRawData(_, _) => !p.atTop && Sensor !in p.ended && Idle(p, Sensor)
    case Translate(m) => MessageTranslator !in p.ended && Idle(p, MessageTranslator) && Hands(p.sensorMessages, Only, m)
    case TranslateRawData(r) => RawDataTranslator !in p.ended && Idle(p, RawDataTranslator)
      && Hands(p.sensorRawData, Only, r)
    case Send(f, _) => MessageServer !in p.ended && Idle(p, MessageServer) && Hands(p.serverMessages, Only, f)
    case SendRawData(g, _) => RawDataServer !in p.ended && Idle(p, RawDataServer) && Hands(p.serverRawData, Only, g)
    case HandleError(b, e) => ErrorHandler !in p.ended && Hands(p.errors, b, e)
    case EmitMessage => p.messages != [] && MayWrite(p.sensorMessages, Only, p.messages[0])
    case EmitRawData => p.rawData != [] && MayWrite(p.sensorRawData, Only, p.rawData[0])
    case EmitFrame => p.frames != [] && MayWrite(p.serverMessages, Only, p.frames[0])
    case EmitRawFrame => p.rawFrames != [] && MayWrite(p.serverRawData, Only, p.rawFrames[0])
    case EmitError(t, b) =>
      At(p.complaints, t, b) != [] && MayWrite(p.errors, b, FirstError(p, t, b))
    case End(t) =>
      && t !in p.ended && Idle(p, t)
      && MayEnd(p, t)
    case Do(order, caught) =>
      && p.orders == Place(order) && Idle(p, Main)
      && (order.Join? ==> order.t in p.ended)
      && (order.JoinSensor? ==> Sensor in p.ended)
      && (Reports(order).None? ==> caught == [])
  }

  /** The errors of these orders are published by the thread that carries them out. */
  function Reports(order: Order): Option<Source> {
    match order
    case OpenServer => Some(FromServer)
    case CloseServer => Some(FromServer)
    case OpenSensor => Some(FromSensor)
    case CloseSensor => Some(FromSensor)
    case _ => None
  }

  /** The test of the thread's loop fails. */
  ghost predicate MayEnd<M, R, F, G, E, X>(p: Pipeline<M, R, F, G, E, X>, t: Thread) {
    match t
    case Sensor => p.atTop && Place(OrderSensor) < p.orders
    case MessageTranslator => MayExit(p.sensorMessages)
    case RawDataTranslator => MayExit(p.sensorRawData)
    case MessageServer => MayExit(p.serverMessages)
    case RawDataServer => MayExit(p.serverRawData)
    case ErrorHandler => MayExit(p.errors)
    case Main => false
  }

  /** The termination order, if it is for this scheduler. */
  ghost function StoppedIf<T, B>(stage: Stage<T, B>, order: bool): Stage<T, B> {
    if order && Only.Only in stage.schedulers then Engine.TerminateStep(stage, Only.Only) else stage
  }

  /** What an order does, besides being counted. */
  ghost function Done<M, R, F, G, E, X>(p: Pipeline<M, R, F, G, E, X>, order: Order, caught: seq<E>):
      Pipeline<M, R, F, G, E, X> {
    (if Reports(order).Some? then Raise(p, Main, Reports(order).value, caught) else p).(
      sensorMessages := StoppedIf(p.sensorMessages, order == Stop(MessageTranslator)),
      sensorRawData := StoppedIf(p.sensorRawData, order == Stop(RawDataTranslator)),
      serverMessages := StoppedIf(p.serverMessages, order == Stop(MessageServer)),
      serverRawData := StoppedIf(p.serverRawData, order == Stop(RawDataServer)),
      errors := StoppedIf(p.errors, order == Stop(ErrorHandler)))
  }

  ghost function MessagesFetched<M, R, F, G, E, X>(p: Pipeline<M, R, F, G, E, X>, batch: seq<M>, caught: seq<E>,
      default: M): Pipeline<M, R, F, G, E, X> {
    Raise(p, Sensor, FromSensor, caught).(
      messages := SC.NonDefault(batch, default), fetchedMessages := p.fetchedMessages + batch, atTop := false)
  }

  ghost function RawDataFetched<M, R, F, G, E, X>(p: Pipeline<M, R, F, G, E, X>, cycles: seq<R>, caught: seq<E>,
      default: R): Pipeline<M, R, F, G, E, X> {
    Raise(p, Sensor, FromSensor, caught).(
      rawData := SC.NonDefault(cycles, default), fetchedRawData := p.fetchedRawData + cycles, atTop := true)
  }

  ghost function MessageTranslated<M, R, F, G, E, X>(p: Pipeline<M, R, F, G, E, X>, m: M, x: X, frames: seq<F>,
      caught: seq<E>): Pipeline<M, R, F, G, E, X>
    requires Hands(p.sensorMessages, Only.Only, m)
  {
    Raise(p, MessageTranslator, FromTranslator, caught).(
      sensorMessages := Engine.ServeStep(p.sensorMessages, Only.Only), translation := x, frames := frames)
  }

  ghost function RawDataTranslated<M, R, F, G, E, X>(p: Pipeline<M, R, F, G, E, X>, r: R, rawFrames: seq<G>,
      caught: seq<E>): Pipeline<M, R, F, G, E, X>
    requires Hands(p.sensorRawData, Only.Only, r)
  {
    Raise(p, RawDataTranslator, FromTranslator, caught).(
      sensorRawData := Engine.ServeStep(p.sensorRawData, Only.Only), rawFrames := rawFrames)
  }

  ghost function FrameSent<M, R, F, G, E, X>(p: Pipeline<M, R, F, G, E, X>, f: F, caught: seq<E>):
      Pipeline<M, R, F, G, E, X>
    requires Hands(p.serverMessages, Only.Only, f)
  {
    Raise(p, MessageServer, FromServer, caught).(
      serverMessages := Engine.ServeStep(p.serverMessages, Only.Only))
  }

  ghost function RawFrameSent<M, R, F, G, E, X>(p: Pipeline<M, R, F, G, E, X>, g: G, caught: seq<E>):
      Pipeline<M, R, F, G, E, X>
    requires Hands(p.serverRawData, Only.Only, g)
  {
    Raise(p, RawDataServer, FromServer, caught).(
      serverRawData := Engine.ServeStep(p.serverRawData, Only.Only))
  }

  ghost function ErrorHandled<M, R, F, G, E, X>(p: Pipeline<M, R, F, G, E, X>, b: Source, e: Raised<E>):
      Pipeline<M, R, F, G, E, X>
    requires Hands(p.errors, b, e)
  {
    p.(errors := Engine.ServeStep(p.errors, Only.Only))
  }

  ghost function MessageEmitted<M, R, F, G, E, X>(p: Pipeline<M, R, F, G, E, X>): Pipeline<M, R, F, G, E, X>
    requires p.messages != [] && MayWrite(p.sensorMessages, Only.Only, p.messages[0])
  {
    p.(sensorMessages := Engine.WriteStep(p.sensorMessages, Only.Only, p.messages[0]), messages := p.messages[1..])
  }

  ghost function RawDataEmitted<M, R, F, G, E, X>(p: Pipeline<M, R, F, G, E, X>): Pipeline<M, R, F, G, E, X>
    requires p.rawData != [] && MayWrite(p.sensorRawData, Only.Only, p.rawData[0])
  {
    p.(sensorRawData := Engine.WriteStep(p.sensorRawData, Only.Only, p.rawData[0]), rawData := p.rawData[1..])
  }

  ghost function FrameEmitted<M, R, F, G, E, X>(p: Pipeline<M, R, F, G, E, X>): Pipeline<M, R, F, G, E, X>
    requires p.frames != [] && MayWrite(p.serverMessages, Only.Only, p.frames[0])
  {
    p.(serverMessages := Engine.WriteStep(p.serverMessages, Only.Only, p.frames[0]), frames := p.frames[1..])
  }

  ghost function RawFrameEmitted<M, R, F, G, E, X>(p: Pipeline<M, R, F, G, E, X>): Pipeline<M, R, F, G, E, X>
    requires p.rawFrames != [] && MayWrite(p.serverRawData, Only.Only, p.rawFrames[0])
  {
    p.(serverRawData := Engine.WriteStep(p.serverRawData, Only.Only, p.rawFrames[0]), rawFrames := p.rawFrames[1..])
  }

  /** The first of the errors that wait at this place, with the thread that raised it. */
  ghost function FirstError<M, R, F, G, E, X>(p: Pipeline<M, R, F, G, E, X>, t: Thread, b: Source): Raised<E>
    requires At(p.complaints, t, b) != []
  {
    Raised(t, At(p.complaints, t, b)[0])
  }

  ghost function ErrorEmitted<M, R, F, G, E, X>(p: Pipeline<M, R, F, G, E, X>, t: Thread, b: Source):
      Pipeline<M, R, F, G, E, X>
    requires At(p.complaints, t, b) != [] && MayWrite(p.errors, b, FirstError(p, t, b))
  {
    p.(errors := Engine.WriteStep(p.errors, b, FirstError(p, t, b)),
       complaints := p.complaints[(t, b) := At(p.complaints, t, b)[1..]])
  }

  ghost function Apply<M, R, F, G, E, X>(
      strategy: Strategy<M, R, F, G, E, X>, d: Defaults<M, R, F, G, E>, p: Pipeline<M, R, F, G, E, X>,
      step: Step<M, R, F, G, E>): Pipeline<M, R, F, G, E, X>
    requires Enabled(p, step)
  {
    match step
    case FetchMessages(batch, caught) => MessagesFetched(p, batch, caught, d.message)
    case FetchRawData(cycles, caught) => RawDataFetched(p, cycles, caught, d.rawData)
    case Translate(m) =>
      var (x, frames, caught) := strategy.translate(p.translation, m);
      MessageTranslated(p, m, x, frames, caught)
    case TranslateRawData(r) =>
      var (rawFrames, caught) := strategy.translateRawData(r);
      RawDataTranslated(p, r, rawFrames, caught)
    case Send(f, caught) => FrameSent(p, f, caught)
    case SendRawData(g, caught) => RawFrameSent(p, g, caught)
    case HandleError(b, e) => ErrorHandled(p, b, e)
    case EmitMessage => MessageEmitted(p)
    case EmitRawData => RawDataEmitted(p)
    case EmitFrame => FrameEmitted(p)
    case EmitRawFrame => RawFrameEmitted(p)
    case EmitError(t, b) => ErrorEmitted(p, t, b)
    case End(t) => p.(ended := p.ended + {t})
    case Do(order, caught) => Done(p, order, caught).(orders := p.orders + 1)
  }
}
