/** That the shutdown of the pipeline comes to its end.
  */
module PipelineTermination {
  import opened Stage
  import opened Pipeline
  import opened PipelineDrain
  import Engine

  // ---------------------------------------------------------------------------------------------
  // Some thread can always go on

  /** A step that brings nothing new from outside: no datum fetched, no error met. */
  predicate Finishing<M, R, F, G, E>(step: Step<M, R, F, G, E>) {
    match step
    case FetchMessages(_, _) => false
    case FetchRawData(cycles, caught) => cycles == [] && caught == []
    case Send(_, caught) => caught == []
    case SendRawData(_, caught) => caught == []
    case Do(_, caught) => caught == []
    case _ => true
  }

  /** A step that only moves on what is under way: no fetch, no order and no end. */
  predicate MovesOn<M, R, F, G, E>(step: Step<M, R, F, G, E>) {
    Finishing(step) && !step.FetchRawData? && !step.End? && !step.Do?
  }

  lemma NextOrder(orders: int) returns (order: Order)
    requires 0 <= orders < DONE
    ensures Place(order) == orders
    ensures order.Join? ==> order.t !in {Sensor, Main} && orders == PlaceOfStop(order.t) + 1
  {
    order := match orders
      case 0 => OpenServer
      case 1 => OpenSensor
      case 2 => StartSensor
      case 3 => CloseSensor
      case 4 => OrderSensor
      case 5 => JoinSensor
      case 6 => Stop(MessageTranslator)
      case 7 => Join(MessageTranslator)
      case 8 => Stop(RawDataTranslator)
      case 9 => Join(RawDataTranslator)
      case 10 => Stop(MessageServer)
      case 11 => Join(MessageServer)
      case 12 => Stop(RawDataServer)
      case 13 => Join(RawDataServer)
      case 14 => CloseServer
      case 15 => Stop(ErrorHandler)
      case _ => Join(ErrorHandler);
  }

  lemma TakesATurn<T>(stage: Stage<T, Only>, default: T) returns (data: T)
    requires Linked(stage, {Only.Only}, default) && HasInput(stage)
    ensures Hands(stage, Only.Only, data)
  {
    var b, d := HandsSomething(stage, {Only.Only}, default);
    data := d;
  }

  lemma HandlerMovesOn<M, R, F, G, E, X>(p: Pipeline<M, R, F, G, E, X>, default: Raised<E>, b: Source, e: Raised<E>)
      returns (step: Step<M, R, F, G, E>)
    requires Linked(p.errors, SOURCES, default) && b in SOURCES && !MayWrite(p.errors, b, e) && ErrorHandler !in p.ended
    ensures Enabled(p, step) && MovesOn(step)
  {
    WaitingMeansInput(p.errors, SOURCES, default, b, e);
    var source, error := HandsSomething(p.errors, SOURCES, default);
    step := HandleError(source, error);
  }

  lemma HandlerRuns<M, R, F, G, E, X>(p: Pipeline<M, R, F, G, E, X>, t: Thread, b: Source)
    requires Shutdown(p) && At(p.complaints, t, b) != []
    ensures ErrorHandler !in p.ended && b in SOURCES
  {
    ReadersRun(p);
    assert !Silent(p.complaints, t);
  }

  /** An error that waits is written, or the error handler has something to take. */
  lemma ComplaintsMoveOn<M, R, F, G, E, X>(
      strategy: Strategy<M, R, F, G, E, X>, d: Defaults<M, R, F, G, E>, p: Pipeline<M, R, F, G, E, X>, t: Thread,
      b: Source)
      returns (step: Step<M, R, F, G, E>)
    requires Invariant(strategy, d, p) && At(p.complaints, t, b) != []
    ensures Enabled(p, step) && MovesOn(step)
  {
    var e := FirstError(p, t, b);
    if MayWrite(p.errors, b, e) {
      step := EmitError(t, b);
    } else {
      HandlerRuns(p, t, b);
      step := HandlerMovesOn(p, d.error, b, e);
    }
  }

  lemma FramesMoveOn<M, R, F, G, E, X>(strategy: Strategy<M, R, F, G, E, X>, d: Defaults<M, R, F, G, E>,
      p: Pipeline<M, R, F, G, E, X>)
      returns (step: Step<M, R, F, G, E>)
    requires Invariant(strategy, d, p) && (p.frames != [] || p.rawFrames != []) && forall t :: Silent(p.complaints, t)
    ensures Enabled(p, step) && MovesOn(step)
  {
    ReadersRun(p);
    if p.frames != [] {
      step := EmitFrame;
      if !MayWrite(p.serverMessages, Only.Only, p.frames[0]) {
        WaitingMeansInput(p.serverMessages, {Only.Only}, d.frame, Only.Only, p.frames[0]);
        var frame := TakesATurn(p.serverMessages, d.frame);
        step := Send(frame, []);
      }
    } else {
      step := EmitRawFrame;
      if !MayWrite(p.serverRawData, Only.Only, p.rawFrames[0]) {
        WaitingMeansInput(p.serverRawData, {Only.Only}, d.rawFrame, Only.Only, p.rawFrames[0]);
        var frame := TakesATurn(p.serverRawData, d.rawFrame);
        step := SendRawData(frame, []);
      }
    }
  }

  lemma FetchedMoveOn<M, R, F, G, E, X>(strategy: Strategy<M, R, F, G, E, X>, d: Defaults<M, R, F, G, E>,
      p: Pipeline<M, R, F, G, E, X>)
      returns (step: Step<M, R, F, G, E>)
    requires Invariant(strategy, d, p) && (p.messages != [] || p.rawData != []) && forall t :: Silent(p.complaints, t)
    requires p.frames == [] && p.rawFrames == []
    ensures Enabled(p, step) && MovesOn(step)
  {
    ReadersRun(p);
    if p.messages != [] {
      step := EmitMessage;
      if !MayWrite(p.sensorMessages, Only.Only, p.messages[0]) {
        WaitingMeansInput(p.sensorMessages, {Only.Only}, d.message, Only.Only, p.messages[0]);
        var m := TakesATurn(p.sensorMessages, d.message);
        step := Translate(m);
      }
    } else {
      step := EmitRawData;
      if !MayWrite(p.sensorRawData, Only.Only, p.rawData[0]) {
        WaitingMeansInput(p.sensorRawData, {Only.Only}, d.rawData, Only.Only, p.rawData[0]);
        var r := TakesATurn(p.sensorRawData, d.rawData);
        step := TranslateRawData(r);
      }
    }
  }

  ghost predicate Settled<M, R, F, G, E, X>(p: Pipeline<M, R, F, G, E, X>) {
    p.messages == [] && p.rawData == [] && p.frames == [] && p.rawFrames == [] && forall t :: Silent(p.complaints, t)
  }

  lemma JoinMovesOn<M, R, F, G, E, X>(strategy: Strategy<M, R, F, G, E, X>, d: Defaults<M, R, F, G, E>,
      p: Pipeline<M, R, F, G, E, X>, t: Thread)
      returns (step: Step<M, R, F, G, E>)
    requires Invariant(strategy, d, p) && Settled(p) && p.orders == PlaceOfStop(t) + 1 && t !in p.ended
    requires t !in {Sensor, Main}
    ensures Enabled(p, step) && Finishing(step)
  {
    step := End(t);
    if !MayEnd(p, t) {
      match t
      case MessageTranslator =>
        var m := TakesATurn(p.sensorMessages, d.message);
        step := Translate(m);
      case RawDataTranslator =>
        var r := TakesATurn(p.sensorRawData, d.rawData);
        step := TranslateRawData(r);
      case MessageServer =>
        var f := TakesATurn(p.serverMessages, d.frame);
        step := Send(f, []);
      case RawDataServer =>
        var g := TakesATurn(p.serverRawData, d.rawFrame);
        step := SendRawData(g, []);
      case ErrorHandler =>
        var b, e := HandsSomething(p.errors, SOURCES, d.error);
        step := HandleError(b, e);
    }
  }

  lemma OrderMovesOn<M, R, F, G, E, X>(p: Pipeline<M, R, F, G, E, X>, order: Order) returns (step: Step<M, R, F, G, E>)
    requires Silent(p.complaints, Main) && p.orders == Place(order)
    requires (order.Join? ==> order.t in p.ended) && (order.JoinSensor? ==> Sensor in p.ended)
    ensures Enabled(p, step) && Finishing(step)
  {
    step := Do(order, []);
  }

  lemma SensorMovesOn<M, R, F, G, E, X>(p: Pipeline<M, R, F, G, E, X>) returns (step: Step<M, R, F, G, E>)
    requires Settled(p) && p.orders == Place(JoinSensor) && Sensor !in p.ended
    ensures Enabled(p, step) && Finishing(step)
  {
    step := if p.atTop then End(Sensor) else FetchRawData([], []);
  }

  lemma SettledMovesOn<M, R, F, G, E, X>(strategy: Strategy<M, R, F, G, E, X>, d: Defaults<M, R, F, G, E>,
      p: Pipeline<M, R, F, G, E, X>)
      returns (step: Step<M, R, F, G, E>)
    requires Invariant(strategy, d, p) && Settled(p) && 0 <= p.orders < DONE
    ensures Enabled(p, step) && Finishing(step)
  {
    var order := NextOrder(p.orders);
    if order.Join? && order.t !in p.ended {
      step := JoinMovesOn(strategy, d, p, order.t);
    } else if order.JoinSensor? && Sensor !in p.ended {
      step := SensorMovesOn(p);
    } else {
      step := OrderMovesOn(p, order);
    }
  }

  lemma SomethingMovesOn<M, R, F, G, E, X>(strategy: Strategy<M, R, F, G, E, X>, d: Defaults<M, R, F, G, E>,
      p: Pipeline<M, R, F, G, E, X>)
      returns (step: Step<M, R, F, G, E>)
    requires Invariant(strategy, d, p) && !Settled(p)
    ensures Enabled(p, step) && MovesOn(step)
  {
    if t, b :| At(p.complaints, t, b) != [] {
      step := ComplaintsMoveOn(strategy, d, p, t, b);
    } else if p.frames != [] || p.rawFrames != [] {
      step := FramesMoveOn(strategy, d, p);
    } else {
      step := FetchedMoveOn(strategy, d, p);
    }
  }

  lemma SomeThreadGoesOn<M, R, F, G, E, X>(strategy: Strategy<M, R, F, G, E, X>, d: Defaults<M, R, F, G, E>,
      p: Pipeline<M, R, F, G, E, X>)
      returns (step: Step<M, R, F, G, E>)
    requires Invariant(strategy, d, p) && p.orders < DONE
    ensures Enabled(p, step) && Finishing(step)
  {
    if Settled(p) {
      step := SettledMovesOn(strategy, d, p);
    } else {
      step := SomethingMovesOn(strategy, d, p);
    }
  }

  /** Until terminateAndJoin has returned, some thread can always take a step, even if nothing new comes from
      outside: neither a buffer that is full for its reader nor a join can bring all of them to a halt. */
  lemma NeverStuck<M, R, F, G, E, X>(strategy: Strategy<M, R, F, G, E, X>, d: Defaults<M, R, F, G, E>,
      steps: seq<Step<M, R, F, G, E>>)
      returns (step: Step<M, R, F, G, E>)
    requires EnabledRun(strategy, d, Start(strategy, d), steps)
    requires Run(strategy, d, Start(strategy, d), steps).orders < DONE
    ensures Enabled(Run(strategy, d, Start(strategy, d), steps), step) && Finishing(step)
  {
    StartHolds(strategy, d);
    RunKeeps(strategy, d, Start(strategy, d), steps);
    step := SomeThreadGoesOn(strategy, d, Run(strategy, d, Start(strategy, d), steps));
  }

  // ---------------------------------------------------------------------------------------------
  // And every step brings the end closer

  ghost function Unread<T, B>(stage: Stage<T, B>, b: B): nat {
    if |Taken(stage, b)| <= |Written(stage, b)| then |Written(stage, b)| - |Taken(stage, b)| else 0
  }

  const EVERYONE := {Sensor, MessageTranslator, RawDataTranslator, MessageServer, RawDataServer, ErrorHandler, Main}

  const EVERY_COMPLAINT: seq<(Thread, Source)> := [
    (Sensor, FromSensor), (Sensor, FromTranslator), (Sensor, FromServer),
    (MessageTranslator, FromSensor), (MessageTranslator, FromTranslator), (MessageTranslator, FromServer),
    (RawDataTranslator, FromSensor), (RawDataTranslator, FromTranslator), (RawDataTranslator, FromServer),
    (MessageServer, FromSensor), (MessageServer, FromTranslator), (MessageServer, FromServer),
    (RawDataServer, FromSensor), (RawDataServer, FromTranslator), (RawDataServer, FromServer),
    (ErrorHandler, FromSensor), (ErrorHandler, FromTranslator), (ErrorHandler, FromServer),
    (Main, FromSensor), (Main, FromTranslator), (Main, FromServer)]

  lemma EveryComplaintListed(t: Thread, b: Source)
    ensures (t, b) in EVERY_COMPLAINT
  {
    var i := (match t
      case Sensor => 0
      case MessageTranslator => 3
      case RawDataTranslator => 6
      case MessageServer => 9
      case RawDataServer => 12
      case ErrorHandler => 15
      case Main => 18) +
      (match b
      case FromSensor => 0
      case FromTranslator => 1
      case FromServer => 2);
    assert EVERY_COMPLAINT[i] == (t, b);
  }

  ghost function Waiting<E>(complaints: map<(Thread, Source), seq<E>>, places: seq<(Thread, Source)>): nat {
    if places == [] then 0
    else |At(complaints, places[0].0, places[0].1)| + Waiting(complaints, places[1..])
  }

  lemma {:induction false} WaitingShrinks<E>(
      complaints: map<(Thread, Source), seq<E>>, places: seq<(Thread, Source)>, t: Thread, b: Source)
    requires At(complaints, t, b) != []
    ensures var after := Waiting(complaints[(t, b) := At(complaints, t, b)[1..]], places);
      after <= Waiting(complaints, places) && ((t, b) in places ==> after < Waiting(complaints, places))
  {
    if places != [] {
      WaitingShrinks(complaints, places[1..], t, b);
      assert (t, b) in places ==> places[0] == (t, b) || (t, b) in places[1..];
    }
  }

  /** What is left to do on one stage; a datum that was not written yet counts twice. */
  ghost function Work<T>(waiting: seq<T>, stage: Stage<T, Only>): nat {
    2 * |waiting| + Unread(stage, Only.Only)
  }

  ghost function UnreadErrors<E>(errors: Stage<Raised<E>, Source>): nat {
    Unread(errors, FromSensor) + Unread(errors, FromTranslator) + Unread(errors, FromServer)
  }

  /** What is left for the translator, for the server and for the error handler. */
  ghost function SensorWork<M, R, F, G, E, X>(p: Pipeline<M, R, F, G, E, X>): nat {
    Work(p.messages, p.sensorMessages) + Work(p.rawData, p.sensorRawData)
  }

  ghost function FrameWork<M, R, F, G, E, X>(p: Pipeline<M, R, F, G, E, X>): nat {
    Work(p.frames, p.serverMessages) + Work(p.rawFrames, p.serverRawData)
  }

  ghost function ErrorWork<M, R, F, G, E, X>(p: Pipeline<M, R, F, G, E, X>): nat {
    2 * Waiting(p.complaints, EVERY_COMPLAINT) + UnreadErrors(p.errors)
  }

  ghost function OrdersLeft<M, R, F, G, E, X>(p: Pipeline<M, R, F, G, E, X>): nat {
    if p.orders <= DONE then DONE - p.orders else 0
  }

  ghost function ThreadsLeft<M, R, F, G, E, X>(p: Pipeline<M, R, F, G, E, X>): nat {
    2 * |EVERYONE - p.ended| + (if p.atTop then 0 else 1)
  }

  /** Fewer orders to carry out; or as many and fewer threads; or as many and less work. */
  ghost predicate Closer<M, R, F, G, E, X>(p': Pipeline<M, R, F, G, E, X>, p: Pipeline<M, R, F, G, E, X>) {
    || OrdersLeft(p') < OrdersLeft(p)
    || (OrdersLeft(p') == OrdersLeft(p) && ThreadsLeft(p') < ThreadsLeft(p))
    || (OrdersLeft(p') == OrdersLeft(p) && ThreadsLeft(p') == ThreadsLeft(p) && LessWork(p', p))
  }

  /** Less to translate, or as much and less to send, or as much and fewer errors to handle. */
  ghost predicate LessWork<M, R, F, G, E, X>(p': Pipeline<M, R, F, G, E, X>, p: Pipeline<M, R, F, G, E, X>) {
    || SensorWork(p') < SensorWork(p)
    || (SensorWork(p') == SensorWork(p) && FrameWork(p') < FrameWork(p))
    || (SensorWork(p') == SensorWork(p) && FrameWork(p') == FrameWork(p) && ErrorWork(p') < ErrorWork(p))
  }

  lemma WriteCounts<T>(stage: Stage<T, Only>, default: T, data: T)
    requires Linked(stage, {Only.Only}, default) && MayWrite(stage, Only.Only, data)
    ensures Unread(Engine.WriteStep(stage, Only.Only, data), Only.Only) == Unread(stage, Only.Only) + 1
  {
    Writes(stage, {Only.Only}, default, Only.Only, data);
    TakenIsPrefix(stage, default);
  }

  lemma EmitCounts<T>(stage: Stage<T, Only>, default: T, waiting: seq<T>)
    requires Linked(stage, {Only.Only}, default) && waiting != [] && MayWrite(stage, Only.Only, waiting[0])
    ensures Work(waiting[1..], Engine.WriteStep(stage, Only.Only, waiting[0])) < Work(waiting, stage)
  {
    WriteCounts(stage, default, waiting[0]);
  }

  lemma ServeCounts<T>(stage: Stage<T, Only>, default: T, data: T, waiting: seq<T>)
    requires Linked(stage, {Only.Only}, default) && Hands(stage, Only.Only, data)
    ensures Work(waiting, Engine.ServeStep(stage, Only.Only)) < Work(waiting, stage)
  {
    Serves(stage, {Only.Only}, default, Only.Only, data);
    TakenIsPrefix(stage, default);
  }

  lemma ErrorEmitCounts<E>(errors: Stage<Raised<E>, Source>, default: Raised<E>, b: Source, e: Raised<E>)
    requires Linked(errors, SOURCES, default) && MayWrite(errors, b, e)
    ensures UnreadErrors(Engine.WriteStep(errors, b, e)) <= UnreadErrors(errors) + 1
  {
    Writes(errors, SOURCES, default, b, e);
  }

  lemma ErrorServeCounts<E>(errors: Stage<Raised<E>, Source>, default: Raised<E>, b: Source, e: Raised<E>)
    requires Linked(errors, SOURCES, default) && Hands(errors, b, e)
    ensures UnreadErrors(Engine.ServeStep(errors, Only.Only)) < UnreadErrors(errors)
  {
    Serves(errors, SOURCES, default, b, e);
  }

  /** Stages that stay as they are have as much work as before. */
  lemma SameSensorWork<M, R, F, G, E, X>(p': Pipeline<M, R, F, G, E, X>, p: Pipeline<M, R, F, G, E, X>)
    requires p'.messages == p.messages && p'.rawData == p.rawData
    requires p'.sensorMessages == p.sensorMessages && p'.sensorRawData == p.sensorRawData
    ensures SensorWork(p') == SensorWork(p)
  {
  }

  lemma SameFrameWork<M, R, F, G, E, X>(p': Pipeline<M, R, F, G, E, X>, p: Pipeline<M, R, F, G, E, X>)
    requires p'.frames == p.frames && p'.rawFrames == p.rawFrames
    requires p'.serverMessages == p.serverMessages && p'.serverRawData == p.serverRawData
    ensures FrameWork(p') == FrameWork(p)
  {
  }

  lemma SensorWorkDone<M, R, F, G, E, X>(p': Pipeline<M, R, F, G, E, X>, p: Pipeline<M, R, F, G, E, X>)
    requires Work(p'.messages, p'.sensorMessages) + Work(p'.rawData, p'.sensorRawData) <
      Work(p.messages, p.sensorMessages) + Work(p.rawData, p.sensorRawData)
    ensures LessWork(p', p)
  {
  }

  lemma FrameWorkDone<M, R, F, G, E, X>(p': Pipeline<M, R, F, G, E, X>, p: Pipeline<M, R, F, G, E, X>)
    requires p'.messages == p.messages && p'.rawData == p.rawData
    requires p'.sensorMessages == p.sensorMessages && p'.sensorRawData == p.sensorRawData
    requires Work(p'.frames, p'.serverMessages) + Work(p'.rawFrames, p'.serverRawData) <
      Work(p.frames, p.serverMessages) + Work(p.rawFrames, p.serverRawData)
    ensures LessWork(p', p)
  {
    SameSensorWork(p', p);
  }

  lemma ErrorWorkDone<M, R, F, G, E, X>(p': Pipeline<M, R, F, G, E, X>, p: Pipeline<M, R, F, G, E, X>)
    requires p'.messages == p.messages && p'.rawData == p.rawData
    requires p'.sensorMessages == p.sensorMessages && p'.sensorRawData == p.sensorRawData
    requires p'.frames == p.frames && p'.rawFrames == p.rawFrames
    requires p'.serverMessages == p.serverMessages && p'.serverRawData == p.serverRawData
    requires ErrorWork(p') < ErrorWork(p)
    ensures LessWork(p', p)
  {
    SameSensorWork(p', p);
    SameFrameWork(p', p);
  }

  lemma TranslatingIsWork<M, R, F, G, E, X>(p: Pipeline<M, R, F, G, E, X>, default: M, m: M, x: X, frames: seq<F>,
      caught: seq<E>)
    requires Linked(p.sensorMessages, {Only.Only}, default) && Hands(p.sensorMessages, Only.Only, m)
    ensures LessWork(MessageTranslated(p, m, x, frames, caught), p)
  {
    ServeCounts(p.sensorMessages, default, m, p.messages);
    SensorWorkDone(MessageTranslated(p, m, x, frames, caught), p);
  }

  lemma TranslatingRawIsWork<M, R, F, G, E, X>(p: Pipeline<M, R, F, G, E, X>, default: R, r: R, rawFrames: seq<G>,
      caught: seq<E>)
    requires Linked(p.sensorRawData, {Only.Only}, default) && Hands(p.sensorRawData, Only.Only, r)
    ensures LessWork(RawDataTranslated(p, r, rawFrames, caught), p)
  {
    ServeCounts(p.sensorRawData, default, r, p.rawData);
    SensorWorkDone(RawDataTranslated(p, r, rawFrames, caught), p);
  }

  lemma SendingIsWork<M, R, F, G, E, X>(p: Pipeline<M, R, F, G, E, X>, default: F, f: F, caught: seq<E>)
    requires Linked(p.serverMessages, {Only.Only}, default) && Hands(p.serverMessages, Only.Only, f)
    ensures LessWork(FrameSent(p, f, caught), p)
  {
    ServeCounts(p.serverMessages, default, f, p.frames);
    FrameWorkDone(FrameSent(p, f, caught), p);
  }

  lemma SendingRawIsWork<M, R, F, G, E, X>(p: Pipeline<M, R, F, G, E, X>, default: G, g: G, caught: seq<E>)
    requires Linked(p.serverRawData, {Only.Only}, default) && Hands(p.serverRawData, Only.Only, g)
    ensures LessWork(RawFrameSent(p, g, caught), p)
  {
    ServeCounts(p.serverRawData, default, g, p.rawFrames);
    FrameWorkDone(RawFrameSent(p, g, caught), p);
  }

  lemma EmittingMessageIsWork<M, R, F, G, E, X>(p: Pipeline<M, R, F, G, E, X>, default: M)
    requires Linked(p.sensorMessages, {Only.Only}, default) && p.messages != []
      && MayWrite(p.sensorMessages, Only.Only, p.messages[0])
    ensures LessWork(MessageEmitted(p), p)
  {
    EmitCounts(p.sensorMessages, default, p.messages);
    SensorWorkDone(MessageEmitted(p), p);
  }

  lemma EmittingRawDataIsWork<M, R, F, G, E, X>(p: Pipeline<M, R, F, G, E, X>, default: R)
    requires Linked(p.sensorRawData, {Only.Only}, default) && p.rawData != []
      && MayWrite(p.sensorRawData, Only.Only, p.rawData[0])
    ensures LessWork(RawDataEmitted(p), p)
  {
    EmitCounts(p.sensorRawData, default, p.rawData);
    SensorWorkDone(RawDataEmitted(p), p);
  }

  lemma EmittingFrameIsWork<M, R, F, G, E, X>(p: Pipeline<M, R, F, G, E, X>, default: F)
    requires Linked(p.serverMessages, {Only.Only}, default) && p.frames != []
      && MayWrite(p.serverMessages, Only.Only, p.frames[0])
    ensures LessWork(FrameEmitted(p), p)
  {
    EmitCounts(p.serverMessages, default, p.frames);
    FrameWorkDone(FrameEmitted(p), p);
  }

  lemma EmittingRawFrameIsWork<M, R, F, G, E, X>(p: Pipeline<M, R, F, G, E, X>, default: G)
    requires Linked(p.serverRawData, {Only.Only}, default) && p.rawFrames != []
      && MayWrite(p.serverRawData, Only.Only, p.rawFrames[0])
    ensures LessWork(RawFrameEmitted(p), p)
  {
    EmitCounts(p.serverRawData, default, p.rawFrames);
    FrameWorkDone(RawFrameEmitted(p), p);
  }

  lemma EmittingErrorIsWork<M, R, F, G, E, X>(p: Pipeline<M, R, F, G, E, X>, default: Raised<E>, t: Thread, b: Source)
    requires Linked(p.errors, SOURCES, default) && At(p.complaints, t, b) != []
      && MayWrite(p.errors, b, FirstError(p, t, b))
    ensures LessWork(ErrorEmitted(p, t, b), p)
  {
    EveryComplaintListed(t, b);
    WaitingShrinks(p.complaints, EVERY_COMPLAINT, t, b);
    ErrorEmitCounts(p.errors, default, b, FirstError(p, t, b));
    ErrorWorkDone(ErrorEmitted(p, t, b), p);
  }

  lemma HandlingIsWork<M, R, F, G, E, X>(p: Pipeline<M, R, F, G, E, X>, default: Raised<E>, b: Source, e: Raised<E>)
    requires Linked(p.errors, SOURCES, default) && Hands(p.errors, b, e)
    ensures LessWork(ErrorHandled(p, b, e), p)
  {
    ErrorServeCounts(p.errors, default, b, e);
    ErrorWorkDone(ErrorHandled(p, b, e), p);
  }

  lemma EndingCounts(ended: set<Thread>, t: Thread)
    requires t !in ended
    ensures |EVERYONE - (ended + {t})| < |EVERYONE - ended|
  {
    assert t in EVERYONE;
    assert EVERYONE - (ended + {t}) == (EVERYONE - ended) - {t};
  }

  lemma ServingWindsDown<M, R, F, G, E, X>(
      strategy: Strategy<M, R, F, G, E, X>, d: Defaults<M, R, F, G, E>, p: Pipeline<M, R, F, G, E, X>,
      step: Step<M, R, F, G, E>)
    requires Data(strategy, d, p) && Enabled(p, step)
    requires step.Translate? || step.TranslateRawData? || step.Send? || step.SendRawData?
    ensures LessWork(Apply(strategy, d, p, step), p)
  {
    match step
    case Translate(m) =>
      var (x, frames, caught) := strategy.translate(p.translation, m);
      TranslatingIsWork(p, d.message, m, x, frames, caught);
    case TranslateRawData(r) =>
      var (rawFrames, caught) := strategy.translateRawData(r);
      TranslatingRawIsWork(p, d.rawData, r, rawFrames, caught);
    case Send(f, caught) => SendingIsWork(p, d.frame, f, caught);
    case SendRawData(g, caught) => SendingRawIsWork(p, d.rawFrame, g, caught);
  }

  lemma EmittingWindsDown<M, R, F, G, E, X>(
      strategy: Strategy<M, R, F, G, E, X>, d: Defaults<M, R, F, G, E>, p: Pipeline<M, R, F, G, E, X>,
      step: Step<M, R, F, G, E>)
    requires Data(strategy, d, p) && Enabled(p, step)
    requires step.EmitMessage? || step.EmitRawData? || step.EmitFrame? || step.EmitRawFrame?
    ensures LessWork(Apply(strategy, d, p, step), p)
  {
    match step
    case EmitMessage => EmittingMessageIsWork(p, d.message);
    case EmitRawData => EmittingRawDataIsWork(p, d.rawData);
    case EmitFrame => EmittingFrameIsWork(p, d.frame);
    case EmitRawFrame => EmittingRawFrameIsWork(p, d.rawFrame);
  }

  lemma ErrorsWindDown<M, R, F, G, E, X>(
      strategy: Strategy<M, R, F, G, E, X>, d: Defaults<M, R, F, G, E>, p: Pipeline<M, R, F, G, E, X>,
      step: Step<M, R, F, G, E>)
    requires Data(strategy, d, p) && Enabled(p, step) && (step.EmitError? || step.HandleError?)
    ensures LessWork(Apply(strategy, d, p, step), p)
  {
    match step
    case EmitError(t, b) => EmittingErrorIsWork(p, d.error, t, b);
    case HandleError(b, e) => HandlingIsWork(p, d.error, b, e);
  }

  lemma WorkIsCloser<M, R, F, G, E, X>(p': Pipeline<M, R, F, G, E, X>, p: Pipeline<M, R, F, G, E, X>)
    requires p'.orders == p.orders && p'.ended == p.ended && p'.atTop == p.atTop && LessWork(p', p)
    ensures Closer(p', p)
  {
  }

  lemma OrdersAndEndsAreCloser<M, R, F, G, E, X>(
      strategy: Strategy<M, R, F, G, E, X>, d: Defaults<M, R, F, G, E>, p: Pipeline<M, R, F, G, E, X>,
      step: Step<M, R, F, G, E>)
    requires Enabled(p, step) && (step.End? || step.Do? || step.FetchRawData?)
    ensures Closer(Apply(strategy, d, p, step), p)
  {
    var p' := Apply(strategy, d, p, step);
    if step.End? {
      EndingCounts(p.ended, step.thread);
      assert p'.orders == p.orders && p'.atTop == p.atTop;
    } else if step.Do? {
      assert p.orders < DONE;
    } else {
      assert p'.orders == p.orders && p'.ended == p.ended && p'.atTop && !p.atTop;
    }
  }

  lemma MovingOnIsWork<M, R, F, G, E, X>(
      strategy: Strategy<M, R, F, G, E, X>, d: Defaults<M, R, F, G, E>, p: Pipeline<M, R, F, G, E, X>,
      step: Step<M, R, F, G, E>)
    requires Data(strategy, d, p) && Enabled(p, step) && MovesOn(step)
    ensures var p' := Apply(strategy, d, p, step);
      LessWork(p', p) && p'.orders == p.orders && p'.ended == p.ended && p'.atTop == p.atTop
  {
    if step.EmitError? || step.HandleError? {
      ErrorsWindDown(strategy, d, p, step);
    } else if step.Translate? || step.TranslateRawData? || step.Send? || step.SendRawData? {
      ServingWindsDown(strategy, d, p, step);
    } else {
      EmittingWindsDown(strategy, d, p, step);
    }
  }

  /** Every step that brings nothing new from outside brings the end closer, whichever thread takes it. */
  lemma EveryStepWindsDown<M, R, F, G, E, X>(
      strategy: Strategy<M, R, F, G, E, X>, d: Defaults<M, R, F, G, E>, p: Pipeline<M, R, F, G, E, X>,
      step: Step<M, R, F, G, E>)
    requires Data(strategy, d, p) && Enabled(p, step) && Finishing(step)
    ensures Closer(Apply(strategy, d, p, step), p)
  {
    if step.End? || step.Do? || step.FetchRawData? {
      OrdersAndEndsAreCloser(strategy, d, p, step);
    } else {
      MovingOnIsWork(strategy, d, p, step);
      WorkIsCloser(Apply(strategy, d, p, step), p);
    }
  }

  predicate AllFinishing<M, R, F, G, E>(steps: seq<Step<M, R, F, G, E>>) {
    steps == [] || (Finishing(steps[0]) && AllFinishing(steps[1..]))
  }

  lemma GoesOn<M, R, F, G, E, X>(strategy: Strategy<M, R, F, G, E, X>, d: Defaults<M, R, F, G, E>,
      p: Pipeline<M, R, F, G, E, X>)
      returns (step: Step<M, R, F, G, E>, next: Pipeline<M, R, F, G, E, X>)
    requires Invariant(strategy, d, p) && p.orders < DONE
    ensures Enabled(p, step) && Finishing(step) && next == Apply(strategy, d, p, step)
    ensures Invariant(strategy, d, next) && Closer(next, p) && next.orders <= p.orders + 1
  {
    step := SomeThreadGoesOn(strategy, d, p);
    next := Apply(strategy, d, p, step);
    EveryStepWindsDown(strategy, d, p, step);
    KeepsData(strategy, d, p, step);
    KeepsShutdown(strategy, d, p, step);
    OneOrderAtATime(strategy, d, p, step);
  }

  lemma Prepends<M, R, F, G, E, X>(
      strategy: Strategy<M, R, F, G, E, X>, d: Defaults<M, R, F, G, E>, p: Pipeline<M, R, F, G, E, X>,
      step: Step<M, R, F, G, E>,
      rest: seq<Step<M, R, F, G, E>>, steps: seq<Step<M, R, F, G, E>>)
    requires steps == [step] + rest && Enabled(p, step) && Finishing(step)
    requires EnabledRun(strategy, d, Apply(strategy, d, p, step), rest) && AllFinishing(rest)
    ensures EnabledRun(strategy, d, p, steps) && AllFinishing(steps)
    ensures Run(strategy, d, p, steps) == Run(strategy, d, Apply(strategy, d, p, step), rest)
  {
    assert steps[0] == step && steps[1..] == rest;
  }

  /** From every state that can be reached, steps that bring nothing new, taken as they come, lead to any later
      order. */
  lemma {:induction false} CanReach<M, R, F, G, E, X>(strategy: Strategy<M, R, F, G, E, X>,
      d: Defaults<M, R, F, G, E>, p: Pipeline<M, R, F, G, E, X>, orders: nat)
      returns (steps: seq<Step<M, R, F, G, E>>)
    requires Invariant(strategy, d, p) && p.orders <= orders <= DONE
    ensures EnabledRun(strategy, d, p, steps) && Run(strategy, d, p, steps).orders == orders
    ensures AllFinishing(steps)
    decreases OrdersLeft(p), ThreadsLeft(p), SensorWork(p), FrameWork(p), ErrorWork(p)
  {
    if p.orders == orders {
      steps := [];
    } else {
      var step, next := GoesOn(strategy, d, p);
      var rest := CanReach(strategy, d, next, orders);
      steps := [step] + rest;
      Prepends(strategy, d, p, step, rest, steps);
    }
  }

  /** What is under way can always be handed over, no order being given and no thread ending meanwhile. */
  lemma {:induction false} CanSettle<M, R, F, G, E, X>(strategy: Strategy<M, R, F, G, E, X>,
      d: Defaults<M, R, F, G, E>, p: Pipeline<M, R, F, G, E, X>)
      returns (steps: seq<Step<M, R, F, G, E>>)
    requires Invariant(strategy, d, p)
    ensures EnabledRun(strategy, d, p, steps) && AllFinishing(steps)
    ensures var p' := Run(strategy, d, p, steps);
      Settled(p') && p'.orders == p.orders && p'.ended == p.ended && p'.atTop == p.atTop
    decreases SensorWork(p), FrameWork(p), ErrorWork(p)
  {
    if Settled(p) {
      steps := [];
    } else {
      var step, next := MovesOnOnce(strategy, d, p);
      var rest := CanSettle(strategy, d, next);
      steps := [step] + rest;
      Prepends(strategy, d, p, step, rest, steps);
    }
  }

  lemma MovesOnOnce<M, R, F, G, E, X>(strategy: Strategy<M, R, F, G, E, X>, d: Defaults<M, R, F, G, E>,
      p: Pipeline<M, R, F, G, E, X>)
      returns (step: Step<M, R, F, G, E>, next: Pipeline<M, R, F, G, E, X>)
    requires Invariant(strategy, d, p) && !Settled(p)
    ensures Enabled(p, step) && Finishing(step) && next == Apply(strategy, d, p, step)
    ensures Invariant(strategy, d, next) && LessWork(next, p)
    ensures next.orders == p.orders && next.ended == p.ended && next.atTop == p.atTop
  {
    step := SomethingMovesOn(strategy, d, p);
    next := Apply(strategy, d, p, step);
    KeepsData(strategy, d, p, step);
    KeepsShutdown(strategy, d, p, step);
    MovingOnIsWork(strategy, d, p, step);
  }

  lemma RunCanReach<M, R, F, G, E, X>(strategy: Strategy<M, R, F, G, E, X>, d: Defaults<M, R, F, G, E>,
      start: Pipeline<M, R, F, G, E, X>, steps: seq<Step<M, R, F, G, E>>)
      returns (more: seq<Step<M, R, F, G, E>>)
    requires Invariant(strategy, d, start) && start.orders <= DONE && EnabledRun(strategy, d, start, steps)
    ensures var p := Run(strategy, d, start, steps);
      && EnabledRun(strategy, d, p, more) && Run(strategy, d, p, more).orders == DONE
      && AllFinishing(more)
  {
    RunKeeps(strategy, d, start, steps);
    OrdersAreCounted(strategy, d, start, steps);
    more := CanReach(strategy, d, Run(strategy, d, start, steps), DONE);
  }

  /** Every run can be continued until terminateAndJoin has returned, with nothing new from outside. */
  lemma ShutdownFinishes<M, R, F, G, E, X>(strategy: Strategy<M, R, F, G, E, X>, d: Defaults<M, R, F, G, E>,
      steps: seq<Step<M, R, F, G, E>>)
      returns (more: seq<Step<M, R, F, G, E>>)
    requires EnabledRun(strategy, d, Start(strategy, d), steps)
    ensures var p := Run(strategy, d, Start(strategy, d), steps);
      && EnabledRun(strategy, d, p, more) && Run(strategy, d, p, more).orders == DONE
      && AllFinishing(more)
  {
    StartHolds(strategy, d);
    more := RunCanReach(strategy, d, Start(strategy, d), steps);
  }

  lemma {:induction false} OrdersAreCounted<M, R, F, G, E, X>(
      strategy: Strategy<M, R, F, G, E, X>, d: Defaults<M, R, F, G, E>, p: Pipeline<M, R, F, G, E, X>,
      steps: seq<Step<M, R, F, G, E>>)
    requires EnabledRun(strategy, d, p, steps) && p.orders <= DONE
    ensures Run(strategy, d, p, steps).orders <= DONE
    decreases |steps|
  {
    if steps != [] {
      OneOrderAtATime(strategy, d, p, steps[0]);
      OrdersAreCounted(strategy, d, Apply(strategy, d, p, steps[0]), steps[1..]);
    }
  }

  lemma OneOrderAtATime<M, R, F, G, E, X>(
      strategy: Strategy<M, R, F, G, E, X>, d: Defaults<M, R, F, G, E>, p: Pipeline<M, R, F, G, E, X>,
      step: Step<M, R, F, G, E>)
    requires Enabled(p, step)
    ensures Apply(strategy, d, p, step).orders <= p.orders + 1
    ensures p.orders <= DONE ==> Apply(strategy, d, p, step).orders <= DONE
  {
  }
}
