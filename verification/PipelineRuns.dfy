/** The runs of the pipeline told by their steps alone: what was fetched, what was sent and handled, which errors
    were met, and what came before what. The logs that the state keeps are shown to agree with the steps.
  */
module PipelineRuns {
  import opened Wrappers
  import opened Stage
  import opened Pipeline
  import opened PipelineDrain
  import SC = SensorCommunicator
  import Engine

  // ---------------------------------------------------------------------------------------------
  // What the steps bring

  /** What some steps contribute, in their order. */
  function Gathered<S, T>(steps: seq<S>, part: S -> seq<T>): seq<T> {
    if steps == [] then [] else Gathered(steps[..|steps| - 1], part) + part(steps[|steps| - 1])
  }

  /** The messages fetched from the sensor. */
  function Fetched<M, R, F, G, E>(steps: seq<Step<M, R, F, G, E>>): seq<M> {
    Gathered(steps, (s: Step<M, R, F, G, E>) => if s.FetchMessages? then s.batch else [])
  }

  function FetchedRawData<M, R, F, G, E>(steps: seq<Step<M, R, F, G, E>>): seq<R> {
    Gathered(steps, (s: Step<M, R, F, G, E>) => if s.FetchRawData? then s.cycles else [])
  }

  /** The messages that the translator was handed. */
  function Consumed<M, R, F, G, E>(steps: seq<Step<M, R, F, G, E>>): seq<M> {
    Gathered(steps, (s: Step<M, R, F, G, E>) => if s.Translate? then [s.message] else [])
  }

  function ConsumedRawData<M, R, F, G, E>(steps: seq<Step<M, R, F, G, E>>): seq<R> {
    Gathered(steps, (s: Step<M, R, F, G, E>) => if s.TranslateRawData? then [s.data] else [])
  }

  /** The frames that the server communicator was handed. */
  function Sent<M, R, F, G, E>(steps: seq<Step<M, R, F, G, E>>): seq<F> {
    Gathered(steps, (s: Step<M, R, F, G, E>) => if s.Send? then [s.frame] else [])
  }

  function SentRawData<M, R, F, G, E>(steps: seq<Step<M, R, F, G, E>>): seq<G> {
    Gathered(steps, (s: Step<M, R, F, G, E>) => if s.SendRawData? then [s.rawFrame] else [])
  }

  /** The errors of one source that the error handler was handed. */
  function Handled<M, R, F, G, E>(steps: seq<Step<M, R, F, G, E>>, b: Source): seq<Raised<E>> {
    Gathered(steps, (s: Step<M, R, F, G, E>) => if s.HandleError? && s.source == b then [s.error] else [])
  }

  /** The errors that a thread met in a step and publishes to a source: the sensor's fetches and connections to
      the sensor communicator's, what goes to the server to the server communicator's. */
  function MetIn<M, R, F, G, E>(step: Step<M, R, F, G, E>, t: Thread, b: Source): seq<E> {
    match step
    case FetchMessages(_, caught) => if t == Sensor && b == FromSensor then caught else []
    case FetchRawData(_, caught) => if t == Sensor && b == FromSensor then caught else []
    case Send(_, caught) => if t == MessageServer && b == FromServer then caught else []
    case SendRawData(_, caught) => if t == RawDataServer && b == FromServer then caught else []
    case Do(order, caught) =>
      if t == Main && b == (if order.OpenSensor? || order.CloseSensor? then FromSensor else FromServer) then caught
      else []
    case _ => []
  }

  function Met<M, R, F, G, E>(steps: seq<Step<M, R, F, G, E>>, t: Thread, b: Source): seq<E> {
    Gathered(steps, (s: Step<M, R, F, G, E>) => MetIn(s, t, b))
  }

  /** The errors that the translation of some messages raises. */
  ghost function Complaints<M, R, F, G, E, X>(strategy: Strategy<M, R, F, G, E, X>, messages: seq<M>): seq<E> {
    if messages == [] then []
    else
      var before := messages[..|messages| - 1];
      Complaints(strategy, before) + strategy.translate(Translated(strategy, before).0, messages[|messages| - 1]).2
  }

  ghost function RawDataComplaints<M, R, F, G, E, X>(strategy: Strategy<M, R, F, G, E, X>, data: seq<R>): seq<E> {
    if data == [] then []
    else RawDataComplaints(strategy, data[..|data| - 1]) + strategy.translateRawData(data[|data| - 1]).1
  }

  lemma ComplaintsGrow<M, R, F, G, E, X>(strategy: Strategy<M, R, F, G, E, X>, messages: seq<M>, m: M)
    ensures Complaints(strategy, messages + [m]) ==
      Complaints(strategy, messages) + strategy.translate(Translated(strategy, messages).0, m).2
  {
    assert (messages + [m])[..|messages|] == messages;
  }

  lemma RawDataComplaintsGrow<M, R, F, G, E, X>(strategy: Strategy<M, R, F, G, E, X>, data: seq<R>, r: R)
    ensures RawDataComplaints(strategy, data + [r]) ==
      RawDataComplaints(strategy, data) + strategy.translateRawData(r).1
  {
    assert (data + [r])[..|data|] == data;
  }

  /** The errors that a thread raised for a source, the translators having been handed these data. */
  ghost function ErrorsRaised<M, R, F, G, E, X>(strategy: Strategy<M, R, F, G, E, X>, messages: seq<M>,
      rawData: seq<R>, steps: seq<Step<M, R, F, G, E>>, t: Thread, b: Source): seq<E>
  {
    if t == MessageTranslator && b == FromTranslator then Complaints(strategy, messages)
    else if t == RawDataTranslator && b == FromTranslator then RawDataComplaints(strategy, rawData)
    else Met(steps, t, b)
  }

  // ---------------------------------------------------------------------------------------------
  // Runs, step by step

  lemma {:induction false} RunEndsWith<M, R, F, G, E, X>(strategy: Strategy<M, R, F, G, E, X>,
      d: Defaults<M, R, F, G, E>, p: Pipeline<M, R, F, G, E, X>, before: seq<Step<M, R, F, G, E>>,
      more: seq<Step<M, R, F, G, E>>)
    ensures EnabledRun(strategy, d, p, before + more) <==>
      EnabledRun(strategy, d, p, before) && EnabledRun(strategy, d, Run(strategy, d, p, before), more)
    ensures EnabledRun(strategy, d, p, before + more) ==>
      Run(strategy, d, p, before + more) == Run(strategy, d, Run(strategy, d, p, before), more)
    decreases |before|
  {
    if before == [] {
      assert before + more == more;
    } else if Enabled(p, before[0]) {
      assert (before + more)[1..] == before[1..] + more;
      RunEndsWith(strategy, d, Apply(strategy, d, p, before[0]), before[1..], more);
    }
  }

  lemma OneStep<M, R, F, G, E, X>(strategy: Strategy<M, R, F, G, E, X>, d: Defaults<M, R, F, G, E>,
      p: Pipeline<M, R, F, G, E, X>, step: Step<M, R, F, G, E>)
    ensures EnabledRun(strategy, d, p, [step]) <==> Enabled(p, step)
    ensures Enabled(p, step) ==> Run(strategy, d, p, [step]) == Apply(strategy, d, p, step)
  {
    assert [step][1..] == [];
  }

  // ---------------------------------------------------------------------------------------------
  // The state's logs, replayed from the steps

  /** What the state says of a run, the errors being those of one thread and one source. */
  datatype History<M, R, F, G, E, X> = History(
    fetched: seq<M>, fetchedRawData: seq<R>,
    consumed: seq<M>, consumedRawData: seq<R>,
    sent: seq<F>, sentRawData: seq<G>,
    translation: X,
    handled: seq<Raised<E>>, raised: seq<E>)

  ghost function HistoryOf<M, R, F, G, E, X>(p: Pipeline<M, R, F, G, E, X>, t: Thread, b: Source):
      History<M, R, F, G, E, X>
  {
    History(p.fetchedMessages, p.fetchedRawData, Taken(p.sensorMessages, Only.Only), Taken(p.sensorRawData, Only.Only),
            Taken(p.serverMessages, Only.Only), Taken(p.serverRawData, Only.Only), p.translation,
            Taken(p.errors, b), At(p.raised, t, b))
  }

  /** The errors that one step adds to those a thread raised for a source. */
  ghost function RaisedIn<M, R, F, G, E, X>(strategy: Strategy<M, R, F, G, E, X>, x: X, step: Step<M, R, F, G, E>,
      t: Thread, b: Source): seq<E>
  {
    if t == MessageTranslator && b == FromTranslator then
      if step.Translate? then strategy.translate(x, step.message).2 else []
    else if t == RawDataTranslator && b == FromTranslator then
      if step.TranslateRawData? then strategy.translateRawData(step.data).1 else []
    else MetIn(step, t, b)
  }

  ghost function Extended<M, R, F, G, E, X>(strategy: Strategy<M, R, F, G, E, X>, h: History<M, R, F, G, E, X>,
      step: Step<M, R, F, G, E>, t: Thread, b: Source): History<M, R, F, G, E, X>
  {
    var h' := h.(raised := h.raised + RaisedIn(strategy, h.translation, step, t, b));
    match step
    case FetchMessages(batch, _) => h'.(fetched := h.fetched + batch)
    case FetchRawData(cycles, _) => h'.(fetchedRawData := h.fetchedRawData + cycles)
    case Translate(m) =>
      h'.(consumed := h.consumed + [m], translation := strategy.translate(h.translation, m).0)
    case TranslateRawData(r) => h'.(consumedRawData := h.consumedRawData + [r])
    case Send(f, _) => h'.(sent := h.sent + [f])
    case SendRawData(g, _) => h'.(sentRawData := h.sentRawData + [g])
    case HandleError(c, e) => if b == c then h'.(handled := h.handled + [e]) else h'
    case _ => h'
  }

  lemma ErrorsTaken<E>(errors: Stage<Raised<E>, Source>, default: Raised<E>, b: Source, c: Source, e: Raised<E>)
    requires Linked(errors, SOURCES, default) && Hands(errors, b, e) && c in SOURCES
    ensures Taken(Engine.ServeStep(errors, Only.Only), c) == Taken(errors, c) + (if b == c then [e] else [])
  {
    Serves(errors, SOURCES, default, b, e);
  }

  lemma ErrorsLeft<E>(errors: Stage<Raised<E>, Source>, default: Raised<E>, b: Source, c: Source, e: Raised<E>,
                      order: bool)
    requires Linked(errors, SOURCES, default)
    ensures MayWrite(errors, b, e) ==> Taken(Engine.WriteStep(errors, b, e), c) == Taken(errors, c)
    ensures Taken(StoppedIf(errors, order), c) == Taken(errors, c)
  {
    if MayWrite(errors, b, e) { Writes(errors, SOURCES, default, b, e); }
    Stops(errors, SOURCES, default);
  }

  /** What a step does to the error buffers. */
  lemma StepOnErrors<M, R, F, G, E, X>(
      strategy: Strategy<M, R, F, G, E, X>, d: Defaults<M, R, F, G, E>, p: Pipeline<M, R, F, G, E, X>,
      step: Step<M, R, F, G, E>)
    requires Enabled(p, step)
    ensures Apply(strategy, d, p, step).errors ==
      match step
      case HandleError(_, _) => Engine.ServeStep(p.errors, Only.Only)
      case EmitError(t, b) => Engine.WriteStep(p.errors, b, FirstError(p, t, b))
      case Do(order, _) => StoppedIf(p.errors, order == Stop(ErrorHandler))
      case _ => p.errors
  {
  }

  lemma StepHandles<M, R, F, G, E, X>(
      p: Pipeline<M, R, F, G, E, X>, default: Raised<E>, step: Step<M, R, F, G, E>, c: Source)
    requires Linked(p.errors, SOURCES, default) && c in SOURCES
    ensures step.HandleError? && Hands(p.errors, step.source, step.error) ==>
      Taken(Engine.ServeStep(p.errors, Only.Only), c) ==
        Taken(p.errors, c) + (if step.source == c then [step.error] else [])
    ensures (step.EmitError? && At(p.complaints, step.thread, step.source) != []
             && MayWrite(p.errors, step.source, FirstError(p, step.thread, step.source))) ==>
        Taken(Engine.WriteStep(p.errors, step.source, FirstError(p, step.thread, step.source)), c) == Taken(p.errors, c)
    ensures step.Do? ==> Taken(StoppedIf(p.errors, step.order == Stop(ErrorHandler)), c) == Taken(p.errors, c)
  {
    match step
    case HandleError(b, e) => if Hands(p.errors, b, e) { ErrorsTaken(p.errors, default, b, c, e); }
    case EmitError(t, b) =>
      if At(p.complaints, t, b) != [] { ErrorsLeft(p.errors, default, b, c, FirstError(p, t, b), false); }
    case Do(order, _) => ErrorsLeft(p.errors, default, c, c, default, order == Stop(ErrorHandler));
    case _ =>
  }

  lemma RaiseAdds<M, R, F, G, E, X>(p: Pipeline<M, R, F, G, E, X>, u: Thread, c: Source, caught: seq<E>, t: Thread,
                                    b: Source)
    ensures At(Raise(p, u, c, caught).raised, t, b) ==
      At(p.raised, t, b) + (if t == u && b == c then caught else [])
  {
  }

  /** The errors raised after a step. */
  ghost function RaisedAfter<M, R, F, G, E, X>(
      strategy: Strategy<M, R, F, G, E, X>, p: Pipeline<M, R, F, G, E, X>, step: Step<M, R, F, G, E>):
      map<(Thread, Source), seq<E>>
  {
    match step
    case FetchMessages(_, caught) => Raise(p, Sensor, FromSensor, caught).raised
    case FetchRawData(_, caught) => Raise(p, Sensor, FromSensor, caught).raised
    case Translate(m) => Raise(p, MessageTranslator, FromTranslator, strategy.translate(p.translation, m).2).raised
    case TranslateRawData(r) => Raise(p, RawDataTranslator, FromTranslator, strategy.translateRawData(r).1).raised
    case Send(_, caught) => Raise(p, MessageServer, FromServer, caught).raised
    case SendRawData(_, caught) => Raise(p, RawDataServer, FromServer, caught).raised
    case Do(order, caught) => Done(p, order, caught).raised
    case _ => p.raised
  }

  lemma FetchOnRaised<M, R, F, G, E, X>(
      strategy: Strategy<M, R, F, G, E, X>, d: Defaults<M, R, F, G, E>, p: Pipeline<M, R, F, G, E, X>,
      step: Step<M, R, F, G, E>)
    requires Enabled(p, step) && (step.FetchMessages? || step.FetchRawData?)
    ensures Apply(strategy, d, p, step).raised == RaisedAfter(strategy, p, step)
  {
  }

  lemma TranslateOnRaised<M, R, F, G, E, X>(
      strategy: Strategy<M, R, F, G, E, X>, d: Defaults<M, R, F, G, E>, p: Pipeline<M, R, F, G, E, X>,
      step: Step<M, R, F, G, E>)
    requires Enabled(p, step) && (step.Translate? || step.TranslateRawData?)
    ensures Apply(strategy, d, p, step).raised == RaisedAfter(strategy, p, step)
  {
  }

  lemma SendOnRaised<M, R, F, G, E, X>(
      strategy: Strategy<M, R, F, G, E, X>, d: Defaults<M, R, F, G, E>, p: Pipeline<M, R, F, G, E, X>,
      step: Step<M, R, F, G, E>)
    requires Enabled(p, step) && (step.Send? || step.SendRawData?)
    ensures Apply(strategy, d, p, step).raised == RaisedAfter(strategy, p, step)
  {
  }

  lemma OtherStepsOnRaised<M, R, F, G, E, X>(
      strategy: Strategy<M, R, F, G, E, X>, d: Defaults<M, R, F, G, E>, p: Pipeline<M, R, F, G, E, X>,
      step: Step<M, R, F, G, E>)
    requires Enabled(p, step)
    requires !step.FetchMessages? && !step.FetchRawData? && !step.Translate? && !step.TranslateRawData?
    requires !step.Send? && !step.SendRawData?
    ensures Apply(strategy, d, p, step).raised == RaisedAfter(strategy, p, step)
  {
  }

  lemma StepOnRaised<M, R, F, G, E, X>(
      strategy: Strategy<M, R, F, G, E, X>, d: Defaults<M, R, F, G, E>, p: Pipeline<M, R, F, G, E, X>,
      step: Step<M, R, F, G, E>)
    requires Enabled(p, step)
    ensures Apply(strategy, d, p, step).raised == RaisedAfter(strategy, p, step)
  {
    if step.FetchMessages? || step.FetchRawData? {
      FetchOnRaised(strategy, d, p, step);
    } else if step.Translate? || step.TranslateRawData? {
      TranslateOnRaised(strategy, d, p, step);
    } else if step.Send? || step.SendRawData? {
      SendOnRaised(strategy, d, p, step);
    } else {
      OtherStepsOnRaised(strategy, d, p, step);
    }
  }

  lemma FetchOrSendRaises<M, R, F, G, E, X>(
      strategy: Strategy<M, R, F, G, E, X>, p: Pipeline<M, R, F, G, E, X>, step: Step<M, R, F, G, E>, t: Thread,
      b: Source)
    requires step.FetchMessages? || step.FetchRawData? || step.Send? || step.SendRawData?
    ensures At(RaisedAfter(strategy, p, step), t, b) ==
      At(p.raised, t, b) + RaisedIn(strategy, p.translation, step, t, b)
  {
    match step
    case FetchMessages(_, caught) => RaiseAdds(p, Sensor, FromSensor, caught, t, b);
    case FetchRawData(_, caught) => RaiseAdds(p, Sensor, FromSensor, caught, t, b);
    case Send(_, caught) => RaiseAdds(p, MessageServer, FromServer, caught, t, b);
    case SendRawData(_, caught) => RaiseAdds(p, RawDataServer, FromServer, caught, t, b);
  }

  lemma StepRaises<M, R, F, G, E, X>(
      strategy: Strategy<M, R, F, G, E, X>, p: Pipeline<M, R, F, G, E, X>, step: Step<M, R, F, G, E>, t: Thread,
      b: Source)
    requires step.Do? && Reports(step.order).None? ==> step.caught == []
    ensures At(RaisedAfter(strategy, p, step), t, b) ==
      At(p.raised, t, b) + RaisedIn(strategy, p.translation, step, t, b)
  {
    match step
    case Translate(m) =>
      RaiseAdds(p, MessageTranslator, FromTranslator, strategy.translate(p.translation, m).2, t, b);
    case TranslateRawData(r) =>
      RaiseAdds(p, RawDataTranslator, FromTranslator, strategy.translateRawData(r).1, t, b);
    case Do(order, caught) => OrderRaises(p, order, caught, t, b);
    case _ =>
      if step.FetchMessages? || step.FetchRawData? || step.Send? || step.SendRawData? {
        FetchOrSendRaises(strategy, p, step, t, b);
      } else {
        NothingAdded(At(p.raised, t, b));
      }
  }

  lemma OrderRaises<M, R, F, G, E, X>(p: Pipeline<M, R, F, G, E, X>, order: Order, caught: seq<E>, t: Thread, b: Source)
    requires Reports(order).None? ==> caught == []
    ensures At(Done(p, order, caught).raised, t, b) ==
      At(p.raised, t, b) + MetIn(Step<M, R, F, G, E>.Do(order, caught), t, b)
  {
    if Reports(order).Some? {
      RaiseAdds(p, Main, Reports(order).value, caught, t, b);
    }
  }

  /** The step has changed what was fetched and where the translation stands. */
  ghost predicate Fetches<M, R, F, G, E, X>(strategy: Strategy<M, R, F, G, E, X>, p: Pipeline<M, R, F, G, E, X>,
      p': Pipeline<M, R, F, G, E, X>, step: Step<M, R, F, G, E>)
  {
    && p'.fetchedMessages == (if step.FetchMessages? then p.fetchedMessages + step.batch else p.fetchedMessages)
    && p'.fetchedRawData == (if step.FetchRawData? then p.fetchedRawData + step.cycles else p.fetchedRawData)
    && p'.translation ==
         (if step.Translate? then strategy.translate(p.translation, step.message).0 else p.translation)
  }

  lemma StepFetches<M, R, F, G, E, X>(
      strategy: Strategy<M, R, F, G, E, X>, d: Defaults<M, R, F, G, E>, p: Pipeline<M, R, F, G, E, X>,
      step: Step<M, R, F, G, E>)
    requires Enabled(p, step)
    ensures Fetches(strategy, p, Apply(strategy, d, p, step), step)
  {
  }

  /** The step has changed what the sinks were handed. */
  ghost predicate Turns<M, R, F, G, E, X>(p: Pipeline<M, R, F, G, E, X>, p': Pipeline<M, R, F, G, E, X>,
                                          step: Step<M, R, F, G, E>)
  {
    && TurnOf(p.sensorMessages, p'.sensorMessages, if step.Translate? then Some(step.message) else None)
    && TurnOf(p.sensorRawData, p'.sensorRawData, if step.TranslateRawData? then Some(step.data) else None)
    && TurnOf(p.serverMessages, p'.serverMessages, if step.Send? then Some(step.frame) else None)
    && TurnOf(p.serverRawData, p'.serverRawData, if step.SendRawData? then Some(step.rawFrame) else None)
  }

  ghost predicate TurnOf<T>(stage: Stage<T, Only>, stage': Stage<T, Only>, handed: Option<T>) {
    Taken(stage', Only.Only) ==
      match handed
      case Some(data) => Taken(stage, Only.Only) + [data]
      case None => Taken(stage, Only.Only)
  }

  lemma ServingTurns<T>(stage: Stage<T, Only>, default: T, data: T)
    requires Linked(stage, {Only.Only}, default) && Hands(stage, Only.Only, data)
    ensures TurnOf(stage, Engine.ServeStep(stage, Only.Only), Some(data))
  {
    Serves(stage, {Only.Only}, default, Only.Only, data);
  }

  lemma WritingTurnsNot<T>(stage: Stage<T, Only>, default: T, data: T)
    requires Linked(stage, {Only.Only}, default) && MayWrite(stage, Only.Only, data)
    ensures TurnOf(stage, Engine.WriteStep(stage, Only.Only, data), None)
  {
    Writes(stage, {Only.Only}, default, Only.Only, data);
  }

  lemma StoppingTurnsNot<T>(stage: Stage<T, Only>, default: T, order: bool)
    requires Linked(stage, {Only.Only}, default)
    ensures TurnOf(stage, StoppedIf(stage, order), None)
  {
    Stops(stage, {Only.Only}, default);
  }

  lemma ServingStepTurns<M, R, F, G, E, X>(
      strategy: Strategy<M, R, F, G, E, X>, d: Defaults<M, R, F, G, E>, p: Pipeline<M, R, F, G, E, X>,
      step: Step<M, R, F, G, E>)
    requires Data(strategy, d, p) && Enabled(p, step)
    requires step.Translate? || step.TranslateRawData? || step.Send? || step.SendRawData?
    ensures Turns(p, Apply(strategy, d, p, step), step)
  {
    match step
    case Translate(m) => ServingTurns(p.sensorMessages, d.message, m);
    case TranslateRawData(r) => ServingTurns(p.sensorRawData, d.rawData, r);
    case Send(f, _) => ServingTurns(p.serverMessages, d.frame, f);
    case SendRawData(g, _) => ServingTurns(p.serverRawData, d.rawFrame, g);
  }

  lemma EmittedMessageTurns<M, R, F, G, E, X>(p: Pipeline<M, R, F, G, E, X>, default: M)
    requires Linked(p.sensorMessages, {Only.Only}, default)
    requires p.messages != [] && MayWrite(p.sensorMessages, Only.Only, p.messages[0])
    ensures Turns(p, MessageEmitted(p), Step<M, R, F, G, E>.EmitMessage)
  {
    WritingTurnsNot(p.sensorMessages, default, p.messages[0]);
  }

  lemma EmittedRawDataTurns<M, R, F, G, E, X>(p: Pipeline<M, R, F, G, E, X>, default: R)
    requires Linked(p.sensorRawData, {Only.Only}, default)
    requires p.rawData != [] && MayWrite(p.sensorRawData, Only.Only, p.rawData[0])
    ensures Turns(p, RawDataEmitted(p), Step<M, R, F, G, E>.EmitRawData)
  {
    WritingTurnsNot(p.sensorRawData, default, p.rawData[0]);
  }

  lemma EmittedFrameTurns<M, R, F, G, E, X>(p: Pipeline<M, R, F, G, E, X>, default: F)
    requires Linked(p.serverMessages, {Only.Only}, default)
    requires p.frames != [] && MayWrite(p.serverMessages, Only.Only, p.frames[0])
    ensures Turns(p, FrameEmitted(p), Step<M, R, F, G, E>.EmitFrame)
  {
    WritingTurnsNot(p.serverMessages, default, p.frames[0]);
  }

  lemma EmittedRawFrameTurns<M, R, F, G, E, X>(p: Pipeline<M, R, F, G, E, X>, default: G)
    requires Linked(p.serverRawData, {Only.Only}, default)
    requires p.rawFrames != [] && MayWrite(p.serverRawData, Only.Only, p.rawFrames[0])
    ensures Turns(p, RawFrameEmitted(p), Step<M, R, F, G, E>.EmitRawFrame)
  {
    WritingTurnsNot(p.serverRawData, default, p.rawFrames[0]);
  }

  lemma EmittingStepTurns<M, R, F, G, E, X>(
      strategy: Strategy<M, R, F, G, E, X>, d: Defaults<M, R, F, G, E>, p: Pipeline<M, R, F, G, E, X>,
      step: Step<M, R, F, G, E>)
    requires Data(strategy, d, p) && Enabled(p, step)
    requires step.EmitMessage? || step.EmitRawData? || step.EmitFrame? || step.EmitRawFrame?
    ensures Turns(p, Apply(strategy, d, p, step), step)
  {
    match step
    case EmitMessage => EmittedMessageTurns(p, d.message);
    case EmitRawData => EmittedRawDataTurns(p, d.rawData);
    case EmitFrame => EmittedFrameTurns(p, d.frame);
    case EmitRawFrame => EmittedRawFrameTurns(p, d.rawFrame);
  }

  lemma OrderingStepTurns<M, R, F, G, E, X>(
      strategy: Strategy<M, R, F, G, E, X>, d: Defaults<M, R, F, G, E>, p: Pipeline<M, R, F, G, E, X>,
      step: Step<M, R, F, G, E>)
    requires Data(strategy, d, p) && Enabled(p, step) && step.Do?
    ensures Turns(p, Apply(strategy, d, p, step), step)
  {
    StoppingTurnsNot(p.sensorMessages, d.message, step.order == Stop(MessageTranslator));
    StoppingTurnsNot(p.sensorRawData, d.rawData, step.order == Stop(RawDataTranslator));
    StoppingTurnsNot(p.serverMessages, d.frame, step.order == Stop(MessageServer));
    StoppingTurnsNot(p.serverRawData, d.rawFrame, step.order == Stop(RawDataServer));
  }

  lemma StepTurns<M, R, F, G, E, X>(
      strategy: Strategy<M, R, F, G, E, X>, d: Defaults<M, R, F, G, E>, p: Pipeline<M, R, F, G, E, X>,
      step: Step<M, R, F, G, E>)
    requires Data(strategy, d, p) && Enabled(p, step)
    ensures Turns(p, Apply(strategy, d, p, step), step)
  {
    if step.Translate? || step.TranslateRawData? || step.Send? || step.SendRawData? {
      ServingStepTurns(strategy, d, p, step);
    } else if step.EmitMessage? || step.EmitRawData? || step.EmitFrame? || step.EmitRawFrame? {
      EmittingStepTurns(strategy, d, p, step);
    } else if step.Do? {
      OrderingStepTurns(strategy, d, p, step);
    }
  }

  /** The step has changed what the error handler was handed from a source, and what a thread raised for it. */
  ghost predicate Publishes<M, R, F, G, E, X>(strategy: Strategy<M, R, F, G, E, X>, p: Pipeline<M, R, F, G, E, X>,
      p': Pipeline<M, R, F, G, E, X>, step: Step<M, R, F, G, E>, t: Thread, b: Source)
  {
    && Taken(p'.errors, b) ==
         (if step.HandleError? && step.source == b then Taken(p.errors, b) + [step.error] else Taken(p.errors, b))
    && At(p'.raised, t, b) == At(p.raised, t, b) + RaisedIn(strategy, p.translation, step, t, b)
  }

  lemma StepPublishes<M, R, F, G, E, X>(
      strategy: Strategy<M, R, F, G, E, X>, d: Defaults<M, R, F, G, E>, p: Pipeline<M, R, F, G, E, X>,
      step: Step<M, R, F, G, E>, t: Thread, b: Source)
    requires Linked(p.errors, SOURCES, d.error) && Enabled(p, step)
    ensures Publishes(strategy, p, Apply(strategy, d, p, step), step, t, b)
  {
    assert b in SOURCES;
    StepOnErrors(strategy, d, p, step);
    StepHandles(p, d.error, step, b);
    StepOnRaised(strategy, d, p, step);
    StepRaises(strategy, p, step, t, b);
  }

  /** A step changes the history as it says itself. */
  lemma StepExtends<M, R, F, G, E, X>(
      strategy: Strategy<M, R, F, G, E, X>, d: Defaults<M, R, F, G, E>, p: Pipeline<M, R, F, G, E, X>,
      step: Step<M, R, F, G, E>, t: Thread, b: Source)
    requires Data(strategy, d, p) && Enabled(p, step)
    ensures HistoryOf(Apply(strategy, d, p, step), t, b) == Extended(strategy, HistoryOf(p, t, b), step, t, b)
  {
    StepFetches(strategy, d, p, step);
    StepTurns(strategy, d, p, step);
    StepPublishes(strategy, d, p, step, t, b);
    ChangesAddUp(strategy, p, Apply(strategy, d, p, step), step, t, b);
  }

  lemma ChangesAddUp<M, R, F, G, E, X>(strategy: Strategy<M, R, F, G, E, X>, p: Pipeline<M, R, F, G, E, X>,
      p': Pipeline<M, R, F, G, E, X>, step: Step<M, R, F, G, E>, t: Thread, b: Source)
    requires Fetches(strategy, p, p', step) && Turns(p, p', step) && Publishes(strategy, p, p', step, t, b)
    ensures HistoryOf(p', t, b) == Extended(strategy, HistoryOf(p, t, b), step, t, b)
  {
  }

  /** The history after some steps. */
  ghost function Replayed<M, R, F, G, E, X>(strategy: Strategy<M, R, F, G, E, X>, h: History<M, R, F, G, E, X>,
      steps: seq<Step<M, R, F, G, E>>, t: Thread, b: Source): History<M, R, F, G, E, X>
    decreases |steps|
  {
    if steps == [] then h else Replayed(strategy, Extended(strategy, h, steps[0], t, b), steps[1..], t, b)
  }

  lemma {:induction false} RunReplays<M, R, F, G, E, X>(strategy: Strategy<M, R, F, G, E, X>,
      d: Defaults<M, R, F, G, E>, p: Pipeline<M, R, F, G, E, X>, steps: seq<Step<M, R, F, G, E>>, t: Thread, b: Source)
    requires Data(strategy, d, p) && EnabledRun(strategy, d, p, steps)
    ensures HistoryOf(Run(strategy, d, p, steps), t, b) == Replayed(strategy, HistoryOf(p, t, b), steps, t, b)
    decreases |steps|
  {
    if steps != [] {
      KeepsData(strategy, d, p, steps[0]);
      StepExtends(strategy, d, p, steps[0], t, b);
      RunReplays(strategy, d, Apply(strategy, d, p, steps[0]), steps[1..], t, b);
    }
  }

  lemma StartsEmpty<M, R, F, G, E, X>(strategy: Strategy<M, R, F, G, E, X>, d: Defaults<M, R, F, G, E>, t: Thread,
                                      b: Source)
    ensures HistoryOf(Start(strategy, d), t, b) == History([], [], [], [], [], [], strategy.start, [], [])
  {
    var p := Start(strategy, d);
    FedAtStart(p.sensorMessages, d.message);
    FedAtStart(p.sensorRawData, d.rawData);
    FedAtStart(p.serverMessages, d.frame);
    FedAtStart(p.serverRawData, d.rawFrame);
    assert b in SOURCES;
  }

  /** What the steps bring, put together. */
  ghost function Brought<M, R, F, G, E, X>(strategy: Strategy<M, R, F, G, E, X>, steps: seq<Step<M, R, F, G, E>>,
      t: Thread, b: Source): History<M, R, F, G, E, X>
  {
    History(Fetched(steps), FetchedRawData(steps), Consumed(steps), ConsumedRawData(steps), Sent(steps),
            SentRawData(steps), Translated(strategy, Consumed(steps)).0, Handled(steps, b),
            ErrorsRaised(strategy, Consumed(steps), ConsumedRawData(steps), steps, t, b))
  }

  lemma FetchesGrow<M, R, F, G, E>(steps: seq<Step<M, R, F, G, E>>, step: Step<M, R, F, G, E>)
    ensures Fetched(steps + [step]) == Fetched(steps) + (if step.FetchMessages? then step.batch else [])
    ensures FetchedRawData(steps + [step]) == FetchedRawData(steps) + (if step.FetchRawData? then step.cycles else [])
  {
    assert (steps + [step])[..|steps|] == steps;
  }

  lemma TurnsGrow<M, R, F, G, E>(steps: seq<Step<M, R, F, G, E>>, step: Step<M, R, F, G, E>)
    ensures Consumed(steps + [step]) == Consumed(steps) + (if step.Translate? then [step.message] else [])
    ensures ConsumedRawData(steps + [step]) ==
      ConsumedRawData(steps) + (if step.TranslateRawData? then [step.data] else [])
    ensures Sent(steps + [step]) == Sent(steps) + (if step.Send? then [step.frame] else [])
    ensures SentRawData(steps + [step]) == SentRawData(steps) + (if step.SendRawData? then [step.rawFrame] else [])
  {
    assert (steps + [step])[..|steps|] == steps;
  }

  lemma ErrorsGrow<M, R, F, G, E>(steps: seq<Step<M, R, F, G, E>>, step: Step<M, R, F, G, E>, t: Thread, b: Source)
    ensures Handled(steps + [step], b) ==
      Handled(steps, b) + (if step.HandleError? && step.source == b then [step.error] else [])
    ensures Met(steps + [step], t, b) == Met(steps, t, b) + MetIn(step, t, b)
  {
    assert (steps + [step])[..|steps|] == steps;
  }

  lemma ErrorsRaisedGrow<M, R, F, G, E, X>(strategy: Strategy<M, R, F, G, E, X>, steps: seq<Step<M, R, F, G, E>>,
      step: Step<M, R, F, G, E>, t: Thread, b: Source)
    ensures var after := steps + [step];
      && Translated(strategy, Consumed(after)).0 ==
           (var x := Translated(strategy, Consumed(steps)).0;
            if step.Translate? then strategy.translate(x, step.message).0 else x)
      && ErrorsRaised(strategy, Consumed(after), ConsumedRawData(after), after, t, b) ==
           ErrorsRaised(strategy, Consumed(steps), ConsumedRawData(steps), steps, t, b) +
           RaisedIn(strategy, Translated(strategy, Consumed(steps)).0, step, t, b)
  {
    TurnsGrow(steps, step);
    ErrorsGrow(steps, step, t, b);
    assert Consumed(steps) + [] == Consumed(steps) && ConsumedRawData(steps) + [] == ConsumedRawData(steps);
    if step.Translate? {
      TranslatedGrows(strategy, Consumed(steps), step.message);
      ComplaintsGrow(strategy, Consumed(steps), step.message);
    } else if step.TranslateRawData? {
      RawDataComplaintsGrow(strategy, ConsumedRawData(steps), step.data);
    }
  }

  lemma NothingAdded<T>(s: seq<T>)
    ensures s + [] == s
  {
  }

  lemma BroughtGrows<M, R, F, G, E, X>(strategy: Strategy<M, R, F, G, E, X>, steps: seq<Step<M, R, F, G, E>>,
      step: Step<M, R, F, G, E>, t: Thread, b: Source)
    ensures Brought(strategy, steps + [step], t, b) == Extended(strategy, Brought(strategy, steps, t, b), step, t, b)
  {
    FetchesGrow(steps, step);
    TurnsGrow(steps, step);
    ErrorsGrow(steps, step, t, b);
    ErrorsRaisedGrow(strategy, steps, step, t, b);
    NothingAdded(Fetched(steps));
    NothingAdded(FetchedRawData(steps));
    NothingAdded(Consumed(steps));
    NothingAdded(ConsumedRawData(steps));
    NothingAdded(Sent(steps));
    NothingAdded(SentRawData(steps));
    NothingAdded(Handled(steps, b));
  }

  lemma {:induction false} ReplayBrings<M, R, F, G, E, X>(strategy: Strategy<M, R, F, G, E, X>,
      before: seq<Step<M, R, F, G, E>>, steps: seq<Step<M, R, F, G, E>>, all: seq<Step<M, R, F, G, E>>, t: Thread,
      b: Source)
    requires all == before + steps
    ensures Replayed(strategy, Brought(strategy, before, t, b), steps, t, b) == Brought(strategy, all, t, b)
    decreases |steps|
  {
    if steps == [] {
      assert all == before;
    } else {
      assert all == before + [steps[0]] + steps[1..];
      BroughtGrows(strategy, before, steps[0], t, b);
      ReplayBrings(strategy, before + [steps[0]], steps[1..], all, t, b);
    }
  }

  /** After every run the logs of the state are what its steps brought. */
  lemma RunBrings<M, R, F, G, E, X>(strategy: Strategy<M, R, F, G, E, X>, d: Defaults<M, R, F, G, E>,
      steps: seq<Step<M, R, F, G, E>>, t: Thread, b: Source)
    requires EnabledRun(strategy, d, Start(strategy, d), steps)
    ensures HistoryOf(Run(strategy, d, Start(strategy, d), steps), t, b) == Brought(strategy, steps, t, b)
  {
    StartHolds(strategy, d);
    RunReplays(strategy, d, Start(strategy, d), steps, t, b);
    StartsEmpty(strategy, d, t, b);
    ReplayFromNothing(strategy, steps, t, b);
  }

  lemma ReplayFromNothing<M, R, F, G, E, X>(strategy: Strategy<M, R, F, G, E, X>, steps: seq<Step<M, R, F, G, E>>,
      t: Thread, b: Source)
    ensures Replayed(strategy, History([], [], [], [], [], [], strategy.start, [], []), steps, t, b) ==
      Brought(strategy, steps, t, b)
  {
    ReplayBrings(strategy, [], steps, steps, t, b);
  }

  // ---------------------------------------------------------------------------------------------
  // The orders, one after the other

  /** start, then terminateAndJoin. */
  const ORDERS: seq<Order> := [
    OpenServer, OpenSensor, StartSensor,
    CloseSensor, OrderSensor, JoinSensor,
    Stop(MessageTranslator), Join(MessageTranslator), Stop(RawDataTranslator), Join(RawDataTranslator),
    Stop(MessageServer), Join(MessageServer), Stop(RawDataServer), Join(RawDataServer),
    CloseServer,
    Stop(ErrorHandler), Join(ErrorHandler)]

  function Given<M, R, F, G, E>(steps: seq<Step<M, R, F, G, E>>): seq<Order> {
    Gathered(steps, (s: Step<M, R, F, G, E>) => if s.Do? then [s.order] else [])
  }

  /** The threads that have ended. */
  function Ended<M, R, F, G, E>(steps: seq<Step<M, R, F, G, E>>): seq<Thread> {
    Gathered(steps, (s: Step<M, R, F, G, E>) => if s.End? then [s.thread] else [])
  }

  /** The sensor's thread is between two rounds of its loop. */
  predicate BetweenRounds<M, R, F, G, E>(steps: seq<Step<M, R, F, G, E>>) {
    steps == [] ||
    (var last := steps[|steps| - 1];
     last.FetchRawData? || (!last.FetchMessages? && BetweenRounds(steps[..|steps| - 1])))
  }

  lemma OrdersGrow<M, R, F, G, E>(steps: seq<Step<M, R, F, G, E>>, step: Step<M, R, F, G, E>)
    ensures Given(steps + [step]) == Given(steps) + (if step.Do? then [step.order] else [])
    ensures Ended(steps + [step]) == Ended(steps) + (if step.End? then [step.thread] else [])
    ensures BetweenRounds(steps + [step]) <==>
      step.FetchRawData? || (!step.FetchMessages? && BetweenRounds(steps))
  {
    assert (steps + [step])[..|steps|] == steps;
  }

  ghost predicate LogsOrders<M, R, F, G, E, X>(p: Pipeline<M, R, F, G, E, X>, steps: seq<Step<M, R, F, G, E>>) {
    && 0 <= p.orders <= |ORDERS| && Given(steps) == ORDERS[..p.orders]
    && (forall t :: t in p.ended <==> t in Ended(steps))
    && (p.atTop <==> BetweenRounds(steps))
    && (p.orders <= 2 ==> p.atTop && p.fetchedMessages == [] && p.fetchedRawData == [])
  }

  lemma PlaceIsPosition(order: Order)
    ensures Place(order) < |ORDERS| && (0 <= Place(order) ==> ORDERS[Place(order)] == order)
  {
  }

  /** Which orders are among the first ones. */
  lemma GivenUpTo(order: Order, n: nat)
    requires n <= |ORDERS|
    ensures order in ORDERS[..n] <==> 0 <= Place(order) < n
  {
    PlaceIsPosition(order);
    if 0 <= Place(order) < n { assert ORDERS[..n][Place(order)] == order; }
  }

  lemma OtherStepsLogOrders<M, R, F, G, E, X>(
      strategy: Strategy<M, R, F, G, E, X>, d: Defaults<M, R, F, G, E>, p: Pipeline<M, R, F, G, E, X>,
      steps: seq<Step<M, R, F, G, E>>, step: Step<M, R, F, G, E>)
    requires Enabled(p, step) && LogsOrders(p, steps) && !step.Do?
    ensures LogsOrders(Apply(strategy, d, p, step), steps + [step])
  {
    OrdersGrow(steps, step);
  }

  lemma OrderLogs<M, R, F, G, E, X>(
      strategy: Strategy<M, R, F, G, E, X>, d: Defaults<M, R, F, G, E>, p: Pipeline<M, R, F, G, E, X>,
      steps: seq<Step<M, R, F, G, E>>, order: Order, caught: seq<E>)
    requires p.orders == Place(order) && LogsOrders(p, steps)
    ensures LogsOrders(Done(p, order, caught).(orders := p.orders + 1), steps + [Do(order, caught)])
  {
    OrdersGrow(steps, Do(order, caught));
    PlaceIsPosition(order);
    assert ORDERS[..p.orders + 1] == ORDERS[..p.orders] + [order];
  }

  lemma StepLogsOrders<M, R, F, G, E, X>(
      strategy: Strategy<M, R, F, G, E, X>, d: Defaults<M, R, F, G, E>, p: Pipeline<M, R, F, G, E, X>,
      steps: seq<Step<M, R, F, G, E>>, step: Step<M, R, F, G, E>)
    requires Enabled(p, step) && LogsOrders(p, steps)
    ensures LogsOrders(Apply(strategy, d, p, step), steps + [step])
  {
    if step.Do? {
      OrderLogs(strategy, d, p, steps, step.order, step.caught);
    } else {
      OtherStepsLogOrders(strategy, d, p, steps, step);
    }
  }

  /** The state follows the orders as the steps give them. */
  lemma {:induction false} RunLogsOrders<M, R, F, G, E, X>(strategy: Strategy<M, R, F, G, E, X>,
      d: Defaults<M, R, F, G, E>, p: Pipeline<M, R, F, G, E, X>, before: seq<Step<M, R, F, G, E>>,
      steps: seq<Step<M, R, F, G, E>>, all: seq<Step<M, R, F, G, E>>)
    requires EnabledRun(strategy, d, p, steps) && LogsOrders(p, before) && all == before + steps
    ensures LogsOrders(Run(strategy, d, p, steps), all)
    decreases |steps|
  {
    if steps == [] {
      assert all == before;
    } else {
      StepLogsOrders(strategy, d, p, before, steps[0]);
      assert all == before + [steps[0]] + steps[1..];
      RunLogsOrders(strategy, d, Apply(strategy, d, p, steps[0]), before + [steps[0]], steps[1..], all);
    }
  }

  /** Nothing has been ordered, ended or fetched. */
  ghost predicate Fresh<M, R, F, G, E, X>(p: Pipeline<M, R, F, G, E, X>) {
    p.orders == 0 && p.ended == {} && p.atTop && p.fetchedMessages == [] && p.fetchedRawData == []
  }

  lemma FreshLogs<M, R, F, G, E, X>(p: Pipeline<M, R, F, G, E, X>, none: seq<Step<M, R, F, G, E>>)
    requires Fresh(p) && none == []
    ensures LogsOrders(p, none)
  {
  }

  lemma FollowsOrders<M, R, F, G, E, X>(strategy: Strategy<M, R, F, G, E, X>, d: Defaults<M, R, F, G, E>,
      start: Pipeline<M, R, F, G, E, X>, none: seq<Step<M, R, F, G, E>>, steps: seq<Step<M, R, F, G, E>>)
    requires EnabledRun(strategy, d, start, steps) && Fresh(start) && none == []
    ensures Given(steps) <= ORDERS && Run(strategy, d, start, steps).orders == |Given(steps)|
    ensures LogsOrders(Run(strategy, d, start, steps), steps)
  {
    FreshLogs(start, none);
    RunLogsOrders(strategy, d, start, none, steps, steps);
    CountsItsOrders(Run(strategy, d, start, steps), steps);
  }

  lemma CountsItsOrders<M, R, F, G, E, X>(p: Pipeline<M, R, F, G, E, X>, steps: seq<Step<M, R, F, G, E>>)
    requires LogsOrders(p, steps)
    ensures Given(steps) <= ORDERS && p.orders == |Given(steps)|
  {
  }

  /** The orders given are the beginning of the list of orders, and the state counts them. */
  lemma RunFollowsOrders<M, R, F, G, E, X>(strategy: Strategy<M, R, F, G, E, X>, d: Defaults<M, R, F, G, E>,
      steps: seq<Step<M, R, F, G, E>>)
    requires EnabledRun(strategy, d, Start(strategy, d), steps)
    ensures Given(steps) <= ORDERS && Run(strategy, d, Start(strategy, d), steps).orders == |Given(steps)|
    ensures LogsOrders(Run(strategy, d, Start(strategy, d), steps), steps)
  {
    FollowsOrders(strategy, d, Start(strategy, d), [], steps);
  }

  // ---------------------------------------------------------------------------------------------
  // What comes out

  /** At any time, in any run: what the translator was handed is a beginning of the messages fetched, the default
      ones dropped; what the server communicator was handed is a beginning of what the translation makes of that;
      the same for the raw data; and the errors handled are, thread by thread, a beginning of those raised. */
  lemma NothingIsInvented<M, R, F, G, E, X>(
      strategy: Strategy<M, R, F, G, E, X>, d: Defaults<M, R, F, G, E>, steps: seq<Step<M, R, F, G, E>>, t: Thread,
      b: Source)
    requires EnabledRun(strategy, d, Start(strategy, d), steps)
    ensures Consumed(steps) <= SC.NonDefault(Fetched(steps), d.message)
    ensures Sent(steps) <= Translated(strategy, Consumed(steps)).1
    ensures ConsumedRawData(steps) <= SC.NonDefault(FetchedRawData(steps), d.rawData)
    ensures SentRawData(steps) <= TranslatedRawData(strategy, ConsumedRawData(steps))
    ensures By(Handled(steps, b), t) <= ErrorsRaised(strategy, Consumed(steps), ConsumedRawData(steps), steps, t, b)
  {
    RunBrings(strategy, d, steps, t, b);
    RunIsSound(strategy, d, steps);
    StateInventsNothing(strategy, d, Run(strategy, d, Start(strategy, d), steps), t, b);
  }

  lemma RunIsSound<M, R, F, G, E, X>(strategy: Strategy<M, R, F, G, E, X>, d: Defaults<M, R, F, G, E>,
                                     steps: seq<Step<M, R, F, G, E>>)
    requires EnabledRun(strategy, d, Start(strategy, d), steps)
    ensures Invariant(strategy, d, Run(strategy, d, Start(strategy, d), steps))
  {
    StartHolds(strategy, d);
    RunKeeps(strategy, d, Start(strategy, d), steps);
  }

  lemma StateInventsNothing<M, R, F, G, E, X>(
      strategy: Strategy<M, R, F, G, E, X>, d: Defaults<M, R, F, G, E>, p: Pipeline<M, R, F, G, E, X>, t: Thread,
      b: Source)
    requires Data(strategy, d, p)
    ensures Taken(p.sensorMessages, Only.Only) <= SC.NonDefault(p.fetchedMessages, d.message)
    ensures Taken(p.serverMessages, Only.Only) <= Translated(strategy, Taken(p.sensorMessages, Only.Only)).1
    ensures Taken(p.sensorRawData, Only.Only) <= SC.NonDefault(p.fetchedRawData, d.rawData)
    ensures Taken(p.serverRawData, Only.Only) <= TranslatedRawData(strategy, Taken(p.sensorRawData, Only.Only))
    ensures By(Taken(p.errors, b), t) <= At(p.raised, t, b)
  {
    FedIsPrefix(p.sensorMessages, SC.NonDefault(p.fetchedMessages, d.message), p.messages, d.message);
    FedIsPrefix(p.sensorRawData, SC.NonDefault(p.fetchedRawData, d.rawData), p.rawData, d.rawData);
    FedIsPrefix(p.serverMessages, Translated(strategy, Taken(p.sensorMessages, Only.Only)).1, p.frames, d.frame);
    FedIsPrefix(p.serverRawData, TranslatedRawData(strategy, Taken(p.sensorRawData, Only.Only)), p.rawFrames,
      d.rawFrame);
    HandledIsPrefix(p.errors, d.error, p.complaints, p.raised, t, b);
  }

  lemma HandledIsPrefix<E>(errors: Stage<Raised<E>, Source>, default: Raised<E>,
      complaints: map<(Thread, Source), seq<E>>, raised: map<(Thread, Source), seq<E>>, t: Thread, b: Source)
    requires Linked(errors, SOURCES, default) && AllPublished(errors.written, complaints, raised)
    ensures By(Taken(errors, b), t) <= At(raised, t, b)
  {
    assert b in SOURCES;
    TakenOfSource(errors, default, b);
    ByPrefix(Taken(errors, b), Written(errors, b), t);
    PublishedIsPrefix(errors.written, complaints, raised, t, b);
  }

  lemma TakenOfSource<E>(errors: Stage<Raised<E>, Source>, default: Raised<E>, b: Source)
    requires Linked(errors, SOURCES, default) && b in SOURCES
    ensures Taken(errors, b) <= Written(errors, b)
  {
    Engine.FitsInFull(errors, default, Only.Only, b);
  }

  lemma PublishedIsPrefix<E>(written: map<Source, seq<Raised<E>>>, complaints: map<(Thread, Source), seq<E>>,
                             raised: map<(Thread, Source), seq<E>>, t: Thread, b: Source)
    requires AllPublished(written, complaints, raised) && b in SOURCES
    ensures By(written[b], t) <= At(raised, t, b)
  {
    assert Published(written[b], At(complaints, t, b), At(raised, t, b), t);
  }

  lemma ByPrefix<E>(taken: seq<Raised<E>>, written: seq<Raised<E>>, t: Thread)
    requires taken <= written
    ensures By(taken, t) <= By(written, t)
  {
    assert written == taken + written[|taken|..];
    ByConcat(taken, written[|taken|..], t);
  }

  lemma {:induction false} ByConcat<E>(a: seq<Raised<E>>, b: seq<Raised<E>>, t: Thread)
    ensures By(a + b, t) == By(a, t) + By(b, t)
  {
    if b == [] {
      assert a + b == a;
    } else {
      var before, last := b[..|b| - 1], b[|b| - 1];
      assert b == before + [last] && a + b == (a + before) + [last];
      ByConcat(a, before, t);
      ByGrows(before, last, t);
      ByGrows(a + before, last, t);
    }
  }

  /** When terminateAndJoin has returned, whatever the interleaving: the server communicator has been handed
      exactly the translation of all the non-default messages and raw data ever fetched, in order, once each;
      and the error handler has been handed every error that any thread ever met or raised, those of one thread
      and source in the order in which they came. */
  lemma TerminationDrains<M, R, F, G, E, X>(
      strategy: Strategy<M, R, F, G, E, X>, d: Defaults<M, R, F, G, E>, steps: seq<Step<M, R, F, G, E>>, t: Thread,
      b: Source)
    requires EnabledRun(strategy, d, Start(strategy, d), steps) && Given(steps) == ORDERS
    ensures Sent(steps) == Translated(strategy, SC.NonDefault(Fetched(steps), d.message)).1
    ensures SentRawData(steps) == TranslatedRawData(strategy, SC.NonDefault(FetchedRawData(steps), d.rawData))
    ensures By(Handled(steps, b), t) == ErrorsRaised(strategy, SC.NonDefault(Fetched(steps), d.message),
      SC.NonDefault(FetchedRawData(steps), d.rawData), steps, t, b)
  {
    RunBrings(strategy, d, steps, t, b);
    RunIsSound(strategy, d, steps);
    RunFollowsOrders(strategy, d, steps);
    Drain(strategy, d, Run(strategy, d, Start(strategy, d), steps), t, b);
  }

  lemma TranslatorsRaiseTheirComplaints<M, R, F, G, E, X>(strategy: Strategy<M, R, F, G, E, X>, messages: seq<M>,
      rawData: seq<R>, steps: seq<Step<M, R, F, G, E>>)
    ensures ErrorsRaised(strategy, messages, rawData, steps, MessageTranslator, FromTranslator) ==
      Complaints(strategy, messages)
    ensures ErrorsRaised(strategy, messages, rawData, steps, RawDataTranslator, FromTranslator) ==
      RawDataComplaints(strategy, rawData)
  {
  }

  /** In particular the complaints of the translators have been handled, in order. */
  lemma ComplaintsAreHandled<M, R, F, G, E, X>(
      strategy: Strategy<M, R, F, G, E, X>, d: Defaults<M, R, F, G, E>, steps: seq<Step<M, R, F, G, E>>)
    requires EnabledRun(strategy, d, Start(strategy, d), steps) && Given(steps) == ORDERS
    ensures By(Handled(steps, FromTranslator), MessageTranslator) ==
      Complaints(strategy, SC.NonDefault(Fetched(steps), d.message))
    ensures By(Handled(steps, FromTranslator), RawDataTranslator) ==
      RawDataComplaints(strategy, SC.NonDefault(FetchedRawData(steps), d.rawData))
  {
    TerminationDrains(strategy, d, steps, MessageTranslator, FromTranslator);
    TerminationDrains(strategy, d, steps, RawDataTranslator, FromTranslator);
    TranslatorsRaiseTheirComplaints(strategy, SC.NonDefault(Fetched(steps), d.message),
      SC.NonDefault(FetchedRawData(steps), d.rawData), steps);
  }
}
