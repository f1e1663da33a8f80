/** What comes before what in every run of the pipeline: each step is taken by a thread that still runs, after the
    orders it needs and before those that exclude it.
  */
module PipelineOrder {
  import opened Stage
  import opened Pipeline
  import opened PipelineDrain
  import opened PipelineRuns
  import SC = SensorCommunicator

  /** The thread that takes the step. */
  function Actor<M, R, F, G, E>(step: Step<M, R, F, G, E>): Thread {
    match step
    case FetchMessages(_, _) => Sensor
    case FetchRawData(_, _) => Sensor
    case EmitMessage => Sensor
    case EmitRawData => Sensor
    case Translate(_) => MessageTranslator
    case EmitFrame => MessageTranslator
    case TranslateRawData(_) => RawDataTranslator
    case EmitRawFrame => RawDataTranslator
    case Send(_, _) => MessageServer
    case SendRawData(_, _) => RawDataServer
    case HandleError(_, _) => ErrorHandler
    case EmitError(t, _) => t
    case End(t) => t
    case Do(_, _) => Main
  }

  /** The thread that reads what the step writes. */
  function ReaderOf<M, R, F, G, E>(step: Step<M, R, F, G, E>): Thread {
    match step
    case EmitMessage => MessageTranslator
    case EmitRawData => RawDataTranslator
    case EmitFrame => MessageServer
    case EmitRawFrame => RawDataServer
    case EmitError(_, _) => ErrorHandler
    case _ => Main
  }

  /** The orders given so far and the threads ended so far allow the step. */
  predicate InOrder<M, R, F, G, E>(given: seq<Order>, ended: seq<Thread>, betweenRounds: bool,
                                   step: Step<M, R, F, G, E>)
  {
    && Actor(step) !in ended && ReaderOf(step) !in ended
    && match step
       case FetchMessages(_, _) => StartSensor in given && OrderSensor !in given && betweenRounds
       case FetchRawData(_, _) => StartSensor in given && JoinSensor !in given && !betweenRounds
       case Send(_, _) => OpenServer in given && StartSensor in given && CloseServer !in given
       case SendRawData(_, _) => OpenServer in given && StartSensor in given && CloseServer !in given
       case End(t) => if t == Sensor then OrderSensor in given && betweenRounds else Stop(t) in given
       case Do(order, _) =>
         && given + [order] <= ORDERS
         && (order.JoinSensor? ==> Sensor in ended)
         && (order.Join? ==> order.t in ended)
         && (order.OrderSensor? ==> OpenServer in given && OpenSensor in given && CloseSensor in given)
         && (order.CloseServer? ==> MessageServer in ended && RawDataServer in ended)
       case _ => true
  }

  // ---------------------------------------------------------------------------------------------
  // In every state that can be reached

  lemma ActorRuns<M, R, F, G, E, X>(p: Pipeline<M, R, F, G, E, X>, step: Step<M, R, F, G, E>)
    requires Shutdown(p) && Enabled(p, step)
    ensures Actor(step) !in p.ended
  {
    match step
    case EmitMessage => assert !Idle(p, Sensor);
    case EmitRawData => assert !Idle(p, Sensor);
    case EmitFrame => assert !Idle(p, MessageTranslator);
    case EmitRawFrame => assert !Idle(p, RawDataTranslator);
    case EmitError(t, b) => BusyRuns(p, t);
    case _ =>
  }

  lemma ReaderRuns<M, R, F, G, E, X>(p: Pipeline<M, R, F, G, E, X>, step: Step<M, R, F, G, E>)
    requires Shutdown(p) && Enabled(p, step)
    ensures ReaderOf(step) !in p.ended
  {
    ReadersRun(p);
    match step
    case EmitError(t, b) => assert !Silent(p.complaints, t);
    case _ =>
  }

  lemma NothingMade<T>(stage: Stage<T, Only>, made: seq<T>, waiting: seq<T>, default: T)
    requires Fed(stage, made, waiting, default) && made == []
    ensures Taken(stage, Only.Only) == []
  {
    FedIsPrefix(stage, made, waiting, default);
  }

  lemma NothingToHand<T>(stage: Stage<T, Only>, made: seq<T>, waiting: seq<T>, default: T, data: T)
    requires Fed(stage, made, waiting, default) && Hands(stage, Only.Only, data)
    ensures made != []
  {
    Serves(stage, {Only.Only}, default, Only.Only, data);
  }

  /** What is sent was fetched. */
  lemma SendingMeansFetched<M, R, F, G, E, X>(
      strategy: Strategy<M, R, F, G, E, X>, d: Defaults<M, R, F, G, E>, p: Pipeline<M, R, F, G, E, X>, f: F)
    requires Data(strategy, d, p) && Hands(p.serverMessages, Only.Only, f)
    ensures p.fetchedMessages != []
  {
    NothingToHand(p.serverMessages, Translated(strategy, Taken(p.sensorMessages, Only.Only)).1, p.frames, d.frame, f);
    if SC.NonDefault(p.fetchedMessages, d.message) == [] {
      NothingMade(p.sensorMessages, SC.NonDefault(p.fetchedMessages, d.message), p.messages, d.message);
    }
  }

  lemma SendingRawMeansFetched<M, R, F, G, E, X>(
      strategy: Strategy<M, R, F, G, E, X>, d: Defaults<M, R, F, G, E>, p: Pipeline<M, R, F, G, E, X>, g: G)
    requires Data(strategy, d, p) && Hands(p.serverRawData, Only.Only, g)
    ensures p.fetchedRawData != []
  {
    NothingToHand(p.serverRawData, TranslatedRawData(strategy, Taken(p.sensorRawData, Only.Only)), p.rawFrames,
      d.rawFrame, g);
    if SC.NonDefault(p.fetchedRawData, d.rawData) == [] {
      NothingMade(p.sensorRawData, SC.NonDefault(p.fetchedRawData, d.rawData), p.rawData, d.rawData);
    }
  }

  /** A thread whose loop test fails was told to end. */
  lemma EndingMeansStopped<M, R, F, G, E, X>(
      strategy: Strategy<M, R, F, G, E, X>, d: Defaults<M, R, F, G, E>, p: Pipeline<M, R, F, G, E, X>, t: Thread)
    requires Invariant(strategy, d, p) && Enabled(p, Step<M, R, F, G, E>.End(t))
    ensures t != Main && p.orders > (if t == Sensor then Place(OrderSensor) else PlaceOfStop(t))
    ensures t !in p.ended && Main !in p.ended && (t == Sensor ==> p.atTop)
  {
    EndsDrained(strategy, d, p, t);
  }

  /** When the server's connection may be closed, its two threads have ended, and with them all that feed them. */
  lemma ServerThreadsHaveEnded<M, R, F, G, E, X>(p: Pipeline<M, R, F, G, E, X>, caught: seq<E>)
    requires Shutdown(p) && Enabled(p, Step<M, R, F, G, E>.Do(CloseServer, caught))
    ensures MessageServer in p.ended && RawDataServer in p.ended
    ensures p.messages == [] && p.rawData == [] && p.frames == [] && p.rawFrames == []
    ensures Taken(p.sensorMessages, Only.Only) == Written(p.sensorMessages, Only.Only)
    ensures Taken(p.sensorRawData, Only.Only) == Written(p.sensorRawData, Only.Only)
    ensures Taken(p.serverMessages, Only.Only) == Written(p.serverMessages, Only.Only)
    ensures Taken(p.serverRawData, Only.Only) == Written(p.serverRawData, Only.Only)
  {
    ReadersRun(p);
  }

  /** Nothing is left to be sent then. */
  lemma ServerClosesDrained<M, R, F, G, E, X>(
      strategy: Strategy<M, R, F, G, E, X>, d: Defaults<M, R, F, G, E>, p: Pipeline<M, R, F, G, E, X>, caught: seq<E>)
    requires Invariant(strategy, d, p) && Enabled(p, Step<M, R, F, G, E>.Do(CloseServer, caught))
    ensures Taken(p.serverMessages, Only.Only) == Translated(strategy, SC.NonDefault(p.fetchedMessages, d.message)).1
    ensures Taken(p.serverRawData, Only.Only) == TranslatedRawData(strategy, SC.NonDefault(p.fetchedRawData, d.rawData))
  {
    ServerThreadsHaveEnded(p, caught);
    FedInFull(p.sensorMessages, SC.NonDefault(p.fetchedMessages, d.message), p.messages, d.message);
    FedInFull(p.sensorRawData, SC.NonDefault(p.fetchedRawData, d.rawData), p.rawData, d.rawData);
    FedInFull(p.serverMessages, Translated(strategy, Taken(p.sensorMessages, Only.Only)).1, p.frames, d.frame);
    FedInFull(p.serverRawData, TranslatedRawData(strategy, Taken(p.sensorRawData, Only.Only)), p.rawFrames, d.rawFrame);
  }

  /** The same as InOrder, of a state that counts its orders. */
  predicate Timely<M, R, F, G, E>(orders: int, ended: set<Thread>, atTop: bool, step: Step<M, R, F, G, E>) {
    && Actor(step) !in ended && ReaderOf(step) !in ended
    && match step
       case FetchMessages(_, _) => 2 < orders <= 4 && atTop
       case FetchRawData(_, _) => 2 < orders <= 5 && !atTop
       case Send(_, _) => 2 < orders <= 14
       case SendRawData(_, _) => 2 < orders <= 14
       case End(t) => if t == Sensor then 4 < orders && atTop else 0 <= PlaceOfStop(t) < orders
       case Do(order, _) =>
         && 0 <= orders == Place(order)
         && (order.JoinSensor? ==> Sensor in ended)
         && (order.Join? ==> order.t in ended)
         && (order.CloseServer? ==> MessageServer in ended && RawDataServer in ended)
       case _ => true
  }

  /** A scheduler's thread that runs has not been joined. */
  lemma RunningMeansNotJoined<M, R, F, G, E, X>(p: Pipeline<M, R, F, G, E, X>)
    requires Shutdown(p)
    ensures Sensor !in p.ended ==> p.orders <= 5
    ensures MessageServer !in p.ended || RawDataServer !in p.ended ==> p.orders <= 13
  {
  }

  lemma FetchIsTimely<M, R, F, G, E, X>(p: Pipeline<M, R, F, G, E, X>, step: Step<M, R, F, G, E>)
    requires Shutdown(p) && Enabled(p, step) && (step.FetchMessages? || step.FetchRawData?)
    requires p.orders <= 2 ==> p.atTop
    ensures Timely(p.orders, p.ended, p.atTop, step)
  {
    RunningMeansNotJoined(p);
    ActorRuns(p, step);
    ReaderRuns(p, step);
  }

  lemma SendIsTimely<M, R, F, G, E, X>(
      strategy: Strategy<M, R, F, G, E, X>, d: Defaults<M, R, F, G, E>, p: Pipeline<M, R, F, G, E, X>,
      step: Step<M, R, F, G, E>)
    requires Invariant(strategy, d, p) && Enabled(p, step) && (step.Send? || step.SendRawData?)
    requires p.orders <= 2 ==> p.fetchedMessages == [] && p.fetchedRawData == []
    ensures Timely(p.orders, p.ended, p.atTop, step)
  {
    RunningMeansNotJoined(p);
    ReaderRuns(p, step);
    match step
    case Send(f, _) => SendingMeansFetched(strategy, d, p, f);
    case SendRawData(g, _) => SendingRawMeansFetched(strategy, d, p, g);
  }

  lemma EndIsTimely<M, R, F, G, E>(orders: int, ended: set<Thread>, atTop: bool, t: Thread)
    requires t != Main && orders > (if t == Sensor then Place(OrderSensor) else PlaceOfStop(t))
    requires t !in ended && Main !in ended && (t == Sensor ==> atTop)
    ensures Timely(orders, ended, atTop, Step<M, R, F, G, E>.End(t))
  {
  }

  lemma OrderIsTimely<M, R, F, G, E, X>(p: Pipeline<M, R, F, G, E, X>, step: Step<M, R, F, G, E>)
    requires Shutdown(p) && Enabled(p, step) && step.Do?
    ensures Timely(p.orders, p.ended, p.atTop, step)
  {
    ReaderRuns(p, step);
    if step.order.CloseServer? { ServerThreadsHaveEnded(p, step.caught); }
  }

  lemma StateIsTimely<M, R, F, G, E, X>(
      strategy: Strategy<M, R, F, G, E, X>, d: Defaults<M, R, F, G, E>, p: Pipeline<M, R, F, G, E, X>,
      step: Step<M, R, F, G, E>)
    requires Invariant(strategy, d, p) && Enabled(p, step)
    requires p.orders <= 2 ==> p.atTop && p.fetchedMessages == [] && p.fetchedRawData == []
    ensures Timely(p.orders, p.ended, p.atTop, step)
  {
    if step.FetchMessages? || step.FetchRawData? {
      FetchIsTimely(p, step);
    } else if step.Send? || step.SendRawData? {
      SendIsTimely(strategy, d, p, step);
    } else if step.End? {
      EndingMeansStopped(strategy, d, p, step.thread);
      EndIsTimely<M, R, F, G, E>(p.orders, p.ended, p.atTop, step.thread);
    } else if step.Do? {
      OrderIsTimely(p, step);
    } else {
      ActorRuns(p, step);
      ReaderRuns(p, step);
    }
  }

  lemma TimelyMeansInOrder<M, R, F, G, E>(orders: int, ended: set<Thread>, atTop: bool, step: Step<M, R, F, G, E>,
      given: seq<Order>, threads: seq<Thread>)
    requires Timely(orders, ended, atTop, step) && 0 <= orders <= |ORDERS| && given == ORDERS[..orders]
    requires forall t :: t in ended <==> t in threads
    ensures InOrder(given, threads, atTop, step)
  {
    forall order ensures order in given <==> 0 <= Place(order) < orders {
      GivenUpTo(order, orders);
    }
    if step.Do? {
      PlaceIsPosition(step.order);
      assert ORDERS[..orders + 1] == given + [step.order];
    }
  }

  /** In every run, every step comes in its order: taken by a thread that has not ended, and writing for one that
      has not; fetching after the sensor's thread was started and before it is joined, messages and raw data in
      turn; sending after the server's connection was opened and before it is closed; ending after having been
      told to; the orders as they are listed, each join after the thread has ended, and the server's connection
      closed after both threads that send. */
  lemma StepsComeInOrder<M, R, F, G, E, X>(
      strategy: Strategy<M, R, F, G, E, X>, d: Defaults<M, R, F, G, E>, before: seq<Step<M, R, F, G, E>>,
      step: Step<M, R, F, G, E>)
    requires EnabledRun(strategy, d, Start(strategy, d), before + [step])
    ensures InOrder(Given(before), Ended(before), BetweenRounds(before), step)
  {
    var p := Before(strategy, d, before, step);
    RunIsSound(strategy, d, before);
    RunFollowsOrders(strategy, d, before);
    StateIsTimely(strategy, d, p, step);
    TimelyMeansInOrder(p.orders, p.ended, p.atTop, step, Given(before), Ended(before));
  }

  /** The state in which the last step is taken. */
  lemma Before<M, R, F, G, E, X>(
      strategy: Strategy<M, R, F, G, E, X>, d: Defaults<M, R, F, G, E>, before: seq<Step<M, R, F, G, E>>,
      step: Step<M, R, F, G, E>) returns (p: Pipeline<M, R, F, G, E, X>)
    requires EnabledRun(strategy, d, Start(strategy, d), before + [step])
    ensures EnabledRun(strategy, d, Start(strategy, d), before)
    ensures p == Run(strategy, d, Start(strategy, d), before) && Enabled(p, step)
  {
    RunEndsWith(strategy, d, Start(strategy, d), before, [step]);
    p := Run(strategy, d, Start(strategy, d), before);
    OneStep(strategy, d, p, step);
  }

  /** The server's connection is closed once everything that was fetched has been translated and sent. */
  lemma EverythingIsSentBeforeClosing<M, R, F, G, E, X>(
      strategy: Strategy<M, R, F, G, E, X>, d: Defaults<M, R, F, G, E>, before: seq<Step<M, R, F, G, E>>,
      caught: seq<E>)
    requires EnabledRun(strategy, d, Start(strategy, d), before + [Step<M, R, F, G, E>.Do(CloseServer, caught)])
    ensures Sent(before) == Translated(strategy, SC.NonDefault(Fetched(before), d.message)).1
    ensures SentRawData(before) == TranslatedRawData(strategy, SC.NonDefault(FetchedRawData(before), d.rawData))
  {
    var p := Before(strategy, d, before, Step<M, R, F, G, E>.Do(CloseServer, caught));
    RunBrings(strategy, d, before, Main, FromServer);
    RunIsSound(strategy, d, before);
    ServerClosesDrained(strategy, d, p, caught);
  }
}
