/** That the runs leave the outside free: whatever the sensor delivers and whatever fails, there is a run from the
    start to the end of terminateAndJoin in which just that happens.
  */
module PipelineInputs {
  import opened Stage
  import opened Pipeline
  import opened PipelineDrain
  import opened PipelineTermination
  import opened PipelineRuns

  /** A round of the sensor's thread: what its two fetches bring and the errors met in them. */
  datatype Round<M, R, E> = Round(batch: seq<M>, met: seq<E>, cycles: seq<R>, metAfter: seq<E>)

  /** What comes from outside: the data, the errors of the sensor's thread, and those of opening and closing the two
      connections. */
  datatype News<M, R, E> = News(messages: seq<M>, rawData: seq<R>, errors: seq<E>, sensorErrors: seq<E>,
                                serverErrors: seq<E>)

  function NewsOf<M, R, F, G, E>(steps: seq<Step<M, R, F, G, E>>): News<M, R, E> {
    News(Fetched(steps), FetchedRawData(steps), Met(steps, Sensor, FromSensor), Met(steps, Main, FromSensor),
         Met(steps, Main, FromServer))
  }

  function WithRound<M, R, E>(news: News<M, R, E>, round: Round<M, R, E>): News<M, R, E> {
    news.(messages := news.messages + round.batch, rawData := news.rawData + round.cycles,
          errors := news.errors + round.met + round.metAfter)
  }

  function WithRounds<M, R, E>(news: News<M, R, E>, rounds: seq<Round<M, R, E>>): News<M, R, E> {
    if rounds == [] then news else WithRound(WithRounds(news, rounds[..|rounds| - 1]), rounds[|rounds| - 1])
  }

  lemma SameNews<M, R, F, G, E>(steps: seq<Step<M, R, F, G, E>>, step: Step<M, R, F, G, E>)
    requires Finishing(step)
    ensures NewsOf(steps + [step]) == NewsOf(steps)
  {
    FetchesGrow(steps, step);
    ErrorsGrow(steps, step, Sensor, FromSensor);
    ErrorsGrow(steps, step, Main, FromSensor);
    ErrorsGrow(steps, step, Main, FromServer);
  }

  lemma {:induction false} FinishingBringsNoNews<M, R, F, G, E>(
      steps: seq<Step<M, R, F, G, E>>, more: seq<Step<M, R, F, G, E>>)
    requires AllFinishing(more)
    ensures NewsOf(steps + more) == NewsOf(steps)
    decreases |more|
  {
    if more == [] {
      assert steps + more == steps;
    } else {
      SameNews(steps, more[0]);
      FinishingBringsNoNews(steps + [more[0]], more[1..]);
      assert steps + [more[0]] + more[1..] == steps + more;
    }
  }

  lemma MessagesAreNews<M, R, F, G, E>(steps: seq<Step<M, R, F, G, E>>, batch: seq<M>, met: seq<E>)
    ensures var news := NewsOf(steps);
      NewsOf(steps + [FetchMessages(batch, met)]) == news.(messages := news.messages + batch,
                                                           errors := news.errors + met)
  {
    var step := Step<M, R, F, G, E>.FetchMessages(batch, met);
    FetchesGrow(steps, step);
    ErrorsGrow(steps, step, Sensor, FromSensor);
    ErrorsGrow(steps, step, Main, FromSensor);
    ErrorsGrow(steps, step, Main, FromServer);
  }

  lemma RawDataAreNews<M, R, F, G, E>(steps: seq<Step<M, R, F, G, E>>, cycles: seq<R>, met: seq<E>)
    ensures var news := NewsOf(steps);
      NewsOf(steps + [FetchRawData(cycles, met)]) == news.(rawData := news.rawData + cycles,
                                                           errors := news.errors + met)
  {
    var step := Step<M, R, F, G, E>.FetchRawData(cycles, met);
    FetchesGrow(steps, step);
    ErrorsGrow(steps, step, Sensor, FromSensor);
    ErrorsGrow(steps, step, Main, FromSensor);
    ErrorsGrow(steps, step, Main, FromServer);
  }

  /** The errors of an order that opens or closes a connection; the other orders meet none. */
  function WithOrder<M, R, E>(news: News<M, R, E>, order: Order, met: seq<E>): News<M, R, E> {
    if order == OpenSensor || order == CloseSensor then news.(sensorErrors := news.sensorErrors + met)
    else if order == OpenServer || order == CloseServer then news.(serverErrors := news.serverErrors + met)
    else news
  }

  lemma OrdersAreNews<M, R, F, G, E>(steps: seq<Step<M, R, F, G, E>>, order: Order, met: seq<E>)
    requires order.OpenServer? || order.OpenSensor? || order.CloseSensor? || order.CloseServer?
    ensures NewsOf(steps + [Do(order, met)]) == WithOrder(NewsOf(steps), order, met)
  {
    var step := Step<M, R, F, G, E>.Do(order, met);
    FetchesGrow(steps, step);
    ErrorsGrow(steps, step, Sensor, FromSensor);
    ErrorsGrow(steps, step, Main, FromSensor);
    ErrorsGrow(steps, step, Main, FromServer);
  }

  // ---------------------------------------------------------------------------------------------
  // Building a run

  ghost predicate Leads<M, R, F, G, E, X>(strategy: Strategy<M, R, F, G, E, X>, d: Defaults<M, R, F, G, E>,
      start: Pipeline<M, R, F, G, E, X>, steps: seq<Step<M, R, F, G, E>>, p: Pipeline<M, R, F, G, E, X>)
  {
    EnabledRun(strategy, d, start, steps) && Run(strategy, d, start, steps) == p && Invariant(strategy, d, p)
  }

  lemma Takes<M, R, F, G, E, X>(strategy: Strategy<M, R, F, G, E, X>, d: Defaults<M, R, F, G, E>,
      start: Pipeline<M, R, F, G, E, X>, steps: seq<Step<M, R, F, G, E>>, p: Pipeline<M, R, F, G, E, X>,
      step: Step<M, R, F, G, E>)
    requires Leads(strategy, d, start, steps, p) && Enabled(p, step)
    ensures Leads(strategy, d, start, steps + [step], Apply(strategy, d, p, step))
  {
    RunEndsWith(strategy, d, start, steps, [step]);
    OneStep(strategy, d, p, step);
    KeepsData(strategy, d, p, step);
    KeepsShutdown(strategy, d, p, step);
  }

  lemma TakesAll<M, R, F, G, E, X>(strategy: Strategy<M, R, F, G, E, X>, d: Defaults<M, R, F, G, E>,
      start: Pipeline<M, R, F, G, E, X>, steps: seq<Step<M, R, F, G, E>>, p: Pipeline<M, R, F, G, E, X>,
      more: seq<Step<M, R, F, G, E>>)
    requires Leads(strategy, d, start, steps, p) && EnabledRun(strategy, d, p, more)
    ensures Leads(strategy, d, start, steps + more, Run(strategy, d, p, more))
  {
    RunEndsWith(strategy, d, start, steps, more);
    RunKeeps(strategy, d, p, more);
  }

  lemma Settles<M, R, F, G, E, X>(strategy: Strategy<M, R, F, G, E, X>, d: Defaults<M, R, F, G, E>,
      start: Pipeline<M, R, F, G, E, X>, steps: seq<Step<M, R, F, G, E>>, p: Pipeline<M, R, F, G, E, X>)
      returns (longer: seq<Step<M, R, F, G, E>>, q: Pipeline<M, R, F, G, E, X>)
    requires Leads(strategy, d, start, steps, p)
    ensures Leads(strategy, d, start, longer, q) && NewsOf(longer) == NewsOf(steps)
    ensures Settled(q) && q.orders == p.orders && q.ended == p.ended && q.atTop == p.atTop
  {
    var more := CanSettle(strategy, d, p);
    TakesAll(strategy, d, start, steps, p, more);
    FinishingBringsNoNews(steps, more);
    longer, q := steps + more, Run(strategy, d, p, more);
  }

  lemma Reaches<M, R, F, G, E, X>(strategy: Strategy<M, R, F, G, E, X>, d: Defaults<M, R, F, G, E>,
      start: Pipeline<M, R, F, G, E, X>, steps: seq<Step<M, R, F, G, E>>, p: Pipeline<M, R, F, G, E, X>, orders: nat)
      returns (longer: seq<Step<M, R, F, G, E>>, q: Pipeline<M, R, F, G, E, X>)
    requires Leads(strategy, d, start, steps, p) && p.orders <= orders <= DONE
    ensures Leads(strategy, d, start, longer, q) && NewsOf(longer) == NewsOf(steps) && q.orders == orders
  {
    var more := CanReach(strategy, d, p, orders);
    TakesAll(strategy, d, start, steps, p, more);
    FinishingBringsNoNews(steps, more);
    longer, q := steps + more, Run(strategy, d, p, more);
  }

  lemma OrderCanBeGiven<M, R, F, G, E, X>(strategy: Strategy<M, R, F, G, E, X>, d: Defaults<M, R, F, G, E>,
      p: Pipeline<M, R, F, G, E, X>, order: Order, met: seq<E>)
    requires Settled(p) && p.orders == Place(order)
    requires order.OpenServer? || order.OpenSensor? || order.CloseSensor? || order.CloseServer?
    ensures var step := Step<M, R, F, G, E>.Do(order, met);
      && Enabled(p, step)
      && (var q := Apply(strategy, d, p, step);
          q.orders == p.orders + 1 && q.ended == p.ended && q.atTop == p.atTop)
  {
  }

  /** The next order, with any errors if it is about a connection; and what is under way settles. */
  lemma Carries<M, R, F, G, E, X>(strategy: Strategy<M, R, F, G, E, X>, d: Defaults<M, R, F, G, E>,
      start: Pipeline<M, R, F, G, E, X>, steps: seq<Step<M, R, F, G, E>>, p: Pipeline<M, R, F, G, E, X>,
      order: Order, met: seq<E>)
      returns (longer: seq<Step<M, R, F, G, E>>, q: Pipeline<M, R, F, G, E, X>)
    requires Leads(strategy, d, start, steps, p) && Settled(p) && p.orders == Place(order)
    requires order.OpenServer? || order.OpenSensor? || order.CloseSensor? || order.CloseServer?
    ensures Leads(strategy, d, start, longer, q) && NewsOf(longer) == WithOrder(NewsOf(steps), order, met)
    ensures Settled(q) && q.orders == p.orders + 1 && (Sensor in q.ended <==> Sensor in p.ended) && q.atTop == p.atTop
  {
    OrderCanBeGiven(strategy, d, p, order, met);
    OrdersAreNews(steps, order, met);
    longer, q := TakesAndSettles(strategy, d, start, steps, p, Do(order, met));
  }

  lemma TakesAndSettles<M, R, F, G, E, X>(strategy: Strategy<M, R, F, G, E, X>, d: Defaults<M, R, F, G, E>,
      start: Pipeline<M, R, F, G, E, X>, steps: seq<Step<M, R, F, G, E>>, p: Pipeline<M, R, F, G, E, X>,
      step: Step<M, R, F, G, E>)
      returns (longer: seq<Step<M, R, F, G, E>>, q: Pipeline<M, R, F, G, E, X>)
    requires Leads(strategy, d, start, steps, p) && Enabled(p, step)
    ensures Leads(strategy, d, start, longer, q) && NewsOf(longer) == NewsOf(steps + [step]) && Settled(q)
    ensures var p' := Apply(strategy, d, p, step);
      q.orders == p'.orders && q.ended == p'.ended && q.atTop == p'.atTop
  {
    Takes(strategy, d, start, steps, p, step);
    longer, q := Settles(strategy, d, start, steps + [step], Apply(strategy, d, p, step));
  }

  lemma FetchCanBeTaken<M, R, F, G, E, X>(strategy: Strategy<M, R, F, G, E, X>, d: Defaults<M, R, F, G, E>,
      p: Pipeline<M, R, F, G, E, X>, step: Step<M, R, F, G, E>)
    requires Settled(p) && p.orders == 3 && Sensor !in p.ended
    requires if p.atTop then step.FetchMessages? else step.FetchRawData?
    ensures Enabled(p, step)
    ensures var q := Apply(strategy, d, p, step); q.orders == 3 && Sensor !in q.ended && q.atTop == !p.atTop
  {
  }

  lemma Fetches<M, R, F, G, E, X>(strategy: Strategy<M, R, F, G, E, X>, d: Defaults<M, R, F, G, E>,
      start: Pipeline<M, R, F, G, E, X>, steps: seq<Step<M, R, F, G, E>>, p: Pipeline<M, R, F, G, E, X>,
      step: Step<M, R, F, G, E>)
      returns (longer: seq<Step<M, R, F, G, E>>, q: Pipeline<M, R, F, G, E, X>)
    requires Leads(strategy, d, start, steps, p) && Settled(p) && p.orders == 3 && Sensor !in p.ended
    requires if p.atTop then step.FetchMessages? else step.FetchRawData?
    ensures Leads(strategy, d, start, longer, q) && NewsOf(longer) == NewsOf(steps + [step])
    ensures Settled(q) && q.orders == 3 && Sensor !in q.ended && q.atTop == !p.atTop
  {
    FetchCanBeTaken(strategy, d, p, step);
    longer, q := TakesAndSettles(strategy, d, start, steps, p, step);
  }

  lemma RunsARound<M, R, F, G, E, X>(strategy: Strategy<M, R, F, G, E, X>, d: Defaults<M, R, F, G, E>,
      start: Pipeline<M, R, F, G, E, X>, steps: seq<Step<M, R, F, G, E>>, p: Pipeline<M, R, F, G, E, X>,
      round: Round<M, R, E>)
      returns (longer: seq<Step<M, R, F, G, E>>, q: Pipeline<M, R, F, G, E, X>)
    requires Leads(strategy, d, start, steps, p) && Settled(p) && p.orders == 3 && Sensor !in p.ended && p.atTop
    ensures Leads(strategy, d, start, longer, q) && NewsOf(longer) == WithRound(NewsOf(steps), round)
    ensures Settled(q) && q.orders == 3 && Sensor !in q.ended && q.atTop
  {
    var half, r := Fetches(strategy, d, start, steps, p, FetchMessages(round.batch, round.met));
    longer, q := Fetches(strategy, d, start, half, r, FetchRawData(round.cycles, round.metAfter));
    MessagesAreNews(steps, round.batch, round.met);
    RawDataAreNews(half, round.cycles, round.metAfter);
  }

  lemma {:induction false} RunsRounds<M, R, F, G, E, X>(strategy: Strategy<M, R, F, G, E, X>,
      d: Defaults<M, R, F, G, E>, start: Pipeline<M, R, F, G, E, X>, steps: seq<Step<M, R, F, G, E>>,
      p: Pipeline<M, R, F, G, E, X>, rounds: seq<Round<M, R, E>>)
      returns (longer: seq<Step<M, R, F, G, E>>, q: Pipeline<M, R, F, G, E, X>)
    requires Leads(strategy, d, start, steps, p) && Settled(p) && p.orders == 3 && Sensor !in p.ended && p.atTop
    ensures Leads(strategy, d, start, longer, q) && NewsOf(longer) == WithRounds(NewsOf(steps), rounds)
    ensures Settled(q) && q.orders == 3 && Sensor !in q.ended && q.atTop
    decreases |rounds|
  {
    if rounds == [] {
      longer, q := steps, p;
    } else {
      var first, r := RunsRounds(strategy, d, start, steps, p, rounds[..|rounds| - 1]);
      longer, q := RunsARound(strategy, d, start, first, r, rounds[|rounds| - 1]);
    }
  }

  /** The four times that the main thread opens or closes a connection, each with the errors it meets. */
  datatype Connections<E> = Connections(openServer: seq<E>, openSensor: seq<E>, closeSensor: seq<E>,
                                        closeServer: seq<E>)

  lemma RunsFrom<M, R, F, G, E, X>(strategy: Strategy<M, R, F, G, E, X>, d: Defaults<M, R, F, G, E>,
      start: Pipeline<M, R, F, G, E, X>, none: seq<Step<M, R, F, G, E>>, rounds: seq<Round<M, R, E>>,
      met: Connections<E>)
      returns (steps: seq<Step<M, R, F, G, E>>)
    requires Leads(strategy, d, start, none, start)
    requires Settled(start) && start.orders == 0 && Sensor !in start.ended && start.atTop
    ensures EnabledRun(strategy, d, start, steps) && Run(strategy, d, start, steps).orders == DONE
    ensures NewsOf(steps) == AllNews(NewsOf(none), rounds, met)
  {
    var p: Pipeline<M, R, F, G, E, X>;
    steps, p := Opens(strategy, d, start, none, met);
    steps, p := RunsRounds(strategy, d, start, steps, p, rounds);
    steps, p := Closes(strategy, d, start, steps, p, met);
  }

  function AllNews<M, R, E>(news: News<M, R, E>, rounds: seq<Round<M, R, E>>, met: Connections<E>): News<M, R, E> {
    var open := WithOrder(WithOrder(news, OpenServer, met.openServer), OpenSensor, met.openSensor);
    WithOrder(WithOrder(WithRounds(open, rounds), CloseSensor, met.closeSensor), CloseServer, met.closeServer)
  }

  lemma ConnectionPlaces()
    ensures Place(OpenServer) == 0 && Place(OpenSensor) == 1 && Place(CloseSensor) == 3 && Place(CloseServer) == 14
  {
  }

  lemma OpensServer<M, R, F, G, E, X>(strategy: Strategy<M, R, F, G, E, X>, d: Defaults<M, R, F, G, E>,
      start: Pipeline<M, R, F, G, E, X>, steps: seq<Step<M, R, F, G, E>>, p: Pipeline<M, R, F, G, E, X>,
      met: Connections<E>)
      returns (longer: seq<Step<M, R, F, G, E>>, q: Pipeline<M, R, F, G, E, X>)
    requires Leads(strategy, d, start, steps, p) && Settled(p) && p.orders == 0 && Sensor !in p.ended && p.atTop
    ensures Leads(strategy, d, start, longer, q)
    ensures NewsOf(longer) == WithOrder(NewsOf(steps), OpenServer, met.openServer)
    ensures Settled(q) && q.orders == 1 && Sensor !in q.ended && q.atTop
  {
    ConnectionPlaces();
    longer, q := Carries(strategy, d, start, steps, p, OpenServer, met.openServer);
  }

  lemma OpensSensor<M, R, F, G, E, X>(strategy: Strategy<M, R, F, G, E, X>, d: Defaults<M, R, F, G, E>,
      start: Pipeline<M, R, F, G, E, X>, steps: seq<Step<M, R, F, G, E>>, p: Pipeline<M, R, F, G, E, X>,
      met: Connections<E>)
      returns (longer: seq<Step<M, R, F, G, E>>, q: Pipeline<M, R, F, G, E, X>)
    requires Leads(strategy, d, start, steps, p) && Settled(p) && p.orders == 1 && Sensor !in p.ended && p.atTop
    ensures Leads(strategy, d, start, longer, q)
    ensures NewsOf(longer) == WithOrder(NewsOf(steps), OpenSensor, met.openSensor)
    ensures Settled(q) && q.orders == 2 && Sensor !in q.ended && q.atTop
  {
    ConnectionPlaces();
    longer, q := Carries(strategy, d, start, steps, p, OpenSensor, met.openSensor);
  }

  lemma Opens<M, R, F, G, E, X>(strategy: Strategy<M, R, F, G, E, X>, d: Defaults<M, R, F, G, E>,
      start: Pipeline<M, R, F, G, E, X>, none: seq<Step<M, R, F, G, E>>, met: Connections<E>)
      returns (steps: seq<Step<M, R, F, G, E>>, p: Pipeline<M, R, F, G, E, X>)
    requires Leads(strategy, d, start, none, start)
    requires Settled(start) && start.orders == 0 && Sensor !in start.ended && start.atTop
    ensures Leads(strategy, d, start, steps, p)
    ensures NewsOf(steps) == WithOrder(WithOrder(NewsOf(none), OpenServer, met.openServer), OpenSensor, met.openSensor)
    ensures Settled(p) && p.orders == 3 && Sensor !in p.ended && p.atTop
  {
    var first, q := OpensServer(strategy, d, start, none, start, met);
    var second, r := OpensSensor(strategy, d, start, first, q, met);
    steps, p := StartsSensor(strategy, d, start, second, r);
  }

  lemma SensorCanBeStarted<M, R, F, G, E, X>(strategy: Strategy<M, R, F, G, E, X>, d: Defaults<M, R, F, G, E>,
      p: Pipeline<M, R, F, G, E, X>, step: Step<M, R, F, G, E>)
    requires Settled(p) && p.orders == 2 && step == Do(StartSensor, [])
    ensures Enabled(p, step) && Finishing(step)
    ensures var q := Apply(strategy, d, p, step); q.orders == 3 && q.ended == p.ended && q.atTop == p.atTop
  {
  }

  lemma StartsSensor<M, R, F, G, E, X>(strategy: Strategy<M, R, F, G, E, X>, d: Defaults<M, R, F, G, E>,
      start: Pipeline<M, R, F, G, E, X>, steps: seq<Step<M, R, F, G, E>>, p: Pipeline<M, R, F, G, E, X>)
      returns (longer: seq<Step<M, R, F, G, E>>, q: Pipeline<M, R, F, G, E, X>)
    requires Leads(strategy, d, start, steps, p) && Settled(p) && p.orders == 2
    ensures Leads(strategy, d, start, longer, q) && NewsOf(longer) == NewsOf(steps)
    ensures Settled(q) && q.orders == 3 && (Sensor in q.ended <==> Sensor in p.ended) && q.atTop == p.atTop
  {
    var step := Step<M, R, F, G, E>.Do(StartSensor, []);
    SensorCanBeStarted(strategy, d, p, step);
    SameNews(steps, step);
    longer, q := TakesAndSettles(strategy, d, start, steps, p, step);
  }

  lemma ClosesSensor<M, R, F, G, E, X>(strategy: Strategy<M, R, F, G, E, X>, d: Defaults<M, R, F, G, E>,
      start: Pipeline<M, R, F, G, E, X>, steps: seq<Step<M, R, F, G, E>>, p: Pipeline<M, R, F, G, E, X>,
      met: Connections<E>)
      returns (longer: seq<Step<M, R, F, G, E>>, q: Pipeline<M, R, F, G, E, X>)
    requires Leads(strategy, d, start, steps, p) && Settled(p) && p.orders == 3
    ensures Leads(strategy, d, start, longer, q) && q.orders == 14
    ensures NewsOf(longer) == WithOrder(NewsOf(steps), CloseSensor, met.closeSensor)
  {
    ConnectionPlaces();
    var first, r := Carries(strategy, d, start, steps, p, CloseSensor, met.closeSensor);
    longer, q := Reaches(strategy, d, start, first, r, 14);
  }

  lemma ClosesServer<M, R, F, G, E, X>(strategy: Strategy<M, R, F, G, E, X>, d: Defaults<M, R, F, G, E>,
      start: Pipeline<M, R, F, G, E, X>, steps: seq<Step<M, R, F, G, E>>, p: Pipeline<M, R, F, G, E, X>,
      met: Connections<E>)
      returns (longer: seq<Step<M, R, F, G, E>>, q: Pipeline<M, R, F, G, E, X>)
    requires Leads(strategy, d, start, steps, p) && Settled(p) && p.orders == 14
    ensures Leads(strategy, d, start, longer, q) && q.orders == DONE
    ensures NewsOf(longer) == WithOrder(NewsOf(steps), CloseServer, met.closeServer)
  {
    ConnectionPlaces();
    var first, r := Carries(strategy, d, start, steps, p, CloseServer, met.closeServer);
    longer, q := Reaches(strategy, d, start, first, r, DONE);
  }

  lemma Closes<M, R, F, G, E, X>(strategy: Strategy<M, R, F, G, E, X>, d: Defaults<M, R, F, G, E>,
      start: Pipeline<M, R, F, G, E, X>, steps: seq<Step<M, R, F, G, E>>, p: Pipeline<M, R, F, G, E, X>,
      met: Connections<E>)
      returns (longer: seq<Step<M, R, F, G, E>>, end: Pipeline<M, R, F, G, E, X>)
    requires Leads(strategy, d, start, steps, p) && Settled(p) && p.orders == 3
    ensures Leads(strategy, d, start, longer, end) && end.orders == DONE
    ensures NewsOf(longer) ==
      WithOrder(WithOrder(NewsOf(steps), CloseSensor, met.closeSensor), CloseServer, met.closeServer)
  {
    var first, q := ClosesSensor(strategy, d, start, steps, p, met);
    var second, r := Settles(strategy, d, start, first, q);
    longer, end := ClosesServer(strategy, d, start, second, r, met);
  }

  lemma StartLeads<M, R, F, G, E, X>(strategy: Strategy<M, R, F, G, E, X>, d: Defaults<M, R, F, G, E>,
                                     none: seq<Step<M, R, F, G, E>>)
    requires none == []
    ensures Leads(strategy, d, Start(strategy, d), none, Start(strategy, d))
    ensures var p := Start(strategy, d); Settled(p) && p.orders == 0 && Sensor !in p.ended && p.atTop
  {
    StartHolds(strategy, d);
  }

  lemma SomeRunBrings<M, R, F, G, E, X>(strategy: Strategy<M, R, F, G, E, X>, d: Defaults<M, R, F, G, E>,
      none: seq<Step<M, R, F, G, E>>, rounds: seq<Round<M, R, E>>, met: Connections<E>)
      returns (steps: seq<Step<M, R, F, G, E>>)
    requires none == []
    ensures EnabledRun(strategy, d, Start(strategy, d), steps)
    ensures Run(strategy, d, Start(strategy, d), steps).orders == DONE
    ensures NewsOf(steps) == AllNews(NewsOf(none), rounds, met)
  {
    StartLeads(strategy, d, none);
    steps := RunsFrom(strategy, d, Start(strategy, d), none, rounds, met);
  }

  lemma {:induction false} RoundsAddUp<M, R, E>(news: News<M, R, E>, rounds: seq<Round<M, R, E>>)
    requires news.messages == [] && news.rawData == [] && news.errors == []
    ensures var after := WithRounds(news, rounds);
      && after.messages == Gathered(rounds, (r: Round<M, R, E>) => r.batch)
      && after.rawData == Gathered(rounds, (r: Round<M, R, E>) => r.cycles)
      && after.errors == Gathered(rounds, (r: Round<M, R, E>) => r.met + r.metAfter)
      && after.sensorErrors == news.sensorErrors && after.serverErrors == news.serverErrors
  {
    if rounds != [] { RoundsAddUp(news, rounds[..|rounds| - 1]); }
  }

  lemma NoNews<M, R, F, G, E>(none: seq<Step<M, R, F, G, E>>)
    requires none == []
    ensures NewsOf(none) == News([], [], [], [], [])
  {
  }

  /** Any rounds of fetches, with any errors, and any errors of the four connection orders: some run from the start
      to the end of terminateAndJoin brings just these. */
  lemma AnyInputCanCome<M, R, F, G, E, X>(strategy: Strategy<M, R, F, G, E, X>, d: Defaults<M, R, F, G, E>,
      rounds: seq<Round<M, R, E>>, met: Connections<E>)
      returns (steps: seq<Step<M, R, F, G, E>>)
    ensures EnabledRun(strategy, d, Start(strategy, d), steps) && Given(steps) == ORDERS
    ensures Fetched(steps) == Gathered(rounds, (r: Round<M, R, E>) => r.batch)
    ensures FetchedRawData(steps) == Gathered(rounds, (r: Round<M, R, E>) => r.cycles)
    ensures Met(steps, Sensor, FromSensor) == Gathered(rounds, (r: Round<M, R, E>) => r.met + r.metAfter)
    ensures Met(steps, Main, FromSensor) == met.openSensor + met.closeSensor
    ensures Met(steps, Main, FromServer) == met.openServer + met.closeServer
  {
    steps := SomeRunBrings(strategy, d, [], rounds, met);
    RunFollowsOrders(strategy, d, steps);
    NoNews<M, R, F, G, E>([]);
    RoundsAddUp(News([], [], [], met.openSensor, met.openServer), rounds);
    NewsAddUp(rounds, met);
  }

  lemma NewsAddUp<M, R, E>(rounds: seq<Round<M, R, E>>, met: Connections<E>)
    ensures var news: News<M, R, E> := News([], [], [], [], []);
      AllNews(news, rounds, met) ==
        WithRounds(news.(sensorErrors := met.openSensor, serverErrors := met.openServer), rounds).(
          sensorErrors := met.openSensor + met.closeSensor, serverErrors := met.openServer + met.closeServer)
  {
    var news: News<M, R, E> := News([], [], [], [], []);
    assert [] + met.openSensor == met.openSensor && [] + met.openServer == met.openServer;
    RoundsAddUp(news.(sensorErrors := met.openSensor, serverErrors := met.openServer), rounds);
  }

  /** Which errors a step meets does not decide whether it can be taken: neither a fetch nor a sending nor the
      opening or closing of a connection. */
  lemma AnyErrorsCanBeMet<M, R, F, G, E, X>(p: Pipeline<M, R, F, G, E, X>, batch: seq<M>, cycles: seq<R>, f: F, g: G,
                                            order: Order, met: seq<E>)
    requires order.OpenServer? || order.OpenSensor? || order.CloseSensor? || order.CloseServer?
    ensures Enabled(p, FetchMessages(batch, met)) <==> Enabled(p, FetchMessages([], []))
    ensures Enabled(p, FetchRawData(cycles, met)) <==> Enabled(p, FetchRawData([], []))
    ensures Enabled(p, Send(f, met)) <==> Enabled(p, Send(f, []))
    ensures Enabled(p, SendRawData(g, met)) <==> Enabled(p, SendRawData(g, []))
    ensures Enabled(p, Do(order, met)) <==> Enabled(p, Do(order, []))
  {
  }
}
