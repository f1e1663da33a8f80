/** SensorCommunicator as the object it is: it drives a strategy, filters what it fetches, publishes the
    errors it catches and reconnects. Its recursive recovery is proved to make exactly the calls of
    RecoverySpec and to publish exactly one error per failed call, in order.
  */
module SensorCommunicator {
  import opened Wrappers
  import opened Errors
  import Spec = RecoverySpec

  /** What a fetch yields: a batch, or an error. */
  datatype Fetch<D> = Fetched(batch: seq<D>) | Failed(error: Error)

  /** The sensor as the communicator sees it: scripted answers, and a log of the connection calls. */
  class Strategy<M, R> {
    var script: Spec.Script
    var messageScript: seq<Fetch<M>>
    var rawDataScript: seq<Fetch<R>>
    var calls: seq<Spec.Call>

    constructor (script: Spec.Script, messageScript: seq<Fetch<M>>, rawDataScript: seq<Fetch<R>>)
      ensures this.script == script && calls == []
      ensures this.messageScript == messageScript && this.rawDataScript == rawDataScript
    {
      this.script := script;
      this.messageScript := messageScript;
      this.rawDataScript := rawDataScript;
      calls := [];
    }

    method Connect(kind: Spec.Kind) returns (failure: Option<Error>)
      modifies this`script, this`calls
      ensures failure == Spec.Answer(old(script))
      ensures script == Spec.After(old(script), 1)
      ensures calls == old(calls) + [Spec.Call(kind, failure)]
    {
      failure := if script == [] then None else script[0];
      script := if script == [] then [] else script[1..];
      calls := calls + [Spec.Call(kind, failure)];
    }

    method FetchMessages() returns (fetch: Fetch<M>)
      modifies this`messageScript
      ensures fetch == NextFetch(old(messageScript)) && messageScript == RestFetches(old(messageScript))
    {
      fetch := NextFetch(messageScript);
      messageScript := RestFetches(messageScript);
    }

    method FetchRawDataCycles() returns (fetch: Fetch<R>)
      modifies this`rawDataScript
      ensures fetch == NextFetch(old(rawDataScript)) && rawDataScript == RestFetches(old(rawDataScript))
    {
      fetch := NextFetch(rawDataScript);
      rawDataScript := RestFetches(rawDataScript);
    }
  }

  /** A strategy whose script has ended has nothing to fetch. */
  function NextFetch<D>(script: seq<Fetch<D>>): Fetch<D> {
    if script == [] then Fetched([]) else script[0]
  }

  function RestFetches<D>(script: seq<Fetch<D>>): seq<Fetch<D>> {
    if script == [] then [] else script[1..]
  }

  /** The data of a batch that are worth producing. */
  function NonDefault<D(==)>(batch: seq<D>, default: D): seq<D> {
    if batch == [] then []
    else (if batch[0] != default then [batch[0]] else []) + NonDefault(batch[1..], default)
  }

  lemma {:induction false} NonDefaultAppend<D>(batch: seq<D>, d: D, default: D)
    ensures NonDefault(batch + [d], default) == NonDefault(batch, default) + (if d != default then [d] else [])
  {
    if batch == [] {
      assert [d][1..] == [];
    } else {
      NonDefaultAppend(batch[1..], d, default);
      assert (batch + [d])[1..] == batch[1..] + [d];
    }
  }

  /** What the communicator produces from a fetch. */
  function Produced<D(==)>(fetch: Fetch<D>, default: D): seq<D> {
    match fetch
    case Fetched(batch) => NonDefault(batch, default)
    case Failed(_) => []
  }

  /** What it produces over some rounds of its loop. */
  function ProducedOver<D(==)>(script: seq<Fetch<D>>, rounds: nat, default: D): seq<D> {
    if rounds == 0 then []
    else Produced(NextFetch(script), default) + ProducedOver(RestFetches(script), rounds - 1, default)
  }

  /** The order and the number of the data fetched are kept, and every default is dropped: the produced data
      are those of the batches of the fetches that worked, in order. */
  lemma {:induction false} RoundsProduceWhatWasFetched<D>(script: seq<Fetch<D>>, rounds: nat, default: D)
    requires rounds <= |script|
    ensures ProducedOver(script, rounds, default) == NonDefault(AllFetched(script[..rounds]), default)
    ensures default !in ProducedOver(script, rounds, default)
  {
    if rounds > 0 {
      RoundsProduceWhatWasFetched(script[1..], rounds - 1, default);
      assert script[..rounds][1..] == script[1..][..rounds - 1];
      var batch := if script[0].Fetched? then script[0].batch else [];
      NonDefaultConcat(batch, AllFetched(script[1..][..rounds - 1]), default);
      NonDefaultHasNoDefault(batch, default);
    }
  }

  function AllFetched<D>(script: seq<Fetch<D>>): seq<D> {
    if script == [] then []
    else (if script[0].Fetched? then script[0].batch else []) + AllFetched(script[1..])
  }

  lemma {:induction false} NonDefaultConcat<D>(a: seq<D>, b: seq<D>, default: D)
    ensures NonDefault(a + b, default) == NonDefault(a, default) + NonDefault(b, default)
  {
    if a == [] {
      assert a + b == b;
    } else {
      NonDefaultConcat(a[1..], b, default);
      assert (a + b)[1..] == a[1..] + b;
      var first := if a[0] != default then [a[0]] else [];
      assert NonDefault(a + b, default) == first + (NonDefault(a[1..], default) + NonDefault(b, default));
      Associate(first, NonDefault(a[1..], default), NonDefault(b, default));
    }
  }

  lemma {:induction false} NonDefaultHasNoDefault<D>(batch: seq<D>, default: D)
    ensures default !in NonDefault(batch, default)
  {
    if batch != [] { NonDefaultHasNoDefault(batch[1..], default); }
  }

  // ---------------------------------------------------------------------------------------------
  // Recovery over a run

  /** A failed fetch leaves the batch as it was declared: holding defaults only. */
  function Batch<D>(fetch: Fetch<D>): seq<D> {
    match fetch
    case Fetched(batch) => batch
    case Failed(_) => []
  }

  /** What a fetch publishes before it is recovered from. */
  function Caught<D>(fetch: Fetch<D>, origin: string): seq<Error> {
    match fetch
    case Fetched(_) => []
    case Failed(e) => [WithOrigin(e, origin)]
  }

  /** The connection calls a fetch leads to. */
  function Recovery<D>(fetch: Fetch<D>, script: Spec.Script): seq<Spec.Call> {
    match fetch
    case Fetched(_) => []
    case Failed(e) => Spec.Handle(e, script)
  }

  lemma Regroup<T>(a: seq<T>, b: seq<T>, c: seq<T>, d: seq<T>)
    ensures a + b + c + d == a + (b + (c + d))
  {
  }

  /** The calls made for an error: to close, then to open. */
  function Closing(e: Error, script: Spec.Script): seq<Spec.Call> {
    if IsCloseConnectionRequired(e) then Spec.Attempt(Spec.Close, script) else []
  }

  function Opening(e: Error, script: Spec.Script): seq<Spec.Call> {
    if IsOpenConnectionRequired(e) then Spec.Attempt(Spec.Open, script) else []
  }

  lemma HandledInParts(e: Error, script: Spec.Script, before: seq<Spec.Call>, errors: seq<Error>)
    ensures var closing := Closing(e, script);
      var opening := Opening(e, Spec.After(script, |closing|));
      var calls := Spec.Handle(e, script);
      && Spec.After(Spec.After(script, |closing|), |opening|) == Spec.After(script, |calls|)
      && before + closing + opening == before + calls
      && errors + [e] + Spec.Published(closing) + Spec.Published(opening) == errors + ([e] + Spec.Published(calls))
  {
    var closing := Closing(e, script);
    var opening := Opening(e, Spec.After(script, |closing|));
    assert Spec.Handle(e, script) == closing + opening;
    Spec.AfterAfter(script, |closing|, |opening|);
    Associate(before, closing, opening);
    Spec.PublishedConcat(closing, opening);
    Regroup(errors, [e], Spec.Published(closing), Spec.Published(opening));
  }

  /** What a round of the loop does to the connection, and what it publishes. */
  datatype Round = Round(calls: seq<Spec.Call>, errors: seq<Error>)

  function OneRound<M, R>(messages: Fetch<M>, rawData: Fetch<R>, script: Spec.Script): Round {
    var first := Recovery(messages, script);
    var second := Recovery(rawData, Spec.After(script, |first|));
    Round(first + second,
      (Caught(messages, SENSOR_COMMUNICATOR_HANDLE_MESSAGE) + Spec.Published(first)) +
      (Caught(rawData, SENSOR_COMMUNICATOR_HANDLE_RAWDATA) + Spec.Published(second)))
  }

  function Rounds<M, R>(
      messages: seq<Fetch<M>>, rawData: seq<Fetch<R>>, script: Spec.Script, rounds: nat): Round {
    if rounds == 0 then Round([], [])
    else
      var now := OneRound(NextFetch(messages), NextFetch(rawData), script);
      var later := Rounds(RestFetches(messages), RestFetches(rawData), Spec.After(script, |now.calls|), rounds - 1);
      Round(now.calls + later.calls, now.errors + later.errors)
  }

  /** What goes wrong in a fetch, and then in recovering from it. */
  function FetchMishaps<D>(fetch: Fetch<D>, place: string, calls: seq<Spec.Call>): seq<Spec.Mishap> {
    (if fetch.Failed? then [Spec.Mishap(place, fetch.error)] else []) + Spec.MishapsOf(calls)
  }

  function RoundMishaps<M, R>(messages: Fetch<M>, rawData: Fetch<R>, script: Spec.Script): seq<Spec.Mishap> {
    var first := Recovery(messages, script);
    FetchMishaps(messages, "handle incoming message", first) +
    FetchMishaps(rawData, "handle incoming rawdata", Recovery(rawData, Spec.After(script, |first|)))
  }

  /** All that goes wrong over some rounds, in the order in which it happens. */
  function Mishaps<M, R>(
      messages: seq<Fetch<M>>, rawData: seq<Fetch<R>>, script: Spec.Script, rounds: nat): seq<Spec.Mishap>
  {
    if rounds == 0 then []
    else
      var now := OneRound(NextFetch(messages), NextFetch(rawData), script).calls;
      RoundMishaps(NextFetch(messages), NextFetch(rawData), script) +
      Mishaps(RestFetches(messages), RestFetches(rawData), Spec.After(script, |now|), rounds - 1)
  }

  lemma FetchTells<D>(fetch: Fetch<D>, place: string, calls: seq<Spec.Call>)
    ensures Spec.Tells(Caught(fetch, place) + Spec.Published(calls), FetchMishaps(fetch, place, calls))
  {
    if fetch.Failed? { OriginIsPutInFront(fetch.error, place); }
    Spec.PublishedTellsTheFailures(calls);
    Spec.TellsConcat(Caught(fetch, place), Spec.Published(calls),
      if fetch.Failed? then [Spec.Mishap(place, fetch.error)] else [], Spec.MishapsOf(calls));
  }

  lemma RoundTells<M, R>(messages: Fetch<M>, rawData: Fetch<R>, script: Spec.Script)
    ensures Spec.Tells(OneRound(messages, rawData, script).errors, RoundMishaps(messages, rawData, script))
  {
    var first := Recovery(messages, script);
    var second := Recovery(rawData, Spec.After(script, |first|));
    FetchTells(messages, "handle incoming message", first);
    FetchTells(rawData, "handle incoming rawdata", second);
    Spec.TellsConcat(
      Caught(messages, "handle incoming message") + Spec.Published(first),
      Caught(rawData, "handle incoming rawdata") + Spec.Published(second),
      FetchMishaps(messages, "handle incoming message", first),
      FetchMishaps(rawData, "handle incoming rawdata", second));
  }

  /** The rounds publish everything that goes wrong in them, each with its own place in front. */
  lemma {:induction false} RoundsTell<M, R>(
      messages: seq<Fetch<M>>, rawData: seq<Fetch<R>>, script: Spec.Script, rounds: nat, run: Round,
      mishaps: seq<Spec.Mishap>)
    requires run == Rounds(messages, rawData, script, rounds) && mishaps == Mishaps(messages, rawData, script, rounds)
    ensures Spec.Tells(run.errors, mishaps)
    decreases rounds
  {
    if rounds > 0 {
      var now := OneRound(NextFetch(messages), NextFetch(rawData), script);
      var after := Spec.After(script, |now.calls|);
      var later := Rounds(RestFetches(messages), RestFetches(rawData), after, rounds - 1);
      var laterMishaps := Mishaps(RestFetches(messages), RestFetches(rawData), after, rounds - 1);
      RoundsTell(RestFetches(messages), RestFetches(rawData), after, rounds - 1, later, laterMishaps);
      RoundThenTells(NextFetch(messages), NextFetch(rawData), script, later.errors, laterMishaps);
      assert run.errors == now.errors + later.errors;
      assert mishaps == RoundMishaps(NextFetch(messages), NextFetch(rawData), script) + laterMishaps;
    }
  }

  lemma RoundThenTells<M, R>(messages: Fetch<M>, rawData: Fetch<R>, script: Spec.Script, later: seq<Error>,
                             mishaps: seq<Spec.Mishap>)
    requires Spec.Tells(later, mishaps)
    ensures Spec.Tells(OneRound(messages, rawData, script).errors + later,
                       RoundMishaps(messages, rawData, script) + mishaps)
  {
    RoundTells(messages, rawData, script);
    Spec.TellsConcat(
      OneRound(messages, rawData, script).errors, later, RoundMishaps(messages, rawData, script), mishaps);
  }

  function FailedFetches<D>(script: seq<Fetch<D>>, rounds: nat): nat {
    if rounds == 0 then 0
    else (if NextFetch(script).Failed? then 1 else 0) + FailedFetches(RestFetches(script), rounds - 1)
  }

  /** Calls that meet the script's failures in order and, in every prefix, close at least as often as they open. */
  ghost predicate Orderly(calls: seq<Spec.Call>, script: Spec.Script) {
    Spec.StaysAbove(calls, 0) && Spec.Balance(calls) >= 0 && Spec.Follows(calls, script)
  }

  lemma OrderlyConcat(a: seq<Spec.Call>, b: seq<Spec.Call>, script: Spec.Script)
    requires Orderly(a, script) && Orderly(b, Spec.After(script, |a|))
    ensures Orderly(a + b, script)
  {
    Spec.BalanceConcat(a, b);
    Spec.StaysAboveConcat(a, b, 0);
    Spec.FollowsConcat(a, b, script);
  }

  lemma RecoveryIsOrderly<D>(fetch: Fetch<D>, script: Spec.Script)
    ensures Orderly(Recovery(fetch, script), script)
  {
    if fetch.Failed? {
      Spec.HandleBalance(fetch.error, script);
      Spec.HandleFollows(fetch.error, script);
    }
  }

  lemma OneRoundIsOrderly<M, R>(messages: Fetch<M>, rawData: Fetch<R>, script: Spec.Script)
    ensures var now := OneRound(messages, rawData, script);
      && Orderly(now.calls, script)
      && |now.errors| ==
          (if messages.Failed? then 1 else 0) + (if rawData.Failed? then 1 else 0) + |Spec.Published(now.calls)|
  {
    var first := Recovery(messages, script);
    var second := Recovery(rawData, Spec.After(script, |first|));
    RecoveryIsOrderly(messages, script);
    RecoveryIsOrderly(rawData, Spec.After(script, |first|));
    OrderlyConcat(first, second, script);
    Spec.PublishedConcat(first, second);
  }

  lemma RoundThenOrderly<M, R>(messages: Fetch<M>, rawData: Fetch<R>, script: Spec.Script,
                               now: seq<Spec.Call>, later: seq<Spec.Call>, all: seq<Spec.Call>)
    requires now == OneRound(messages, rawData, script).calls && all == now + later
    requires Orderly(later, Spec.After(script, |now|))
    ensures Orderly(all, script)
  {
    OneRoundIsOrderly(messages, rawData, script);
    OrderlyConcat(now, later, script);
  }

  lemma {:induction false} RoundsAreOrderly<M, R>(messages: seq<Fetch<M>>, rawData: seq<Fetch<R>>,
      script: Spec.Script, rounds: nat, calls: seq<Spec.Call>)
    requires calls == Rounds(messages, rawData, script, rounds).calls
    ensures Orderly(calls, script)
    decreases rounds
  {
    if rounds > 0 {
      var now := OneRound(NextFetch(messages), NextFetch(rawData), script).calls;
      var after := Spec.After(script, |now|);
      var later := Rounds(RestFetches(messages), RestFetches(rawData), after, rounds - 1).calls;
      RoundsAreOrderly(RestFetches(messages), RestFetches(rawData), after, rounds - 1, later);
      RoundThenOrderly(NextFetch(messages), NextFetch(rawData), script, now, later, calls);
    }
  }

  /** The errors of a run that did not come from a connection call. */
  function FromFetches(run: Round): int {
    |run.errors| - |Spec.Published(run.calls)|
  }

  lemma FromFetchesConcat(now: Round, later: Round)
    ensures FromFetches(Round(now.calls + later.calls, now.errors + later.errors)) ==
      FromFetches(now) + FromFetches(later)
  {
    Spec.PublishedConcat(now.calls, later.calls);
  }

  lemma {:induction false} RoundsPublishEveryFailure<M, R>(
      messages: seq<Fetch<M>>, rawData: seq<Fetch<R>>, script: Spec.Script, rounds: nat)
    ensures FromFetches(Rounds(messages, rawData, script, rounds)) ==
      FailedFetches(messages, rounds) + FailedFetches(rawData, rounds)
    decreases rounds
  {
    if rounds > 0 {
      var now := OneRound(NextFetch(messages), NextFetch(rawData), script);
      var after := Spec.After(script, |now.calls|);
      OneRoundIsOrderly(NextFetch(messages), NextFetch(rawData), script);
      RoundsPublishEveryFailure(RestFetches(messages), RestFetches(rawData), after, rounds - 1);
      FromFetchesConcat(now, Rounds(RestFetches(messages), RestFetches(rawData), after, rounds - 1));
    }
  }

  // ---------------------------------------------------------------------------------------------
  // The connection after termination

  /** Whether a fetch leaves the connection open, failed opens being tried again; None if it leaves it alone. */
  function AfterFetch<D>(fetch: Fetch<D>, script: Spec.Script): Option<bool> {
    if fetch.Failed? && IsCloseConnectionRequired(fetch.error) then Some(Spec.LeadsToOpen(fetch.error, script))
    else None
  }

  function AfterRound<M, R>(messages: Fetch<M>, rawData: Fetch<R>, script: Spec.Script): Option<bool> {
    Spec.Then(AfterFetch(messages, script), AfterFetch(rawData, Spec.After(script, |Recovery(messages, script)|)))
  }

  /** The same after some rounds: what the last error that asked for a close led to. */
  function AfterRounds<M, R>(
      messages: seq<Fetch<M>>, rawData: seq<Fetch<R>>, script: Spec.Script, rounds: nat): Option<bool>
  {
    if rounds == 0 then None
    else
      var now := OneRound(NextFetch(messages), NextFetch(rawData), script);
      Spec.Then(AfterRound(NextFetch(messages), NextFetch(rawData), script),
        AfterRounds(RestFetches(messages), RestFetches(rawData), Spec.After(script, |now.calls|), rounds - 1))
  }

  lemma FetchLeaves<D>(fetch: Fetch<D>, script: Spec.Script)
    requires Spec.FailedOpensAskAgain(Recovery(fetch, script))
    ensures Spec.Leaves(Recovery(fetch, script)) == AfterFetch(fetch, script)
  {
    if fetch.Failed? {
      Spec.HandleEndsOpenByChain(fetch.error, script);
    }
  }

  lemma RoundLeaves<M, R>(messages: Fetch<M>, rawData: Fetch<R>, script: Spec.Script)
    requires Spec.FailedOpensAskAgain(OneRound(messages, rawData, script).calls)
    ensures Spec.Leaves(OneRound(messages, rawData, script).calls) == AfterRound(messages, rawData, script)
  {
    var first := Recovery(messages, script);
    var second := Recovery(rawData, Spec.After(script, |first|));
    Spec.FailedOpensAskAgainConcat(first, second);
    FetchLeaves(messages, script);
    FetchLeaves(rawData, Spec.After(script, |first|));
    Spec.LeavesConcat(first, second);
  }

  /** The rounds' failed opens are tried again. */
  predicate RoundsAskAgain<M, R>(
      messages: seq<Fetch<M>>, rawData: seq<Fetch<R>>, script: Spec.Script, rounds: nat)
  {
    rounds > 0 ==>
      var now := OneRound(NextFetch(messages), NextFetch(rawData), script);
      && Spec.FailedOpensAskAgain(now.calls)
      && RoundsAskAgain(RestFetches(messages), RestFetches(rawData), Spec.After(script, |now.calls|), rounds - 1)
  }

  lemma {:induction false} RoundsLeave<M, R>(
      messages: seq<Fetch<M>>, rawData: seq<Fetch<R>>, script: Spec.Script, rounds: nat)
    requires RoundsAskAgain(messages, rawData, script, rounds)
    ensures Spec.Leaves(Rounds(messages, rawData, script, rounds).calls) ==
      AfterRounds(messages, rawData, script, rounds)
    decreases rounds
  {
    if rounds > 0 {
      var now := OneRound(NextFetch(messages), NextFetch(rawData), script);
      var after := Spec.After(script, |now.calls|);
      RoundLeaves(NextFetch(messages), NextFetch(rawData), script);
      RoundsLeave(RestFetches(messages), RestFetches(rawData), after, rounds - 1);
      Spec.LeavesConcat(now.calls, Rounds(RestFetches(messages), RestFetches(rawData), after, rounds - 1).calls);
    }
  }

  /** Termination closes the connection before it orders the thread to end, so the thread may still run some
      rounds after the closing. Where failed opens are tried again, the connection is then left open if and
      only if the last error of those rounds that asked for a close led to an open, or there was none and the
      closing itself failed in a chain that asks for an open. */
  lemma TerminationEndsOpen<M, R>(
      messages: seq<Fetch<M>>, rawData: seq<Fetch<R>>, script: Spec.Script, rounds: nat)
    requires TerminationAsksAgain(messages, rawData, script, rounds)
    ensures Spec.EndsOpen(TerminationCalls(messages, rawData, script, rounds)) <==>
      LeftOpen(messages, rawData, script, rounds)
  {
    var closing := Spec.Attempt(Spec.Close, script);
    var after := Spec.After(script, |closing|);
    Spec.CloseEndsOpenByChain(script);
    RoundsLeave(messages, rawData, after, rounds);
    Spec.LeavesConcat(closing, Rounds(messages, rawData, after, rounds).calls);
  }

  /** The failed opens of the closing and of the rounds after it are tried again. */
  predicate TerminationAsksAgain<M, R>(
      messages: seq<Fetch<M>>, rawData: seq<Fetch<R>>, script: Spec.Script, rounds: nat)
  {
    var closing := Spec.Attempt(Spec.Close, script);
    Spec.FailedOpensAskAgain(closing) && RoundsAskAgain(messages, rawData, Spec.After(script, |closing|), rounds)
  }

  predicate LeftOpen<M, R>(messages: seq<Fetch<M>>, rawData: seq<Fetch<R>>, script: Spec.Script, rounds: nat) {
    var after := AfterRounds(messages, rawData, Spec.After(script, |Spec.Attempt(Spec.Close, script)|), rounds);
    if after.Some? then after.value else Spec.Chain(script)
  }

  /** The calls of a termination, with those of the rounds that the thread still runs after the closing. */
  function TerminationCalls<M, R>(
      messages: seq<Fetch<M>>, rawData: seq<Fetch<R>>, script: Spec.Script, rounds: nat): seq<Spec.Call>
  {
    var closing := Spec.Attempt(Spec.Close, script);
    closing + Rounds(messages, rawData, Spec.After(script, |closing|), rounds).calls
  }

  /** A fetch that fails in a round still under way reopens the connection, every call on it having worked. */
  lemma LateFetchReopens<M, R>(e: Error, rawData: seq<Fetch<R>>)
    requires IsOpenConnectionRequired(e) && NextFetch(rawData).Fetched?
    ensures TerminationCalls<M, R>([Failed(e)], rawData, [], 1) ==
      [Spec.Call(Spec.Close, None), Spec.Call(Spec.Close, None), Spec.Call(Spec.Open, None)]
  {
    var late := [Failed(e)];
    assert Recovery(NextFetch<M>(late), []) == [Spec.Call(Spec.Close, None)] + [Spec.Call(Spec.Open, None)];
    assert Rounds(RestFetches<M>(late), RestFetches(rawData), [], 0).calls == [];
    assert OneRound(NextFetch<M>(late), NextFetch(rawData), []).calls ==
      [Spec.Call(Spec.Close, None)] + [Spec.Call(Spec.Open, None)];
  }

  // ---------------------------------------------------------------------------------------------
  // A run, state by state

  /** The communicator, its strategy and what it has produced. */
  datatype Snapshot<M, R> = Snapshot(
    messageScript: seq<Fetch<M>>, rawDataScript: seq<Fetch<R>>, script: Spec.Script, calls: seq<Spec.Call>,
    messages: seq<M>, rawData: seq<R>, errors: seq<Error>)

  function AfterMessages<M(==), R>(s: Snapshot<M, R>, default: M): Snapshot<M, R> {
    var fetch := NextFetch(s.messageScript);
    var calls := Recovery(fetch, s.script);
    s.(messageScript := RestFetches(s.messageScript),
       script := Spec.After(s.script, |calls|),
       calls := s.calls + calls,
       messages := s.messages + Produced(fetch, default),
       errors := s.errors + (Caught(fetch, SENSOR_COMMUNICATOR_HANDLE_MESSAGE) + Spec.Published(calls)))
  }

  function AfterRawData<M, R(==)>(s: Snapshot<M, R>, default: R): Snapshot<M, R> {
    var fetch := NextFetch(s.rawDataScript);
    var calls := Recovery(fetch, s.script);
    s.(rawDataScript := RestFetches(s.rawDataScript),
       script := Spec.After(s.script, |calls|),
       calls := s.calls + calls,
       rawData := s.rawData + Produced(fetch, default),
       errors := s.errors + (Caught(fetch, SENSOR_COMMUNICATOR_HANDLE_RAWDATA) + Spec.Published(calls)))
  }

  /** The loop's state after some more rounds. */
  function Turns<M(==), R(==)>(s: Snapshot<M, R>, rounds: nat, message: M, rawData: R): Snapshot<M, R>
    decreases rounds
  {
    if rounds == 0 then s else Turns(AfterRawData(AfterMessages(s, message), rawData), rounds - 1, message, rawData)
  }

  lemma OneTurn<M, R>(s: Snapshot<M, R>, message: M, rawData: R)
    ensures var s' := AfterRawData(AfterMessages(s, message), rawData);
      var now := OneRound(NextFetch(s.messageScript), NextFetch(s.rawDataScript), s.script);
      && s'.messages == s.messages + Produced(NextFetch(s.messageScript), message)
      && s'.rawData == s.rawData + Produced(NextFetch(s.rawDataScript), rawData)
      && s'.calls == s.calls + now.calls
      && s'.errors == s.errors + now.errors
      && s'.script == Spec.After(s.script, |now.calls|)
  {
    var first := Recovery(NextFetch(s.messageScript), s.script);
    var second := Recovery(NextFetch(s.rawDataScript), Spec.After(s.script, |first|));
    Spec.AfterAfter(s.script, |first|, |second|);
    Associate(s.calls, first, second);
    Associate(s.errors,
      Caught(NextFetch(s.messageScript), SENSOR_COMMUNICATOR_HANDLE_MESSAGE) + Spec.Published(first),
      Caught(NextFetch(s.rawDataScript), SENSOR_COMMUNICATOR_HANDLE_RAWDATA) + Spec.Published(second));
  }

  /** Over the rounds, the loop adds to what was there what every round fetched and what every round recovered. */
  lemma {:induction false} TurnsAccount<M, R>(s: Snapshot<M, R>, rounds: nat, message: M, rawData: R)
    ensures var s' := Turns(s, rounds, message, rawData);
      var run := Rounds(s.messageScript, s.rawDataScript, s.script, rounds);
      && s'.messages == s.messages + ProducedOver(s.messageScript, rounds, message)
      && s'.rawData == s.rawData + ProducedOver(s.rawDataScript, rounds, rawData)
      && s'.calls == s.calls + run.calls
      && s'.errors == s.errors + run.errors
    decreases rounds
  {
    if rounds > 0 {
      var s' := AfterRawData(AfterMessages(s, message), rawData);
      var now := OneRound(NextFetch(s.messageScript), NextFetch(s.rawDataScript), s.script);
      var later := Rounds(s'.messageScript, s'.rawDataScript, s'.script, rounds - 1);
      OneTurn(s, message, rawData);
      TurnsAccount(s', rounds - 1, message, rawData);
      Associate(s.messages, Produced(NextFetch(s.messageScript), message),
        ProducedOver(s'.messageScript, rounds - 1, message));
      Associate(s.rawData, Produced(NextFetch(s.rawDataScript), rawData),
        ProducedOver(s'.rawDataScript, rounds - 1, rawData));
      Associate(s.calls, now.calls, later.calls);
      Associate(s.errors, now.errors, later.errors);
    }
  }

  /** Over any number of rounds of the communicator's thread, whatever fails: the data produced are the
      non-default ones of the rounds' fetches, in order; the connection is never opened more often than it was
      closed; and exactly one error is published for every fetch and for every connection call that failed. */
  lemma ThreadAccounts<M, R>(s: Snapshot<M, R>, rounds: nat, message: M, rawData: R)
    requires s.calls == [] && s.messages == [] && s.rawData == [] && s.errors == []
    requires rounds <= |s.messageScript| && rounds <= |s.rawDataScript|
    ensures var s' := Turns(s, rounds, message, rawData);
      && s'.messages == NonDefault(AllFetched(s.messageScript[..rounds]), message)
      && s'.rawData == NonDefault(AllFetched(s.rawDataScript[..rounds]), rawData)
      && Orderly(s'.calls, s.script)
      && |s'.errors| == FailedFetches(s.messageScript, rounds) + FailedFetches(s.rawDataScript, rounds) +
                        |Spec.MishapsOf(s'.calls)|
      && Spec.Tells(s'.errors, Mishaps(s.messageScript, s.rawDataScript, s.script, rounds))
  {
    TurnsAccount(s, rounds, message, rawData);
    RoundsProduceWhatWasFetched(s.messageScript, rounds, message);
    RoundsProduceWhatWasFetched(s.rawDataScript, rounds, rawData);
    RoundsPublishEveryFailure(s.messageScript, s.rawDataScript, s.script, rounds);
    var run := Rounds(s.messageScript, s.rawDataScript, s.script, rounds);
    RoundsTell(s.messageScript, s.rawDataScript, s.script, rounds, run,
      Mishaps(s.messageScript, s.rawDataScript, s.script, rounds));
    Spec.PublishedTellsTheFailures(run.calls);
    RoundsAreOrderly(s.messageScript, s.rawDataScript, s.script, rounds, run.calls);
    assert [] + run.calls == run.calls;
    assert [] + run.errors == run.errors;
  }

  /** The state after closeConnection. */
  function Closed<M, R>(s: Snapshot<M, R>): Snapshot<M, R> {
    var calls := Spec.Attempt(Spec.Close, s.script);
    s.(script := Spec.After(s.script, |calls|), calls := s.calls + calls, errors := s.errors + Spec.Published(calls))
  }

  /** What a termination has done to the connection. */
  ghost predicate Terminated<M, R>(before: Snapshot<M, R>, after: Snapshot<M, R>, rounds: nat) {
    var made := TerminationCalls(before.messageScript, before.rawDataScript, before.script, rounds);
    && after.calls == before.calls + made
    && (TerminationAsksAgain(before.messageScript, before.rawDataScript, before.script, rounds) ==>
          (Spec.EndsOpen(made) <==> LeftOpen(before.messageScript, before.rawDataScript, before.script, rounds)))
  }

  lemma TurnsTerminate<M, R>(s: Snapshot<M, R>, rounds: nat, message: M, rawData: R)
    ensures Terminated(s, Turns(Closed(s), rounds, message, rawData), rounds)
  {
    var closed := Closed(s);
    TurnsAccount(closed, rounds, message, rawData);
    Associate(s.calls, Spec.Attempt(Spec.Close, s.script),
      Rounds(s.messageScript, s.rawDataScript, closed.script, rounds).calls);
    if TerminationAsksAgain(s.messageScript, s.rawDataScript, s.script, rounds) {
      TerminationEndsOpen(s.messageScript, s.rawDataScript, s.script, rounds);
    }
  }

  class Communicator<M(==), R(==)> {
    const strategy: Strategy<M, R>
    const defaultMessage: M
    const defaultRawData: R
    var terminateOrderReceived: bool
    var messages: seq<M>   // produced for the message consumers
    var rawData: seq<R>    // produced for the raw-data consumers
    var errors: seq<Error> // produced for the error consumers

    constructor (strategy: Strategy<M, R>, defaultMessage: M, defaultRawData: R)
      ensures this.strategy == strategy && this.defaultMessage == defaultMessage
        && this.defaultRawData == defaultRawData
      ensures !terminateOrderReceived && messages == [] && rawData == [] && errors == []
    {
      this.strategy := strategy;
      this.defaultMessage := defaultMessage;
      this.defaultRawData := defaultRawData;
      terminateOrderReceived := false;
      messages, rawData, errors := [], [], [];
    }

    /** The calls have been made in this order, and each failure has been published, with its place put in front
        (RecoverySpec.PublishedTellsTheFailures). */
    twostate predicate Made(calls: seq<Spec.Call>)
      reads this, strategy
    {
      && strategy.calls == old(strategy.calls) + calls
      && strategy.script == Spec.After(old(strategy.script), |calls|)
      && errors == old(errors) + Spec.Published(calls)
    }

    /** The error has been published first. */
    twostate predicate Handled(e: Error, calls: seq<Spec.Call>)
      reads this, strategy
    {
      && strategy.calls == old(strategy.calls) + calls
      && strategy.script == Spec.After(old(strategy.script), |calls|)
      && errors == old(errors) + ([e] + Spec.Published(calls))
    }

    method OpenConnection()
      modifies this`errors, strategy`script, strategy`calls
      ensures Made(Spec.Attempt(Spec.Open, old(strategy.script)))
      decreases |strategy.script|, 0, 0
    {
      var failure := strategy.Connect(Spec.Open);
      if failure.Some? {
        AddOriginAndHandleError(failure.value, SENSOR_COMMUNICATOR_OPEN_CONNECTION);
      }
    }

    method CloseConnection()
      modifies this`errors, strategy`script, strategy`calls
      ensures Made(Spec.Attempt(Spec.Close, old(strategy.script)))
      decreases |strategy.script|, 0, 0
    {
      var failure := strategy.Connect(Spec.Close);
      if failure.Some? {
        AddOriginAndHandleError(failure.value, SENSOR_COMMUNICATOR_CLOSE_CONNECTION);
      }
    }

    method AddOriginAndHandleError(e: Error, origin: string)
      modifies this`errors, strategy`script, strategy`calls
      ensures Handled(WithOrigin(e, origin), Spec.Handle(e, old(strategy.script)))
      ensures ComesFrom(WithOrigin(e, origin), origin, e)
      decreases |strategy.script|, 2
    {
      OriginIsPutInFront(e, origin);
      OpeningMeansClosingAndSurviving(e, origin);
      HandleCaughtError(WithOrigin(e, origin));
    }

    method HandleCaughtError(e: Error)
      modifies this`errors, strategy`script, strategy`calls
      ensures Handled(e, Spec.Handle(e, old(strategy.script)))
      decreases |strategy.script|, 1
    {
      ghost var script := strategy.script;
      errors := errors + [e];
      CloseIfRequired(e);
      OpenIfRequired(e);
      HandledInParts(e, script, old(strategy.calls), old(errors));
    }

    method CloseIfRequired(e: Error)
      modifies this`errors, strategy`script, strategy`calls
      ensures Made(Closing(e, old(strategy.script)))
      decreases |strategy.script|, 0, 1
    {
      if IsCloseConnectionRequired(e) {
        CloseConnection();
      }
    }

    method OpenIfRequired(e: Error)
      modifies this`errors, strategy`script, strategy`calls
      ensures Made(Opening(e, old(strategy.script)))
      decreases |strategy.script|, 0, 1
    {
      if IsOpenConnectionRequired(e) {
        OpenConnection();
      }
    }

    ghost function State(): Snapshot<M, R>
      reads this, strategy
    {
      Snapshot(strategy.messageScript, strategy.rawDataScript, strategy.script, strategy.calls, messages, rawData,
        errors)
    }

    method HandleIncomingMessages()
      modifies this`messages, this`errors, strategy`messageScript, strategy`script, strategy`calls
      ensures State() == AfterMessages(old(State()), defaultMessage)
    {
      var fetch := strategy.FetchMessages();
      if fetch.Failed? {
        AddOriginAndHandleError(fetch.error, SENSOR_COMMUNICATOR_HANDLE_MESSAGE);
      }
      var batch := Batch(fetch);
      for i := 0 to |batch|
        modifies this`messages
        invariant messages == old(messages) + NonDefault(batch[..i], defaultMessage)
      {
        assert batch[..i + 1] == batch[..i] + [batch[i]];
        NonDefaultAppend(batch[..i], batch[i], defaultMessage);
        if batch[i] != defaultMessage {
          messages := messages + [batch[i]];
        }
      }
      assert batch[..|batch|] == batch;
    }

    method HandleIncomingRawData()
      modifies this`rawData, this`errors, strategy`rawDataScript, strategy`script, strategy`calls
      ensures State() == AfterRawData(old(State()), defaultRawData)
    {
      var fetch := strategy.FetchRawDataCycles();
      if fetch.Failed? {
        AddOriginAndHandleError(fetch.error, SENSOR_COMMUNICATOR_HANDLE_RAWDATA);
      }
      var batch := Batch(fetch);
      for i := 0 to |batch|
        modifies this`rawData
        invariant rawData == old(rawData) + NonDefault(batch[..i], defaultRawData)
      {
        assert batch[..i + 1] == batch[..i] + [batch[i]];
        NonDefaultAppend(batch[..i], batch[i], defaultRawData);
        if batch[i] != defaultRawData {
          rawData := rawData + [batch[i]];
        }
      }
      assert batch[..|batch|] == batch;
    }

    /** The thread's loop. Another thread gives the termination order, and this one sees it after `rounds` rounds. */
    method RunFor(rounds: nat)
      modifies this`messages, this`rawData, this`errors, strategy
      ensures State() == Turns(old(State()), rounds, defaultMessage, defaultRawData)
    {
      var round := 0;
      while round < rounds
        invariant round <= rounds
        invariant Turns(State(), rounds - round, defaultMessage, defaultRawData) ==
          Turns(old(State()), rounds, defaultMessage, defaultRawData)
      {
        HandleIncomingMessages();
        HandleIncomingRawData();
        round := round + 1;
      }
    }

    method Start()
      modifies this`errors, strategy`script, strategy`calls
      ensures Made(Spec.Attempt(Spec.Open, old(strategy.script)))
    {
      OpenConnection();
    }

    /** terminateAndJoin: closes, orders the thread to end and waits for it. The thread sees the order after
        `rounds` more rounds, the one under way included. */
    method TerminateAndJoin(rounds: nat)
      modifies this`terminateOrderReceived, this`messages, this`rawData, this`errors, strategy
      ensures terminateOrderReceived
      ensures State() == Turns(Closed(old(State())), rounds, defaultMessage, defaultRawData)
      ensures Terminated(old(State()), State(), rounds)
    {
      ghost var before := State();
      CloseConnection();
      assert State() == Closed(before);
      if !terminateOrderReceived {
        terminateOrderReceived := true;
      }
      RunFor(rounds);
      TurnsTerminate(before, rounds, defaultMessage, defaultRawData);
    }
  }
}
