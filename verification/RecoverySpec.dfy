/** The reconnection logic of SensorCommunicator: open, close and handle-error call each other for as long as
    the strategy's calls fail.

    The strategy is a script: its n-th open or close call fails with the n-th entry, or succeeds where that is
    None or the script has ended. A strategy that decides as it goes is covered, since the calls made so far
    determine the next one. The functions return the calls made, in order, each with its failure.
  */
module RecoverySpec {
  import opened Wrappers
  import opened Errors

  datatype Kind = Open | Close
  datatype Call = Call(kind: Kind, failure: Option<Error>)
  type Script = seq<Option<Error>>

  function Answer(script: Script): Option<Error> {
    if script == [] then None else script[0]
  }

  function After(script: Script, calls: nat): (rest: Script)
    ensures |rest| <= |script|
  {
    if calls <= |script| then script[calls..] else []
  }

  /** openConnection and closeConnection of the communicator. */
  function Attempt(kind: Kind, script: Script): (calls: seq<Call>)
    decreases |script|, 0
  {
    match Answer(script)
    case None => [Call(kind, None)]
    case Some(e) => [Call(kind, Some(e))] + Handle(e, script[1..])
  }

  /** handleCaughtError: closes if the error asks for it, then opens if the error asks for it. */
  function Handle(e: Error, script: Script): (calls: seq<Call>)
    decreases |script|, 1
  {
    var closing := if IsCloseConnectionRequired(e) then Attempt(Close, script) else [];
    var opening := if IsOpenConnectionRequired(e) then Attempt(Open, After(script, |closing|)) else [];
    closing + opening
  }

  function OriginOf(kind: Kind): string {
    match kind
    case Open => SENSOR_COMMUNICATOR_OPEN_CONNECTION
    case Close => SENSOR_COMMUNICATOR_CLOSE_CONNECTION
  }

  /** What one call publishes: its failure, if it failed, with the place that caught it. */
  function Report(call: Call): seq<Error> {
    if call.failure.None? then [] else [WithOrigin(call.failure.value, OriginOf(call.kind))]
  }

  /** The errors published, in the order of the calls that failed. */
  function Published(calls: seq<Call>): seq<Error> {
    if calls == [] then [] else Report(calls[0]) + Published(calls[1..])
  }

  lemma {:induction false} PublishedConcat(a: seq<Call>, b: seq<Call>)
    ensures Published(a + b) == Published(a) + Published(b)
  {
    if a == [] {
      assert a + b == b;
    } else {
      PublishedConcat(a[1..], b);
      assert (a + b)[1..] == a[1..] + b;
      Associate(Report(a[0]), Published(a[1..]), Published(b));
    }
  }

  /** Something that went wrong, and the place that caught it. */
  datatype Mishap = Mishap(place: string, error: Error)

  /** The calls that failed, in order. */
  function MishapsOf(calls: seq<Call>): seq<Mishap> {
    if calls == [] then []
    else (if calls[0].failure.None? then []
          else [Mishap(if calls[0].kind == Open then "open sensor connection" else "close sensor connection",
                       calls[0].failure.value)]) + MishapsOf(calls[1..])
  }

  /** Each mishap is published, with its place put before its origin, in the order in which they happened. */
  ghost predicate Tells(errors: seq<Error>, mishaps: seq<Mishap>) {
    && |errors| == |mishaps|
    && forall i :: 0 <= i < |errors| ==> ComesFrom(errors[i], mishaps[i].place, mishaps[i].error)
  }

  lemma TellsConcat(a: seq<Error>, b: seq<Error>, first: seq<Mishap>, second: seq<Mishap>)
    requires Tells(a, first) && Tells(b, second)
    ensures Tells(a + b, first + second)
  {
  }

  /** The calls publish exactly their failures. */
  lemma {:induction false} PublishedTellsTheFailures(calls: seq<Call>)
    ensures Tells(Published(calls), MishapsOf(calls))
  {
    if calls != [] {
      PublishedTellsTheFailures(calls[1..]);
      if calls[0].failure.Some? { OriginIsPutInFront(calls[0].failure.value, OriginOf(calls[0].kind)); }
    }
  }

  // ---------------------------------------------------------------------------------------------
  // The calls follow the script

  ghost predicate Follows(calls: seq<Call>, script: Script) {
    forall i :: 0 <= i < |calls| ==> calls[i].failure == Answer(After(script, i))
  }

  lemma AfterAfter(script: Script, i: nat, j: nat)
    ensures After(After(script, i), j) == After(script, i + j)
  {
  }

  lemma FollowsConcat(a: seq<Call>, b: seq<Call>, script: Script)
    requires Follows(a, script) && Follows(b, After(script, |a|))
    ensures Follows(a + b, script)
  {
    forall i | 0 <= i < |a + b| ensures (a + b)[i].failure == Answer(After(script, i)) {
      if i >= |a| { AfterAfter(script, |a|, i - |a|); }
    }
  }

  lemma {:induction false} AttemptFollows(kind: Kind, script: Script)
    ensures Follows(Attempt(kind, script), script)
    decreases |script|, 0
  {
    if Answer(script).Some? {
      var e := Answer(script).value;
      HandleFollows(e, script[1..]);
      FollowsConcat([Call(kind, Some(e))], Handle(e, script[1..]), script);
    }
  }

  lemma {:induction false} HandleFollows(e: Error, script: Script)
    ensures Follows(Handle(e, script), script)
    decreases |script|, 1
  {
    var closing := if IsCloseConnectionRequired(e) then Attempt(Close, script) else [];
    if IsCloseConnectionRequired(e) { AttemptFollows(Close, script); }
    if IsOpenConnectionRequired(e) {
      AttemptFollows(Open, After(script, |closing|));
      FollowsConcat(closing, Attempt(Open, After(script, |closing|)), script);
    }
  }

  // ---------------------------------------------------------------------------------------------
  // How many calls

  /** The calls an error asks for. */
  function Demand(e: Error): nat {
    (if IsCloseConnectionRequired(e) then 1 else 0) + (if IsOpenConnectionRequired(e) then 1 else 0)
  }

  function Demands(calls: seq<Call>): nat {
    if calls == [] then 0
    else (if calls[0].failure.Some? then Demand(calls[0].failure.value) else 0) + Demands(calls[1..])
  }

  function Failures(script: Script): nat {
    if script == [] then 0 else (if script[0].Some? then 1 else 0) + Failures(script[1..])
  }

  lemma {:induction false} DemandsConcat(a: seq<Call>, b: seq<Call>)
    ensures Demands(a + b) == Demands(a) + Demands(b)
  {
    if a == [] {
      assert a + b == b;
    } else {
      DemandsConcat(a[1..], b);
      assert (a + b)[1..] == a[1..] + b;
    }
  }

  lemma {:induction false} AttemptCount(kind: Kind, script: Script)
    ensures |Attempt(kind, script)| == 1 + Demands(Attempt(kind, script))
    decreases |script|, 0
  {
    if Answer(script).Some? {
      var e := Answer(script).value;
      HandleCount(e, script[1..]);
      DemandsConcat([Call(kind, Some(e))], Handle(e, script[1..]));
    }
  }

  lemma {:induction false} HandleCount(e: Error, script: Script)
    ensures |Handle(e, script)| == Demand(e) + Demands(Handle(e, script))
    decreases |script|, 1
  {
    var closing := if IsCloseConnectionRequired(e) then Attempt(Close, script) else [];
    var opening := if IsOpenConnectionRequired(e) then Attempt(Open, After(script, |closing|)) else [];
    if IsCloseConnectionRequired(e) { AttemptCount(Close, script); }
    if IsOpenConnectionRequired(e) { AttemptCount(Open, After(script, |closing|)); }
    DemandsConcat(closing, opening);
  }

  lemma {:induction false} FollowingFailsAsTheScript(calls: seq<Call>, script: Script)
    requires Follows(calls, script)
    ensures |Published(calls)| <= Failures(script)
    ensures Demands(calls) <= 2 * |Published(calls)|
    decreases |calls|
  {
    if calls != [] {
      assert calls[0].failure == Answer(After(script, 0));
      assert Follows(calls[1..], After(script, 1)) by {
        forall i | 0 <= i < |calls[1..]| ensures calls[1..][i].failure == Answer(After(After(script, 1), i)) {
          AfterAfter(script, 1, i);
          assert calls[i + 1].failure == Answer(After(script, i + 1));
        }
      }
      FollowingFailsAsTheScript(calls[1..], After(script, 1));
    }
  }

  /** The recovery ends, whatever the strategy does. Its calls fail as the script says; every failed call
      publishes one error; the number of calls is one more than all the failures ask for, and so at most
      1 + 2F for a strategy with F failures left. */
  lemma RecoveryIsBounded(kind: Kind, script: Script)
    ensures var calls := Attempt(kind, script);
      && calls != [] && calls[0].kind == kind
      && Follows(calls, script)
      && |calls| == 1 + Demands(calls)
      && |Published(calls)| <= Failures(script)
      && |calls| <= 1 + 2 * Failures(script)
  {
    AttemptFollows(kind, script);
    AttemptCount(kind, script);
    FollowingFailsAsTheScript(Attempt(kind, script), script);
  }

  // ---------------------------------------------------------------------------------------------
  // In which order

  /** Closes minus opens. */
  function Balance(calls: seq<Call>): int {
    if calls == [] then 0 else (if calls[0].kind == Close then 1 else -1) + Balance(calls[1..])
  }

  lemma {:induction false} BalanceConcat(a: seq<Call>, b: seq<Call>)
    ensures Balance(a + b) == Balance(a) + Balance(b)
  {
    if a == [] {
      assert a + b == b;
    } else {
      BalanceConcat(a[1..], b);
      assert (a + b)[1..] == a[1..] + b;
    }
  }

  /** In every prefix, the balance is at least `floor`. */
  ghost predicate StaysAbove(calls: seq<Call>, floor: int) {
    forall n :: 0 <= n <= |calls| ==> Balance(calls[..n]) >= floor
  }

  lemma StaysAboveConcat(a: seq<Call>, b: seq<Call>, floor: int)
    requires StaysAbove(a, floor) && StaysAbove(b, floor - Balance(a))
    ensures StaysAbove(a + b, floor)
  {
    forall n | 0 <= n <= |a + b| ensures Balance((a + b)[..n]) >= floor {
      if n <= |a| {
        assert (a + b)[..n] == a[..n];
      } else {
        assert (a + b)[..n] == a + b[..n - |a|];
        BalanceConcat(a, b[..n - |a|]);
      }
    }
  }

  lemma {:induction false} AttemptBalance(kind: Kind, script: Script)
    ensures var calls := Attempt(kind, script);
      if kind == Close
      then StaysAbove(calls, 0) && Balance(calls) >= 1
      else StaysAbove(calls, -1) && Balance(calls) >= -1
    decreases |script|, 0
  {
    var calls := Attempt(kind, script);
    var first := calls[..1];
    assert first == [calls[0]];
    assert Balance(first) == if kind == Close then 1 else -1;
    assert StaysAbove(first, if kind == Close then 0 else -1) by {
      assert first[..0] == [] && first[..1] == first;
    }
    if Answer(script).Some? {
      var e := Answer(script).value;
      HandleBalance(e, script[1..]);
      var rest := Handle(e, script[1..]);
      assert calls == first + rest;
      BalanceConcat(first, rest);
      StaysAboveConcat(first, rest, if kind == Close then 0 else -1);
    }
  }

  lemma {:induction false} HandleBalance(e: Error, script: Script)
    ensures StaysAbove(Handle(e, script), 0) && Balance(Handle(e, script)) >= 0
    decreases |script|, 1
  {
    var closing := if IsCloseConnectionRequired(e) then Attempt(Close, script) else [];
    var opening := if IsOpenConnectionRequired(e) then Attempt(Open, After(script, |closing|)) else [];
    if IsCloseConnectionRequired(e) { AttemptBalance(Close, script); }
    if IsOpenConnectionRequired(e) {
      AttemptBalance(Open, After(script, |closing|));
      BalanceConcat(closing, opening);
      StaysAboveConcat(closing, opening, 0);
    } else {
      assert closing + opening == closing;
    }
  }

  /** At no point of an error's handling have there been more opens than closes. */
  lemma OpensNeverOutnumberCloses(e: Error, script: Script, n: nat)
    requires n <= |Handle(e, script)|
    ensures Balance(Handle(e, script)[..n]) >= 0
  {
    HandleBalance(e, script);
  }

  predicate OpenedAt(calls: seq<Call>, i: nat) {
    i < |calls| && calls[i] == Call(Open, None)
  }

  /** What follows a successful open, if anything does, is another open. */
  ghost predicate KeepsWhatItOpens(calls: seq<Call>) {
    forall i: nat :: OpenedAt(calls, i) && i + 1 < |calls| ==> calls[i + 1].kind == Open
  }

  lemma KeepsConcat(a: seq<Call>, b: seq<Call>)
    requires KeepsWhatItOpens(a) && KeepsWhatItOpens(b)
    requires a != [] && OpenedAt(a, |a| - 1) && b != [] ==> b[0].kind == Open
    ensures KeepsWhatItOpens(a + b)
  {
    forall i: nat | OpenedAt(a + b, i) && i + 1 < |a + b| ensures (a + b)[i + 1].kind == Open {
      if i < |a| { assert OpenedAt(a, i); } else { assert OpenedAt(b, i - |a|); }
    }
  }

  lemma {:induction false} AttemptKeeps(kind: Kind, script: Script)
    ensures KeepsWhatItOpens(Attempt(kind, script))
    decreases |script|, 0
  {
    if Answer(script).Some? {
      var e := Answer(script).value;
      HandleKeeps(e, script[1..]);
      KeepsConcat([Call(kind, Some(e))], Handle(e, script[1..]));
    }
  }

  lemma {:induction false} HandleKeeps(e: Error, script: Script)
    ensures KeepsWhatItOpens(Handle(e, script))
    decreases |script|, 1
  {
    var closing := if IsCloseConnectionRequired(e) then Attempt(Close, script) else [];
    var opening := if IsOpenConnectionRequired(e) then Attempt(Open, After(script, |closing|)) else [];
    if IsCloseConnectionRequired(e) { AttemptKeeps(Close, script); }
    if IsOpenConnectionRequired(e) { AttemptKeeps(Open, After(script, |closing|)); }
    KeepsConcat(closing, opening);
  }

  /** The handling of an error ends connected if and only if the last open it made succeeded: it never
      closes again what it managed to open. */
  lemma EndsConnectedIfLastOpenWorked(e: Error, script: Script, last: nat)
    requires var calls := Handle(e, script);
      last < |calls| && calls[last].kind == Open && forall i :: last < i < |calls| ==> calls[i].kind == Close
    ensures var calls := Handle(e, script);
      calls[|calls| - 1] == Call(Open, None) <==> calls[last].failure == None
  {
    HandleKeeps(e, script);
    var calls := Handle(e, script);
    if calls[last].failure == None {
      assert OpenedAt(calls, last);
    }
  }

  /** Every open of the calls that failed did so with an error that asks for another one. */
  predicate FailedOpensAskAgain(calls: seq<Call>) {
    calls != [] ==>
      && (calls[0].kind == Open && calls[0].failure.Some? ==> IsOpenConnectionRequired(calls[0].failure.value))
      && FailedOpensAskAgain(calls[1..])
  }

  lemma {:induction false} FailedOpensAskAgainConcat(a: seq<Call>, b: seq<Call>)
    ensures FailedOpensAskAgain(a + b) <==> FailedOpensAskAgain(a) && FailedOpensAskAgain(b)
  {
    if a == [] {
      assert a + b == b;
    } else {
      assert (a + b)[1..] == a[1..] + b;
      FailedOpensAskAgainConcat(a[1..], b);
    }
  }

  /** If every failed open asks for another one, an error that asks for an open is handled until the
      connection is open. Failed closes do not matter. */
  lemma {:induction false} ReopensInTheEnd(e: Error, script: Script)
    requires IsOpenConnectionRequired(e) && FailedOpensAskAgain(Handle(e, script))
    ensures var calls := Handle(e, script); calls != [] && calls[|calls| - 1] == Call(Open, None)
    decreases |script|, 1
  {
    var closing := Attempt(Close, script);
    OpeningMeansClosingAndSurviving(e, "");
    var opening := Attempt(Open, After(script, |closing|));
    assert Handle(e, script) == closing + opening;
    FailedOpensAskAgainConcat(closing, opening);
    OpenAttemptSucceeds(After(script, |closing|));
  }

  lemma {:induction false} OpenAttemptSucceeds(script: Script)
    requires FailedOpensAskAgain(Attempt(Open, script))
    ensures var calls := Attempt(Open, script); calls != [] && calls[|calls| - 1] == Call(Open, None)
    decreases |script|, 0
  {
    if Answer(script).Some? {
      var e := Answer(script).value;
      var calls, rest := Attempt(Open, script), Handle(e, script[1..]);
      assert calls == [Call(Open, Some(e))] + rest;
      assert IsOpenConnectionRequired(calls[0].failure.value);
      FailedOpensAskAgainConcat([Call(Open, Some(e))], rest);
      ReopensInTheEnd(e, script[1..]);
    }
  }

  // ---------------------------------------------------------------------------------------------
  // When a close ends on an open connection

  /** The calls end on an open that worked. */
  predicate EndsOpen(calls: seq<Call>) {
    calls != [] && calls[|calls| - 1] == Call(Open, None)
  }

  /** Whether the calls leave the connection open; None if there are none. */
  function Leaves(calls: seq<Call>): Option<bool> {
    if calls == [] then None else Some(EndsOpen(calls))
  }

  function Then(first: Option<bool>, second: Option<bool>): Option<bool> {
    if second.Some? then second else first
  }

  lemma LeavesConcat(a: seq<Call>, b: seq<Call>)
    ensures Leaves(a + b) == Then(Leaves(a), Leaves(b))
  {
    if b == [] {
      assert a + b == a;
    } else {
      assert (a + b)[|a + b| - 1] == b[|b| - 1];
    }
  }

  predicate Opens(calls: seq<Call>) {
    exists i :: 0 <= i < |calls| && calls[i].kind == Open
  }

  /** The error asks for an open, or asks for a close that fails so often that one of the failures does. */
  predicate LeadsToOpen(e: Error, script: Script)
    decreases |script|, 1
  {
    IsCloseConnectionRequired(e) && (IsOpenConnectionRequired(e) || Chain(script))
  }

  /** The calls to come fail one after the other, each with an error that asks for a close, up to one that
      asks for an open as well. */
  predicate Chain(script: Script)
    decreases |script|, 0
  {
    && script != [] && script[0].Some?
    && LeadsToOpen(script[0].value, script[1..])
  }

  lemma OpensConcat(a: seq<Call>, b: seq<Call>)
    ensures Opens(a + b) <==> Opens(a) || Opens(b)
  {
    if Opens(a) {
      var i :| 0 <= i < |a| && a[i].kind == Open;
      assert (a + b)[i].kind == Open;
    } else if Opens(b) {
      var i :| 0 <= i < |b| && b[i].kind == Open;
      assert (a + b)[|a| + i].kind == Open;
    }
  }

  lemma {:induction false} CloseOpensByChain(script: Script)
    ensures Opens(Attempt(Close, script)) <==> Chain(script)
    decreases |script|, 0
  {
    if Answer(script).Some? {
      var e := Answer(script).value;
      HandleOpensByChain(e, script[1..]);
      OpensConcat([Call(Close, Some(e))], Handle(e, script[1..]));
    }
  }

  /** Whatever else fails, the handling of an error tries to open the connection exactly when the error or a
      chain of failing closes asks for it. */
  lemma {:induction false} HandleOpensByChain(e: Error, script: Script)
    ensures Opens(Handle(e, script)) <==> LeadsToOpen(e, script)
    decreases |script|, 1
  {
    OpeningMeansClosingAndSurviving(e, "");
    var closing := if IsCloseConnectionRequired(e) then Attempt(Close, script) else [];
    var opening := if IsOpenConnectionRequired(e) then Attempt(Open, After(script, |closing|)) else [];
    if IsCloseConnectionRequired(e) { CloseOpensByChain(script); }
    if IsOpenConnectionRequired(e) { assert opening[0].kind == Open; }
    OpensConcat(closing, opening);
  }

  /** A close ends on an open connection exactly when it fails in such a chain, provided that failed opens
      are tried again. Termination closes this way. */
  lemma {:induction false} CloseEndsOpenByChain(script: Script)
    requires FailedOpensAskAgain(Attempt(Close, script))
    ensures EndsOpen(Attempt(Close, script)) <==> Chain(script)
    decreases |script|, 0
  {
    CloseOpensByChain(script);
    if Chain(script) {
      var e := script[0].value;
      assert Attempt(Close, script) == [Call(Close, Some(e))] + Handle(e, script[1..]);
      FailedOpensAskAgainConcat([Call(Close, Some(e))], Handle(e, script[1..]));
      HandleEndsOpenByChain(e, script[1..]);
    }
  }

  /** The same for the handling of any error. */
  lemma {:induction false} HandleEndsOpenByChain(e: Error, script: Script)
    requires FailedOpensAskAgain(Handle(e, script))
    ensures EndsOpen(Handle(e, script)) <==> LeadsToOpen(e, script)
    decreases |script|, 1
  {
    HandleOpensByChain(e, script);
    if IsOpenConnectionRequired(e) {
      OpeningMeansClosingAndSurviving(e, "");
      ReopensInTheEnd(e, script);
    } else if LeadsToOpen(e, script) {
      assert Handle(e, script) == Attempt(Close, script);
      CloseEndsOpenByChain(script);
    }
  }

  /** One close that fails once, with an error that asks for an open: it works the second time, and then the
      connection is opened. */
  lemma CloseMayOpen(e: Error)
    requires IsOpenConnectionRequired(e)
    ensures Attempt(Close, [Some(e)]) == [Call(Close, Some(e)), Call(Close, None), Call(Open, None)]
  {
    assert Handle(e, []) == [Call(Close, None)] + [Call(Open, None)];
  }

  /** An error that is fatal for the sensor access asks for no open, and leads to one when its close fails
      with an error that does. */
  lemma FatalErrorMayOpen(fatal: Error, e: Error)
    requires IsCloseConnectionRequired(fatal) && IsFatalForSensorAccess(fatal) && IsOpenConnectionRequired(e)
    ensures Handle(fatal, [Some(e)]) == [Call(Close, Some(e)), Call(Close, None), Call(Open, None)]
  {
    CloseMayOpen(e);
  }

  // ---------------------------------------------------------------------------------------------
  // When an open connection is opened again

  /** Some call opens the connection. */
  ghost predicate OpensWell(calls: seq<Call>) {
    exists i: nat :: OpenedAt(calls, i)
  }

  /** Some call opens the connection and another call follows it. */
  ghost predicate OpensWellAndGoesOn(calls: seq<Call>) {
    exists i: nat :: OpenedAt(calls, i) && i + 1 < |calls|
  }

  predicate AsksToOpen(call: Call) {
    call.kind == Close && call.failure.Some? && IsOpenConnectionRequired(call.failure.value)
  }

  /** Some close failed with an error that asks for an open. */
  predicate CloseAsksToOpen(calls: seq<Call>) {
    exists i :: 0 <= i < |calls| && AsksToOpen(calls[i])
  }

  lemma CloseAsksConcat(a: seq<Call>, b: seq<Call>)
    ensures CloseAsksToOpen(a + b) <==> CloseAsksToOpen(a) || CloseAsksToOpen(b)
  {
    if CloseAsksToOpen(a) {
      var i :| 0 <= i < |a| && AsksToOpen(a[i]);
      assert AsksToOpen((a + b)[i]);
    } else if CloseAsksToOpen(b) {
      var i :| 0 <= i < |b| && AsksToOpen(b[i]);
      assert AsksToOpen((a + b)[|a| + i]);
    }
  }

  lemma OpensWellConcat(a: seq<Call>, b: seq<Call>)
    ensures OpensWell(a + b) <==> OpensWell(a) || OpensWell(b)
  {
    if OpensWell(a) {
      var i: nat :| OpenedAt(a, i);
      assert OpenedAt(a + b, i);
    } else if OpensWell(b) {
      var i: nat :| OpenedAt(b, i);
      assert OpenedAt(a + b, |a| + i);
    } else if OpensWell(a + b) {
      var i: nat :| OpenedAt(a + b, i);
      assert if i < |a| then OpenedAt(a, i) else OpenedAt(b, i - |a|);
    }
  }

  lemma GoesOnConcat(a: seq<Call>, b: seq<Call>)
    requires b != []
    ensures OpensWellAndGoesOn(a + b) <==> OpensWell(a) || OpensWellAndGoesOn(b)
  {
    if OpensWell(a) {
      var i: nat :| OpenedAt(a, i);
      assert OpenedAt(a + b, i);
    } else if OpensWellAndGoesOn(b) {
      var i: nat :| OpenedAt(b, i) && i + 1 < |b|;
      assert OpenedAt(a + b, |a| + i);
    } else if OpensWellAndGoesOn(a + b) {
      var i: nat :| OpenedAt(a + b, i) && i + 1 < |a + b|;
      assert if i < |a| then OpenedAt(a, i) else OpenedAt(b, i - |a|);
    }
  }

  lemma {:induction false} CloseOpensWell(script: Script)
    requires FailedOpensAskAgain(Attempt(Close, script))
    ensures OpensWell(Attempt(Close, script)) <==> CloseAsksToOpen(Attempt(Close, script))
    decreases |script|
  {
    if Answer(script).Some? {
      var e := Answer(script).value;
      var calls, first, rest := Attempt(Close, script), [Call(Close, Some(e))], Handle(e, script[1..]);
      assert calls == first + rest;
      FailedOpensAskAgainConcat(first, rest);
      OpensWellConcat(first, rest);
      CloseAsksConcat(first, rest);
      if IsOpenConnectionRequired(e) {
        ReopensInTheEnd(e, script[1..]);
        assert AsksToOpen(first[0]) && OpenedAt(rest, |rest| - 1);
      } else if IsCloseConnectionRequired(e) {
        assert rest == Attempt(Close, script[1..]);
        CloseOpensWell(script[1..]);
      }
    }
  }

  lemma {:induction false} OpenGoesOn(script: Script)
    requires FailedOpensAskAgain(Attempt(Open, script))
    ensures OpensWellAndGoesOn(Attempt(Open, script)) <==> CloseAsksToOpen(Attempt(Open, script))
    decreases |script|, 0
  {
    if Answer(script).Some? {
      var e := Answer(script).value;
      var calls, first, rest := Attempt(Open, script), [Call(Open, Some(e))], Handle(e, script[1..]);
      assert calls == first + rest && IsOpenConnectionRequired(calls[0].failure.value);
      FailedOpensAskAgainConcat(first, rest);
      ReopensInTheEnd(e, script[1..]);
      GoesOnConcat(first, rest);
      CloseAsksConcat(first, rest);
      HandleGoesOn(e, script[1..]);
    }
  }

  lemma {:induction false} HandleGoesOn(e: Error, script: Script)
    requires IsOpenConnectionRequired(e) && FailedOpensAskAgain(Handle(e, script))
    ensures OpensWellAndGoesOn(Handle(e, script)) <==> CloseAsksToOpen(Handle(e, script))
    decreases |script|, 1
  {
    OpeningMeansClosingAndSurviving(e, "");
    var closing := Attempt(Close, script);
    var opening := Attempt(Open, After(script, |closing|));
    assert Handle(e, script) == closing + opening;
    FailedOpensAskAgainConcat(closing, opening);
    GoesOnConcat(closing, opening);
    CloseAsksConcat(closing, opening);
    CloseOpensWell(script);
    OpenGoesOn(After(script, |closing|));
  }

  /** Two calls in a row, the first of which opened the connection, open it. */
  ghost predicate OpensTwice(calls: seq<Call>) {
    exists i: nat :: OpenedAt(calls, i) && i + 1 < |calls| && calls[i + 1].kind == Open
  }

  /** Handling an error that asks for an open, where failed opens are tried again, opens a connection that it
      has just opened if and only if one of its closes failed with an error that asks for an open. */
  lemma OpensAnOpenConnection(e: Error, script: Script)
    requires IsOpenConnectionRequired(e) && FailedOpensAskAgain(Handle(e, script))
    ensures OpensTwice(Handle(e, script)) <==> CloseAsksToOpen(Handle(e, script))
  {
    HandleGoesOn(e, script);
    HandleKeeps(e, script);
  }

  lemma MayOpenTwice(e: Error, f: Error)
    requires IsOpenConnectionRequired(e) && IsOpenConnectionRequired(f)
    ensures Handle(e, [Some(f)]) ==
      [Call(Close, Some(f)), Call(Close, None), Call(Open, None), Call(Open, None)]
  {
    CloseMayOpen(f);
  }
}
