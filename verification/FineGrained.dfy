/** One writer and one scheduler on one ring buffer, with every shared access a step of its own.

    The other modules take a write with its notification, and a consumption, as single steps. The code holds
    no lock across them: this module interleaves the writer's pad store, pointer move, cursor test and
    activation with the scheduler's emptiness test, termination test, reference, location tests, advance,
    deactivation and copy. Delivery in order survives (`DeliversInOrder`); the agreement between the ready
    list and the pending data does not (`WakeUpCanBeLost`, `ActivationCanBeSpurious`, `ExitCanLoseData`):
    `AgreesExactlyWhenHarmless` says exactly which runs keep it, `ExitLosesWhatCameBetween` which exits lose data.
  */
module FineGrained {
  import opened Wrappers
  import opened RingSpec

  /** The step the writer takes next. */
  datatype Writer = Idle | Stored | Moved | Notifying

  /** The step the scheduler takes next. `pad` is where its reference points; `advanced` tells whether this
      turn moved the cursor. */
  datatype Reader =
    | TestingEmpty                                // first half of the exit test
    | TestingTermination                          // second half, the ready list having been seen empty
    | Entering                                    // emptiness test of the loop body
    | Referencing                                 // takes the reference to its pad
    | TestingLocation(pad: nat)                   // compares its pad with the writer's
    | Advancing(pad: nat)                         // moves to the next pad
    | Rechecking(pad: nat, advanced: bool)        // compares again
    | Deactivating(pad: nat, advanced: bool)      // leaves the ready list
    | Copying(pad: nat, advanced: bool)           // copies the datum through the reference, hands it over
    | Exited

  datatype State<T> = State(
    pads: seq<T>, writer: nat, cursor: nat, ready: bool, terminated: bool,
    w: Writer, r: Reader,
    written: seq<T>,    // every datum stored
    moves: nat,         // moves of the writer
    advances: nat,      // advances of the scheduler
    delivered: seq<T>,  // what its advancing turns handed over
    stale: seq<T>)      // what its other turns handed over

  datatype Step<T> = Store(data: T) | Move | Test | Activate | Read | Terminate

  function Start<T>(default: T): State<T> {
    State(seq(RING_BUFFER_SIZE, _ => default), 0, 0, false, false, Idle, TestingEmpty, [], 0, 0, [], [])
  }

  ghost predicate InBounds<T>(s: State<T>) {
    && |s.pads| == RING_BUFFER_SIZE && s.writer < RING_BUFFER_SIZE && s.cursor < RING_BUFFER_SIZE
    && (s.r.TestingLocation? || s.r.Advancing? || s.r.Rechecking? || s.r.Deactivating? || s.r.Copying?
        ==> s.r.pad < RING_BUFFER_SIZE)
  }

  predicate Behind<T>(s: State<T>) {
    s.cursor != s.writer
  }

  function ReaderStep<T>(s: State<T>): State<T>
    requires InBounds(s)
  {
    match s.r
    case TestingEmpty => s.(r := if s.ready then Entering else TestingTermination)
    case TestingTermination => s.(r := if s.terminated then Exited else Entering)
    case Entering => s.(r := if s.ready then Referencing else TestingEmpty)
    case Referencing => s.(r := TestingLocation(s.cursor))
    case TestingLocation(pad) => s.(r := if Behind(s) then Advancing(pad) else Rechecking(pad, false))
    case Advancing(pad) => s.(cursor := Next(s.cursor), advances := s.advances + 1, r := Rechecking(pad, true))
    case Rechecking(pad, advanced) => s.(r := if Behind(s) then Copying(pad, advanced) else Deactivating(pad, advanced))
    case Deactivating(pad, advanced) => s.(ready := false, r := Copying(pad, advanced))
    case Copying(pad, advanced) =>
      if advanced then s.(delivered := s.delivered + [s.pads[pad]], r := TestingEmpty)
      else s.(stale := s.stale + [s.pads[pad]], r := TestingEmpty)
    case Exited => s
  }

  /** A step is possible when its thread stands before it; a write is started only with at most 254 data unread. */
  ghost predicate Enabled<T>(s: State<T>, step: Step<T>) {
    match step
    case Store(_) => s.w == Idle && |s.written| - s.advances <= 254
    case Move => s.w == Stored
    case Test => s.w == Moved
    case Activate => s.w == Notifying
    case Read => true
    case Terminate => true
  }

  function Apply<T>(s: State<T>, step: Step<T>): State<T>
    requires InBounds(s)
  {
    match step
    case Store(data) => s.(pads := s.pads[s.writer := data], written := s.written + [data], w := Stored)
    case Move => s.(writer := Next(s.writer), moves := s.moves + 1, w := Moved)
    case Test => s.(w := if Behind(s) then Notifying else Idle)
    case Activate => s.(ready := true, w := Idle)
    case Read => ReaderStep(s)
    case Terminate => s.(terminated := true)
  }

  // ---------------------------------------------------------------------------------------------
  // Delivery in order, at this grain

  /** The turn under way has advanced the cursor and not yet handed its datum over. */
  predicate InHand(r: Reader) {
    match r
    case Rechecking(_, advanced) => advanced
    case Deactivating(_, advanced) => advanced
    case Copying(_, advanced) => advanced
    case _ => false
  }

  ghost predicate Counts<T>(s: State<T>, default: T) {
    && InBounds(s)
    && s.writer == s.moves % 256 && s.cursor == s.advances % 256
    && |s.written| == s.moves + (if s.w == Stored then 1 else 0)
    && s.advances <= s.moves && |s.written| - s.advances <= 255
    && (forall j :: 0 <= j < RING_BUFFER_SIZE ==> s.pads[j] == Latest(s.written, j, default))
  }

  ghost predicate Reference<T>(s: State<T>) {
    match s.r
    case TestingLocation(pad) => pad == s.cursor
    case Advancing(pad) => pad == s.cursor && s.advances < s.moves
    case Rechecking(pad, advanced) => if advanced then s.advances > 0
      && pad == (s.advances - 1) % 256 else pad == s.cursor
    case Deactivating(pad, advanced) => if advanced then s.advances > 0 && pad == (s.advances - 1) % 256 else true
    case Copying(pad, advanced) => if advanced then s.advances > 0 && pad == (s.advances - 1) % 256 else true
    case _ => true
  }

  /** The advancing turns have handed over the beginning of the history: one datum per advance, except the
      one in hand. */
  ghost predicate Ordered<T>(s: State<T>, default: T) {
    && Counts(s, default)
    && Reference(s)
    && s.delivered == s.written[..s.advances - (if InHand(s.r) then 1 else 0)]
  }

  lemma BehindMeansFewer<T>(s: State<T>, default: T)
    requires Counts(s, default)
    ensures Behind(s) <==> s.advances < s.moves
  {
    if s.advances < s.moves { SamePad(s.advances, s.moves - s.advances); }
  }

  lemma StoreKeepsOrder<T>(s: State<T>, data: T, default: T)
    requires Ordered(s, default) && Enabled(s, Store(data))
    ensures Ordered(Apply(s, Store(data)), default)
  {
    var s' := Apply(s, Store(data));
    forall j | 0 <= j < RING_BUFFER_SIZE ensures s'.pads[j] == Latest(s'.written, j, default) {
      LatestAfterWrite(s.written, data, j, default);
    }
    assert s.written <= s'.written;
  }

  lemma WriterKeepsOrder<T>(s: State<T>, step: Step<T>, default: T)
    requires Ordered(s, default) && Enabled(s, step) && (step.Move? || step.Test? || step.Activate? || step.Terminate?)
    ensures Ordered(Apply(s, step), default)
  {
  }

  /** The copy made after the cursor has moved still finds the datum the turn was for: the pad has not been
      written again, because no write starts with more than 254 data unread. */
  lemma CopyFindsItsDatum<T>(s: State<T>, default: T)
    requires Ordered(s, default) && s.r.Copying? && s.r.advanced
    ensures 0 < s.advances <= |s.written| && s.pads[s.r.pad] == s.written[s.advances - 1]
  {
    LatestOfRecent(s.written, s.advances - 1, default);
  }

  lemma CopyKeepsOrder<T>(s: State<T>, default: T)
    requires Ordered(s, default) && s.r.Copying?
    ensures Ordered(ReaderStep(s), default)
  {
    if s.r.advanced {
      CopyFindsItsDatum(s, default);
      assert s.written[..s.advances - 1] + [s.written[s.advances - 1]] == s.written[..s.advances];
    }
  }

  lemma AdvanceKeepsOrder<T>(s: State<T>, default: T)
    requires Ordered(s, default) && s.r.Advancing?
    ensures Ordered(ReaderStep(s), default)
  {
  }

  lemma TestsKeepOrder<T>(s: State<T>, default: T)
    requires Ordered(s, default) && !s.r.Advancing? && !s.r.Copying?
    ensures Ordered(ReaderStep(s), default)
  {
    BehindMeansFewer(s, default);
    var s' := ReaderStep(s);
    assert s' == s.(r := s'.r, ready := s'.ready) && InHand(s'.r) == InHand(s.r);
    assert Counts(s', default);
  }

  lemma ReaderKeepsOrder<T>(s: State<T>, default: T)
    requires Ordered(s, default)
    ensures Ordered(ReaderStep(s), default)
  {
    if s.r.Copying? {
      CopyKeepsOrder(s, default);
    } else if s.r.Advancing? {
      AdvanceKeepsOrder(s, default);
    } else {
      TestsKeepOrder(s, default);
    }
  }

  lemma ApplyKeepsOrder<T>(s: State<T>, step: Step<T>, default: T)
    requires Ordered(s, default) && Enabled(s, step)
    ensures Ordered(Apply(s, step), default)
  {
    match step
    case Store(data) => StoreKeepsOrder(s, data, default);
    case Read => ReaderKeepsOrder(s, default);
    case _ => WriterKeepsOrder(s, step, default);
  }

  ghost predicate EnabledRun<T>(s: State<T>, steps: seq<Step<T>>)
    decreases |steps|
  {
    steps != [] ==> InBounds(s) && Enabled(s, steps[0]) && EnabledRun(Apply(s, steps[0]), steps[1..])
  }

  ghost function Run<T>(s: State<T>, steps: seq<Step<T>>): State<T>
    requires EnabledRun(s, steps)
    decreases |steps|
  {
    if steps == [] then s else Run(Apply(s, steps[0]), steps[1..])
  }

  lemma {:induction false} RunKeepsOrder<T>(s: State<T>, steps: seq<Step<T>>, default: T)
    requires Ordered(s, default) && EnabledRun(s, steps)
    ensures Ordered(Run(s, steps), default)
    decreases |steps|
  {
    if steps != [] {
      ApplyKeepsOrder(s, steps[0], default);
      RunKeepsOrder(Apply(s, steps[0]), steps[1..], default);
    }
  }

  /** The data of the stores, in order. */
  function StoredData<T>(steps: seq<Step<T>>): seq<T> {
    if steps == [] then [] else (if steps[0].Store? then [steps[0].data] else []) + StoredData(steps[1..])
  }

  lemma {:induction false} HistoryIsWhatWasStored<T>(s: State<T>, steps: seq<Step<T>>)
    requires EnabledRun(s, steps)
    ensures Run(s, steps).written == s.written + StoredData(steps)
    decreases |steps|
  {
    if steps != [] {
      HistoryIsWhatWasStored(Apply(s, steps[0]), steps[1..]);
      Associate(s.written, if steps[0].Store? then [steps[0].data] else [], StoredData(steps[1..]));
    }
  }

  /** Whatever the interleaving, the scheduler never advances past the writes and its k-th advancing turn
      hands over the k-th datum written. */
  lemma DeliversInOrder<T>(steps: seq<Step<T>>, default: T)
    requires EnabledRun(Start(default), steps)
    ensures var s := Run(Start(default), steps);
      && s.advances <= |StoredData(steps)|
      && s.delivered <= StoredData(steps)
      && |s.delivered| == s.advances - (if InHand(s.r) then 1 else 0)
  {
    RunKeepsOrder(Start(default), steps, default);
    HistoryIsWhatWasStored(Start(default), steps);
  }

  /** The bound of 254, up to which a write may start, is exact: a write started with 255 data unread replaces
      the datum that the copy is about to read. */
  lemma LateWriteSpoilsTheCopy<T>(s: State<T>, data: T, default: T)
    requires Ordered(s, default) && s.w == Idle && s.r.Copying? && s.r.advanced
    ensures Enabled(s, Store(data)) <==> |s.written| - s.advances <= 254
    ensures Apply(s, Store(data)).pads[s.r.pad]
            == if |s.written| - s.advances <= 254 then s.written[s.advances - 1] else data
  {
    CopyFindsItsDatum(s, default);
    SamePad(s.advances - 1, s.moves - (s.advances - 1));
  }

  // ---------------------------------------------------------------------------------------------
  // Ready list and pending data, at this grain

  /** Between two turns of the loop. */
  predicate Between<T>(s: State<T>) {
    s.r.TestingEmpty? || s.r.TestingTermination? || s.r.Entering? || s.r.Exited?
  }

  /** An activation finds the list as it should leave it: the scheduler is not about to leave the ready list
      on the strength of a test made before the write, and if its turn is over, or all but the copy of it,
      something is pending. */
  predicate Harmless<T>(s: State<T>) {
    && !(s.r.Deactivating? && Behind(s))
    && (Between(s) || s.r.Copying? ==> Behind(s))
  }

  ghost predicate HarmlessRun<T>(s: State<T>, steps: seq<Step<T>>)
    requires EnabledRun(s, steps)
    decreases |steps|
  {
    steps != [] ==>
      && (steps[0] == Activate ==> Harmless(s))
      && HarmlessRun(Apply(s, steps[0]), steps[1..])
  }

  /** How many steps the turn under way still takes at most. */
  function Remaining(r: Reader): nat {
    match r
    case Referencing => 6
    case TestingLocation(_) => 5
    case Advancing(_) => 4
    case Rechecking(_, _) => 3
    case Deactivating(_, _) => 2
    case Copying(_, _) => 1
    case _ => 0
  }

  /** The state once the scheduler has come to the end of its turn, the writer having rested. */
  function TurnEnd<T>(s: State<T>): State<T>
    requires InBounds(s)
    decreases Remaining(s.r)
  {
    if Between(s) then s else TurnEnd(ReaderStep(s))
  }

  /** With no write under way, the buffer is ready at the end of the turn if and only if it has data. */
  ghost predicate Agrees<T>(s: State<T>)
    requires InBounds(s)
  {
    s.w == Idle ==> (TurnEnd(s).ready <==> Behind(TurnEnd(s)))
  }

  ghost predicate AlwaysAgrees<T>(s: State<T>, steps: seq<Step<T>>)
    requires EnabledRun(s, steps)
    decreases |steps|
  {
    InBounds(s) && Agrees(s) && (steps != [] ==> AlwaysAgrees(Apply(s, steps[0]), steps[1..]))
  }

  /** The write under way will still activate. */
  predicate Announced<T>(s: State<T>) {
    s.w == Moved || s.w == Notifying
  }

  ghost predicate Agreeing<T>(s: State<T>, default: T) {
    && Ordered(s, default)
    && (Behind(s) && !s.ready ==> Announced(s))
    && (s.r.Deactivating? && Behind(s) ==> Announced(s))
    && (Between(s) && s.ready ==> Behind(s))
    && (s.r.Copying? && s.ready ==> Behind(s))
    && (s.r.Referencing? || s.r.TestingLocation? ==> Behind(s))
    && (s.r.Rechecking? || s.r.Deactivating? || s.r.Copying? ==> s.r.advanced)
    && s.stale == []
  }

  lemma ReaderKeepsAgreement<T>(s: State<T>, default: T)
    requires Agreeing(s, default)
    ensures Agreeing(ReaderStep(s), default)
  {
    ReaderKeepsOrder(s, default);
  }

  lemma WriterKeepsAgreement<T>(s: State<T>, step: Step<T>, default: T)
    requires Agreeing(s, default) && Enabled(s, step) && step != Read && (step == Activate ==> Harmless(s))
    ensures Agreeing(Apply(s, step), default)
  {
    ApplyKeepsOrder(s, step, default);
    BehindMeansFewer(s, default);
    BehindMeansFewer(Apply(s, step), default);
  }

  lemma ApplyKeepsAgreement<T>(s: State<T>, step: Step<T>, default: T)
    requires Agreeing(s, default) && Enabled(s, step) && (step == Activate ==> Harmless(s))
    ensures Agreeing(Apply(s, step), default)
  {
    if step == Read { ReaderKeepsAgreement(s, default); } else { WriterKeepsAgreement(s, step, default); }
  }

  lemma {:induction false} AgreeingAgrees<T>(s: State<T>, default: T)
    requires Agreeing(s, default)
    ensures Agrees(s)
    decreases Remaining(s.r)
  {
    if !Between(s) {
      ReaderKeepsAgreement(s, default);
      AgreeingAgrees(ReaderStep(s), default);
    }
  }

  /** The harm an activation does shows at the end of the scheduler's turn: the buffer is then ready without
      data, or has data without being ready, exactly when the activation was not harmless. */
  lemma HarmShows<T>(s: State<T>, default: T)
    requires Agreeing(s, default) && s.w == Notifying
    ensures Agrees(Apply(s, Activate)) <==> Harmless(s)
  {
    var s' := Apply(s, Activate);
    if Harmless(s) {
      WriterKeepsAgreement(s, Activate, default);
      AgreeingAgrees(s', default);
    } else if s.r.Deactivating? {
      var copying := ReaderStep(s');
      var done := ReaderStep(copying);
      assert copying.r.Copying? && Between(done);
      assert TurnEnd(copying) == TurnEnd(done) == done;
    } else if s.r.Copying? {
      assert TurnEnd(s') == ReaderStep(s');
    }
  }

  lemma {:induction false} RunKeepsAgreement<T>(s: State<T>, steps: seq<Step<T>>, default: T)
    requires Agreeing(s, default) && EnabledRun(s, steps) && HarmlessRun(s, steps)
    ensures Agreeing(Run(s, steps), default)
    decreases |steps|
  {
    if steps != [] {
      ApplyKeepsAgreement(s, steps[0], default);
      RunKeepsAgreement(Apply(s, steps[0]), steps[1..], default);
    }
  }

  lemma {:induction false} RunAgreesIfHarmless<T>(s: State<T>, steps: seq<Step<T>>, default: T)
    requires Agreeing(s, default) && EnabledRun(s, steps)
    ensures AlwaysAgrees(s, steps) <==> HarmlessRun(s, steps)
    decreases |steps|
  {
    AgreeingAgrees(s, default);
    if steps != [] {
      if steps[0] == Activate && !Harmless(s) {
        HarmShows(s, default);
      } else {
        ApplyKeepsAgreement(s, steps[0], default);
        RunAgreesIfHarmless(Apply(s, steps[0]), steps[1..], default);
      }
    }
  }

  /** Exactly the runs whose activations are all harmless keep the ready list and the data in agreement
      throughout: in every state with no write under way, the scheduler ends its turn on a ready list that
      tells whether data are pending. */
  lemma AgreesExactlyWhenHarmless<T>(steps: seq<Step<T>>, default: T)
    requires EnabledRun(Start(default), steps)
    ensures AlwaysAgrees(Start(default), steps) <==> HarmlessRun(Start(default), steps)
  {
    RunAgreesIfHarmless(Start(default), steps, default);
  }

  /** In such a run nothing but the history is ever handed over, and between two turns, with no write under
      way, the buffer is ready if and only if a datum has not been handed over. */
  lemma HarmlessRunsDeliver<T>(steps: seq<Step<T>>, default: T)
    requires EnabledRun(Start(default), steps) && HarmlessRun(Start(default), steps)
    ensures var s := Run(Start(default), steps);
      && s.stale == []
      && (s.w == Idle && Between(s) ==> (s.ready <==> |s.delivered| < |StoredData(steps)|))
  {
    RunKeepsAgreement(Start(default), steps, default);
    HistoryIsWhatWasStored(Start(default), steps);
    BehindMeansFewer(Run(Start(default), steps), default);
  }

  /** The exit test reads the list first and the flag second. Leaving then loses data if and only if an
      activation came between the two. */
  lemma ExitLosesWhatCameBetween<T>(s: State<T>, default: T)
    requires Agreeing(s, default) && s.w == Idle && s.r == TestingTermination && s.terminated
    ensures var s' := ReaderStep(s);
      s'.r == Exited && (|s'.delivered| < |s'.written| <==> s.ready)
  {
    BehindMeansFewer(s, default);
  }

  // ---------------------------------------------------------------------------------------------
  // What the location test is for

  /** Nothing comes between a test that found the cursor elsewhere and its activation. */
  ghost predicate ActivatesAtOnce<T>(s: State<T>, steps: seq<Step<T>>)
    requires EnabledRun(s, steps)
    decreases |steps|
  {
    steps != [] ==>
      && (s.w == Notifying ==> steps[0] == Activate)
      && ActivatesAtOnce(Apply(s, steps[0]), steps[1..])
  }

  /** What such runs keep: a buffer is ready, and a turn under way, only with a datum to take. */
  ghost predicate Purposeful<T>(s: State<T>, default: T) {
    && Ordered(s, default)
    && (s.w == Notifying ==> Behind(s))
    && (Between(s) && s.ready ==> Behind(s))
    && (s.r.Copying? && s.ready ==> Behind(s))
    && (s.r.Referencing? || s.r.TestingLocation? ==> Behind(s))
    && (s.r.Rechecking? || s.r.Deactivating? || s.r.Copying? ==> s.r.advanced)
    && s.stale == []
  }

  lemma ReaderKeepsPurpose<T>(s: State<T>, default: T)
    requires Purposeful(s, default) && s.w != Notifying
    ensures Purposeful(ReaderStep(s), default)
  {
    ReaderKeepsOrder(s, default);
  }

  lemma WriterKeepsPurpose<T>(s: State<T>, step: Step<T>, default: T)
    requires Purposeful(s, default) && Enabled(s, step) && step != Read
    ensures Purposeful(Apply(s, step), default)
  {
    ApplyKeepsOrder(s, step, default);
    BehindMeansFewer(s, default);
    BehindMeansFewer(Apply(s, step), default);
  }

  lemma {:induction false} RunKeepsPurpose<T>(s: State<T>, steps: seq<Step<T>>, default: T)
    requires Purposeful(s, default) && EnabledRun(s, steps) && ActivatesAtOnce(s, steps)
    ensures Purposeful(Run(s, steps), default)
    decreases |steps|
  {
    if steps != [] {
      if steps[0] == Read { ReaderKeepsPurpose(s, default); } else { WriterKeepsPurpose(s, steps[0], default); }
      RunKeepsPurpose(Apply(s, steps[0]), steps[1..], default);
    }
  }

  /** Stale data come from late activations only: if no step comes between a test and its activation, nothing
      but the history is handed over, whatever else interleaves. */
  lemma NothingStaleIfActivatedAtOnce<T>(steps: seq<Step<T>>, default: T)
    requires EnabledRun(Start(default), steps) && ActivatesAtOnce(Start(default), steps)
    ensures Run(Start(default), steps).stale == []
  {
    RunKeepsPurpose(Start(default), steps, default);
  }

  // ---------------------------------------------------------------------------------------------
  // Runs that break the agreement

  lemma {:induction false} Extend<T>(start: State<T>, steps: seq<Step<T>>, step: Step<T>) returns (longer: seq<Step<T>>)
    requires EnabledRun(start, steps) && InBounds(Run(start, steps)) && Enabled(Run(start, steps), step)
    ensures EnabledRun(start, longer) && Run(start, longer) == Apply(Run(start, steps), step)
    decreases |steps|
  {
    if steps == [] {
      longer := [step];
      assert longer[1..] == [];
    } else {
      var rest := Extend(Apply(start, steps[0]), steps[1..], step);
      longer := [steps[0]] + rest;
      assert longer[1..] == rest;
    }
  }

  /** The state after a whole write up to its test. */
  function Written<T>(s: State<T>, data: T): State<T>
    requires InBounds(s)
  {
    s.(pads := s.pads[s.writer := data], written := s.written + [data], writer := Next(s.writer), moves := s.moves + 1,
       w := Notifying)
  }

  lemma WriteUpToTest<T>(start: State<T>, steps: seq<Step<T>>, data: T) returns (longer: seq<Step<T>>)
    requires EnabledRun(start, steps) && InBounds(Run(start, steps)) && Enabled(Run(start, steps), Store(data))
    requires Run(start, steps).cursor != Next(Run(start, steps).writer)
    ensures EnabledRun(start, longer) && Run(start, longer) == Written(Run(start, steps), data)
  {
    longer := Extend(start, steps, Store(data));
    longer := Extend(start, longer, Move);
    longer := Extend(start, longer, Test);
  }

  lemma TurnUpToLocationTest<T>(start: State<T>, steps: seq<Step<T>>) returns (longer: seq<Step<T>>)
    requires EnabledRun(start, steps) && InBounds(Run(start, steps))
    requires var s := Run(start, steps); s.r == TestingEmpty && s.ready
    ensures EnabledRun(start, longer)
    ensures Run(start, longer) == Run(start, steps).(r := TestingLocation(Run(start, steps).cursor))
  {
    longer := Extend(start, steps, Read);
    longer := Extend(start, longer, Read);
    longer := Extend(start, longer, Read);
  }

  /** The rest of a turn up to its deactivation: exactly one datum was pending. */
  lemma LocationTestUpToDeactivation<T>(start: State<T>, steps: seq<Step<T>>) returns (longer: seq<Step<T>>)
    requires EnabledRun(start, steps) && InBounds(Run(start, steps))
    requires var s := Run(start, steps); s.r == TestingLocation(s.cursor) && Behind(s) && Next(s.cursor) == s.writer
    ensures EnabledRun(start, longer)
    ensures var s := Run(start, steps);
      Run(start, longer) == s.(cursor := s.writer, advances := s.advances + 1, r := Deactivating(s.cursor, true))
  {
    longer := Extend(start, steps, Read);
    longer := Extend(start, longer, Read);
    longer := Extend(start, longer, Read);
  }

  /** A wake-up lost for good: b is written between the scheduler's last location test and its
      deactivation. Both threads are idle, b is pending, and the buffer is not ready. */
  lemma WakeUpCanBeLost<T>(default: T, a: T, b: T) returns (steps: seq<Step<T>>)
    ensures EnabledRun(Start(default), steps)
    ensures var s := Run(Start(default), steps);
      s.w == Idle && s.r == TestingEmpty && !s.ready && s.written == [a, b] && s.delivered == [a]
  {
    var start := Start(default);
    steps := WriteUpToTest(start, [], a);
    steps := Extend(start, steps, Activate);
    steps := TurnUpToLocationTest(start, steps);
    steps := LocationTestUpToDeactivation(start, steps);
    steps := WriteUpToTest(start, steps, b);
    steps := Extend(start, steps, Activate);
    steps := Extend(start, steps, Read);
    steps := Extend(start, steps, Read);
  }

  /** A spurious activation: b is consumed between the writer's test and its activation. The scheduler then
      hands over the content of a pad that was never written, here the default datum. */
  lemma ActivationCanBeSpurious<T>(default: T, a: T, b: T) returns (steps: seq<Step<T>>)
    ensures EnabledRun(Start(default), steps)
    ensures var s := Run(Start(default), steps);
      s.written == [a, b] && s.delivered == [a, b] && s.stale == [default]
  {
    var start := Start(default);
    steps := WriteUpToTest(start, [], a);
    steps := Extend(start, steps, Activate);
    steps := TurnUpToLocationTest(start, steps);
    steps := WriteUpToTest(start, steps, b);
    steps := FinishTurnAndTurnAgain(start, steps);
    steps := Extend(start, steps, Activate);
    steps := StaleTurn(start, steps);
  }

  lemma FinishTurn<T>(start: State<T>, steps: seq<Step<T>>) returns (longer: seq<Step<T>>)
    requires EnabledRun(start, steps) && InBounds(Run(start, steps))
    requires var s := Run(start, steps); s.r == TestingLocation(s.cursor) && Behind(s) && Next(s.cursor) != s.writer
    ensures EnabledRun(start, longer)
    ensures var s := Run(start, steps);
      Run(start, longer) == s.(cursor := Next(s.cursor), advances := s.advances + 1, r := TestingEmpty,
                               delivered := s.delivered + [s.pads[s.cursor]])
  {
    var s := Run(start, steps);
    longer := Extend(start, steps, Read);
    longer := Extend(start, longer, Read);
    var moved := s.(cursor := Next(s.cursor), advances := s.advances + 1, r := Rechecking(s.cursor, true));
    assert Run(start, longer) == moved;
    longer := Extend(start, longer, Read);
    assert Run(start, longer) == moved.(r := Copying(s.cursor, true));
    longer := Extend(start, longer, Read);
  }

  lemma FinishTurnAndTurnAgain<T>(start: State<T>, steps: seq<Step<T>>) returns (longer: seq<Step<T>>)
    requires EnabledRun(start, steps) && InBounds(Run(start, steps))
    requires var s := Run(start, steps);
      && s.r == TestingLocation(s.cursor) && s.ready && Behind(s)
      && Next(s.cursor) != s.writer && Next(Next(s.cursor)) == s.writer
    ensures EnabledRun(start, longer)
    ensures var s := Run(start, steps);
      Run(start, longer) == s.(cursor := s.writer, advances := s.advances + 2, ready := false, r := TestingEmpty,
                               delivered := s.delivered + [s.pads[s.cursor]] + [s.pads[Next(s.cursor)]])
  {
    longer := FinishTurn(start, steps);
    longer := TurnUpToLocationTest(start, longer);
    longer := LocationTestUpToDeactivation(start, longer);
    longer := Extend(start, longer, Read);
    longer := Extend(start, longer, Read);
  }

  lemma StaleTurn<T>(start: State<T>, steps: seq<Step<T>>) returns (longer: seq<Step<T>>)
    requires EnabledRun(start, steps) && InBounds(Run(start, steps))
    requires var s := Run(start, steps); s.r == TestingEmpty && s.ready && !Behind(s)
    ensures EnabledRun(start, longer)
    ensures var s := Run(start, steps);
      Run(start, longer) == s.(ready := false, r := TestingEmpty, stale := s.stale + [s.pads[s.cursor]])
  {
    longer := TurnUpToLocationTest(start, steps);
    longer := Extend(start, longer, Read);
    longer := Extend(start, longer, Read);
    longer := Extend(start, longer, Read);
    longer := Extend(start, longer, Read);
  }

  /** Data lost at the exit: a is written, in full, between the two halves of the exit test. */
  lemma ExitCanLoseData<T>(default: T, a: T) returns (steps: seq<Step<T>>)
    ensures EnabledRun(Start(default), steps)
    ensures var s := Run(Start(default), steps);
      s.w == Idle && s.r == Exited && s.ready && s.written == [a] && s.delivered == []
  {
    var start := Start(default);
    steps := Extend(start, [], Read);
    steps := WriteUpToTest(start, steps, a);
    steps := Extend(start, steps, Activate);
    steps := Extend(start, steps, Terminate);
    steps := Extend(start, steps, Read);
  }
}
