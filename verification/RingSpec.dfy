/** RingBuffer as a function of its pads, its writer position and its consumers' positions, with what
    every sequence of writes, links and consumptions keeps.

    A pad is designated by its number; the pads form one cycle (`Next`).
  */
module RingSpec {
  import opened Wrappers

  const RING_BUFFER_SIZE: nat := 256

  datatype Ring<T, C> = Ring(pads: seq<T>, writer: nat, cursors: map<C, nat>)

  /** The pad after a pad. */
  function Next(pad: nat): (next: nat)
    requires pad < RING_BUFFER_SIZE
    ensures next < RING_BUFFER_SIZE
    ensures next == (pad + 1) % 256
  {
    if pad + 1 == RING_BUFFER_SIZE then 0 else pad + 1
  }

  ghost predicate WellFormed<T, C>(r: Ring<T, C>) {
    && |r.pads| == RING_BUFFER_SIZE
    && r.writer < RING_BUFFER_SIZE
    && forall c | c in r.cursors :: r.cursors[c] < RING_BUFFER_SIZE
  }

  function New<T, C>(default: T): Ring<T, C> {
    Ring(seq(RING_BUFFER_SIZE, _ => default), 0, map[])
  }

  function Write<T, C>(r: Ring<T, C>, data: T): Ring<T, C>
    requires WellFormed(r)
  {
    r.(pads := r.pads[r.writer := data], writer := Next(r.writer))
  }

  /** The consumers a notification activates: those standing elsewhere than the writer. */
  predicate Lags<T, C(==)>(r: Ring<T, C>, c: C) {
    c in r.cursors && r.cursors[c] != r.writer
  }

  /** addLinkIfNoneExists: an unknown consumer starts on the first pad. */
  function Link<T, C(==)>(r: Ring<T, C>, c: C): Ring<T, C> {
    if c in r.cursors then r else r.(cursors := r.cursors[c := 0])
  }

  function Read<T, C(==)>(r: Ring<T, C>, c: C): T
    requires WellFormed(r) && c in r.cursors
  {
    r.pads[r.cursors[c]]
  }

  function Advanced<T, C(==)>(r: Ring<T, C>, c: C): Ring<T, C>
    requires WellFormed(r) && c in r.cursors
  {
    if r.cursors[c] != r.writer then r.(cursors := r.cursors[c := Next(r.cursors[c])]) else r
  }

  /** consumeNextDataFor up to the deactivation: link if needed, read, advance unless at the writer. */
  function Consume<T, C(==)>(r: Ring<T, C>, c: C): (Ring<T, C>, T)
    requires WellFormed(r)
  {
    var linked := Link(r, c);
    (Advanced(linked, c), Read(linked, c))
  }

  // ---------------------------------------------------------------------------------------------
  // What is left to read

  /** How many steps lead from one pad to another around the cycle. */
  function Gap(from: nat, to: nat): nat
    requires from < RING_BUFFER_SIZE && to < RING_BUFFER_SIZE
  {
    if from <= to then to - from else RING_BUFFER_SIZE - from + to
  }

  /** The pads from one position up to, but not including, another. */
  function Between<T>(pads: seq<T>, from: nat, to: nat): (data: seq<T>)
    requires |pads| == RING_BUFFER_SIZE && from < RING_BUFFER_SIZE && to < RING_BUFFER_SIZE
    ensures |data| == Gap(from, to)
    decreases Gap(from, to)
  {
    if from == to then [] else [pads[from]] + Between(pads, Next(from), to)
  }

  /** The data a consumer has before it, next one first. */
  function Pending<T, C(==)>(r: Ring<T, C>, c: C): (data: seq<T>)
    requires WellFormed(r) && c in r.cursors
    ensures data == [] <==> !Lags(r, c)
  {
    Between(r.pads, r.cursors[c], r.writer)
  }

  /** A consumption takes the first pending datum and changes nothing for the others. */
  lemma ConsumeTakesPending<T, C>(r: Ring<T, C>, c: C)
    requires WellFormed(r) && c in r.cursors && Lags(r, c)
    ensures var (r', data) := Consume(r, c);
      && WellFormed(r') && r'.pads == r.pads && r'.writer == r.writer && r'.cursors.Keys == r.cursors.Keys
      && Pending(r, c) == [data] + Pending(r', c)
      && (forall d | d in r.cursors && d != c :: r'.cursors[d] == r.cursors[d])
  {
  }

  // ---------------------------------------------------------------------------------------------
  // Whole runs

  datatype Event<T, C> = Wrote(data: T) | Linked(c: C) | Consumed(c: C)

  /** A ring with the history of its run: everything written, and for each consumer the number of writes
      at its link and the data its advancing consumptions delivered. */
  datatype Log<T, C> = Log(
    ring: Ring<T, C>,
    written: seq<T>,
    linkedAt: map<C, nat>,
    stream: map<C, seq<T>>)

  function Start<T, C>(default: T): Log<T, C> {
    Log(New(default), [], map[], map[])
  }

  function LogLink<T, C(==)>(l: Log<T, C>, c: C): Log<T, C> {
    if c in l.ring.cursors then l
    else Log(Link(l.ring, c), l.written, l.linkedAt[c := |l.written|], l.stream[c := []])
  }

  function Happens<T, C(==)>(l: Log<T, C>, e: Event<T, C>): Log<T, C>
    requires WellFormed(l.ring) && l.stream.Keys == l.ring.cursors.Keys
  {
    match e
    case Wrote(data) => l.(ring := Write(l.ring, data), written := l.written + [data])
    case Linked(c) => LogLink(l, c)
    case Consumed(c) =>
      var linked := LogLink(l, c);
      var (ring, data) := Consume(l.ring, c);
      linked.(ring := ring,
              stream := if Lags(linked.ring, c) then linked.stream[c := linked.stream[c] + [data]] else linked.stream)
  }

  /** The last write whose number is congruent to the pad's, or the default. */
  function Latest<T>(written: seq<T>, pad: nat, default: T): T
    requires pad < RING_BUFFER_SIZE
  {
    if written == [] then default
    else if (|written| - 1) % 256 == pad then written[|written| - 1]
    else Latest(written[..|written| - 1], pad, default)
  }

  /** Ring arithmetic: every pad holds its latest write, the writer stands at the number of writes and
      each consumer at the number of its advances, all modulo 256. */
  ghost predicate Arithmetic<T, C>(l: Log<T, C>, default: T) {
    && WellFormed(l.ring)
    && l.stream.Keys == l.ring.cursors.Keys == l.linkedAt.Keys
    && l.ring.writer == |l.written| % 256
    && (forall j :: 0 <= j < RING_BUFFER_SIZE ==> l.ring.pads[j] == Latest(l.written, j, default))
    && (forall c | c in l.stream :: l.ring.cursors[c] == |l.stream[c]| % 256)
  }

  lemma StartArithmetic<T, C>(default: T)
    ensures Arithmetic(Start<T, C>(default), default)
  {
  }

  lemma LatestAfterWrite<T>(written: seq<T>, data: T, pad: nat, default: T)
    requires pad < RING_BUFFER_SIZE
    ensures Latest(written + [data], pad, default)
            == if |written| % 256 == pad then data else Latest(written, pad, default)
  {
    assert (written + [data])[..|written|] == written;
  }

  lemma WriteArithmetic<T, C>(l: Log<T, C>, data: T, default: T)
    requires Arithmetic(l, default)
    ensures Arithmetic(Happens(l, Wrote(data)), default)
  {
    var l' := Happens(l, Wrote(data));
    forall j | 0 <= j < RING_BUFFER_SIZE ensures l'.ring.pads[j] == Latest(l'.written, j, default) {
      LatestAfterWrite(l.written, data, j, default);
    }
  }

  lemma LinkArithmetic<T, C>(l: Log<T, C>, c: C, default: T)
    requires Arithmetic(l, default)
    ensures Arithmetic(LogLink(l, c), default)
  {
  }

  lemma AdvanceCounts<T, C>(ring: Ring<T, C>, c: C, advances: nat)
    requires WellFormed(ring) && Lags(ring, c) && ring.cursors[c] == advances % 256
    ensures Advanced(ring, c).cursors[c] == (advances + 1) % 256
  {
  }

  lemma ConsumeArithmetic<T, C>(l: Log<T, C>, c: C, default: T)
    requires Arithmetic(l, default) && c in l.ring.cursors
    ensures Arithmetic(Happens(l, Consumed(c)), default)
  {
    var l' := Happens(l, Consumed(c));
    assert LogLink(l, c) == l && Link(l.ring, c) == l.ring;
    if Lags(l.ring, c) {
      AdvanceCounts(l.ring, c, |l.stream[c]|);
      forall d | d in l'.stream ensures l'.ring.cursors[d] == |l'.stream[d]| % 256 {
        assert d != c ==> l'.stream[d] == l.stream[d];
      }
    } else {
      assert l' == l;
    }
  }

  lemma ConsumeIsLinkThenConsume<T, C>(l: Log<T, C>, c: C, default: T)
    requires Arithmetic(l, default)
    ensures Arithmetic(LogLink(l, c), default)
    ensures Happens(l, Consumed(c)) == Happens(LogLink(l, c), Consumed(c))
  {
    LinkArithmetic(l, c, default);
    assert Link(Link(l.ring, c), c) == Link(l.ring, c);
  }

  lemma HappensArithmetic<T, C>(l: Log<T, C>, e: Event<T, C>, default: T)
    requires Arithmetic(l, default)
    ensures Arithmetic(Happens(l, e), default)
  {
    match e
    case Wrote(data) => WriteArithmetic(l, data, default);
    case Linked(c) => LinkArithmetic(l, c, default);
    case Consumed(c) =>
      ConsumeIsLinkThenConsume(l, c, default);
      ConsumeArithmetic(LogLink(l, c), c, default);
  }

  ghost function Run<T, C>(l: Log<T, C>, events: seq<Event<T, C>>, default: T): (end: Log<T, C>)
    requires Arithmetic(l, default)
    ensures Arithmetic(end, default)
    decreases |events|
  {
    if events == [] then l
    else
      HappensArithmetic(l, events[0], default);
      Run(Happens(l, events[0]), events[1..], default)
  }

  /** The data of the write events, in order. */
  function DataOf<T, C>(events: seq<Event<T, C>>): seq<T> {
    if events == [] then []
    else (if events[0].Wrote? then [events[0].data] else []) + DataOf(events[1..])
  }

  lemma {:induction false} RunWrites<T, C>(l: Log<T, C>, events: seq<Event<T, C>>, default: T)
    requires Arithmetic(l, default)
    ensures Run(l, events, default).written == l.written + DataOf(events)
    decreases |events|
  {
    if events == [] {
      assert l.written + DataOf(events) == l.written;
    } else {
      HappensArithmetic(l, events[0], default);
      RunWrites(Happens(l, events[0]), events[1..], default);
      var first := if events[0].Wrote? then [events[0].data] else [];
      assert Happens(l, events[0]).written == l.written + first;
      Associate(l.written, first, DataOf(events[1..]));
    }
  }

  lemma SameResidue(a: nat, b: nat)
    ensures (a - b) % 256 == 0 <==> a % 256 == b % 256
  {
  }

  lemma CountsTell<T, C>(l: Log<T, C>, default: T, c: C)
    requires Arithmetic(l, default) && c in l.stream
    ensures (l.ring.cursors[c] - |l.stream[c]|) % 256 == 0
    ensures Lags(l.ring, c) <==> (|l.written| - |l.stream[c]|) % 256 != 0
  {
    SameResidue(|l.written|, |l.stream[c]|);
    SameResidue(l.ring.cursors[c], |l.stream[c]|);
  }

  lemma ArithmeticFrom<T, C>(l: Log<T, C>, events: seq<Event<T, C>>, default: T, c: C)
    requires Arithmetic(l, default)
    ensures var end := Run(l, events, default);
      && end.written == l.written + DataOf(events)
      && (forall j :: 0 <= j < RING_BUFFER_SIZE ==> end.ring.pads[j] == Latest(end.written, j, default))
      && (c in end.stream ==>
            && (end.ring.cursors[c] - |end.stream[c]|) % 256 == 0
            && (Lags(end.ring, c) <==> (|end.written| - |end.stream[c]|) % 256 != 0))
  {
    RunWrites(l, events, default);
    if c in Run(l, events, default).stream {
      CountsTell(Run(l, events, default), default, c);
    }
  }

  /** Ring arithmetic over every run of a new ring, with no assumption on how far consumers lag: the pads hold
      the latest writes, a consumer's distance to the writer is writes minus advances modulo 256, and so a
      consumer looks as if it had nothing to read exactly when that difference is a multiple of 256. */
  lemma RunArithmetic<T, C>(events: seq<Event<T, C>>, default: T, c: C)
    ensures Arithmetic(Start<T, C>(default), default)
    ensures var end := Run(Start(default), events, default);
      && end.written == DataOf(events)
      && (forall j :: 0 <= j < RING_BUFFER_SIZE ==> end.ring.pads[j] == Latest(end.written, j, default))
      && (c in end.stream ==>
            && (end.ring.cursors[c] - |end.stream[c]|) % 256 == 0
            && (Lags(end.ring, c) <==> (|end.written| - |end.stream[c]|) % 256 != 0))
  {
    StartArithmetic<T, C>(default);
    ArithmeticFrom(Start(default), events, default, c);
    assert [] + DataOf(events) == DataOf(events);
  }

  lemma {:induction false} BetweenIsLast<T>(pads: seq<T>, written: seq<T>, default: T, last: nat)
    requires |pads| == RING_BUFFER_SIZE && last <= |written| && last <= 255
    requires forall j :: 0 <= j < RING_BUFFER_SIZE ==> pads[j] == Latest(written, j, default)
    ensures Between(pads, (|written| - last) % 256, |written| % 256) == written[|written| - last..]
    decreases last
  {
    if last > 0 {
      var first := |written| - last;
      SamePad(first, last);
      LatestOfRecent(written, first, default);
      WriterMoves(first % 256, first);
      BetweenIsLast(pads, written, default, last - 1);
      assert written[first..] == [written[first]] + written[first + 1..];
    }
  }

  /** What is left for a consumer however far it lags: the last (lag modulo 256) data written. A consumer
      left 256 behind or more loses the writes before them. */
  lemma LagDecidesWhatIsLeft<T, C>(l: Log<T, C>, default: T, c: C)
    requires Arithmetic(l, default) && c in l.stream && |l.stream[c]| <= |l.written|
    ensures Pending(l.ring, c) == l.written[|l.written| - (|l.written| - |l.stream[c]|) % 256..]
  {
    var last := (|l.written| - |l.stream[c]|) % 256;
    StandsAtLast(|l.written|, |l.stream[c]|, last);
    BetweenIsLast(l.ring.pads, l.written, default, last);
    assert l.ring.cursors[c] == (|l.written| - last) % 256;
  }

  lemma StandsAtLast(writes: nat, advances: nat, last: nat)
    requires advances <= writes && last == (writes - advances) % 256
    ensures last <= writes && last <= 255 && (writes - last) % 256 == advances % 256
  {
    var laps := (writes - advances) / 256;
    assert writes - last == advances + 256 * laps;
    SameResidue(writes - last, advances);
  }

  // ---------------------------------------------------------------------------------------------
  // Delivery in order

  /** Where the stream of a consumer linked after some writes starts: the last multiple of 256. */
  function Base<T, C>(l: Log<T, C>, c: C): nat
    requires c in l.linkedAt
  {
    l.linkedAt[c] - l.linkedAt[c] % 256
  }

  /** The writes a consumer has not advanced over yet, counted from its base. */
  function Unread<T, C>(l: Log<T, C>, c: C): int
    requires c in l.linkedAt && c in l.stream
  {
    |l.written| - (Base(l, c) + |l.stream[c]|)
  }

  /** The consumer has been handed the contiguous slice of the history that starts at its base, and is
      at most 255 writes behind. */
  ghost predicate InStep<T, C>(l: Log<T, C>, c: C)
    requires c in l.linkedAt && c in l.stream
  {
    && 0 <= Unread(l, c) <= 255
    && l.stream[c] == l.written[Base(l, c)..Base(l, c) + |l.stream[c]|]
  }

  /** No write of the run finds the consumer more than 254 writes behind. */
  ghost predicate NeverLapped<T, C>(l: Log<T, C>, events: seq<Event<T, C>>, default: T, c: C)
    requires Arithmetic(l, default)
    decreases |events|
  {
    events != [] ==>
      && (events[0].Wrote? && c in l.stream ==> Unread(l, c) <= 254)
      && (HappensArithmetic(l, events[0], default); NeverLapped(Happens(l, events[0]), events[1..], default, c))
  }

  lemma {:induction false} LatestOfRecent<T>(written: seq<T>, index: nat, default: T)
    requires index < |written| <= index + 256
    ensures Latest(written, index % 256, default) == written[index]
    decreases |written|
  {
    if |written| - 1 != index {
      LatestOfRecent(written[..|written| - 1], index, default);
    }
  }

  lemma WriteKeepsInStep<T, C>(l: Log<T, C>, data: T, default: T, c: C)
    requires Arithmetic(l, default) && c in l.stream && InStep(l, c) && Unread(l, c) <= 254
    ensures InStep(Happens(l, Wrote(data)), c)
  {
  }

  lemma LinkIsInStep<T, C>(l: Log<T, C>, default: T, c: C)
    requires Arithmetic(l, default) && c !in l.stream
    ensures c in LogLink(l, c).stream && InStep(LogLink(l, c), c)
  {
  }

  lemma OtherKeepsInStep<T, C>(l: Log<T, C>, e: Event<T, C>, default: T, c: C)
    requires Arithmetic(l, default) && c in l.stream && InStep(l, c)
    requires e.Linked? || (e.Consumed? && e.c != c)
    ensures c in Happens(l, e).stream && InStep(Happens(l, e), c)
  {
  }

  /** An advancing consumption hands over the next write not handed over yet. */
  lemma ConsumeDeliversNext<T, C>(l: Log<T, C>, default: T, c: C)
    requires Arithmetic(l, default) && c in l.stream && InStep(l, c)
    ensures Lags(l.ring, c) <==> Unread(l, c) > 0
    ensures Lags(l.ring, c) ==> Read(l.ring, c) == l.written[Base(l, c) + |l.stream[c]|]
    ensures var l' := Happens(l, Consumed(c));
      && InStep(l', c)
      && Unread(l', c) == (if Unread(l, c) > 0 then Unread(l, c) - 1 else 0)
  {
    var next := Base(l, c) + |l.stream[c]|;
    assert next % 256 == l.ring.cursors[c] by { MultipleOf256(l.linkedAt[c], |l.stream[c]|); }
    if Lags(l.ring, c) {
      LatestOfRecent(l.written, next, default);
      assert l.written[Base(l, c)..next] + [l.written[next]] == l.written[Base(l, c)..next + 1];
    }
  }

  lemma HappensKeepsInStep<T, C>(l: Log<T, C>, e: Event<T, C>, default: T, c: C)
    requires Arithmetic(l, default) && (c in l.stream ==> InStep(l, c))
    requires e.Wrote? && c in l.stream ==> Unread(l, c) <= 254
    ensures var l' := Happens(l, e); Arithmetic(l', default) && (c in l'.stream ==> InStep(l', c))
  {
    HappensArithmetic(l, e, default);
    if c in l.stream {
      match e
      case Wrote(data) => WriteKeepsInStep(l, data, default, c);
      case Linked(_) => OtherKeepsInStep(l, e, default, c);
      case Consumed(d) => if d == c { ConsumeDeliversNext(l, default, c); } else { OtherKeepsInStep(l, e, default, c); }
    } else {
      LinkIsInStep(l, default, c);
      if e == Consumed(c) {
        ConsumeIsLinkThenConsume(l, c, default);
        ConsumeDeliversNext(LogLink(l, c), default, c);
      }
    }
  }

  lemma {:induction false} DeliversInOrderFrom<T, C>(l: Log<T, C>, events: seq<Event<T, C>>, default: T, c: C)
    requires Arithmetic(l, default) && (c in l.stream ==> InStep(l, c))
    requires NeverLapped(l, events, default, c)
    ensures var end := Run(l, events, default); c in end.stream ==> InStep(end, c)
    decreases |events|
  {
    if events != [] {
      HappensKeepsInStep(l, events[0], default, c);
      DeliversInOrderFrom(Happens(l, events[0]), events[1..], default, c);
    }
  }

  /** Delivery in order, for any number of consumers and any interleaving of a new ring's events: a consumer
      that is never lapped has been handed exactly the slice of the history that starts at its base; the base
      is 0 for a consumer linked before the 256th write, and the last multiple of 256 for one linked later. */
  lemma DeliversInOrder<T, C>(events: seq<Event<T, C>>, default: T, c: C)
    requires (StartArithmetic<T, C>(default); NeverLapped(Start(default), events, default, c))
    ensures Arithmetic(Start<T, C>(default), default)
    ensures var end := Run(Start(default), events, default);
      && end.written == DataOf(events)
      && (c in end.stream ==>
            && var from := Base(end, c);
            && from + |end.stream[c]| <= |DataOf(events)| <= from + |end.stream[c]| + 255
            && end.stream[c] == DataOf(events)[from..from + |end.stream[c]|])
  {
    RunArithmetic(events, default, c);
    DeliversInOrderFrom(Start(default), events, default, c);
  }

  /** The bound is exact: a write leaves a consumer that was in step with something to read if and only
      if it was at most 254 behind; at 255 the write makes 256 unread data look like none. */
  lemma LappedLooksEmpty<T, C>(l: Log<T, C>, data: T, default: T, c: C)
    requires Arithmetic(l, default) && c in l.stream && InStep(l, c)
    ensures Lags(Happens(l, Wrote(data)).ring, c) <==> Unread(l, c) <= 254
    ensures Unread(Happens(l, Wrote(data)), c) == Unread(l, c) + 1
  {
    var read, unread := Base(l, c) + |l.stream[c]|, Unread(l, c);
    assert read % 256 == l.ring.cursors[c] by { MultipleOf256(l.linkedAt[c], |l.stream[c]|); }
    SamePad(read, unread + 1);
    WriterMoves(l.ring.writer, |l.written|);
    assert read + (unread + 1) == |l.written| + 1;
  }

  lemma MultipleOf256(n: nat, m: nat)
    ensures (n - n % 256 + m) % 256 == m % 256
  {
  }

  lemma WriterMoves(writer: nat, writes: nat)
    requires writer == writes % 256
    ensures Next(writer) == (writes + 1) % 256
  {
  }

  lemma SamePad(read: nat, unread: int)
    requires 0 < unread <= 256
    ensures (read + unread) % 256 == read % 256 <==> unread == 256
  {
  }

  // ---------------------------------------------------------------------------------------------
  // Independence of consumers

  predicate Concerns<T, C(==)>(e: Event<T, C>, c: C) {
    e.Wrote? || e.c == c
  }

  /** The run as consumer c alone would have it. */
  function Seen<T, C(==)>(events: seq<Event<T, C>>, c: C): seq<Event<T, C>> {
    if events == [] then []
    else (if Concerns(events[0], c) then [events[0]] else []) + Seen(events[1..], c)
  }

  /** Two logs agree on everything but the other consumers. */
  ghost predicate SameFor<T, C>(l: Log<T, C>, m: Log<T, C>, c: C) {
    && l.ring.pads == m.ring.pads && l.ring.writer == m.ring.writer && l.written == m.written
    && (c in l.ring.cursors <==> c in m.ring.cursors)
    && (c in l.ring.cursors && c in m.ring.cursors ==> l.ring.cursors[c] == m.ring.cursors[c])
    && (c in l.stream <==> c in m.stream)
    && (c in l.stream && c in m.stream ==> l.stream[c] == m.stream[c])
  }

  lemma ForeignEventIsInvisible<T, C>(l: Log<T, C>, e: Event<T, C>, default: T, c: C)
    requires Arithmetic(l, default) && !Concerns(e, c)
    ensures SameFor(Happens(l, e), l, c)
  {
  }

  lemma ConcernedEventActsAlike<T, C>(l: Log<T, C>, m: Log<T, C>, e: Event<T, C>, default: T, c: C)
    requires Arithmetic(l, default) && Arithmetic(m, default) && SameFor(l, m, c) && Concerns(e, c)
    ensures SameFor(Happens(l, e), Happens(m, e), c)
  {
  }

  /** What the other consumers do never changes what a consumer is handed: its stream is the same when
      all their events are taken out of the run. */
  lemma {:induction false} ConsumersAreIndependent<T, C>(
    l: Log<T, C>, m: Log<T, C>, events: seq<Event<T, C>>, default: T, c: C)
    requires Arithmetic(l, default) && Arithmetic(m, default) && SameFor(l, m, c)
    ensures SameFor(Run(l, events, default), Run(m, Seen(events, c), default), c)
    decreases |events|
  {
    if events != [] {
      var e := events[0];
      HappensArithmetic(l, e, default);
      HappensArithmetic(m, e, default);
      if Concerns(e, c) {
        ConcernedEventActsAlike(l, m, e, default, c);
        ConsumersAreIndependent(Happens(l, e), Happens(m, e), events[1..], default, c);
        assert Seen(events, c)[0] == e && Seen(events, c)[1..] == Seen(events[1..], c);
      } else {
        ForeignEventIsInvisible(l, e, default, c);
        ConsumersAreIndependent(Happens(l, e), m, events[1..], default, c);
        assert Seen(events, c) == Seen(events[1..], c);
      }
    }
  }
}
