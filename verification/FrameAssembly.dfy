/** What a frame should hold, said of the messages received since the last end of frame and of nothing else;
    and the proof that the translation assembles exactly that.
  */
module FrameAssembly {
  import opened Wrappers
  import opened FrameSpec
  import opened Reports

  // ---------------------------------------------------------------------------------------------
  // What the messages say

  predicate IsTrackFor(m: Message, p: nat) {
    Decode(m).TrackReport? && Decode(m).pixel == p
  }

  predicate IsVelocityOf(m: Message, id: nat) {
    Decode(m).VelocityReport? && Decode(m).id == id
  }

  /** The tracks reported for a pixel, as they arrived. */
  function Arrivals(s: seq<Message>, p: nat): (arrivals: seq<Report>)
    ensures forall r | r in arrivals :: r.TrackReport?
  {
    if s == [] then []
    else Arrivals(s[..|s| - 1], p) + (if IsTrackFor(s[|s| - 1], p) then [Decode(s[|s| - 1])] else [])
  }

  /** The last velocity reported for a track. */
  function LastVelocity(s: seq<Message>, id: nat): (velocity: Option<Report>)
    ensures velocity.Some? ==> velocity.value.VelocityReport?
  {
    if s == [] then None
    else if IsVelocityOf(s[|s| - 1], id) then Some(Decode(s[|s| - 1]))
    else LastVelocity(s[..|s| - 1], id)
  }

  /** Slot n of a pixel: its n-th arrival, moving as the last velocity reported for it. */
  function ExpectedTrack(family: Family, s: seq<Message>, p: nat, n: nat): Track {
    var arrivals := Arrivals(s, p);
    if n >= |arrivals| then DEFAULT_TRACK
    else
      var track := TrackOf(family, arrivals[n]);
      match LastVelocity(s, track.id)
      case None => track
      case Some(v) => Moving(family, track, v)
  }

  function ExpectedPixel(family: Family, s: seq<Message>, p: nat): (pixel: Pixel)
    ensures SizedPixel(pixel)
    ensures forall n: nat | n < NUMBER_OF_TRACKS_IN_PIXEL :: pixel.tracks[n] == ExpectedTrack(family, s, p, n)
  {
    var arrived := |Arrivals(s, p)|;
    Pixel(
      if arrived == 0 then UNDEFINED_ID else p,
      seq(NUMBER_OF_TRACKS_IN_PIXEL, n requires n >= 0 => ExpectedTrack(family, s, p, n)),
      if arrived < NUMBER_OF_TRACKS_IN_PIXEL then arrived else NUMBER_OF_TRACKS_IN_PIXEL)
  }

  function ExpectedFrame(family: Family, s: seq<Message>): (f: Frame)
    ensures Sized(f)
    ensures forall p: nat | p < NUMBER_OF_PIXELS :: f.pixels[p] == ExpectedPixel(family, s, p)
  {
    Frame(DEFAULT_MESSAGE_ID, DEFAULT_SENSOR_ID,
      seq(NUMBER_OF_PIXELS, p requires p >= 0 => ExpectedPixel(family, s, p)))
  }

  /** The code with which a message is refused: a track for a pixel that has its 16 tracks, or an unknown id. */
  function Refusal(family: Family, before: seq<Message>, m: Message): seq<int> {
    match Decode(m)
    case EndReport(_, _, _) => []
    case TrackReport(_, pixel, _, _, _) => if |Arrivals(before, pixel)| >= 16 then [10110] else []
    case VelocityReport(_, _, _, _) => []
    case OtherReport(_) => [if family.AWL? then 10200 else 10300]
  }

  /** The codes of the messages of a frame that are refused, in order. */
  function Refusals(family: Family, s: seq<Message>): seq<int> {
    if s == [] then [] else Refusals(family, s[..|s| - 1]) + Refusal(family, s[..|s| - 1], s[|s| - 1])
  }

  // ---------------------------------------------------------------------------------------------
  // Well-formed streams

  /** The n-th slot of the pixel was filled by a track message with this id. */
  predicate ReportedAt(s: seq<Message>, id: nat, p: nat, n: nat) {
    && p < NUMBER_OF_PIXELS && n < NUMBER_OF_TRACKS_IN_PIXEL && n < |Arrivals(s, p)|
    && Arrivals(s, p)[n].id == id
  }

  predicate Reported(s: seq<Message>, id: nat) {
    exists p: nat, n: nat | p < NUMBER_OF_PIXELS && n < NUMBER_OF_TRACKS_IN_PIXEL :: ReportedAt(s, id, p, n)
  }

  /** A message of a frame that fits what came before: a track is for an existing pixel and, if there is room
      for it, has an id that is neither the undefined one nor taken; a velocity is of a track that was reported.
      Anything else may come too, and is refused. */
  predicate Fits(before: seq<Message>, m: Message) {
    match Decode(m)
    case EndReport(_, _, _) => false
    case TrackReport(id, pixel, _, _, _) =>
      && pixel < NUMBER_OF_PIXELS
      && (|Arrivals(before, pixel)| < NUMBER_OF_TRACKS_IN_PIXEL ==> id != UNDEFINED_ID && !Reported(before, id))
    case VelocityReport(id, _, _, _) => Reported(before, id)
    case OtherReport(_) => true
  }

  predicate WellFormed(s: seq<Message>) {
    s == [] || (WellFormed(s[..|s| - 1]) && Fits(s[..|s| - 1], s[|s| - 1]))
  }

  /** In a well-formed stream an id names one slot. */
  ghost predicate Unambiguous(s: seq<Message>) {
    && (forall id, p, n, q, k :: ReportedAt(s, id, p, n) && ReportedAt(s, id, q, k) ==> p == q && n == k)
    && (forall p, n :: !ReportedAt(s, UNDEFINED_ID, p, n))
    && (forall id :: LastVelocity(s, id).Some? ==> Reported(s, id))
  }

  lemma ArrivalsGrow(before: seq<Message>, m: Message, p: nat)
    ensures Arrivals(before + [m], p) == Arrivals(before, p) + (if IsTrackFor(m, p) then [Decode(m)] else [])
  {
    assert (before + [m])[..|before|] == before;
  }

  lemma LastVelocityGrows(before: seq<Message>, m: Message, id: nat)
    ensures LastVelocity(before + [m], id) ==
      if IsVelocityOf(m, id) then Some(Decode(m)) else LastVelocity(before, id)
  {
    assert (before + [m])[..|before|] == before;
  }

  /** One more message reports at most one more slot. */
  lemma ReportGrows(before: seq<Message>, m: Message, id: nat, p: nat, n: nat)
    ensures ReportedAt(before, id, p, n) ==> ReportedAt(before + [m], id, p, n)
    ensures ReportedAt(before + [m], id, p, n) ==>
      || ReportedAt(before, id, p, n)
      || (IsTrackFor(m, p) && n == |Arrivals(before, p)| && Decode(m).id == id)
  {
    ArrivalsGrow(before, m, p);
  }

  lemma StepIsUnambiguous(before: seq<Message>, m: Message)
    requires Unambiguous(before) && Fits(before, m)
    ensures Unambiguous(before + [m])
  {
    var s := before + [m];
    forall id, p, n, q, k | ReportedAt(s, id, p, n) && ReportedAt(s, id, q, k) ensures p == q && n == k {
      ReportGrows(before, m, id, p, n);
      ReportGrows(before, m, id, q, k);
    }
    forall p, n ensures !ReportedAt(s, UNDEFINED_ID, p, n) {
      ReportGrows(before, m, UNDEFINED_ID, p, n);
    }
    forall id | LastVelocity(s, id).Some? ensures Reported(s, id) {
      LastVelocityGrows(before, m, id);
      assert Reported(before, id);
      var p: nat, n: nat :| p < NUMBER_OF_PIXELS && n < NUMBER_OF_TRACKS_IN_PIXEL && ReportedAt(before, id, p, n);
      ReportGrows(before, m, id, p, n);
    }
  }

  // ---------------------------------------------------------------------------------------------
  // One message more

  lemma SameFrames(f: Frame, g: Frame)
    requires Sized(f) && Sized(g) && f.messageId == g.messageId && f.sensorId == g.sensorId
    requires forall p: nat | p < NUMBER_OF_PIXELS :: f.pixels[p] == g.pixels[p]
    ensures f == g
  {
    assert f.pixels == g.pixels;
  }

  /** A message that is neither a track for the pixel nor a velocity leaves what is expected of it. */
  lemma OtherPixelsStay(family: Family, before: seq<Message>, m: Message, p: nat)
    requires !IsTrackFor(m, p) && !Decode(m).VelocityReport?
    ensures ExpectedPixel(family, before + [m], p) == ExpectedPixel(family, before, p)
  {
    ArrivalsGrow(before, m, p);
    var later, earlier := ExpectedPixel(family, before + [m], p), ExpectedPixel(family, before, p);
    forall n: nat | n < NUMBER_OF_TRACKS_IN_PIXEL ensures later.tracks[n] == earlier.tracks[n] {
      if n < |Arrivals(before, p)| { LastVelocityGrows(before, m, Arrivals(before, p)[n].id); }
    }
    assert later.tracks == earlier.tracks;
  }

  lemma TrackIsExpected(family: Family, before: seq<Message>, m: Message)
    requires Unambiguous(before) && Fits(before, m) && Decode(m).TrackReport?
    ensures AddTrack(ExpectedFrame(family, before), Decode(m).pixel, TrackOf(family, Decode(m))).frame ==
      ExpectedFrame(family, before + [m])
  {
    var p := Decode(m).pixel;
    var f, g := ExpectedFrame(family, before), ExpectedFrame(family, before + [m]);
    var added := AddTrack(f, p, TrackOf(family, Decode(m))).frame;
    ArrivalsGrow(before, m, p);
    TrackPixelIsExpected(family, before, m);
    forall q: nat | q < NUMBER_OF_PIXELS ensures added.pixels[q] == g.pixels[q] {
      if q != p { OtherPixelsStay(family, before, m, q); }
    }
    SameFrames(added, g);
  }

  lemma TrackPixelIsExpected(family: Family, before: seq<Message>, m: Message)
    requires Unambiguous(before) && Fits(before, m) && Decode(m).TrackReport?
    ensures var r := Decode(m);
      AddTrack(ExpectedFrame(family, before), r.pixel, TrackOf(family, r)).frame.pixels[r.pixel] ==
        ExpectedPixel(family, before + [m], r.pixel)
  {
    var p := Decode(m).pixel;
    var arrivals := Arrivals(before, p);
    ArrivalsGrow(before, m, p);
    var added := AddTrack(ExpectedFrame(family, before), p, TrackOf(family, Decode(m))).frame.pixels[p];
    var later := ExpectedPixel(family, before + [m], p);
    forall n: nat | n < NUMBER_OF_TRACKS_IN_PIXEL ensures added.tracks[n] == later.tracks[n] {
      if n < |arrivals| {
        LastVelocityGrows(before, m, arrivals[n].id);
      } else if n == |arrivals| {
        LastVelocityGrows(before, m, Decode(m).id);
        assert LastVelocity(before, Decode(m).id).None?;
      }
    }
    assert added.tracks == later.tracks;
  }

  /** The expected frame has the id of a reported track in its slot and nowhere else. */
  lemma FoundWhereReported(family: Family, s: seq<Message>, id: nat, p: nat, n: nat)
    requires Unambiguous(s) && ReportedAt(s, id, p, n)
    ensures FirstPixel(ExpectedFrame(family, s).pixels, id) == p
    ensures FirstWith(ExpectedFrame(family, s).pixels[p].tracks, id) == n
  {
    var f := ExpectedFrame(family, s);
    forall q: nat, k: nat | q < NUMBER_OF_PIXELS && k < NUMBER_OF_TRACKS_IN_PIXEL
      ensures f.pixels[q].tracks[k].id == id <==> q == p && k == n
    {
      if k < |Arrivals(s, q)| {
        assert f.pixels[q].tracks[k].id == Arrivals(s, q)[k].id;
        assert ReportedAt(s, f.pixels[q].tracks[k].id, q, k);
      }
    }
    assert f.pixels[p].tracks[n].id == id;
    assert DoesTrackExist(f.pixels[p], id);
    forall q: nat | q < p ensures !DoesTrackExist(f.pixels[q], id) {}
  }

  lemma VelocityIsExpected(family: Family, before: seq<Message>, m: Message) returns (p: nat, n: nat)
    requires Unambiguous(before) && Fits(before, m) && Decode(m).VelocityReport?
    ensures p < NUMBER_OF_PIXELS && n < NUMBER_OF_TRACKS_IN_PIXEL
    ensures var f := ExpectedFrame(family, before);
      && Locate(f.pixels, Decode(m).id) == Some((p, n))
      && SetTrack(f, p, n, Moving(family, f.pixels[p].tracks[n], Decode(m))) == ExpectedFrame(family, before + [m])
  {
    var id := Decode(m).id;
    p, n :| p < NUMBER_OF_PIXELS && n < NUMBER_OF_TRACKS_IN_PIXEL && ReportedAt(before, id, p, n);
    FoundWhereReported(family, before, id, p, n);
    var f, g := ExpectedFrame(family, before), ExpectedFrame(family, before + [m]);
    var moved := SetTrack(f, p, n, Moving(family, f.pixels[p].tracks[n], Decode(m)));
    forall q: nat | q < NUMBER_OF_PIXELS ensures moved.pixels[q] == g.pixels[q] {
      VelocityPixelIsExpected(family, before, m, p, n, q);
    }
    SameFrames(moved, g);
  }

  lemma VelocityPixelIsExpected(family: Family, before: seq<Message>, m: Message, p: nat, n: nat, q: nat)
    requires Unambiguous(before) && Decode(m).VelocityReport?
    requires ReportedAt(before, Decode(m).id, p, n) && q < NUMBER_OF_PIXELS
    ensures var f := ExpectedFrame(family, before);
      SetTrack(f, p, n, Moving(family, f.pixels[p].tracks[n], Decode(m))).pixels[q] ==
        ExpectedPixel(family, before + [m], q)
  {
    var f := ExpectedFrame(family, before);
    var moved := SetTrack(f, p, n, Moving(family, f.pixels[p].tracks[n], Decode(m))).pixels[q];
    var later := ExpectedPixel(family, before + [m], q);
    ArrivalsGrow(before, m, q);
    forall k: nat | k < NUMBER_OF_TRACKS_IN_PIXEL ensures moved.tracks[k] == later.tracks[k] {
      if k < |Arrivals(before, q)| {
        var id := Arrivals(before, q)[k].id;
        LastVelocityGrows(before, m, id);
        assert ReportedAt(before, id, q, k);
      }
    }
    assert moved.tracks == later.tracks;
  }

  // ---------------------------------------------------------------------------------------------
  // Whole frames

  lemma NothingReceived(family: Family)
    ensures ExpectedFrame(family, []) == DEFAULT_FRAME
  {
    var f := ExpectedFrame(family, []);
    forall p: nat | p < NUMBER_OF_PIXELS ensures f.pixels[p] == DEFAULT_PIXEL {
      assert f.pixels[p].tracks == DEFAULT_PIXEL.tracks;
    }
    SameFrames(f, DEFAULT_FRAME);
  }

  lemma {:induction false} AssembledAndUnambiguous(family: Family, s: seq<Message>)
    requires WellFormed(s)
    ensures Unambiguous(s)
    ensures AdmissibleRun(family, DEFAULT_FRAME, s)
    ensures FrameAfter(family, DEFAULT_FRAME, s) == ExpectedFrame(family, s)
    ensures CodesOf(Effects(family, DEFAULT_FRAME, s)) == Refusals(family, s)
  {
    if s == [] {
      NothingReceived(family);
    } else {
      var before, m := s[..|s| - 1], s[|s| - 1];
      assert s == before + [m];
      AssembledAndUnambiguous(family, before);
      StepIsUnambiguous(before, m);
      StepIsExpected(family, before, m);
      OneMessage(family, ExpectedFrame(family, before), m);
      RunConcat(family, DEFAULT_FRAME, before, [m]);
      RefusalIsExpected(family, before, m);
      CodesConcat(Effects(family, DEFAULT_FRAME, before), [Translate(family, ExpectedFrame(family, before), m).effect]);
    }
  }

  lemma RefusalIsExpected(family: Family, before: seq<Message>, m: Message)
    requires Admissible(ExpectedFrame(family, before), m)
    ensures CodesOf([Translate(family, ExpectedFrame(family, before), m).effect]) == Refusal(family, before, m)
  {
    var f := ExpectedFrame(family, before);
    var effect := Translate(family, f, m).effect;
    assert CodesOf([effect]) == if effect.Refused? then [effect.code] else [];
    AdmissibleReports(f, m);
    TranslatesAsReported(family, f, m);
  }

  lemma StepIsExpected(family: Family, before: seq<Message>, m: Message)
    requires Unambiguous(before) && Fits(before, m)
    ensures Admissible(ExpectedFrame(family, before), m)
    ensures Translate(family, ExpectedFrame(family, before), m).frame == ExpectedFrame(family, before + [m])
  {
    var f, g := ExpectedFrame(family, before), ExpectedFrame(family, before + [m]);
    AdmissibleReports(f, m);
    if Decode(m).TrackReport? {
      TrackIsExpected(family, before, m);
      TranslatesAsReported(family, f, m);
    } else if Decode(m).VelocityReport? {
      var p, n := VelocityIsExpected(family, before, m);
      TranslatesAsReported(family, f, m);
    } else {
      TranslatesAsReported(family, f, m);
      forall p: nat | p < NUMBER_OF_PIXELS ensures f.pixels[p] == g.pixels[p] {
        OtherPixelsStay(family, before, m, p);
      }
      SameFrames(f, g);
    }
  }

  /** The frame assembled from a well-formed stream: in the pixels of the sensor, in the order of arrival and
      for as long as there is room, the tracks received for it, each moving as the last velocity naming it
      says; everything else is default. */
  lemma FrameIsAssembled(family: Family, s: seq<Message>, p: nat, n: nat)
    requires WellFormed(s) && p < 16 && n < 16
    ensures AdmissibleRun(family, DEFAULT_FRAME, s)
    ensures var pixel := FrameAfter(family, DEFAULT_FRAME, s).pixels[p];
      var arrivals := Arrivals(s, p);
      && pixel.count == (if |arrivals| < 16 then |arrivals| else 16)
      && pixel.id == (if arrivals == [] then 65535 else p)
      && (n >= |arrivals| ==> pixel.tracks[n] == Track(65535, 0, 0.0, 0.0, 0.0, 0.0))
      && (n < |arrivals| ==>
            var r, velocity := arrivals[n], LastVelocity(s, arrivals[n].id);
            pixel.tracks[n] == Track(r.id, r.confidence, Strength(family, r.intensity),
              if velocity.None? then 0.0 else Measured(family, velocity.value.acceleration),
              if velocity.None? then 0.0 else Measured(family, velocity.value.distance),
              if velocity.None? then 0.0 else Measured(family, velocity.value.speed)))
  {
    AssembledAndUnambiguous(family, s);
  }

  /** A frame's messages and the end of frame that closes it. */
  datatype Batch = Batch(messages: seq<Message>, end: Message)

  predicate WellFormedBatch(b: Batch) {
    WellFormed(b.messages) && Decode(b.end).EndReport?
  }

  function Stream(batches: seq<Batch>): seq<Message> {
    if batches == [] then [] else batches[0].messages + [batches[0].end] + Stream(batches[1..])
  }

  function ExpectedOf(family: Family, b: Batch): Frame
    requires WellFormedBatch(b)
  {
    var end := Decode(b.end);
    ExpectedFrame(family, b.messages).(messageId := end.messageId, sensorId := end.sensorId)
  }

  function ExpectedFrames(family: Family, batches: seq<Batch>): (frames: seq<Frame>)
    requires forall i :: 0 <= i < |batches| ==> WellFormedBatch(batches[i])
    ensures |frames| == |batches|
  {
    if batches == [] then []
    else
      assert WellFormedBatch(batches[0]);
      [ExpectedOf(family, batches[0])] + ExpectedFrames(family, batches[1..])
  }

  /** The refusals of all the messages of the batches. */
  function RefusalsOver(family: Family, batches: seq<Batch>): seq<int> {
    if batches == [] then [] else Refusals(family, batches[0].messages) + RefusalsOver(family, batches[1..])
  }

  /** Over whole streams: one frame for each end of frame, each made of its own messages only; and the codes of
      the refused messages, in order. */
  lemma {:induction false} StreamIsAssembled(family: Family, batches: seq<Batch>)
    requires forall i :: 0 <= i < |batches| ==> WellFormedBatch(batches[i])
    ensures AdmissibleRun(family, DEFAULT_FRAME, Stream(batches))
    ensures FramesOf(Effects(family, DEFAULT_FRAME, Stream(batches))) == ExpectedFrames(family, batches)
    ensures CodesOf(Effects(family, DEFAULT_FRAME, Stream(batches))) == RefusalsOver(family, batches)
  {
    if batches != [] {
      var b, t := batches[0], Stream(batches[1..]);
      assert WellFormedBatch(b);
      AssembledAndUnambiguous(family, b.messages);
      StreamIsAssembled(family, batches[1..]);
      Compositional(family, b.messages, b.end, t);
      NoFrameWithin(family, DEFAULT_FRAME, b.messages);
    }
  }

  /** A frame that was not ended when the stream stopped is not sent on. */
  lemma UnfinishedStream(family: Family, batches: seq<Batch>, unfinished: seq<Message>)
    requires forall i :: 0 <= i < |batches| ==> WellFormedBatch(batches[i])
    requires WellFormed(unfinished)
    ensures AdmissibleRun(family, DEFAULT_FRAME, Stream(batches) + unfinished)
    ensures FramesOf(Effects(family, DEFAULT_FRAME, Stream(batches) + unfinished)) == ExpectedFrames(family, batches)
    ensures CodesOf(Effects(family, DEFAULT_FRAME, Stream(batches) + unfinished)) ==
      RefusalsOver(family, batches) + Refusals(family, unfinished)
  {
    StreamIsAssembled(family, batches);
    StreamEndsOnDefault(family, batches);
    AssembledAndUnambiguous(family, unfinished);
    RunConcat(family, DEFAULT_FRAME, Stream(batches), unfinished);
    FramesConcat(Effects(family, DEFAULT_FRAME, Stream(batches)), Effects(family, DEFAULT_FRAME, unfinished));
    CodesConcat(Effects(family, DEFAULT_FRAME, Stream(batches)), Effects(family, DEFAULT_FRAME, unfinished));
    NoFrameWithin(family, DEFAULT_FRAME, unfinished);
  }

  lemma {:induction false} StreamEndsOnDefault(family: Family, batches: seq<Batch>)
    requires forall i :: 0 <= i < |batches| ==> WellFormedBatch(batches[i])
    ensures AdmissibleRun(family, DEFAULT_FRAME, Stream(batches))
    ensures FrameAfter(family, DEFAULT_FRAME, Stream(batches)) == DEFAULT_FRAME
  {
    StreamIsAssembled(family, batches);
    if batches != [] {
      var b, t := batches[0], Stream(batches[1..]);
      assert WellFormedBatch(b);
      AssembledAndUnambiguous(family, b.messages);
      StreamEndsOnDefault(family, batches[1..]);
      Compositional(family, b.messages, b.end, t);
    }
  }

  lemma {:induction false} WellFormedHasNoEnd(s: seq<Message>)
    requires WellFormed(s)
    ensures forall i :: 0 <= i < |s| ==> s[i].id != END_OF_FRAME
  {
    if s != [] { WellFormedHasNoEnd(s[..|s| - 1]); }
  }

  lemma {:induction false} CountOfAbsent(s: seq<Message>, id: int)
    requires forall i :: 0 <= i < |s| ==> s[i].id != id
    ensures CountOf(s, id) == 0
  {
    if s != [] { CountOfAbsent(s[1..], id); }
  }

  lemma NoFrameWithin(family: Family, f: Frame, s: seq<Message>)
    requires WellFormed(s) && Sized(f) && AdmissibleRun(family, f, s)
    ensures FramesOf(Effects(family, f, s)) == []
  {
    WellFormedHasNoEnd(s);
    CountOfAbsent(s, END_OF_FRAME);
    OneFramePerEnd(family, f, s);
  }

  // ---------------------------------------------------------------------------------------------
  // Where a velocity goes in general

  /** Of a track in any frame that can be reached: a velocity with its id goes to it if and only if no track
      before it has that id and, where the id is the undefined one, every pixel before its own is full. */
  lemma VelocityGoesTo(f: Frame, id: nat, p: nat, n: nat)
    requires InPlace(f) && p < NUMBER_OF_PIXELS && n < f.pixels[p].count && f.pixels[p].tracks[n].id == id
    ensures FirstPixel(f.pixels, id) < NUMBER_OF_PIXELS
    ensures FirstPixel(f.pixels, id) == p && FirstWith(f.pixels[p].tracks, id) == n <==>
      && (forall k: nat | k < n :: f.pixels[p].tracks[k].id != id)
      && forall q: nat | q < p ::
           && (id == UNDEFINED_ID ==> f.pixels[q].count == NUMBER_OF_TRACKS_IN_PIXEL)
           && forall k: nat | k < f.pixels[q].count :: f.pixels[q].tracks[k].id != id
  {
    assert PixelInPlace(f.pixels[p], p);
    assert DoesTrackExist(f.pixels[p], id);
    forall q: nat | q < NUMBER_OF_PIXELS
      ensures DoesTrackExist(f.pixels[q], id) <==>
        || (id == UNDEFINED_ID && f.pixels[q].count < NUMBER_OF_TRACKS_IN_PIXEL)
        || exists k: nat | k < f.pixels[q].count :: f.pixels[q].tracks[k].id == id
    {
      assert PixelInPlace(f.pixels[q], q);
      if id == UNDEFINED_ID && f.pixels[q].count < NUMBER_OF_TRACKS_IN_PIXEL {
        assert f.pixels[q].tracks[f.pixels[q].count].id == id;
      }
    }
  }

  /** A track for pixel 1 with the undefined id, then a velocity for it. */
  const UNDEFINED_TRACK: Message := Message(DETECTION_TRACK, [255, 255, 0, 1, 0, 0, 0, 0])
  const UNDEFINED_VELOCITY: Message := Message(DETECTION_VELOCITY, [255, 255, 7, 0, 0, 0, 0, 0])

  /** With the undefined id the velocity misses the track and gives a distance to an empty slot. */
  lemma UndefinedIdGoesAstray(family: Family)
    ensures Sized(DEFAULT_FRAME) && AdmissibleRun(family, DEFAULT_FRAME, [UNDEFINED_TRACK, UNDEFINED_VELOCITY])
    ensures var f := FrameAfter(family, DEFAULT_FRAME, [UNDEFINED_TRACK, UNDEFINED_VELOCITY]);
      && f.pixels[1].count == 1 && f.pixels[1].tracks[0].distance == 0.0
      && f.pixels[0].count == 0 && f.pixels[0].tracks[0].distance == if family.AWL? then 0.07 else 7.0
  {
    var first := Translate(family, DEFAULT_FRAME, UNDEFINED_TRACK).frame;
    assert first.pixels[0] == DEFAULT_PIXEL;
    assert DoesTrackExist(first.pixels[0], UNDEFINED_ID) by { assert first.pixels[0].tracks[0].id == UNDEFINED_ID; }
    assert FirstPixel(first.pixels, UNDEFINED_ID) == 0;
    assert FirstWith(first.pixels[0].tracks, UNDEFINED_ID) == 0;
    OneMessage(family, DEFAULT_FRAME, UNDEFINED_TRACK);
    OneMessage(family, first, UNDEFINED_VELOCITY);
    RunConcat(family, DEFAULT_FRAME, [UNDEFINED_TRACK], [UNDEFINED_VELOCITY]);
    assert [UNDEFINED_TRACK] + [UNDEFINED_VELOCITY] == [UNDEFINED_TRACK, UNDEFINED_VELOCITY];
  }
}
