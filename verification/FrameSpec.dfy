/** The message translation of both sensor families, on values: detection messages fill the frame under
    construction and an end-of-frame message sends it on.
  */
module FrameSpec {
  import opened Wrappers
  import opened Errors

  const END_OF_FRAME := 0x09
  const DETECTION_TRACK := 0x0A
  const DETECTION_VELOCITY := 0x0B
  const NUMBER_OF_DATA_BYTES: nat := 8
  const NUMBER_OF_PIXELS: nat := 16
  const NUMBER_OF_TRACKS_IN_PIXEL: nat := 16
  const NUMBER_OF_CENTIMETERS_IN_A_METER := 100
  const UNDEFINED_ID: nat := 65535
  const DEFAULT_MESSAGE_ID: nat := 0
  const DEFAULT_SENSOR_ID: nat := 65535 // -1 as a uint16_t

  // ---------------------------------------------------------------------------------------------
  // Sensor messages

  type Byte = b: nat | b < 256
  datatype AnyMessage = Message(id: int, data: seq<Byte>)
  type Message = m: AnyMessage | |m.data| == NUMBER_OF_DATA_BYTES witness Message(0, [0, 0, 0, 0, 0, 0, 0, 0])

  /** The sensor families differ in how they scale and in the code of their complaint. */
  datatype Family = Guardian | AWL

  /** convertTwoBytesToUnsignedBigEndian, which reads its bytes low first. */
  function Unsigned(firstByte: Byte, secondByte: Byte): (n: nat)
    ensures n < 65536 && n % 256 == firstByte && n / 256 == secondByte
  {
    256 * secondByte + firstByte
  }

  /** convertTwoBytesToSignedBigEndian: the int is narrowed to int16_t. */
  function Signed(firstByte: Byte, secondByte: Byte): (n: int)
    ensures -32768 <= n < 32768
    ensures (n - Unsigned(firstByte, secondByte)) % 65536 == 0
  {
    var n := 256 * secondByte + firstByte;
    if n < 32768 then n else n - 65536
  }

  function TrackIdOf(m: Message): nat { Unsigned(m.data[0], m.data[1]) }
  function PixelIdOf(m: Message): nat { Unsigned(m.data[3], m.data[4]) }

  function IntensityOf(family: Family, raw: int): real {
    match family
    case Guardian => raw as real
    case AWL => raw as real / 1024.0 / 2.0 - 21.0 // convertIntensityToSNR
  }

  function Scaled(family: Family, raw: int): real {
    match family
    case Guardian => raw as real
    case AWL => raw as real / (NUMBER_OF_CENTIMETERS_IN_A_METER as real)
  }

  // ---------------------------------------------------------------------------------------------
  // Frames

  datatype Track = Track(id: nat, confidenceLevel: nat, intensity: real, acceleration: real, distance: real,
      speed: real)

  const DEFAULT_TRACK := Track(UNDEFINED_ID, 0, 0.0, 0.0, 0.0, 0.0)

  datatype Pixel = Pixel(id: nat, tracks: seq<Track>, count: nat)
  datatype Frame = Frame(messageId: nat, sensorId: nat, pixels: seq<Pixel>)

  function Repeated<T>(t: T, n: nat): (s: seq<T>)
    ensures |s| == n && forall i :: 0 <= i < n ==> s[i] == t
  {
    seq(n, _ => t)
  }

  const DEFAULT_PIXEL := Pixel(UNDEFINED_ID, Repeated(DEFAULT_TRACK, NUMBER_OF_TRACKS_IN_PIXEL), 0)
  const DEFAULT_FRAME := Frame(DEFAULT_MESSAGE_ID, DEFAULT_SENSOR_ID, Repeated(DEFAULT_PIXEL, NUMBER_OF_PIXELS))

  predicate SizedPixel(pixel: Pixel) {
    |pixel.tracks| == NUMBER_OF_TRACKS_IN_PIXEL && pixel.count <= NUMBER_OF_TRACKS_IN_PIXEL
  }

  predicate Sized(f: Frame) {
    |f.pixels| == NUMBER_OF_PIXELS && forall p :: 0 <= p < NUMBER_OF_PIXELS ==> SizedPixel(f.pixels[p])
  }

  /** The first of the tracks with this id, or their number. */
  function FirstWith(tracks: seq<Track>, id: nat): (n: nat)
    ensures n <= |tracks|
    ensures n < |tracks| ==> tracks[n].id == id
    ensures forall k :: 0 <= k < n ==> tracks[k].id != id
  {
    if tracks == [] || tracks[0].id == id then 0 else 1 + FirstWith(tracks[1..], id)
  }

  /** doesTrackExist: an empty slot counts as a track with the undefined id. */
  predicate DoesTrackExist(pixel: Pixel, id: nat) {
    exists n :: 0 <= n < |pixel.tracks| && pixel.tracks[n].id == id
  }

  /** The first pixel with a track of this id, or their number. */
  function FirstPixel(pixels: seq<Pixel>, id: nat): (p: nat)
    ensures p <= |pixels|
    ensures p < |pixels| ==> DoesTrackExist(pixels[p], id)
    ensures forall q :: 0 <= q < p ==> !DoesTrackExist(pixels[q], id)
  {
    if pixels == [] || DoesTrackExist(pixels[0], id) then 0 else 1 + FirstPixel(pixels[1..], id)
  }

  /** The first slot with this id, pixel by pixel. */
  function Locate(pixels: seq<Pixel>, id: nat): Option<(nat, nat)> {
    var p := FirstPixel(pixels, id);
    if p < |pixels| then Some((p, FirstWith(pixels[p].tracks, id))) else None
  }

  lemma LocatedAt(pixels: seq<Pixel>, id: nat, p: nat, n: nat)
    requires p < |pixels| && DoesTrackExist(pixels[p], id) && n == FirstWith(pixels[p].tracks, id)
    requires forall q :: 0 <= q < p ==> !DoesTrackExist(pixels[q], id)
    ensures Locate(pixels, id) == Some((p, n))
  {
  }

  lemma NotLocated(pixels: seq<Pixel>, id: nat)
    requires forall q :: 0 <= q < |pixels| ==> !DoesTrackExist(pixels[q], id)
    ensures Locate(pixels, id) == None
  {
  }

  function SetTrack(f: Frame, p: nat, n: nat, track: Track): (f': Frame)
    requires Sized(f) && p < NUMBER_OF_PIXELS && n < NUMBER_OF_TRACKS_IN_PIXEL
    ensures Sized(f')
  {
    f.(pixels := f.pixels[p := f.pixels[p].(tracks := f.pixels[p].tracks[n := track])])
  }

  // ---------------------------------------------------------------------------------------------
  // The translation of one message

  function NewTrack(family: Family, m: Message): Track {
    DEFAULT_TRACK.(
      id := TrackIdOf(m),
      confidenceLevel := m.data[5],
      intensity := IntensityOf(family, Unsigned(m.data[6], m.data[7])))
  }

  function WithVelocity(family: Family, track: Track, m: Message): Track {
    track.(
      distance := Scaled(family, Unsigned(m.data[2], m.data[3])),
      speed := Scaled(family, Signed(m.data[4], m.data[5])),
      acceleration := Scaled(family, Signed(m.data[6], m.data[7])))
  }

  /** What a message does besides changing the frame under construction. */
  datatype Effect = Quiet | Produced(frame: Frame) | Refused(code: int)
  datatype Step = Step(frame: Frame, effect: Effect)

  /** What the source needs of a message: a track names a pixel of the sensor, a velocity a track of the frame. */
  predicate Admissible(f: Frame, m: Message) {
    && (m.id == DETECTION_TRACK ==> PixelIdOf(m) < NUMBER_OF_PIXELS)
    && (m.id == DETECTION_VELOCITY ==> FirstPixel(f.pixels, TrackIdOf(m)) < |f.pixels|)
  }

  /** addTrackToPixelWithId: the pixel is named before it is seen to be full. */
  function AddTrack(f: Frame, p: nat, track: Track): (step: Step)
    requires Sized(f) && p < NUMBER_OF_PIXELS
    ensures Sized(step.frame)
  {
    var pixel := f.pixels[p].(id := p);
    if pixel.count >= NUMBER_OF_TRACKS_IN_PIXEL
    then Step(f.(pixels := f.pixels[p := pixel]), Refused(PIXEL_ALREADY_HAS_MAXIMUM_TRACK))
    else
      var added := pixel.(tracks := pixel.tracks[pixel.count := track], count := pixel.count + 1);
      Step(f.(pixels := f.pixels[p := added]), Quiet)
  }

  function AddVelocity(family: Family, f: Frame, m: Message): (step: Step)
    requires Sized(f) && m.id == DETECTION_VELOCITY && Admissible(f, m)
    ensures Sized(step.frame)
  {
    var p := FirstPixel(f.pixels, TrackIdOf(m));
    var n := FirstWith(f.pixels[p].tracks, TrackIdOf(m));
    Step(SetTrack(f, p, n, WithVelocity(family, f.pixels[p].tracks[n], m)), Quiet)
  }

  function EndFrame(f: Frame, m: Message): Frame {
    f.(messageId := Unsigned(m.data[0], m.data[1]), sensorId := Unsigned(m.data[2], m.data[3]))
  }

  function Translate(family: Family, f: Frame, m: Message): (step: Step)
    requires Sized(f) && Admissible(f, m)
    ensures Sized(step.frame)
  {
    if m.id == END_OF_FRAME then Step(DEFAULT_FRAME, Produced(EndFrame(f, m)))
    else if m.id == DETECTION_TRACK then AddTrack(f, PixelIdOf(m), NewTrack(family, m))
    else if m.id == DETECTION_VELOCITY then AddVelocity(family, f, m)
    else Step(f, Refused(if family == AWL then UNRECOGNIZED_AWL_MESSAGE_ID else UNRECOGNIZED_GUARDIAN_MESSAGE_ID))
  }

  // ---------------------------------------------------------------------------------------------
  // Streams of messages

  /** Every message is admissible when its turn comes. */
  predicate AdmissibleRun(family: Family, f: Frame, s: seq<Message>)
    requires Sized(f)
    decreases |s|
  {
    s == [] || (Admissible(f, s[0]) && AdmissibleRun(family, Translate(family, f, s[0]).frame, s[1..]))
  }

  function FrameAfter(family: Family, f: Frame, s: seq<Message>): (f': Frame)
    requires Sized(f) && AdmissibleRun(family, f, s)
    ensures Sized(f')
    decreases |s|
  {
    if s == [] then f else FrameAfter(family, Translate(family, f, s[0]).frame, s[1..])
  }

  /** The effects of the messages, in order. */
  function Effects(family: Family, f: Frame, s: seq<Message>): (effects: seq<Effect>)
    requires Sized(f) && AdmissibleRun(family, f, s)
    ensures |effects| == |s|
    decreases |s|
  {
    if s == [] then []
    else [Translate(family, f, s[0]).effect] + Effects(family, Translate(family, f, s[0]).frame, s[1..])
  }

  function FramesOf(effects: seq<Effect>): seq<Frame> {
    if effects == [] then []
    else (if effects[0].Produced? then [effects[0].frame] else []) + FramesOf(effects[1..])
  }

  /** The codes of the messages refused. */
  function CodesOf(effects: seq<Effect>): seq<int> {
    if effects == [] then []
    else (if effects[0].Refused? then [effects[0].code] else []) + CodesOf(effects[1..])
  }

  function CountOf(s: seq<Message>, id: int): nat {
    if s == [] then 0 else (if s[0].id == id then 1 else 0) + CountOf(s[1..], id)
  }

  lemma {:induction false} RunConcat(family: Family, f: Frame, s: seq<Message>, t: seq<Message>)
    requires Sized(f) && AdmissibleRun(family, f, s) && AdmissibleRun(family, FrameAfter(family, f, s), t)
    ensures AdmissibleRun(family, f, s + t)
    ensures FrameAfter(family, f, s + t) == FrameAfter(family, FrameAfter(family, f, s), t)
    ensures Effects(family, f, s + t) == Effects(family, f, s) + Effects(family, FrameAfter(family, f, s), t)
    decreases |s|
  {
    if s == [] {
      assert s + t == t;
    } else {
      assert (s + t)[1..] == s[1..] + t;
      RunConcat(family, Translate(family, f, s[0]).frame, s[1..], t);
    }
  }

  lemma {:induction false} RunSplits(family: Family, f: Frame, s: seq<Message>, t: seq<Message>)
    requires Sized(f) && AdmissibleRun(family, f, s + t)
    ensures AdmissibleRun(family, f, s) && AdmissibleRun(family, FrameAfter(family, f, s), t)
    decreases |s|
  {
    if s == [] {
      assert s + t == t;
    } else {
      assert (s + t)[1..] == s[1..] + t;
      RunSplits(family, Translate(family, f, s[0]).frame, s[1..], t);
    }
  }

  lemma {:induction false} FramesConcat(a: seq<Effect>, b: seq<Effect>)
    ensures FramesOf(a + b) == FramesOf(a) + FramesOf(b)
  {
    if a == [] {
      assert a + b == b;
    } else {
      assert (a + b)[1..] == a[1..] + b;
      FramesConcat(a[1..], b);
      Associate(if a[0].Produced? then [a[0].frame] else [], FramesOf(a[1..]), FramesOf(b));
    }
  }

  lemma {:induction false} CodesConcat(a: seq<Effect>, b: seq<Effect>)
    ensures CodesOf(a + b) == CodesOf(a) + CodesOf(b)
  {
    if a == [] {
      assert a + b == b;
    } else {
      assert (a + b)[1..] == a[1..] + b;
      CodesConcat(a[1..], b);
      Associate(if a[0].Refused? then [a[0].code] else [], CodesOf(a[1..]), CodesOf(b));
    }
  }

  /** A frame starts over after every end of frame: what follows one is translated as if nothing preceded it. */
  lemma Compositional(family: Family, s: seq<Message>, end: Message, t: seq<Message>)
    requires AdmissibleRun(family, DEFAULT_FRAME, s) && end.id == END_OF_FRAME
    requires AdmissibleRun(family, DEFAULT_FRAME, t)
    ensures AdmissibleRun(family, DEFAULT_FRAME, s + [end]) && AdmissibleRun(family, DEFAULT_FRAME, s + [end] + t)
    ensures Effects(family, DEFAULT_FRAME, s + [end] + t) ==
      Effects(family, DEFAULT_FRAME, s + [end]) + Effects(family, DEFAULT_FRAME, t)
    ensures FramesOf(Effects(family, DEFAULT_FRAME, s + [end] + t)) ==
      FramesOf(Effects(family, DEFAULT_FRAME, s)) +
      [EndFrame(FrameAfter(family, DEFAULT_FRAME, s), end)] +
      FramesOf(Effects(family, DEFAULT_FRAME, t))
    ensures CodesOf(Effects(family, DEFAULT_FRAME, s + [end] + t)) ==
      CodesOf(Effects(family, DEFAULT_FRAME, s)) + CodesOf(Effects(family, DEFAULT_FRAME, t))
    ensures FrameAfter(family, DEFAULT_FRAME, s + [end] + t) == FrameAfter(family, DEFAULT_FRAME, t)
  {
    var f := FrameAfter(family, DEFAULT_FRAME, s);
    OneMessage(family, f, end);
    RunConcat(family, DEFAULT_FRAME, s, [end]);
    RunConcat(family, DEFAULT_FRAME, s + [end], t);
    FramesConcat(Effects(family, DEFAULT_FRAME, s), [Produced(EndFrame(f, end))]);
    FramesConcat(Effects(family, DEFAULT_FRAME, s + [end]), Effects(family, DEFAULT_FRAME, t));
    assert FramesOf([Produced(EndFrame(f, end))]) == [EndFrame(f, end)];
    CodesConcat(Effects(family, DEFAULT_FRAME, s), [Produced(EndFrame(f, end))]);
    CodesConcat(Effects(family, DEFAULT_FRAME, s + [end]), Effects(family, DEFAULT_FRAME, t));
    assert CodesOf([Produced(EndFrame(f, end))]) == [];
  }

  lemma OneMessage(family: Family, f: Frame, m: Message)
    requires Sized(f) && Admissible(f, m)
    ensures AdmissibleRun(family, f, [m])
    ensures FrameAfter(family, f, [m]) == Translate(family, f, m).frame
    ensures Effects(family, f, [m]) == [Translate(family, f, m).effect]
  {
    assert [m][1..] == [];
  }

  /** One frame is sent on for every end-of-frame message. */
  lemma {:induction false} OneFramePerEnd(family: Family, f: Frame, s: seq<Message>)
    requires Sized(f) && AdmissibleRun(family, f, s)
    ensures |FramesOf(Effects(family, f, s))| == CountOf(s, END_OF_FRAME)
    decreases |s|
  {
    if s != [] {
      OneFramePerEnd(family, Translate(family, f, s[0]).frame, s[1..]);
      assert Effects(family, f, s)[1..] == Effects(family, Translate(family, f, s[0]).frame, s[1..]);
    }
  }

  // ---------------------------------------------------------------------------------------------
  // Frames that can be reached

  /** What holds of a pixel whatever was received: a pixel with tracks knows its place, and its empty slots
      have no id. */
  predicate PixelInPlace(pixel: Pixel, p: nat) {
    && SizedPixel(pixel)
    && (pixel.count > 0 ==> pixel.id == p)
    && forall n :: pixel.count <= n < NUMBER_OF_TRACKS_IN_PIXEL ==> pixel.tracks[n].id == UNDEFINED_ID
  }

  predicate InPlace(f: Frame) {
    |f.pixels| == NUMBER_OF_PIXELS && forall p :: 0 <= p < NUMBER_OF_PIXELS ==> PixelInPlace(f.pixels[p], p)
  }

  lemma StepKeepsPlaces(family: Family, f: Frame, m: Message)
    requires Sized(f) && InPlace(f) && Admissible(f, m)
    ensures InPlace(Translate(family, f, m).frame)
  {
    var f' := Translate(family, f, m).frame;
    forall p | 0 <= p < NUMBER_OF_PIXELS ensures PixelInPlace(f'.pixels[p], p) {
      assert PixelInPlace(f.pixels[p], p);
    }
  }

  lemma {:induction false} RunKeepsPlaces(family: Family, f: Frame, s: seq<Message>)
    requires Sized(f) && InPlace(f) && AdmissibleRun(family, f, s)
    ensures InPlace(FrameAfter(family, f, s))
    decreases |s|
  {
    if s != [] {
      StepKeepsPlaces(family, f, s[0]);
      RunKeepsPlaces(family, Translate(family, f, s[0]).frame, s[1..]);
    }
  }

  /** A refused message leaves no trace in a frame that was reached from the default one: although a full
      pixel is renamed before the track is refused, it already had that name. */
  lemma RefusalsLeaveNoTrace(family: Family, s: seq<Message>, m: Message)
    requires AdmissibleRun(family, DEFAULT_FRAME, s)
    requires Admissible(FrameAfter(family, DEFAULT_FRAME, s), m)
    ensures var f := FrameAfter(family, DEFAULT_FRAME, s);
      var step := Translate(family, f, m);
      && (step.effect.Refused? ==> step.frame == f)
      && (step.effect.Refused? <==>
            (m.id == DETECTION_TRACK && f.pixels[PixelIdOf(m)].count == NUMBER_OF_TRACKS_IN_PIXEL)
            || m.id !in {END_OF_FRAME, DETECTION_TRACK, DETECTION_VELOCITY})
  {
    RunKeepsPlaces(family, DEFAULT_FRAME, s);
    var f := FrameAfter(family, DEFAULT_FRAME, s);
    if m.id == DETECTION_TRACK {
      var p := PixelIdOf(m);
      assert PixelInPlace(f.pixels[p], p);
      if f.pixels[p].count == NUMBER_OF_TRACKS_IN_PIXEL {
        assert f.pixels[p := f.pixels[p].(id := p)] == f.pixels;
      }
    }
  }
}
