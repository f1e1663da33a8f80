/** What the sensor's messages report, and how the reports are laid out in their bytes: the reference with which
    the translation is compared.
  */
module Reports {
  import opened Wrappers
  import opened FrameSpec

  /** `unused` stands for the bytes that carry nothing. */
  datatype Report =
    | EndReport(messageId: nat, sensorId: nat, unused: seq<Byte>)
    | TrackReport(id: nat, pixel: nat, confidence: nat, intensity: nat, unused: seq<Byte>)
    | VelocityReport(id: nat, distance: nat, speed: int, acceleration: int)
    | OtherReport(message: Message)

  predicate Word(n: int) {
    0 <= n < 65536
  }

  predicate SignedWord(n: int) {
    -32768 <= n < 32768
  }

  /** A report that a message can carry. */
  predicate Sendable(r: Report) {
    match r
    case EndReport(messageId, sensorId, unused) => Word(messageId) && Word(sensorId) && |unused| == 4
    case TrackReport(id, pixel, confidence, intensity, unused) =>
      Word(id) && Word(pixel) && confidence < 256 && Word(intensity) && |unused| == 1
    case VelocityReport(id, distance, speed, acceleration) =>
      Word(id) && Word(distance) && SignedWord(speed) && SignedWord(acceleration)
    case OtherReport(message) => message.id !in {9, 10, 11}
  }

  /** Sixteen bits, low byte first; a negative number in two's complement. */
  function Low(n: int): Byte {
    n % 256
  }

  function High(n: int): Byte {
    n / 256 % 256
  }

  function Encode(r: Report): (m: Message)
    requires Sendable(r)
  {
    match r
    case EndReport(messageId, sensorId, unused) =>
      Message(9, [Low(messageId), High(messageId), Low(sensorId), High(sensorId)] + unused)
    case TrackReport(id, pixel, confidence, intensity, unused) =>
      Message(10, [Low(id), High(id), unused[0], Low(pixel), High(pixel), confidence, Low(intensity), High(intensity)])
    case VelocityReport(id, distance, speed, acceleration) =>
      Message(11, [Low(id), High(id), Low(distance), High(distance), Low(speed), High(speed),
                   Low(acceleration), High(acceleration)])
    case OtherReport(message) => message
  }

  /** What a message reports. */
  function Decode(m: Message): (r: Report) {
    if m.id == 9 then
      EndReport(Unsigned(m.data[0], m.data[1]), Unsigned(m.data[2], m.data[3]), m.data[4..])
    else if m.id == 10 then
      TrackReport(Unsigned(m.data[0], m.data[1]), Unsigned(m.data[3], m.data[4]), m.data[5],
                  Unsigned(m.data[6], m.data[7]), m.data[2..3])
    else if m.id == 11 then
      VelocityReport(Unsigned(m.data[0], m.data[1]), Unsigned(m.data[2], m.data[3]), Signed(m.data[4], m.data[5]),
                     Signed(m.data[6], m.data[7]))
    else OtherReport(m)
  }

  lemma WordArrives(n: int)
    requires Word(n)
    ensures Unsigned(Low(n), High(n)) == n
  {
    assert n / 256 < 256;
  }

  lemma SignedWordArrives(n: int)
    requires SignedWord(n)
    ensures Signed(Low(n), High(n)) == n
  {
    assert n == 256 * (n / 256) + n % 256 && -128 <= n / 256 < 128;
    assert High(n) == if n < 0 then n / 256 + 256 else n / 256;
  }

  lemma BytesOf(first: Byte, second: Byte)
    ensures Low(Unsigned(first, second)) == Low(Signed(first, second)) == first
    ensures High(Unsigned(first, second)) == High(Signed(first, second)) == second
  {
    var n := Signed(first, second);
    assert n == first + 256 * (if second < 128 then second else second - 256);
    assert n / 256 == if second < 128 then second else second - 256;
  }

  /** Every report that can be sent arrives as it was sent. */
  lemma ReportsArrive(r: Report)
    requires Sendable(r)
    ensures Decode(Encode(r)) == r
  {
    match r
    case EndReport(messageId, sensorId, _) =>
      WordArrives(messageId);
      WordArrives(sensorId);
    case TrackReport(id, pixel, _, intensity, _) =>
      WordArrives(id);
      WordArrives(pixel);
      WordArrives(intensity);
    case VelocityReport(id, distance, speed, acceleration) =>
      WordArrives(id);
      WordArrives(distance);
      SignedWordArrives(speed);
      SignedWordArrives(acceleration);
    case OtherReport(_) =>
  }

  /** Every message carries a report. */
  lemma MessagesCarryReports(m: Message)
    ensures Sendable(Decode(m)) && Encode(Decode(m)) == m
  {
    BytesOf(m.data[0], m.data[1]);
    BytesOf(m.data[2], m.data[3]);
    BytesOf(m.data[3], m.data[4]);
    BytesOf(m.data[4], m.data[5]);
    BytesOf(m.data[6], m.data[7]);
    assert Encode(Decode(m)).data == m.data;
  }

  // ---------------------------------------------------------------------------------------------
  // What the reports mean

  /** An intensity of the AWL is the signal-to-noise ratio coded in it. */
  function Strength(family: Family, intensity: nat): real {
    if family.AWL? then intensity as real / 2048.0 - 21.0 else intensity as real
  }

  /** The AWL reports in centimetres. */
  function Measured(family: Family, n: int): real {
    if family.AWL? then n as real / 100.0 else n as real
  }

  /** A track as it was reported, not moving yet. */
  function TrackOf(family: Family, r: Report): Track
    requires r.TrackReport?
  {
    Track(r.id, r.confidence, Strength(family, r.intensity), 0.0, 0.0, 0.0)
  }

  /** A track that moves as it was reported to. */
  function Moving(family: Family, track: Track, r: Report): Track
    requires r.VelocityReport?
  {
    track.(distance := Measured(family, r.distance), speed := Measured(family, r.speed),
           acceleration := Measured(family, r.acceleration))
  }

  /** What the translation of one message does is what its report says: an end of frame sends the frame on under
      the reported ids and starts over; a track is added to the reported pixel; a velocity moves the first slot
      with the reported id; anything else is refused with the code of the family. */
  ghost predicate DoesAsReported(family: Family, f: Frame, r: Report, step: Step)
    requires Sized(f)
  {
    match r
    case EndReport(messageId, sensorId, _) =>
      && step.frame == DEFAULT_FRAME
      && step.effect == Produced(f.(messageId := messageId, sensorId := sensorId))
    case TrackReport(_, pixel, _, _, _) => pixel < 16 && step == AddTrack(f, pixel, TrackOf(family, r))
    case VelocityReport(id, _, _, _) =>
      && (exists p: nat, n: nat | p < 16 && n < 16 :: Locate(f.pixels, id) == Some((p, n))
           && step == Step(SetTrack(f, p, n, Moving(family, f.pixels[p].tracks[n], r)), Quiet))
    case OtherReport(_) => step == Step(f, Refused(if family.AWL? then 10200 else 10300))
  }

  lemma TranslatesAsReported(family: Family, f: Frame, m: Message)
    requires Sized(f) && Admissible(f, m)
    ensures DoesAsReported(family, f, Decode(m), Translate(family, f, m))
  {
    match Decode(m)
    case EndReport(_, _, _) =>
    case TrackReport(_, _, _, _, _) =>
      assert NewTrack(family, m) == TrackOf(family, Decode(m));
    case VelocityReport(id, _, _, _) =>
      var p := FirstPixel(f.pixels, id);
      var n := FirstWith(f.pixels[p].tracks, id);
      assert WithVelocity(family, f.pixels[p].tracks[n], m) == Moving(family, f.pixels[p].tracks[n], Decode(m));
      assert Locate(f.pixels, id) == Some((p, n));
    case OtherReport(_) =>
  }

  /** The messages the source can translate: a track names a pixel of the sensor, a velocity an id that is there. */
  lemma AdmissibleReports(f: Frame, m: Message)
    requires Sized(f)
    ensures Admissible(f, m) <==>
      match Decode(m)
      case EndReport(_, _, _) => true
      case TrackReport(_, pixel, _, _, _) => pixel < 16
      case VelocityReport(id, _, _, _) => Locate(f.pixels, id).Some?
      case OtherReport(_) => true
  {
  }
}
