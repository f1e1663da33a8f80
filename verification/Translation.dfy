/** Pixel, SensorMessage and the translation strategies as the objects they are: a frame's pixels hold their
    tracks in fixed arrays that the messages fill in place. Every method is proved to do to the frame what
    FrameSpec says.
  */
module Translation {
  import opened Wrappers
  import opened Errors
  import opened Spec = FrameSpec
  import opened Reports

  class Pixel {
    var id: nat
    const tracks: array<Track>
    var count: nat // currentNumberOfTracksInPixel

    ghost predicate Valid()
      reads this, tracks
    {
      tracks.Length == NUMBER_OF_TRACKS_IN_PIXEL && count <= NUMBER_OF_TRACKS_IN_PIXEL
    }

    function View(): Spec.Pixel
      reads this, tracks
    {
      Spec.Pixel(id, tracks[..], count)
    }

    constructor ()
      ensures Valid() && View() == DEFAULT_PIXEL && fresh(tracks)
    {
      id, count := UNDEFINED_ID, 0;
      tracks := new Track[NUMBER_OF_TRACKS_IN_PIXEL](_ => DEFAULT_TRACK);
      new;
      assert tracks[..] == DEFAULT_PIXEL.tracks;
    }

    method AddTrack(track: Track) returns (failure: Option<int>)
      requires Valid()
      modifies this`count, tracks
      ensures Valid()
      ensures failure == if old(count) < NUMBER_OF_TRACKS_IN_PIXEL then None else Some(PIXEL_ALREADY_HAS_MAXIMUM_TRACK)
      ensures View() == if failure.Some? then old(View()) else
        old(View()).(tracks := old(View()).tracks[old(count) := track], count := old(count) + 1)
    {
      if count >= NUMBER_OF_TRACKS_IN_PIXEL {
        return Some(PIXEL_ALREADY_HAS_MAXIMUM_TRACK);
      }
      tracks[count] := track;
      count := count + 1;
      return None;
    }

    /** The loop goes on after the track was found. */
    method DoesTrackExist(trackId: nat) returns (trackExists: bool)
      requires Valid()
      ensures trackExists <==> Spec.DoesTrackExist(View(), trackId)
    {
      trackExists := false;
      for i := 0 to tracks.Length
        invariant trackExists <==> exists n :: 0 <= n < i && View().tracks[n].id == trackId
      {
        assert View().tracks[i] == tracks[i];
        if tracks[i].id == trackId {
          trackExists := true;
        }
      }
    }

    /** The place of the first track with this id, which the source returns as a pointer to it. */
    method FetchTrackById(trackId: nat) returns (place: Option<nat>)
      requires Valid()
      ensures var n := FirstWith(View().tracks, trackId);
        place == if n < NUMBER_OF_TRACKS_IN_PIXEL then Some(n) else None
    {
      for i := 0 to tracks.Length
        invariant forall k :: 0 <= k < i ==> View().tracks[k].id != trackId
      {
        assert View().tracks[i] == tracks[i];
        if tracks[i].id == trackId {
          return Some(i);
        }
      }
      return None;
    }
  }

  class SensorMessage {
    var messageId: nat
    var sensorId: nat
    const pixels: seq<Pixel>
    ghost const storage: set<object> // the pixels and their arrays

    ghost predicate Valid()
      reads this, storage
    {
      && |pixels| == NUMBER_OF_PIXELS && this !in storage
      && (forall p | 0 <= p < |pixels| :: pixels[p] in storage && pixels[p].tracks in storage && pixels[p].Valid())
      && (forall p, q | 0 <= p < q < |pixels| :: pixels[p] != pixels[q] && pixels[p].tracks != pixels[q].tracks)
    }

    ghost function View(): (f: Frame)
      requires Valid()
      reads this, storage
      ensures Sized(f)
    {
      Frame(messageId, sensorId, seq(|pixels|, p requires 0 <= p < |pixels|
        && Valid() reads this, storage => pixels[p].View()))
    }

    /** The default message. */
    constructor ()
      ensures Valid() && fresh(storage) && View() == DEFAULT_FRAME && messageId == 0 && sensorId == 65535
    {
      messageId, sensorId := DEFAULT_MESSAGE_ID, DEFAULT_SENSOR_ID;
      var made: seq<Pixel> := [];
      ghost var owned: set<object> := {};
      for p := 0 to NUMBER_OF_PIXELS
        invariant |made| == p && fresh(owned)
        invariant forall q | 0 <= q < p :: made[q] in owned && made[q].tracks in owned
        invariant forall q | 0 <= q < p :: made[q].Valid() && made[q].View() == DEFAULT_PIXEL
        invariant forall q, r | 0 <= q < r < p :: made[q] != made[r] && made[q].tracks != made[r].tracks
      {
        var pixel := new Pixel();
        made := made + [pixel];
        owned := owned + {pixel, pixel.tracks};
      }
      pixels := made;
      storage := owned;
      new;
      assert View().pixels == DEFAULT_FRAME.pixels;
    }

    method UpdatePixelId(pixelId: nat)
      requires Valid() && pixelId < NUMBER_OF_PIXELS
      modifies {pixels[pixelId]}`id
      ensures Valid()
      ensures View() ==
        old(View()).(pixels := old(View()).pixels[pixelId := old(View()).pixels[pixelId].(id := pixelId)])
    {
      pixels[pixelId].id := pixelId;
      assert View().pixels == old(View()).pixels[pixelId := old(View()).pixels[pixelId].(id := pixelId)];
    }

    method AddTrackToPixelWithId(pixelId: nat, track: Track) returns (failure: Option<int>)
      requires Valid() && pixelId < NUMBER_OF_PIXELS
      modifies pixels[pixelId], pixels[pixelId].tracks
      ensures Valid()
      ensures var step := Spec.AddTrack(old(View()), pixelId, track);
        && View() == step.frame
        && failure == if step.effect.Refused? then Some(step.effect.code) else None
    {
      UpdatePixelId(pixelId);
      label named:
      failure := pixels[pixelId].AddTrack(track);
      ghost var before := old(View()).pixels;
      assert old@named(View()).pixels[pixelId] == old@named(pixels[pixelId].View());
      assert View().pixels == before[pixelId := pixels[pixelId].View()];
    }

    /** The copy that is handed to the consumers. */
    method Copy() returns (f: Frame)
      requires Valid()
      ensures f == View()
    {
      var views: seq<Spec.Pixel> := [];
      for p := 0 to NUMBER_OF_PIXELS
        invariant views == View().pixels[..p]
      {
        views := views + [pixels[p].View()];
      }
      return Frame(messageId, sensorId, views);
    }
  }

  class TranslationStrategy {
    const family: Family
    var currentOutputMessage: SensorMessage
    var produced: seq<Frame> // handed to the message consumers

    ghost predicate Valid()
      reads this, currentOutputMessage, currentOutputMessage.storage
    {
      currentOutputMessage.Valid() && this !in currentOutputMessage.storage
    }

    constructor (family: Family)
      ensures Valid() && fresh(currentOutputMessage) && fresh(currentOutputMessage.storage)
      ensures this.family == family && currentOutputMessage.View() == DEFAULT_FRAME && produced == []
    {
      this.family := family;
      currentOutputMessage := new SensorMessage();
      produced := [];
    }

    /** The search over the pixels for the first track with this id. */
    method FetchTrack(trackId: nat) returns (place: Option<(nat, nat)>)
      requires Valid()
      ensures place == Locate(currentOutputMessage.View().pixels, trackId)
    {
      ghost var views := currentOutputMessage.View().pixels;
      for i := 0 to NUMBER_OF_PIXELS
        invariant forall q :: 0 <= q < i ==> !Spec.DoesTrackExist(views[q], trackId)
      {
        var pixel := currentOutputMessage.pixels[i];
        assert views[i] == pixel.View();
        var found := pixel.DoesTrackExist(trackId);
        if found {
          var place := pixel.FetchTrackById(trackId);
          LocatedAt(views, trackId, i, place.value);
          return Some((i, place.value));
        }
      }
      NotLocated(views, trackId);
      return None;
    }

    method TranslateMessage(m: Message) returns (failure: Option<int>)
      requires Valid() && Admissible(currentOutputMessage.View(), m)
      modifies this, currentOutputMessage, currentOutputMessage.storage
      ensures Valid()
      ensures currentOutputMessage == old(currentOutputMessage) ||
        (fresh(currentOutputMessage) && fresh(currentOutputMessage.storage))
      ensures var step := Translate(family, old(currentOutputMessage.View()), m);
        && currentOutputMessage.View() == step.frame
        && produced == old(produced) + (if step.effect.Produced? then [step.effect.frame] else [])
        && failure == (if step.effect.Refused? then Some(step.effect.code) else None)
        && DoesAsReported(family, old(currentOutputMessage.View()), Decode(m), step)
    {
      TranslatesAsReported(family, currentOutputMessage.View(), m);
      failure := None;
      if m.id == END_OF_FRAME {
        TranslateEndOfFrameMessage(m);
      } else if m.id == DETECTION_TRACK {
        failure := currentOutputMessage.AddTrackToPixelWithId(PixelIdOf(m), NewTrack(family, m));
      } else if m.id == DETECTION_VELOCITY {
        TranslateDetectionVelocityMessage(m);
      } else {
        failure := Some(if family == AWL then UNRECOGNIZED_AWL_MESSAGE_ID else UNRECOGNIZED_GUARDIAN_MESSAGE_ID);
      }
    }

    method TranslateEndOfFrameMessage(m: Message)
      requires Valid()
      modifies this, currentOutputMessage
      ensures Valid() && fresh(currentOutputMessage) && fresh(currentOutputMessage.storage)
      ensures produced == old(produced) + [old(currentOutputMessage.View()).(
        messageId := Unsigned(m.data[0], m.data[1]), sensorId := Unsigned(m.data[2], m.data[3]))]
      ensures currentOutputMessage.View() == DEFAULT_FRAME
    {
      currentOutputMessage.sensorId := Unsigned(m.data[2], m.data[3]);
      currentOutputMessage.messageId := Unsigned(m.data[0], m.data[1]);
      assert currentOutputMessage.View().pixels == old(currentOutputMessage.View()).pixels;
      ghost var ended := EndFrame(old(currentOutputMessage.View()), m);
      assert currentOutputMessage.View() == ended;
      var copy := currentOutputMessage.Copy();
      assert copy == ended;
      produced := produced + [copy];
      currentOutputMessage := new SensorMessage();
    }

    method TranslateDetectionVelocityMessage(m: Message)
      requires Valid() && m.id == DETECTION_VELOCITY && Admissible(currentOutputMessage.View(), m)
      modifies currentOutputMessage.storage
      ensures Valid()
      ensures currentOutputMessage.View() == AddVelocity(family, old(currentOutputMessage.View()), m).frame
      ensures DoesAsReported(
        family, old(currentOutputMessage.View()), Decode(m), Step(currentOutputMessage.View(), Quiet))
    {
      TranslatesAsReported(family, currentOutputMessage.View(), m);
      var place := FetchTrack(TrackIdOf(m));
      var p, n := place.value.0, place.value.1;
      var tracks := currentOutputMessage.pixels[p].tracks;
      assert currentOutputMessage.View().pixels[p] == currentOutputMessage.pixels[p].View();
      tracks[n] := WithVelocity(family, tracks[n], m);
      ghost var before := old(currentOutputMessage.View());
      assert currentOutputMessage.View().pixels ==
        before.pixels[p := before.pixels[p].(tracks := before.pixels[p].tracks[n := tracks[n]])];
    }
  }
}
