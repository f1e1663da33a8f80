/** The whole gateway: the pipeline of SensorAccessLink around the translation of either sensor family.
  */
module Gateway {
  import opened Pipeline
  import opened PipelineDrain
  import opened PipelineRuns
  import F = FrameSpec
  import A = FrameAssembly
  import Raw = RawData
  import SC = SensorCommunicator

  type RawContent = seq<Raw.Sample>

  /** translateMessage of a family. Where the source would fail, nothing is said of it: the model does nothing. */
  function TranslateOne(family: F.Family, f: F.Frame, m: F.Message): (F.Frame, seq<F.Frame>, seq<int>) {
    if F.Sized(f) && F.Admissible(f, m) then
      var step := F.Translate(family, f, m);
      (step.frame,
       if step.effect.Produced? then [step.effect.frame] else [],
       if step.effect.Refused? then [step.effect.code] else [])
    else (f, [], [])
  }

  /** translateRawData of a family: only the Guardian's does anything. */
  function TranslateRaw(family: F.Family, content: RawContent): (seq<RawContent>, seq<int>) {
    if family.Guardian? && |content| == Raw.NUMBER_OF_CHANNELS * Raw.RAW_DATA_SAMPLING_LENGTH
    then
      ([Raw.Translated(content, Raw.RAW_DATA_SAMPLING_LENGTH, Raw.NUMBER_OF_CHANNELS, Raw.CHANNEL_POSITIONS)], [])
    else ([], [])
  }

  function StrategyOf(family: F.Family): Strategy<F.Message, RawContent, F.Frame, RawContent, int, F.Frame> {
    Strategy(F.DEFAULT_FRAME, (f, m) => TranslateOne(family, f, m), content => TranslateRaw(family, content))
  }

  /** The pipeline's translation of a stream is the frames that its messages produce one by one, and its complaints
      are the codes of those refused. */
  lemma {:induction false} TranslatesStream(family: F.Family, s: seq<F.Message>)
    requires F.AdmissibleRun(family, F.DEFAULT_FRAME, s)
    ensures Translated(StrategyOf(family), s) ==
      (F.FrameAfter(family, F.DEFAULT_FRAME, s), F.FramesOf(F.Effects(family, F.DEFAULT_FRAME, s)))
    ensures Complaints(StrategyOf(family), s) == F.CodesOf(F.Effects(family, F.DEFAULT_FRAME, s))
  {
    if s != [] {
      var before, m := s[..|s| - 1], s[|s| - 1];
      assert s == before + [m];
      F.RunSplits(family, F.DEFAULT_FRAME, before, [m]);
      TranslatesStream(family, before);
      var f := F.FrameAfter(family, F.DEFAULT_FRAME, before);
      F.OneMessage(family, f, m);
      F.RunConcat(family, F.DEFAULT_FRAME, before, [m]);
      var effect := F.Translate(family, f, m).effect;
      F.FramesConcat(F.Effects(family, F.DEFAULT_FRAME, before), [effect]);
      assert F.FramesOf([effect]) == if effect.Produced? then [effect.frame] else [];
      TranslatedGrows(StrategyOf(family), before, m);
      F.CodesConcat(F.Effects(family, F.DEFAULT_FRAME, before), [effect]);
      assert F.CodesOf([effect]) == if effect.Refused? then [effect.code] else [];
      ComplaintsGrow(StrategyOf(family), before, m);
    }
  }

  /** From the sensor to the server: whatever the interleaving of the gateway's threads, whatever errors it
      met and however it reconnected, when it has been terminated and joined the server communicator has been
      handed one frame for each end of frame among the messages fetched, in order, and each holds exactly the
      tracks its own messages reported; and the error handler has been handed, from the translator of messages,
      exactly the codes of the messages refused, in order. */
  lemma ServerGetsWhatTheSensorSaid(
      family: F.Family, d: Defaults<F.Message, RawContent, F.Frame, RawContent, int>,
      steps: seq<Step<F.Message, RawContent, F.Frame, RawContent, int>>, batches: seq<A.Batch>,
      unfinished: seq<F.Message>)
    requires EnabledRun(StrategyOf(family), d, Start(StrategyOf(family), d), steps) && Given(steps) == ORDERS
    requires forall i :: 0 <= i < |batches| ==> A.WellFormedBatch(batches[i])
    requires A.WellFormed(unfinished)
    requires SC.NonDefault(Fetched(steps), d.message) == A.Stream(batches) + unfinished
    ensures Sent(steps) == A.ExpectedFrames(family, batches)
    ensures By(Handled(steps, FromTranslator), MessageTranslator) ==
      A.RefusalsOver(family, batches) + A.Refusals(family, unfinished)
  {
    TerminationDrains(StrategyOf(family), d, steps, Main, FromSensor);
    ComplaintsAreHandled(StrategyOf(family), d, steps);
    A.UnfinishedStream(family, batches, unfinished);
    TranslatesStream(family, A.Stream(batches) + unfinished);
  }

  /** Sixteen channels of a hundred samples each. */
  predicate FullContents(contents: seq<RawContent>) {
    forall i :: 0 <= i < |contents| ==> |contents[i]| == 16 * 100
  }

  /** The contents translated, each on its own. */
  function TranslatedContents(contents: seq<RawContent>): (translated: seq<RawContent>)
    requires FullContents(contents)
    ensures |translated| == |contents|
  {
    seq(|contents|, i requires 0 <= i < |contents| =>
      Raw.Translated(contents[i], 100, 16, Raw.CHANNEL_POSITIONS))
  }

  lemma TranslatedContentsGrow(before: seq<RawContent>, content: RawContent)
    requires FullContents(before) && |content| == 16 * 100
    ensures TranslatedContents(before + [content]) == TranslatedContents(before) + TranslateRaw(F.Guardian, content).0
  {
  }

  lemma {:induction false} TranslatesContents(contents: seq<RawContent>)
    requires FullContents(contents)
    ensures TranslatedRawData(StrategyOf(F.Guardian), contents) == TranslatedContents(contents)
  {
    if contents != [] {
      var before, content := contents[..|contents| - 1], contents[|contents| - 1];
      assert contents == before + [content];
      TranslatesContents(before);
      TranslatedRawDataGrows(StrategyOf(F.Guardian), before, content);
      TranslatedContentsGrow(before, content);
    }
  }

  lemma {:induction false} ContentsRaiseNothing(family: F.Family, contents: seq<RawContent>)
    ensures RawDataComplaints(StrategyOf(family), contents) == []
  {
    if contents != [] {
      var before, content := contents[..|contents| - 1], contents[|contents| - 1];
      assert contents == before + [content];
      ContentsRaiseNothing(family, before);
      RawDataComplaintsGrow(StrategyOf(family), before, content);
    }
  }

  /** The same for the Guardian's raw data: every cycle fetched that is not the default, once, in order, and no
      complaint. */
  lemma ServerGetsTheRawData(
      d: Defaults<F.Message, RawContent, F.Frame, RawContent, int>,
      steps: seq<Step<F.Message, RawContent, F.Frame, RawContent, int>>, contents: seq<RawContent>)
    requires EnabledRun(StrategyOf(F.Guardian), d, Start(StrategyOf(F.Guardian), d), steps) && Given(steps) == ORDERS
    requires contents == SC.NonDefault(FetchedRawData(steps), d.rawData)
    requires FullContents(contents)
    ensures SentRawData(steps) == TranslatedContents(contents)
    ensures By(Handled(steps, FromTranslator), RawDataTranslator) == []
  {
    TerminationDrains(StrategyOf(F.Guardian), d, steps, Main, FromSensor);
    ComplaintsAreHandled(StrategyOf(F.Guardian), d, steps);
    TranslatesContents(contents);
    ContentsRaiseNothing(F.Guardian, contents);
  }

  lemma {:induction false} AwlTranslatesNoRawData(contents: seq<RawContent>)
    ensures TranslatedRawData(StrategyOf(F.AWL), contents) == []
  {
    if contents != [] { AwlTranslatesNoRawData(contents[..|contents| - 1]); }
  }

  /** The AWL's raw data go no further than its translator: at no time has the server been handed any. */
  lemma AwlRawDataAreDropped(
      d: Defaults<F.Message, RawContent, F.Frame, RawContent, int>,
      steps: seq<Step<F.Message, RawContent, F.Frame, RawContent, int>>)
    requires EnabledRun(StrategyOf(F.AWL), d, Start(StrategyOf(F.AWL), d), steps)
    ensures SentRawData(steps) == []
  {
    NothingIsInvented(StrategyOf(F.AWL), d, steps, Main, FromSensor);
    AwlTranslatesNoRawData(ConsumedRawData(steps));
  }
}
