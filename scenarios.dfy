/** Concrete runs of the model: a single annotated frame, a steady three-second run in
    trend mode, and a run whose clock jumps ahead. */
module Scenarios {
  import opened Wrappers
  import opened Annotator
  import opened Trend
  import opened CaptureLoop

  /** A classifier answer in its usual label order, mostly happy. */
  const MostlyHappy: Scores :=
    [("angry", 0.0), ("disgust", 0.0), ("fear", 0.0), ("happy", 0.9), ("sad", 0.1), ("surprise", 0.0), ("neutral", 0.0)]

  /** The box is drawn in happy's green and the label above it reads happy with 0.9. */
  lemma MostlyHappyIsBoxedInGreen(box: Box)
    ensures var d := EmotionInfo(MostlyHappy, box, Colors);
      && d.error == None
      && |d.commands| == 9
      && d.commands[0] == Rectangle(Point(box.x, box.y), Point(box.x + box.w, box.y + box.h), Color(0, 255, 0))
      && d.commands[1] == Text(Scored("happy", 0.9), Point(box.x, box.y - 10), Color(0, 255, 0))
      && d.commands[8] == Text(Scored("neutral", 0.0), Point(0, 240), Color(255, 255, 255))
  {
    assert IsFirstMaximum(MostlyHappy, 3);
    DominantIsUnique(MostlyHappy, 3);
    SevenEmotionsAnnotateFully(MostlyHappy, box);
    EmotionInfoLayout(MostlyHappy, box, Colors, 7);
  }

  /** A read frame with one happy face, the clock at t, and key code `key`. */
  function HappyFrame(t: real, key: int): FrameEvent {
    Captured(Detected([Face(Box(0, 0, 10, 10), [("happy", 1.0)])]), t, key)
  }

  /** Frames every half second for three seconds, quitting on the last: three samples,
      at 1, 2 and 3 seconds. */
  lemma SteadyThreeSecondRun()
    ensures var effects := Session(true, Config(true, 0.0),
      [HappyFrame(0.5, -1), HappyFrame(1.0, -1), HappyFrame(1.5, -1),
       HappyFrame(2.0, -1), HappyFrame(2.5, -1), HappyFrame(3.0, 113)]);
      effects[|effects| - 1] == PlotTrend([1.0, 2.0, 3.0], ["happy", "happy", "happy"])
  {
  }

  /** After the clock jumps from 0.5 to 3.2 seconds, the two frames at 3.2 and 3.25 both
      record a sample, 0.05 seconds apart: the deadline moves by one second per sample, so
      samples are not always a second apart. */
  lemma CatchUpSamplesAreCloserThanOneSecond()
    ensures var effects := Session(true, Config(true, 0.0),
      [HappyFrame(0.5, -1), HappyFrame(3.2, -1), HappyFrame(3.25, -1), ReadFailed]);
      effects[|effects| - 1] == PlotTrend([3.2, 3.25], ["happy", "happy"])
  {
  }
}
