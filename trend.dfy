/** The trend sampler inside main's capture loop: the next capture deadline and the two
    parallel lists of elapsed times and dominant emotions that the trend plot receives. */
module Trend {
  import opened Annotator

  /** The sampler's three variables, as values. */
  datatype Samples = Samples(nextCaptureTime: real, timeStamps: seq<real>, dominantEmotions: seq<string>)

  /** The state right after the clock is first read at startTime: both lists empty, the
      first deadline one second later. */
  function Initial(startTime: real): (s: Samples)
    ensures Consistent(s, startTime)
    ensures s.timeStamps == [] && s.dominantEmotions == []
  {
    Samples(startTime + 1.0, [], [])
  }

  /** The invariant of the sampler: the lists stay in lockstep, the deadline is one second
      past the start for every sample taken plus one, and the k-th sample (from 0) was
      taken at least k + 1 seconds after the start. */
  predicate Consistent(s: Samples, startTime: real) {
    && |s.timeStamps| == |s.dominantEmotions|
    && s.nextCaptureTime == startTime + 1.0 + |s.timeStamps| as real
    && forall k :: 0 <= k < |s.timeStamps| ==> s.timeStamps[k] >= (k + 1) as real
  }

  /** Whether a frame records a sample: a face was found and annotated, trend mode is on,
      the clock has reached the deadline, and the mapping is not empty (`max` raises on an
      empty one before anything is appended). */
  predicate Due(s: Samples, trendMode: bool, faceFound: bool, emotions: Scores, now: real) {
    faceFound && trendMode && now >= s.nextCaptureTime && |emotions| > 0
  }

  /** The sampling step of one frame whose clock reads `now`. */
  function Sample(s: Samples, trendMode: bool, startTime: real, faceFound: bool, emotions: Scores, now: real): (t: Samples)
    ensures !Due(s, trendMode, faceFound, emotions, now) ==> t == s
    ensures Due(s, trendMode, faceFound, emotions, now) ==>
      && |t.timeStamps| == |s.timeStamps| + 1 && t.timeStamps[..|s.timeStamps|] == s.timeStamps
      && t.timeStamps[|s.timeStamps|] == now - startTime
      && |t.dominantEmotions| == |s.dominantEmotions| + 1
      && t.dominantEmotions[..|s.dominantEmotions|] == s.dominantEmotions
      && t.nextCaptureTime > s.nextCaptureTime
  {
    if Due(s, trendMode, faceFound, emotions, now) then
      Samples(s.nextCaptureTime + 1.0,
              s.timeStamps + [now - startTime],
              s.dominantEmotions + [emotions[DominantIndex(emotions)].0])
    else s
  }

  /** A step keeps the sampler consistent. */
  lemma SampleKeepsConsistent(s: Samples, trendMode: bool, startTime: real, faceFound: bool, emotions: Scores, now: real)
    requires Consistent(s, startTime)
    ensures Consistent(Sample(s, trendMode, startTime, faceFound, emotions, now), startTime)
  {
    var t := Sample(s, trendMode, startTime, faceFound, emotions, now);
    if Due(s, trendMode, faceFound, emotions, now) {
      var n := |s.timeStamps|;
      assert t.timeStamps[n] == now - startTime;
      assert now - startTime >= (n + 1) as real;
    }
  }

  /** A step either appends exactly one sample to each list, keeps what was recorded before,
      and moves the deadline by exactly one second, or changes nothing; it appends exactly
      when the sample is due.  A sample stores the dominant emotion and the time elapsed
      since the start. */
  lemma SampleAppendsOneOrNothing(s: Samples, trendMode: bool, startTime: real, faceFound: bool, emotions: Scores, now: real)
    ensures var t := Sample(s, trendMode, startTime, faceFound, emotions, now);
      && (t != s <==> Due(s, trendMode, faceFound, emotions, now))
      && (t == s || (
            && |t.timeStamps| == |s.timeStamps| + 1
            && |t.dominantEmotions| == |s.dominantEmotions| + 1
            && t.timeStamps[..|s.timeStamps|] == s.timeStamps
            && t.dominantEmotions[..|s.dominantEmotions|] == s.dominantEmotions
            && t.timeStamps[|s.timeStamps|] == now - startTime
            && IsFirstMaximum(emotions, DominantIndex(emotions))
            && t.dominantEmotions[|s.dominantEmotions|] == emotions[DominantIndex(emotions)].0
            && t.nextCaptureTime == s.nextCaptureTime + 1.0))
  {
    var t := Sample(s, trendMode, startTime, faceFound, emotions, now);
    if Due(s, trendMode, faceFound, emotions, now) {
      assert |t.timeStamps| != |s.timeStamps|;
    }
  }

  /** One step of the fixed cadence: if floor(prev - start) samples have been taken, a
      face frame in trend mode read at most a second after prev leaves floor(now - start)
      samples, so the sampler keeps up with the clock. */
  lemma SampleKeepsUp(s: Samples, startTime: real, emotions: Scores, prev: real, now: real)
    requires Consistent(s, startTime)
    requires |emotions| > 0
    requires |s.timeStamps| as real <= prev - startTime < |s.timeStamps| as real + 1.0
    requires prev <= now <= prev + 1.0
    ensures var t := Sample(s, true, startTime, true, emotions, now);
      |t.timeStamps| as real <= now - startTime < |t.timeStamps| as real + 1.0
  {
  }

  /** The sampler object of main: start time and trend mode are fixed for the run, the
      deadline and the two lists are updated in place. */
  class Sampler {
    const startTime: real
    const trendMode: bool
    var nextCaptureTime: real
    var timeStamps: seq<real>
    var dominantEmotions: seq<string>

    function State(): Samples
      reads this
    {
      Samples(nextCaptureTime, timeStamps, dominantEmotions)
    }

    /** The sampler invariant is `Consistent` of the object's state, so every fact proved of
        `Sample` and `Consistent` holds of the fields. */
    ghost predicate Valid()
      reads this
    {
      Consistent(State(), startTime)
    }

    constructor (startTime: real, trendMode: bool)
      ensures this.startTime == startTime && this.trendMode == trendMode
      ensures Valid() && State() == Initial(startTime)
    {
      this.startTime := startTime;
      this.trendMode := trendMode;
      dominantEmotions := [];
      timeStamps := [];
      nextCaptureTime := startTime + 1.0;
    }

    /** The sampling code run after a frame, with the clock reading `now`; faceFound says
        whether the frame got that far (a face was found and annotated). */
    method Step(faceFound: bool, emotions: Scores, now: real)
      requires Valid()
      modifies this
      ensures Valid()
      ensures |timeStamps| == |dominantEmotions|
      ensures nextCaptureTime == startTime + 1.0 + |timeStamps| as real
      ensures State() == Sample(old(State()), trendMode, startTime, faceFound, emotions, now)
    {
      if faceFound && trendMode && now >= nextCaptureTime && |emotions| > 0 {
        var dominant := emotions[DominantIndex(emotions)].0;
        dominantEmotions := dominantEmotions + [dominant];
        timeStamps := timeStamps + [now - startTime];
        nextCaptureTime := nextCaptureTime + 1.0;
      }
      SampleKeepsConsistent(old(State()), trendMode, startTime, faceFound, emotions, now);
    }
  }
}
