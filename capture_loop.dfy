/** main of face_square.py after the detectors are built: open the camera, then loop over
    frames (read, detect, annotate, sample, show, poll the quit key), then tear down and
    hand the trend to the plot.  The camera, the detector, the clock and the key poll are
    inputs: one FrameEvent per loop iteration. */
module CaptureLoop {
  import opened Wrappers
  import opened Annotator
  import opened Trend

  /** The colour of each of the seven emotions the classifier reports (COLORS). */
  const Colors: map<string, Color> := map[
    "angry" := Color(0, 0, 255),
    "disgust" := Color(88, 57, 39),
    "fear" := Color(0, 0, 0),
    "happy" := Color(0, 255, 0),
    "sad" := Color(255, 0, 0),
    "surprise" := Color(0, 255, 255),
    "neutral" := Color(255, 255, 255)]

  const NoFaceText: string := "No face detected."
  const OpenFailureText: string := "Error: Could not open webcam."
  const ReadFailureText: string := "Error: Failed to read frame from webcam."

  /** One detected face: its box and its emotion mapping. */
  datatype Face = Face(box: Box, emotions: Scores)

  /** What the emotion detector did with a frame: raised, or returned a list of faces. */
  datatype Detection = Raised(reason: string) | Detected(faces: seq<Face>)

  /** One iteration's input: the frame read failed, or it succeeded and then the detector
      answered, the clock read `clock` (when consulted) and the key poll returned `key`
      (-1 for no key). */
  datatype FrameEvent = ReadFailed | Captured(detection: Detection, clock: real, key: int)

  /** The exceptions main's handler catches and prints. */
  datatype Exception = DetectorError(reason: string) | AnnotationFailed(error: AnnotationError)

  /** What the run does to the outside world, in order. */
  datatype Effect =
    | Console(line: string)
    | ConsoleError(exception: Exception)
    | Show(commands: seq<Command>)
    | Release
    | DestroyWindows
    | PlotTrend(timeStamps: seq<real>, dominantEmotions: seq<string>)

  datatype Config = Config(trendMode: bool, startTime: real)

  /** `waitKey(1) & 0xFF == ord('q')`; for the divisor 256, Dafny's % agrees with Python's
      masking of negative key codes. */
  predicate QuitKey(key: int) {
    key % 256 == 'q' as int
  }

  /** Only the low byte of the key code matters, 'q' quits, and no key pressed (-1) never
      does. */
  lemma QuitKeyReadsLowByte(key: int, k: int)
    ensures QuitKey(key + 256 * k) <==> QuitKey(key)
    ensures QuitKey('q' as int) && !QuitKey(-1)
  {
    assert (key + 256 * k) % 256 == key % 256;
  }

  /** An iteration after which the loop exits. */
  predicate Stops(event: FrameEvent) {
    event.ReadFailed? || QuitKey(event.key)
  }

  /** One frame's result: the sampler state after it, the drawing calls made on the frame,
      and what was printed before it was shown. */
  datatype FrameOutcome = FrameOutcome(state: Samples, drawn: seq<Command>, log: seq<Effect>)

  /** The body of the `try` block for one successfully read frame. */
  function ProcessFrame(cfg: Config, s: Samples, detection: Detection, clock: real): (f: FrameOutcome)
    ensures |f.log| <= 1
    ensures f.log == [] <==> detection.Detected? && (|detection.faces| == 0 || ReadsClock(detection))
    ensures !ReadsClock(detection) ==> f.state == s
    ensures detection.Raised? ==> f.drawn == []
  {
    match detection
    case Raised(reason) => FrameOutcome(s, [], [ConsoleError(DetectorError(reason))])
    case Detected(faces) =>
      if |faces| == 0 then FrameOutcome(s, [ErrorMessage(NoFaceText)], [])
      else
        var d := EmotionInfo(faces[0].emotions, faces[0].box, Colors);
        if d.error.Some? then FrameOutcome(s, d.commands, [ConsoleError(AnnotationFailed(d.error.value))])
        else FrameOutcome(Sample(s, cfg.trendMode, cfg.startTime, true, faces[0].emotions, clock), d.commands, [])
  }

  /** Where the loop got to: the sampler state, the effects so far, and whether it exited. */
  datatype LoopEnd = LoopEnd(state: Samples, effects: seq<Effect>, stopped: bool)

  /** The capture loop run over the given iterations from sampler state s.  When the
      iterations run out before a stop, the loop has not exited (stopped is false). */
  function Loop(cfg: Config, events: seq<FrameEvent>, s: Samples): (r: LoopEnd)
    decreases |events|
  {
    if events == [] then LoopEnd(s, [], false)
    else match events[0]
      case ReadFailed => LoopEnd(s, [Console(ReadFailureText)], true)
      case Captured(detection, clock, key) =>
        var f := ProcessFrame(cfg, s, detection, clock);
        var out := f.log + [Show(f.drawn)];
        if QuitKey(key) then LoopEnd(f.state, out, true)
        else
          var rest := Loop(cfg, events[1..], f.state);
          LoopEnd(rest.state, out + rest.effects, rest.stopped)
  }

  /** Release the camera, close the windows, and hand the trend to the plot in trend mode. */
  function Teardown(cfg: Config, s: Samples): (t: seq<Effect>)
    ensures |t| == if cfg.trendMode then 3 else 2
    ensures t[0] == Release && t[1] == DestroyWindows
    ensures cfg.trendMode ==> t[2] == PlotTrend(s.timeStamps, s.dominantEmotions)
  {
    [Release, DestroyWindows] + (if cfg.trendMode then [PlotTrend(s.timeStamps, s.dominantEmotions)] else [])
  }

  /** A whole run of main: nothing but a message when the camera does not open. */
  function Session(cameraOpened: bool, cfg: Config, events: seq<FrameEvent>): (r: seq<Effect>)
    ensures !cameraOpened ==> r == [Console(OpenFailureText)]
    ensures cameraOpened ==> Loop(cfg, events, Initial(cfg.startTime)).effects <= r
  {
    if !cameraOpened then [Console(OpenFailureText)]
    else
      var end := Loop(cfg, events, Initial(cfg.startTime));
      end.effects + (if end.stopped then Teardown(cfg, end.state) else [])
  }

  /** Prefixes the effects of an earlier part of the loop. */
  function After(effects: seq<Effect>, rest: LoopEnd): LoopEnd {
    LoopEnd(rest.state, effects + rest.effects, rest.stopped)
  }

  /** The `try` block for one read frame: detect, annotate or draw the no-face message,
      print what was caught, and let the sampler look at the clock. */
  method HandleFrame(sampler: Sampler, detection: Detection, clock: real)
    returns (drawn: seq<Command>, log: seq<Effect>)
    requires sampler.Valid()
    modifies sampler
    ensures sampler.Valid()
    ensures var f := ProcessFrame(Config(sampler.trendMode, sampler.startTime), old(sampler.State()), detection, clock);
      sampler.State() == f.state && drawn == f.drawn && log == f.log
  {
    var frame := new Frame();
    var faceFound, emotions := false, [];
    log := [];
    match detection {
      case Raised(reason) =>
        log := [ConsoleError(DetectorError(reason))];
      case Detected(faces) =>
        if |faces| == 0 {
          DrawErrorMessage(frame, NoFaceText);
        } else {
          var error := DrawEmotionInfo(frame, faces[0].emotions, faces[0].box, Colors);
          if error.Some? {
            log := [ConsoleError(AnnotationFailed(error.value))];
          } else {
            faceFound, emotions := true, faces[0].emotions;
          }
        }
    }
    sampler.Step(faceFound, emotions, clock);
    drawn := frame.commands;
  }

  /** main: the loop keeps its state in a Sampler and draws on a fresh Frame per iteration. */
  method Run(cameraOpened: bool, trendMode: bool, startTime: real, events: seq<FrameEvent>)
    returns (effects: seq<Effect>)
    ensures effects == Session(cameraOpened, Config(trendMode, startTime), events)
  {
    if !cameraOpened {
      return [Console(OpenFailureText)];
    }
    ghost var cfg := Config(trendMode, startTime);
    var sampler := new Sampler(startTime, trendMode);
    effects := [];
    var i := 0;
    var stopped := false;
    while i < |events| && !stopped
      invariant 0 <= i <= |events|
      invariant sampler.Valid()
      invariant sampler.startTime == startTime && sampler.trendMode == trendMode
      invariant !stopped ==> Loop(cfg, events, Initial(startTime)) == After(effects, Loop(cfg, events[i..], sampler.State()))
      invariant stopped ==> Loop(cfg, events, Initial(startTime)) == LoopEnd(sampler.State(), effects, true)
    {
      assert events[i..][1..] == events[i + 1..];
      var event := events[i];
      if event.ReadFailed? {
        effects := effects + [Console(ReadFailureText)];
        stopped := true;
      } else {
        var drawn, log := HandleFrame(sampler, event.detection, event.clock);
        effects := effects + log + [Show(drawn)];
        stopped := QuitKey(event.key);
      }
      i := i + 1;
    }
    if stopped {
      effects := effects + [Release, DestroyWindows];
      if trendMode {
        effects := effects + [PlotTrend(sampler.timeStamps, sampler.dominantEmotions)];
      }
    }
  }

  // ---------------------------------------------------------------------------------
  // Properties of the loop and the run

  /** The seven emotion labels the classifier reports, all of which have a colour. */
  const Emotions: set<string> := {"angry", "disgust", "fear", "happy", "sad", "surprise", "neutral"}

  /** The colour map has an entry for each of the seven emotions and for nothing else. */
  lemma ColoursAreTheSevenEmotions()
    ensures Colors.Keys == Emotions
  {
  }

  /** A face whose mapping is over the seven emotions is always annotated in full. */
  lemma SevenEmotionsAnnotateFully(emotions: Scores, box: Box)
    requires |emotions| > 0
    requires forall j :: 0 <= j < |emotions| ==> emotions[j].0 in Emotions
    ensures EmotionInfo(emotions, box, Colors).error == None
    ensures |EmotionInfo(emotions, box, Colors).commands| == 2 + |emotions|
  {
    ColoursAreTheSevenEmotions();
    EmotionInfoLayout(emotions, box, Colors, |emotions|);
  }

  /** Whether the frame gets as far as reading the clock: a face was found and annotated
      without an exception. */
  predicate ReadsClock(detection: Detection) {
    && detection.Detected? && |detection.faces| > 0
    && EmotionInfo(detection.faces[0].emotions, detection.faces[0].box, Colors).error == None
  }

  /** A frame's sampler state is the old one, or the old one with one sample appended at
      the frame's clock reading; the latter only for a frame with a face in trend mode. */
  lemma ProcessFrameAppendsAtMostOne(cfg: Config, s: Samples, detection: Detection, clock: real)
    ensures var t := ProcessFrame(cfg, s, detection, clock).state;
      || t == s
      || (&& ReadsClock(detection) && cfg.trendMode
          && t.timeStamps == s.timeStamps + [clock - cfg.startTime]
          && |t.dominantEmotions| == |s.dominantEmotions| + 1
          && t.dominantEmotions[..|s.dominantEmotions|] == s.dominantEmotions
          && t.nextCaptureTime == s.nextCaptureTime + 1.0)
  {
    match detection
    case Raised(_) =>
    case Detected(faces) =>
      if |faces| > 0 {
        var e := faces[0].emotions;
        SampleAppendsOneOrNothing(s, cfg.trendMode, cfg.startTime, true, e, clock);
      }
  }

  /** Every iteration keeps the sampler consistent, so the run's lists stay in lockstep and
      the deadline stays at start + 1 + the number of samples. */
  lemma {:induction false} LoopKeepsConsistent(cfg: Config, events: seq<FrameEvent>, s: Samples)
    requires Consistent(s, cfg.startTime)
    ensures Consistent(Loop(cfg, events, s).state, cfg.startTime)
    decreases |events|
  {
    if events != [] && events[0].Captured? {
      var f := ProcessFrame(cfg, s, events[0].detection, events[0].clock);
      match events[0].detection {
        case Raised(_) =>
        case Detected(faces) =>
          if |faces| > 0 {
            SampleKeepsConsistent(s, cfg.trendMode, cfg.startTime, true, faces[0].emotions, events[0].clock);
          }
      }
      if !QuitKey(events[0].key) {
        LoopKeepsConsistent(cfg, events[1..], f.state);
      }
    }
  }

  /** The index of the first iteration after which the loop exits, or |events| if none. */
  function FirstStop(events: seq<FrameEvent>): (n: nat)
    ensures n <= |events|
    ensures forall j :: 0 <= j < n ==> !Stops(events[j])
    ensures n < |events| ==> Stops(events[n])
  {
    if events == [] || Stops(events[0]) then 0 else 1 + FirstStop(events[1..])
  }

  /** How many iterations the loop runs. */
  function Consumed(events: seq<FrameEvent>): nat {
    if FirstStop(events) < |events| then FirstStop(events) + 1 else |events|
  }

  /** The loop exits exactly when some iteration fails to read or sees the quit key, it
      exits at the first one, and nothing after it is ever looked at. */
  lemma {:induction false} LoopExitsAtFirstStop(cfg: Config, events: seq<FrameEvent>, s: Samples)
    ensures Loop(cfg, events, s).stopped <==> FirstStop(events) < |events|
    ensures Loop(cfg, events, s) == Loop(cfg, events[..Consumed(events)], s)
    decreases |events|
  {
    if events == [] {
    } else if Stops(events[0]) {
      assert events[..Consumed(events)] == [events[0]];
    } else {
      var f := ProcessFrame(cfg, s, events[0].detection, events[0].clock);
      var rest := events[1..];
      LoopExitsAtFirstStop(cfg, rest, f.state);
      var prefix := events[..Consumed(events)];
      assert Consumed(events) == 1 + Consumed(rest);
      assert prefix[0] == events[0];
      assert prefix[1..] == rest[..Consumed(rest)];
    }
  }

  /** Frames the loop reads, up to and including the one it exits on, in which the
      detector returned at least one face. */
  function FaceFrames(events: seq<FrameEvent>): nat
    decreases |events|
  {
    if events == [] then 0
    else
      var here := if events[0].Captured? && events[0].detection.Detected? && |events[0].detection.faces| > 0 then 1 else 0;
      here + (if Stops(events[0]) then 0 else FaceFrames(events[1..]))
  }

  /** The loop only ever appends to the two lists (nothing recorded is rewritten), and at
      most once per frame it reads that has a face. */
  lemma {:induction false} LoopAppendsAtMostOnePerFace(cfg: Config, events: seq<FrameEvent>, s: Samples)
    ensures var t := Loop(cfg, events, s).state;
      && |s.timeStamps| <= |t.timeStamps| <= |s.timeStamps| + FaceFrames(events)
      && |s.dominantEmotions| <= |t.dominantEmotions|
      && t.timeStamps[..|s.timeStamps|] == s.timeStamps
      && t.dominantEmotions[..|s.dominantEmotions|] == s.dominantEmotions
    decreases |events|
  {
    if events != [] && events[0].Captured? {
      var f := ProcessFrame(cfg, s, events[0].detection, events[0].clock);
      ProcessFrameAppendsAtMostOne(cfg, s, events[0].detection, events[0].clock);
      if !QuitKey(events[0].key) {
        LoopAppendsAtMostOnePerFace(cfg, events[1..], f.state);
        var t := Loop(cfg, events, s).state;
        assert t.timeStamps[..|s.timeStamps|] == t.timeStamps[..|f.state.timeStamps|][..|s.timeStamps|];
        assert t.dominantEmotions[..|s.dominantEmotions|]
            == t.dominantEmotions[..|f.state.dominantEmotions|][..|s.dominantEmotions|];
      }
    }
  }

  /** With trend mode off, or no face found in any frame the loop reads, the loop records
      no sample and never moves the deadline. */
  lemma {:induction false} LoopWithoutSamplingKeepsState(cfg: Config, events: seq<FrameEvent>, s: Samples)
    requires !cfg.trendMode || FaceFrames(events) == 0
    ensures Loop(cfg, events, s).state == s
    decreases |events|
  {
    if events != [] && events[0].Captured? {
      ProcessFrameAppendsAtMostOne(cfg, s, events[0].detection, events[0].clock);
      if !QuitKey(events[0].key) {
        LoopWithoutSamplingKeepsState(cfg, events[1..], s);
      }
    }
  }

  /** The clock readings the loop takes before it exits, in order: only frames whose face
      was annotated without an exception read the clock. */
  function Clocks(events: seq<FrameEvent>): seq<real>
    decreases |events|
  {
    if events == [] then []
    else (if events[0].Captured? && ReadsClock(events[0].detection) then [events[0].clock] else [])
         + (if Stops(events[0]) then [] else Clocks(events[1..]))
  }

  predicate Nondecreasing(xs: seq<real>) {
    forall i, j :: 0 <= i < j < |xs| ==> xs[i] <= xs[j]
  }

  predicate AtMost(xs: seq<real>, bound: real) {
    forall k :: 0 <= k < |xs| ==> xs[k] <= bound
  }

  /** No time exceeds the elapsed time of any of the readings. */
  predicate AtMostEach(times: seq<real>, readings: seq<real>, startTime: real) {
    forall c :: c in readings ==> AtMost(times, c - startTime)
  }

  /** If the clock readings the loop takes never go backwards, the recorded elapsed times
      never decrease. */
  lemma {:induction false} LoopStampsNondecreasing(cfg: Config, events: seq<FrameEvent>, s: Samples)
    requires Nondecreasing(Clocks(events))
    requires Nondecreasing(s.timeStamps)
    requires AtMostEach(s.timeStamps, Clocks(events), cfg.startTime)
    ensures Nondecreasing(Loop(cfg, events, s).state.timeStamps)
    decreases |events|
  {
    if events != [] && events[0].Captured? {
      var c0 := events[0].clock;
      var rest := events[1..];
      var f := ProcessFrame(cfg, s, events[0].detection, c0).state;
      ClocksOfFrame(events);
      FrameStampsStay(cfg, s, events[0].detection, c0);
      if !QuitKey(events[0].key) {
        if ReadsClock(events[0].detection) {
          LaterClocksBound(c0, Clocks(rest), f.timeStamps, cfg.startTime);
        }
        LoopStampsNondecreasing(cfg, rest, f);
      }
    }
  }

  /** How the first frame contributes to the readings: its own clock, if it reads one,
      followed by the rest's readings unless the loop exits there. */
  lemma ClocksOfFrame(events: seq<FrameEvent>)
    requires events != [] && events[0].Captured?
    ensures ReadsClock(events[0].detection) ==> events[0].clock in Clocks(events)
    ensures !QuitKey(events[0].key) && ReadsClock(events[0].detection)
      ==> Clocks(events) == [events[0].clock] + Clocks(events[1..])
    ensures !QuitKey(events[0].key) && !ReadsClock(events[0].detection)
      ==> Clocks(events) == Clocks(events[1..])
  {
    if ReadsClock(events[0].detection) {
      assert Clocks(events)[0] == events[0].clock;
    }
  }

  /** Readings after c0 in a non-decreasing list are non-decreasing, and times at or below
      c0's elapsed time are at or below theirs too. */
  lemma LaterClocksBound(c0: real, rest: seq<real>, times: seq<real>, startTime: real)
    requires Nondecreasing([c0] + rest)
    requires AtMost(times, c0 - startTime)
    ensures Nondecreasing(rest)
    ensures AtMostEach(times, rest, startTime)
  {
    NondecreasingTail(c0, rest);
  }

  /** One frame keeps the elapsed times non-decreasing; a frame that reads the clock leaves
      every time at or below its own reading, and any other frame changes nothing. */
  lemma FrameStampsStay(cfg: Config, s: Samples, detection: Detection, clock: real)
    requires Nondecreasing(s.timeStamps)
    requires ReadsClock(detection) ==> AtMost(s.timeStamps, clock - cfg.startTime)
    ensures var t := ProcessFrame(cfg, s, detection, clock).state;
      && Nondecreasing(t.timeStamps)
      && (ReadsClock(detection) ==> AtMost(t.timeStamps, clock - cfg.startTime))
      && (!ReadsClock(detection) ==> t == s)
  {
    ProcessFrameAppendsAtMostOne(cfg, s, detection, clock);
    var t := ProcessFrame(cfg, s, detection, clock).state;
    if t != s {
      assert t.timeStamps == s.timeStamps + [clock - cfg.startTime];
    }
  }

  /** A non-decreasing list stays so without its head, and its head is a lower bound. */
  lemma NondecreasingTail(c: real, xs: seq<real>)
    requires Nondecreasing([c] + xs)
    ensures Nondecreasing(xs)
    ensures forall x :: x in xs ==> c <= x
  {
    forall i, j | 0 <= i < j < |xs|
      ensures xs[i] <= xs[j]
    {
      assert xs[i] == ([c] + xs)[i + 1];
      assert xs[j] == ([c] + xs)[j + 1];
    }
    forall x | x in xs
      ensures c <= x
    {
      var j :| 0 <= j < |xs| && xs[j] == x;
      assert ([c] + xs)[0] == c && ([c] + xs)[j + 1] == x;
    }
  }

  /** Kinds of effect, for counting. */
  datatype Kind = ShowKind | ReleaseKind | DestroyKind | PlotKind

  predicate OfKind(effect: Effect, kind: Kind) {
    match kind
    case ShowKind => effect.Show?
    case ReleaseKind => effect.Release?
    case DestroyKind => effect.DestroyWindows?
    case PlotKind => effect.PlotTrend?
  }

  function Count(effects: seq<Effect>, kind: Kind): nat {
    if effects == [] then 0
    else (if OfKind(effects[0], kind) then 1 else 0) + Count(effects[1..], kind)
  }

  lemma {:induction false} CountConcat(a: seq<Effect>, b: seq<Effect>, kind: Kind)
    ensures Count(a + b, kind) == Count(a, kind) + Count(b, kind)
    decreases |a|
  {
    if a == [] {
      assert a + b == b;
    } else {
      assert (a + b)[0] == a[0];
      assert (a + b)[1..] == a[1..] + b;
      CountConcat(a[1..], b, kind);
    }
  }

  /** Iterations whose frame was read. */
  function CapturedCount(events: seq<FrameEvent>): nat {
    if events == [] then 0 else (if events[0].Captured? then 1 else 0) + CapturedCount(events[1..])
  }

  /** Inside the loop, every frame read is shown exactly once, whatever the detector did,
      and nothing is released, closed or plotted. */
  lemma {:induction false} LoopShowsEachFrame(cfg: Config, events: seq<FrameEvent>, s: Samples)
    ensures var effects := Loop(cfg, events, s).effects;
      && Count(effects, ShowKind) == CapturedCount(events[..Consumed(events)])
      && Count(effects, ReleaseKind) == 0
      && Count(effects, DestroyKind) == 0
      && Count(effects, PlotKind) == 0
    decreases |events|
  {
    if events == [] {
    } else if events[0].ReadFailed? {
      assert events[..Consumed(events)] == [events[0]];
    } else {
      var f := ProcessFrame(cfg, s, events[0].detection, events[0].clock);
      var out := f.log + [Show(f.drawn)];
      assert forall kind :: Count(out, kind) == (if kind == ShowKind then 1 else 0) by {
        forall kind ensures Count(out, kind) == (if kind == ShowKind then 1 else 0) {
          CountConcat(f.log, [Show(f.drawn)], kind);
        }
      }
      if QuitKey(events[0].key) {
        assert events[..Consumed(events)] == [events[0]];
      } else {
        var rest := events[1..];
        LoopShowsEachFrame(cfg, rest, f.state);
        forall kind ensures Count(Loop(cfg, events, s).effects, kind) == Count(out, kind) + Count(Loop(cfg, rest, f.state).effects, kind) {
          CountConcat(out, Loop(cfg, rest, f.state).effects, kind);
        }
        var prefix := events[..Consumed(events)];
        assert Consumed(events) == 1 + Consumed(rest);
        assert prefix[0] == events[0];
        assert prefix[1..] == rest[..Consumed(rest)];
      }
    }
  }

  lemma CountSingleton(effect: Effect, kind: Kind)
    ensures Count([effect], kind) == if OfKind(effect, kind) then 1 else 0
  {
    assert [effect][1..] == [];
  }

  lemma TeardownCounts(cfg: Config, s: Samples)
    ensures Count(Teardown(cfg, s), ShowKind) == 0
    ensures Count(Teardown(cfg, s), ReleaseKind) == 1
    ensures Count(Teardown(cfg, s), DestroyKind) == 1
    ensures Count(Teardown(cfg, s), PlotKind) == (if cfg.trendMode then 1 else 0)
  {
    var plot := if cfg.trendMode then [PlotTrend(s.timeStamps, s.dominantEmotions)] else [];
    assert Teardown(cfg, s) == [Release] + [DestroyWindows] + plot;
    forall kind
      ensures Count(Teardown(cfg, s), kind)
           == (if OfKind(Release, kind) then 1 else 0) + (if OfKind(DestroyWindows, kind) then 1 else 0)
              + (if cfg.trendMode && kind == PlotKind then 1 else 0)
    {
      CountConcat([Release] + [DestroyWindows], plot, kind);
      CountConcat([Release], [DestroyWindows], kind);
      CountSingleton(Release, kind);
      CountSingleton(DestroyWindows, kind);
      if cfg.trendMode {
        CountSingleton(PlotTrend(s.timeStamps, s.dominantEmotions), kind);
      }
    }
  }

  /** A run releases the camera and closes the windows exactly once if the loop exited and
      never otherwise, plots exactly once if moreover trend mode is on, and shows every
      frame read.  When the camera does not open nothing is shown, released or plotted. */
  lemma SessionTearsDownOnce(cameraOpened: bool, cfg: Config, events: seq<FrameEvent>)
    ensures var effects := Session(cameraOpened, cfg, events);
      var exited := cameraOpened && FirstStop(events) < |events|;
      && Count(effects, ReleaseKind) == (if exited then 1 else 0)
      && Count(effects, DestroyKind) == (if exited then 1 else 0)
      && Count(effects, PlotKind) == (if exited && cfg.trendMode then 1 else 0)
      && Count(effects, ShowKind) == (if cameraOpened then CapturedCount(events[..Consumed(events)]) else 0)
  {
    if cameraOpened {
      OpenedSessionCounts(cfg, events);
    } else {
      var effects := Session(cameraOpened, cfg, events);
      assert effects == [Console(OpenFailureText)];
      assert effects[1..] == [];
    }
  }

  /** The counts of a session whose camera opened: the loop's, plus the teardown's once the
      loop has exited. */
  lemma OpenedSessionCounts(cfg: Config, events: seq<FrameEvent>)
    ensures var effects := Session(true, cfg, events);
      var exited := FirstStop(events) < |events|;
      && Count(effects, ReleaseKind) == (if exited then 1 else 0)
      && Count(effects, DestroyKind) == (if exited then 1 else 0)
      && Count(effects, PlotKind) == (if exited && cfg.trendMode then 1 else 0)
      && Count(effects, ShowKind) == CapturedCount(events[..Consumed(events)])
  {
    var end := Loop(cfg, events, Initial(cfg.startTime));
    LoopExitsAtFirstStop(cfg, events, Initial(cfg.startTime));
    LoopShowsEachFrame(cfg, events, Initial(cfg.startTime));
    CountsAfterLoop(cfg, end);
  }

  /** A loop's effects followed by the teardown, when the loop exited, add one release, one
      window close and, in trend mode, one plot. */
  lemma CountsAfterLoop(cfg: Config, end: LoopEnd)
    requires Count(end.effects, ReleaseKind) == 0 && Count(end.effects, DestroyKind) == 0
    requires Count(end.effects, PlotKind) == 0
    ensures var effects := end.effects + (if end.stopped then Teardown(cfg, end.state) else []);
      && Count(effects, ReleaseKind) == (if end.stopped then 1 else 0)
      && Count(effects, DestroyKind) == (if end.stopped then 1 else 0)
      && Count(effects, PlotKind) == (if end.stopped && cfg.trendMode then 1 else 0)
      && Count(effects, ShowKind) == Count(end.effects, ShowKind)
  {
    var tail := if end.stopped then Teardown(cfg, end.state) else [];
    if end.stopped {
      TeardownCounts(cfg, end.state);
    }
    CountsOfConcat(end.effects, tail);
  }

  lemma CountsOfConcat(a: seq<Effect>, b: seq<Effect>)
    ensures forall kind :: Count(a + b, kind) == Count(a, kind) + Count(b, kind)
  {
    forall kind ensures Count(a + b, kind) == Count(a, kind) + Count(b, kind) {
      CountConcat(a, b, kind);
    }
  }

  /** After the loop exits, the run ends by releasing the camera, then closing the windows,
      then (in trend mode only) handing the plot the two lists: they are in lockstep, the
      k-th elapsed time is at least k + 1 seconds, and if the clock readings the loop took
      never go backwards the times never decrease. */
  lemma SessionHandsOffTrend(cfg: Config, events: seq<FrameEvent>)
    requires FirstStop(events) < |events|
    ensures var effects := Session(true, cfg, events);
      var n := |effects|;
      if cfg.trendMode then
        && n >= 3 && effects[n - 3] == Release && effects[n - 2] == DestroyWindows
        && effects[n - 1].PlotTrend?
        && var ts, de := effects[n - 1].timeStamps, effects[n - 1].dominantEmotions;
           && |ts| == |de|
           && (forall k :: 0 <= k < |ts| ==> ts[k] >= (k + 1) as real)
           && (Nondecreasing(Clocks(events)) ==> Nondecreasing(ts))
      else
        n >= 2 && effects[n - 2] == Release && effects[n - 1] == DestroyWindows
  {
    var s0 := Initial(cfg.startTime);
    LoopExitsAtFirstStop(cfg, events, s0);
    LoopKeepsConsistent(cfg, events, s0);
    if Nondecreasing(Clocks(events)) {
      LoopStampsNondecreasing(cfg, events, s0);
    }
  }

  /** A face every frame, annotated in full, with the clock rising by at most one second
      from one frame to the next; `prev` is the reading before the first frame. */
  predicate SteadyFaces(events: seq<FrameEvent>, prev: real)
    decreases |events|
  {
    || events == []
    || (&& events[0].Captured?
        && events[0].detection.Detected?
        && |events[0].detection.faces| > 0
        && |events[0].detection.faces[0].emotions| > 0
        && (forall j :: 0 <= j < |events[0].detection.faces[0].emotions| ==>
              events[0].detection.faces[0].emotions[j].0 in Colors)
        && prev <= events[0].clock <= prev + 1.0
        && SteadyFaces(events[1..], events[0].clock))
  }

  /** The clock reading of the last frame the loop reads (`prev` if there is none). */
  function LastClock(events: seq<FrameEvent>, prev: real): real
    decreases |events|
  {
    if events == [] || events[0].ReadFailed? then prev
    else if QuitKey(events[0].key) then events[0].clock
    else LastClock(events[1..], events[0].clock)
  }

  /** When the loop quits, its last reading is that of the frame it quits on. */
  lemma {:induction false} LastClockAtQuit(events: seq<FrameEvent>, prev: real)
    requires FirstStop(events) < |events| && events[FirstStop(events)].Captured?
    ensures LastClock(events, prev) == events[FirstStop(events)].clock
    decreases |events|
  {
    if FirstStop(events) > 0 {
      LastClockAtQuit(events[1..], events[0].clock);
    }
  }

  /** Fixed cadence: in trend mode, with a face on every frame and no gap of more than a
      second between frames, the sampler keeps up with the clock.  If it has taken
      floor(prev - start) samples, then after the loop it has taken floor(T - start), where T
      is the last reading it took. */
  lemma {:induction false} LoopKeepsCadence(cfg: Config, events: seq<FrameEvent>, s: Samples, prev: real)
    requires cfg.trendMode
    requires Consistent(s, cfg.startTime)
    requires |s.timeStamps| as real <= prev - cfg.startTime < |s.timeStamps| as real + 1.0
    requires SteadyFaces(events, prev)
    ensures var t := Loop(cfg, events, s).state;
      var last := LastClock(events, prev);
      |t.timeStamps| as real <= last - cfg.startTime < |t.timeStamps| as real + 1.0
    decreases |events|
  {
    if events != [] {
      var e := events[0];
      SteadyFrameKeepsUp(cfg, s, e, prev);
      var f := ProcessFrame(cfg, s, e.detection, e.clock);
      if !QuitKey(e.key) {
        LoopKeepsCadence(cfg, events[1..], f.state, e.clock);
      }
    }
  }

  /** One frame of a steady run keeps the sampler consistent and up with the clock. */
  lemma SteadyFrameKeepsUp(cfg: Config, s: Samples, e: FrameEvent, prev: real)
    requires cfg.trendMode
    requires Consistent(s, cfg.startTime)
    requires |s.timeStamps| as real <= prev - cfg.startTime < |s.timeStamps| as real + 1.0
    requires SteadyFaces([e], prev)
    ensures var t := ProcessFrame(cfg, s, e.detection, e.clock).state;
      && Consistent(t, cfg.startTime)
      && |t.timeStamps| as real <= e.clock - cfg.startTime < |t.timeStamps| as real + 1.0
  {
    var face := e.detection.faces[0];
    EmotionInfoLayout(face.emotions, face.box, Colors, |face.emotions|);
    SampleKeepsUp(s, cfg.startTime, face.emotions, prev, e.clock);
    SampleKeepsConsistent(s, true, cfg.startTime, true, face.emotions, e.clock);
  }

  /** A steady run that the quit key ends hands the plot floor(T) samples, where T is the
      time elapsed at the last frame. */
  lemma SteadySessionPlotsEverySecond(cfg: Config, events: seq<FrameEvent>)
    requires cfg.trendMode
    requires SteadyFaces(events, cfg.startTime)
    requires FirstStop(events) < |events|
    ensures events[FirstStop(events)].Captured?
    ensures var effects := Session(true, cfg, events);
      var elapsed := events[FirstStop(events)].clock - cfg.startTime;
      && effects[|effects| - 1].PlotTrend?
      && |effects[|effects| - 1].timeStamps| as real <= elapsed < |effects[|effects| - 1].timeStamps| as real + 1.0
  {
    var s0 := Initial(cfg.startTime);
    LoopExitsAtFirstStop(cfg, events, s0);
    LoopKeepsCadence(cfg, events, s0, cfg.startTime);
    SteadyFacesAreRead(events, cfg.startTime, FirstStop(events));
    LastClockAtQuit(events, cfg.startTime);
  }

  /** Every frame of a steady run is read. */
  lemma {:induction false} SteadyFacesAreRead(events: seq<FrameEvent>, prev: real, i: nat)
    requires SteadyFaces(events, prev)
    requires i < |events|
    ensures events[i].Captured?
    decreases |events|
  {
    if i > 0 {
      SteadyFacesAreRead(events[1..], events[0].clock, i - 1);
    }
  }
}
